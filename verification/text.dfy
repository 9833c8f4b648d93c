/**
 * Character classes and string primitives used by the components: the
 * JavaScript whitespace class, ASCII case folding, substring search, `trim`,
 * `split` on line breaks, whitespace collapsing and decimal numerals.
 */
module Text {

  /** JavaScript's `\s` class; `String.prototype.trim` removes exactly these characters. */
  predicate IsSpace(c: char) {
    c == ' ' || '\t' <= c <= '\r' || c == '\U{00A0}' || c == '\U{1680}'
    || '\U{2000}' <= c <= '\U{200A}' || c == '\U{2028}' || c == '\U{2029}'
    || c == '\U{202F}' || c == '\U{205F}' || c == '\U{3000}' || c == '\U{FEFF}'
  }

  /** The characters a regular-expression `.` does not match. */
  predicate IsLineTerminator(c: char) {
    c == '\n' || c == '\r' || c == '\U{2028}' || c == '\U{2029}'
  }

  predicate IsDigit(c: char) { '0' <= c <= '9' }

  /** The characters of the class `\w`, which decides where `\b` holds. */
  predicate IsWordChar(c: char) { IsDigit(c) || 'a' <= c <= 'z' || 'A' <= c <= 'Z' || c == '_' }

  predicate IsUpper(c: char) { 'A' <= c <= 'Z' }

  predicate IsLower(c: char) { 'a' <= c <= 'z' }

  /** ASCII `toLowerCase` of one character. */
  function Lower(c: char): (r: char)
    ensures !IsUpper(r)
    ensures IsUpper(c) ==> IsLower(r) && r as int == c as int + 32
    ensures !IsUpper(c) ==> r == c
  {
    if IsUpper(c) then (c as int + 32) as char else c
  }

  /** ASCII `toUpperCase` of one character. */
  function Upper(c: char): (r: char)
    ensures !IsLower(r)
    ensures IsLower(c) ==> IsUpper(r) && r as int == c as int - 32
    ensures !IsLower(c) ==> r == c
  {
    if IsLower(c) then (c as int - 32) as char else c
  }

  function LowerStr(s: string): (r: string)
    ensures |r| == |s|
    ensures forall i :: 0 <= i < |s| ==> r[i] == Lower(s[i])
  {
    seq(|s|, i requires 0 <= i < |s| => Lower(s[i]))
  }

  lemma LowerStrIdempotent(s: string)
    ensures LowerStr(LowerStr(s)) == LowerStr(s)
  {
  }

  predicate AllDigits(s: string) { forall i :: 0 <= i < |s| ==> IsDigit(s[i]) }

  predicate AllSpaces(s: string) { forall i :: 0 <= i < |s| ==> IsSpace(s[i]) }

  predicate OccursAt(s: string, p: nat, w: string) { p + |w| <= |s| && s[p..p + |w|] == w }

  /** `s.indexOf(w, from)`: the first occurrence of `w` at or after `from`, or -1. */
  function IndexOfFrom(s: string, w: string, from: nat): (r: int)
    ensures r == -1 || (from <= r && OccursAt(s, r, w))
    decreases |s| - from
  {
    if from + |w| > |s| then -1
    else if OccursAt(s, from, w) then from
    else IndexOfFrom(s, w, from + 1)
  }

  /** The occurrence `IndexOfFrom` reports is the first one, and -1 means there is none. */
  lemma {:induction false} IndexOfFromFirst(s: string, w: string, from: nat)
    ensures IndexOfFrom(s, w, from) == -1 ==> forall q :: from <= q ==> !OccursAt(s, q, w)
    ensures forall q :: from <= q < IndexOfFrom(s, w, from) ==> !OccursAt(s, q, w)
    decreases |s| - from
  {
    if from + |w| <= |s| && !OccursAt(s, from, w) {
      IndexOfFromFirst(s, w, from + 1);
    }
  }

  /** A word whose first character does not occur in `s` is not found. */
  lemma {:induction false} IndexOfAbsent(s: string, w: string, from: nat)
    requires w != [] && forall i :: from <= i < |s| ==> s[i] != w[0]
    ensures IndexOfFrom(s, w, from) == -1
    decreases |s| - from
  {
    if from + |w| <= |s| {
      assert s[from..from + |w|][0] == s[from];
      IndexOfAbsent(s, w, from + 1);
    }
  }

  /** A word that occurs nowhere at or after `from` is not found. */
  lemma {:induction false} IndexOfNone(s: string, w: string, from: nat)
    requires forall q :: from <= q ==> !OccursAt(s, q, w)
    ensures IndexOfFrom(s, w, from) == -1
    decreases |s| - from
  {
    if from + |w| <= |s| {
      IndexOfNone(s, w, from + 1);
    }
  }

  function IndexOf(s: string, w: string): int { IndexOfFrom(s, w, 0) }

  /** `s.includes(w)`. */
  predicate Contains(s: string, w: string) { IndexOf(s, w) >= 0 }

  /** `s.toLowerCase().includes(w)` for a lower-case `w`. */
  predicate ContainsCI(s: string, w: string) { Contains(LowerStr(s), w) }

  lemma ContainsIff(s: string, w: string)
    ensures Contains(s, w) <==> exists q :: OccursAt(s, q, w)
  {
    IndexOfFromFirst(s, w, 0);
  }

  /** Number of consecutive characters of `s` satisfying the space class from `p` on. */
  function SkipSpaces(s: string, p: nat): (q: nat)
    requires p <= |s|
    ensures p <= q <= |s|
    ensures forall k :: p <= k < q ==> IsSpace(s[k])
    ensures q == |s| || !IsSpace(s[q])
    decreases |s| - p
  {
    if p < |s| && IsSpace(s[p]) then SkipSpaces(s, p + 1) else p
  }

  /** Number of consecutive digits of `s` starting at `p`. */
  function DigitRun(s: string, p: nat): (n: nat)
    requires p <= |s|
    ensures p + n <= |s|
    ensures forall k :: p <= k < p + n ==> IsDigit(s[k])
    ensures p + n == |s| || !IsDigit(s[p + n])
    decreases |s| - p
  {
    if p < |s| && IsDigit(s[p]) then 1 + DigitRun(s, p + 1) else 0
  }

  /** Index just after the last non-space character of `s` (0 when all are spaces). */
  function EndOfContent(s: string): (e: nat)
    ensures e <= |s|
    ensures forall k :: e <= k < |s| ==> IsSpace(s[k])
    ensures e == 0 || !IsSpace(s[e - 1])
  {
    if s == [] || !IsSpace(s[|s| - 1]) then |s| else EndOfContent(s[..|s| - 1])
  }

  /** `s.trim()`. */
  function Trim(s: string): (r: string)
    ensures r == [] || (!IsSpace(r[0]) && !IsSpace(r[|r| - 1]))
    ensures exists a, b :: 0 <= a <= b <= |s| && r == s[a..b] && AllSpaces(s[..a]) && AllSpaces(s[b..])
  {
    var a := SkipSpaces(s, 0);
    var e := EndOfContent(s);
    if a >= e then
      assert AllSpaces(s[..a]) && AllSpaces(s[a..]);
      s[a..a]
    else
      assert AllSpaces(s[..a]) && AllSpaces(s[e..]);
      s[a..e]
  }

  /** `s.split("\n")`: the pieces between line feeds, in order, always at least one. */
  function SplitOnNewline(s: string): (r: seq<string>)
    ensures |r| >= 1
    ensures forall i :: 0 <= i < |r| ==> '\n' !in r[i]
    decreases |s|
  {
    var i := IndexOf(s, "\n");
    IndexOfFromFirst(s, "\n", 0);
    if i < 0 then
      assert forall k :: 0 <= k < |s| ==> s[k] != '\n' by {
        forall k | 0 <= k < |s| ensures s[k] != '\n' { assert !OccursAt(s, k, "\n"); }
      }
      [s]
    else
      assert OccursAt(s, i, "\n");
      assert forall k :: 0 <= k < i ==> s[k] != '\n' by {
        forall k | 0 <= k < i ensures s[k] != '\n' { assert !OccursAt(s, k, "\n"); }
      }
      [s[..i]] + SplitOnNewline(s[i + 1..])
  }

  /** Trims every piece and drops the empty ones. */
  function TrimNonEmpty(pieces: seq<string>): (r: seq<string>)
    ensures |r| <= |pieces|
    ensures forall i :: 0 <= i < |r| ==> r[i] != [] && r[i] == Trim(r[i])
  {
    if pieces == [] then []
    else
      var t := Trim(pieces[0]);
      TrimIdempotent(pieces[0]);
      if t == [] then TrimNonEmpty(pieces[1..]) else [t] + TrimNonEmpty(pieces[1..])
  }

  lemma TrimIdempotent(s: string)
    ensures Trim(Trim(s)) == Trim(s)
  {
    var t := Trim(s);
    if t != [] {
      assert SkipSpaces(t, 0) == 0;
      assert EndOfContent(t) == |t|;
    }
  }

  /**
   * `text.split(/\r?\n/).map(l => l.trim()).filter(l => l.length > 0)`. Splitting on a bare
   * line feed gives the same lines: a carriage return left before it is removed by `trim`.
   */
  function Lines(text: string): (r: seq<string>)
    ensures forall i :: 0 <= i < |r| ==> r[i] != [] && r[i] == Trim(r[i])
  {
    TrimNonEmpty(SplitOnNewline(text))
  }

  /** `s.replace(/\s+/g, ' ')`: every maximal run of whitespace becomes one space. */
  function CollapseRuns(s: string): (r: string)
    ensures |r| <= |s|
    ensures forall i :: 0 <= i < |r| && IsSpace(r[i]) ==> r[i] == ' '
    ensures forall i :: 0 <= i < |r| - 1 ==> !(IsSpace(r[i]) && IsSpace(r[i + 1]))
    ensures r != [] && IsSpace(r[0]) ==> IsSpace(s[0])
    decreases |s|
  {
    if s == [] then []
    else if IsSpace(s[0]) then
      var q := SkipSpaces(s, 0);
      var rest := CollapseRuns(s[q..]);
      assert rest != [] ==> !IsSpace(rest[0]);
      [' '] + rest
    else [s[0]] + CollapseRuns(s[1..])
  }

  /** Text whose whitespace is already single plain spaces is left as it is. */
  lemma {:induction false} CollapseRunsIdentity(s: string)
    requires forall i :: 0 <= i < |s| && IsSpace(s[i]) ==> s[i] == ' '
    requires forall i :: 0 <= i < |s| - 1 ==> !(IsSpace(s[i]) && IsSpace(s[i + 1]))
    ensures CollapseRuns(s) == s
    decreases |s|
  {
    if s != [] {
      assert forall i :: 0 <= i < |s[1..]| ==> s[1..][i] == s[i + 1];
      CollapseRunsIdentity(s[1..]);
      if IsSpace(s[0]) {
        assert SkipSpaces(s, 0) == 1 by {
          assert |s| > 1 ==> !IsSpace(s[1]);
          assert SkipSpaces(s, 1) == 1;
        }
      }
      assert s == [s[0]] + s[1..];
    }
  }

  /** `text.replace(/\s+/g, ' ').trim()`. */
  function NormaliseSpaces(text: string): string {
    Trim(CollapseRuns(text))
  }

  /** `parseInt` of a string of decimal digits. */
  function DigitsValue(d: string): (v: nat)
    requires AllDigits(d)
    ensures v < Pow10(|d|)
    decreases |d|
  {
    if d == [] then 0
    else DigitsValue(d[..|d| - 1]) * 10 + (d[|d| - 1] as int - '0' as int)
  }

  function Pow10(n: nat): (r: nat)
    ensures r >= 1
  {
    if n == 0 then 1 else 10 * Pow10(n - 1)
  }

  /** Decimal rendering of a natural number, as template literals print it. */
  function NatToString(n: nat): (s: string)
    ensures s != [] && AllDigits(s)
    ensures DigitsValue(s) == n
    decreases n
  {
    var last := ('0' as int + n % 10) as char;
    if n < 10 then
      assert DigitsValue([last]) == DigitsValue([last][..0]) * 10 + n;
      [last]
    else
      var front := NatToString(n / 10);
      var s := front + [last];
      assert s[..|s| - 1] == front;
      s
  }

  /** `items.join(sep)`. */
  function Join(items: seq<string>, sep: string): (r: string)
    ensures |items| == 1 ==> r == items[0]
  {
    if items == [] then []
    else if |items| == 1 then items[0]
    else items[0] + sep + Join(items[1..], sep)
  }

  /** Whether the character at `i` starts a word in the sense of `\b\w`. */
  predicate WordStartsAt(s: string, i: nat)
    requires i < |s|
  {
    IsWordChar(s[i]) && (i == 0 || !IsWordChar(s[i - 1]))
  }

  // Laws that pin the splitting, trimming and number helpers down completely.

  /** `SkipSpaces` stops at the one place where the run of spaces ends. */
  lemma SkipSpacesAt(s: string, p: nat, q: nat)
    requires p <= q <= |s|
    requires forall k :: p <= k < q ==> IsSpace(s[k])
    requires q == |s| || !IsSpace(s[q])
    ensures SkipSpaces(s, p) == q
  {
  }

  /** `indexOf` reports an occurrence with none before it. */
  lemma IndexOfAt(s: string, w: string, p: nat)
    requires OccursAt(s, p, w)
    requires forall q :: 0 <= q < p ==> !OccursAt(s, q, w)
    ensures IndexOf(s, w) == p
  {
    IndexOfFromFirst(s, w, 0);
  }

  /** `split("\n")` followed by `join("\n")` gives the text back. */
  lemma {:induction false} SplitOnNewlineJoin(s: string)
    ensures Join(SplitOnNewline(s), "\n") == s
    decreases |s|
  {
    var i := IndexOf(s, "\n");
    if i >= 0 {
      var rest := SplitOnNewline(s[i + 1..]);
      SplitOnNewlineJoin(s[i + 1..]);
      assert ([s[..i]] + rest)[1..] == rest;
      assert s[i..i + 1] == "\n";
      assert s == s[..i] + "\n" + s[i + 1..];
    }
  }

  /** `join("\n")` followed by `split("\n")` gives the pieces back when none holds a line feed. */
  lemma {:induction false} JoinSplitOnNewline(pieces: seq<string>)
    requires |pieces| >= 1
    requires forall i :: 0 <= i < |pieces| ==> '\n' !in pieces[i]
    ensures SplitOnNewline(Join(pieces, "\n")) == pieces
    decreases |pieces|
  {
    var s := Join(pieces, "\n");
    if |pieces| == 1 {
      IndexOfAbsent(s, "\n", 0);
    } else {
      var p := pieces[0];
      var t := Join(pieces[1..], "\n");
      assert s == p + "\n" + t;
      assert OccursAt(s, |p|, "\n") by { assert s[|p|..|p| + 1] == "\n"; }
      forall q | 0 <= q < |p| ensures !OccursAt(s, q, "\n") {
        assert s[q..q + 1][0] == s[q] == p[q] != '\n';
      }
      IndexOfAt(s, "\n", |p|);
      assert s[..|p|] == p;
      assert s[|p| + 1..] == t;
      JoinSplitOnNewline(pieces[1..]);
      assert pieces == [p] + pieces[1..];
    }
  }

  /** Trimming and filtering a concatenation handles each part on its own. */
  lemma {:induction false} TrimNonEmptyAppend(a: seq<string>, b: seq<string>)
    ensures TrimNonEmpty(a + b) == TrimNonEmpty(a) + TrimNonEmpty(b)
    decreases |a|
  {
    if a == [] {
      assert a + b == b;
    } else {
      assert (a + b)[0] == a[0];
      assert (a + b)[1..] == a[1..] + b;
      TrimNonEmptyAppend(a[1..], b);
    }
  }

  /** A single piece is kept trimmed exactly when trimming leaves something. */
  lemma TrimNonEmptyOne(p: string)
    ensures TrimNonEmpty([p]) == if Trim(p) == [] then [] else [Trim(p)]
  {
    assert [p][1..] == [];
  }

  /** Pieces that are already trimmed and non-empty pass through unchanged. */
  lemma {:induction false} TrimNonEmptyKeeps(pieces: seq<string>)
    requires forall i :: 0 <= i < |pieces| ==> pieces[i] != [] && Trim(pieces[i]) == pieces[i]
    ensures TrimNonEmpty(pieces) == pieces
    decreases |pieces|
  {
    if pieces != [] {
      TrimNonEmptyKeeps(pieces[1..]);
      assert pieces == [pieces[0]] + pieces[1..];
    }
  }

  /** Non-empty, trimmed lines joined by line feeds are read back as the same lines. */
  lemma LinesJoin(ls: seq<string>)
    requires forall i :: 0 <= i < |ls| ==> ls[i] != [] && Trim(ls[i]) == ls[i] && '\n' !in ls[i]
    ensures Lines(Join(ls, "\n")) == ls
  {
    if ls == [] {
      IndexOfAbsent([], "\n", 0);
      assert SplitOnNewline([]) == [[]];
      TrimNonEmptyOne([]);
    } else {
      JoinSplitOnNewline(ls);
      TrimNonEmptyKeeps(ls);
    }
  }

  /** A non-empty run made of whitespace only becomes one plain space. */
  lemma CollapseRunsBlank(w: string)
    requires w != [] && AllSpaces(w)
    ensures CollapseRuns(w) == " "
  {
    SkipSpacesAt(w, 0, |w|);
    assert w[|w|..] == [];
  }

  /**
   * Collapsing a concatenation collapses each part, as long as no whitespace run straddles
   * the join; with `CollapseRunsBlank` and the identity on a single other character this
   * determines the result for every text.
   */
  lemma {:induction false} CollapseRunsAppend(a: string, b: string)
    requires a == [] || b == [] || !(IsSpace(a[|a| - 1]) && IsSpace(b[0]))
    ensures CollapseRuns(a + b) == CollapseRuns(a) + CollapseRuns(b)
    decreases |a|, 1
  {
    var s := a + b;
    if a == [] {
      assert s == b;
    } else if b == [] {
      assert s == a;
    } else if !IsSpace(a[0]) {
      assert s[0] == a[0];
      assert s[1..] == a[1..] + b;
      CollapseRunsAppend(a[1..], b);
    } else {
      CollapseRunsAppendSpace(a, b);
    }
  }

  /** `CollapseRunsAppend` when `a` starts with whitespace: its leading run ends inside `a`. */
  lemma {:induction false} CollapseRunsAppendSpace(a: string, b: string)
    requires a != [] && b != [] && IsSpace(a[0]) && !(IsSpace(a[|a| - 1]) && IsSpace(b[0]))
    ensures CollapseRuns(a + b) == CollapseRuns(a) + CollapseRuns(b)
    decreases |a|, 0
  {
    var s := a + b;
    var q := SkipSpaces(a, 0);
    assert s[0] == a[0];
    if q == |a| {
      SkipSpacesAt(s, 0, |a|);
      assert s[|a|..] == b;
      assert a[q..] == [];
    } else {
      SkipSpacesAt(s, 0, q);
      assert s[q..] == a[q..] + b;
      CollapseRunsAppend(a[q..], b);
    }
  }

  /** A character other than whitespace is kept as it is. */
  lemma CollapseRunsOther(c: char)
    requires !IsSpace(c)
    ensures CollapseRuns([c]) == [c]
  {
    assert [c][1..] == [];
  }

  /** Appending digits shifts the value by one power of ten per digit. */
  lemma {:induction false} DigitsValueAppend(a: string, b: string)
    requires AllDigits(a) && AllDigits(b)
    ensures AllDigits(a + b)
    ensures DigitsValue(a + b) == DigitsValue(a) * Pow10(|b|) + DigitsValue(b)
    decreases |b|
  {
    if b == [] {
      assert a + b == a;
    } else {
      var b' := b[..|b| - 1];
      var c := b[|b| - 1] as int - '0' as int;
      assert (a + b)[..|a + b| - 1] == a + b';
      assert (a + b)[|a + b| - 1] == b[|b| - 1];
      DigitsValueAppend(a, b');
      ShiftByTen(DigitsValue(a), Pow10(|b'|), DigitsValue(b'), c);
    }
  }

  lemma ShiftByTen(x: int, y: int, z: int, c: int)
    ensures (x * y + z) * 10 + c == x * (y * 10) + (z * 10 + c)
  {
  }

  /** One digit is worth its face value. */
  lemma DigitsValueOne(c: char)
    requires IsDigit(c)
    ensures DigitsValue([c]) == c as int - '0' as int
  {
    assert [c][..0] == [];
  }

  /** Digits without a leading zero are worth at least the power of ten below their length. */
  lemma DigitsValueLeading(d: string)
    requires AllDigits(d) && d != [] && d[0] != '0'
    ensures DigitsValue(d) >= Pow10(|d| - 1)
  {
    DigitsValueAppend([d[0]], d[1..]);
    assert [d[0]] + d[1..] == d;
    DigitsValueOne(d[0]);
    AtLeastOnce(DigitsValue([d[0]]), Pow10(|d| - 1));
  }

  lemma AtLeastOnce(x: nat, y: nat)
    requires x >= 1
    ensures x * y >= y
  {
  }

  /** Rendering the value of digits without a leading zero gives the digits back. */
  lemma {:induction false} DigitsValueRoundTrip(d: string)
    requires AllDigits(d) && d != [] && (|d| == 1 || d[0] != '0')
    ensures NatToString(DigitsValue(d)) == d
    decreases |d|
  {
    var n := DigitsValue(d);
    var c := d[|d| - 1] as int - '0' as int;
    if |d| == 1 {
      assert d[..0] == [];
    } else {
      var d' := d[..|d| - 1];
      DigitsValueLeading(d');
      assert n / 10 == DigitsValue(d') && n % 10 == c;
      DigitsValueRoundTrip(d');
      assert d == d' + [d[|d| - 1]];
    }
  }

  /** Joining a concatenation puts one separator between the two joins. */
  lemma {:induction false} JoinAppend(a: seq<string>, b: seq<string>, sep: string)
    requires a != [] && b != []
    ensures Join(a + b, sep) == Join(a, sep) + sep + Join(b, sep)
    decreases |a|
  {
    if |a| == 1 {
      assert (a + b)[1..] == b;
    } else {
      assert (a + b)[1..] == a[1..] + b;
      JoinAppend(a[1..], b, sep);
    }
  }
}
