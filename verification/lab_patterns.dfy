/**
 * The regular expressions the lab-report extractor applies, each rewritten as an
 * explicit scanner over the text. Every scanner follows the way a backtracking
 * JavaScript matcher resolves that particular expression: leftmost start first,
 * greedy and lazy quantifiers as written, `/i` as ASCII case folding, and
 * `matchAll`/`/g` continuing at the end of the previous match.
 */
module LabPatterns {
  import opened Wrappers
  import opened Text

  /** One element of a keyword: a literal word (in lower case, matched ignoring ASCII case), `\s+`, or `.`. */
  datatype Atom = Word(w: string) | Spaces | AnyChar

  /** The least number of characters a keyword consumes. */
  function MinLength(k: seq<Atom>): nat {
    if k == [] then 0
    else (match k[0] case Word(w) => |w| case Spaces => 1 case AnyChar => 1) + MinLength(k[1..])
  }

  /** Whether the lower-case word `w` occurs at `p`, ignoring ASCII case. */
  predicate WordAtCI(s: string, p: nat, w: string) {
    p + |w| <= |s| && LowerStr(s[p..p + |w|]) == w
  }

  /**
   * Where keyword `k` ends when it is matched starting at `p`. `\s+` is followed by a
   * letter in every keyword, so taking the whole run of whitespace is the only way it matches.
   */
  function KeywordEnd(s: string, p: nat, k: seq<Atom>): (r: Option<nat>)
    requires p <= |s|
    ensures r.Some? ==> p + MinLength(k) <= r.value <= |s|
    decreases k
  {
    if k == [] then Some(p)
    else
      match k[0]
      case Word(w) => if WordAtCI(s, p, w) then KeywordEnd(s, p + |w|, k[1..]) else None
      case Spaces => if p < |s| && IsSpace(s[p]) then KeywordEnd(s, SkipSpaces(s, p), k[1..]) else None
      case AnyChar => if p < |s| && !IsLineTerminator(s[p]) then KeywordEnd(s, p + 1, k[1..]) else None
  }

  /** The first position in `[from, end]` that satisfies `P`, scanning left to right. */
  function FirstFrom(P: nat -> bool, from: nat, end: nat): (r: Option<nat>)
    requires from <= end
    ensures r.Some? ==> from <= r.value <= end && P(r.value)
    decreases end - from
  {
    if P(from) then Some(from)
    else if from == end then None
    else FirstFrom(P, from + 1, end)
  }

  /** The scan comes back empty exactly when no position in range satisfies `P`. */
  lemma {:induction false} FirstFromNone(P: nat -> bool, from: nat, end: nat)
    requires from <= end
    ensures FirstFrom(P, from, end).None? <==> forall p :: from <= p <= end ==> !P(p)
    decreases end - from
  {
    if !P(from) && from < end {
      FirstFromNone(P, from + 1, end);
    }
  }

  /** The scan stops at the leftmost position that satisfies `P`. */
  lemma {:induction false} FirstFromLeftmost(P: nat -> bool, from: nat, end: nat, p: nat)
    requires from <= p <= end && P(p)
    requires forall q :: from <= q < p ==> !P(q)
    ensures FirstFrom(P, from, end) == Some(p)
    decreases p - from
  {
    if from < p {
      FirstFromLeftmost(P, from + 1, end, p);
    }
  }

  function KeywordStarts(s: string, k: seq<Atom>): nat -> bool {
    (p: nat) => p <= |s| && KeywordEnd(s, p, k).Some?
  }

  /** `/k/i.test(s)`: some position of `s` at or after `from` starts a match of `k`. */
  function FindKeyword(s: string, k: seq<Atom>, from: nat): bool
    requires from <= |s|
  {
    FirstFrom(KeywordStarts(s, k), from, |s|).Some?
  }

  lemma FindKeywordIff(s: string, k: seq<Atom>, from: nat)
    requires from <= |s|
    ensures FindKeyword(s, k, from) <==> exists p :: from <= p <= |s| && KeywordEnd(s, p, k).Some?
  {
    FirstFromNone(KeywordStarts(s, k), from, |s|);
    if FindKeyword(s, k, from) {
      var p := FirstFrom(KeywordStarts(s, k), from, |s|).value;
      assert KeywordEnd(s, p, k).Some?;
    } else {
      forall p | from <= p <= |s| ensures KeywordEnd(s, p, k).None? {
        assert !KeywordStarts(s, k)(p);
      }
    }
  }

  predicate ContainsKeyword(s: string, k: seq<Atom>) { FindKeyword(s, k, 0) }

  /** A keyword that starts with a word cannot match where no character folds to that word's first letter. */
  lemma KeywordAbsent(s: string, p: nat, k: seq<Atom>)
    requires p <= |s| && k != [] && k[0].Word? && k[0].w != []
    requires forall i :: 0 <= i < |s| ==> Lower(s[i]) != k[0].w[0]
    ensures KeywordEnd(s, p, k).None?
  {
    var w := k[0].w;
    if p + |w| <= |s| {
      assert LowerStr(s[p..p + |w|])[0] == Lower(s[p]);
    }
  }

  /** What may stand between a keyword and its number: `[^\d]*?` or `[:\s]*`. */
  datatype Gap = NonDigits | ColonOrSpace

  /**
   * `keyword gap (\d{2,3})` or `keyword gap (\d{1,3})`, optionally followed by `\s*\/`.
   */
  datatype Pattern = Pattern(keyword: seq<Atom>, gap: Gap, twoDigitsAtLeast: bool, slashAfter: bool)

  /**
   * End of the gap that starts at `p`. The lazy `[^\d]*?` cannot pass a digit and the digits
   * must come next, so both gap kinds stop at the first character outside their class.
   */
  function SkipGap(s: string, p: nat, g: Gap): (q: nat)
    requires p <= |s|
    ensures p <= q <= |s|
    ensures g == NonDigits ==> q == |s| || IsDigit(s[q])
    ensures g == NonDigits ==> forall i :: p <= i < q ==> !IsDigit(s[i])
    decreases |s| - p
  {
    if p == |s| then p
    else if g == NonDigits && !IsDigit(s[p]) then SkipGap(s, p + 1, g)
    else if g == ColonOrSpace && (s[p] == ':' || IsSpace(s[p])) then SkipGap(s, p + 1, g)
    else p
  }

  /**
   * The match of `pat` starting exactly at `p`, as (end, captured number): the keyword, the
   * gap, and then the digit group.
   */
  function MatchAt(s: string, p: nat, pat: Pattern): (r: Option<(nat, nat)>)
    requires p <= |s|
    ensures r.Some? ==> p < r.value.0 <= |s| && r.value.1 < 1000
  {
    match KeywordEnd(s, p, pat.keyword)
    case None => None
    case Some(k) => DigitGroup(s, SkipGap(s, k, pat.gap), pat)
  }

  /**
   * The digit group of `pat` at `q`, as (end, captured number). It takes up to three digits;
   * when a slash must follow and the run is longer than three, neither three nor two digits
   * can be followed by the slash, so there is no match.
   */
  function DigitGroup(s: string, q: nat, pat: Pattern): (r: Option<(nat, nat)>)
    requires q <= |s|
    ensures r.Some? ==> q < r.value.0 <= |s| && r.value.1 < 1000
  {
    var run := DigitRun(s, q);
    var n := if run < 3 then run else 3;
    if n < (if pat.twoDigitsAtLeast then 2 else 1) then None
    else
      assert Pow10(n) <= 1000 by { assert n <= 3; assert Pow10(1) == 10 && Pow10(2) == 100 && Pow10(3) == 1000; }
      var v := DigitsValue(s[q..q + n]);
      if !pat.slashAfter then Some((q + n, v))
      else if run > 3 then None
      else
        var e := SkipSpaces(s, q + n);
        if e < |s| && s[e] == '/' then Some((e + 1, v)) else None
  }

  /** Whether matcher `m` reports, from each start below `n`, a match that ends after it and within `n`. */
  predicate Advances(n: nat, m: nat -> Option<(nat, nat)>) {
    forall p: nat :: p < n && m(p).Some? ==> p < m(p).value.0 <= n
  }

  /** Whether every number matcher `m` captures from a start below `n` is below `b`. */
  predicate CapturesBelow(n: nat, m: nat -> Option<(nat, nat)>, b: nat) {
    forall p: nat :: p < n && m(p).Some? ==> m(p).value.1 < b
  }

  /**
   * The scanning loop of `matchAll` over matcher `m`: try each start in turn and, after a
   * match, resume where it ended. Every match here consumes at least one character.
   */
  function Scan(n: nat, m: nat -> Option<(nat, nat)>, from: nat): seq<nat>
    requires from <= n && Advances(n, m)
    decreases n - from
  {
    if from == n then []
    else
      match m(from)
      case Some((e, v)) => [v] + Scan(n, m, e)
      case None => Scan(n, m, from + 1)
  }

  /** A scan captures only numbers the matcher captures. */
  lemma {:induction false} ScanBelow(n: nat, m: nat -> Option<(nat, nat)>, b: nat, from: nat)
    requires from <= n && Advances(n, m) && CapturesBelow(n, m, b)
    ensures forall i :: 0 <= i < |Scan(n, m, from)| ==> Scan(n, m, from)[i] < b
    decreases n - from
  {
    if from < n {
      match m(from)
      case Some((e, v)) => ScanBelow(n, m, b, e);
      case None => ScanBelow(n, m, b, from + 1);
    }
  }

  /** A scan over a stretch where the matcher finds nothing comes out the same as from its end. */
  lemma {:induction false} ScanSkipRun(n: nat, m: nat -> Option<(nat, nat)>, from: nat, p: nat)
    requires from <= p <= n && Advances(n, m)
    requires forall q: nat :: from <= q < p ==> m(q).None?
    ensures Scan(n, m, from) == Scan(n, m, p)
    decreases p - from
  {
    if from < p {
      ScanSkipRun(n, m, from + 1, p);
    }
  }

  /** A scan is empty exactly when the matcher finds nothing from `from` on. */
  lemma {:induction false} ScanEmptyIff(n: nat, m: nat -> Option<(nat, nat)>, from: nat)
    requires from <= n && Advances(n, m)
    ensures Scan(n, m, from) == [] <==> forall p: nat :: from <= p < n ==> m(p).None?
    decreases n - from
  {
    if from < n && m(from).None? {
      ScanEmptyIff(n, m, from + 1);
    }
  }

  /** A scan yields the leftmost match's number first and resumes where that match ends. */
  lemma ScanLeftmost(n: nat, m: nat -> Option<(nat, nat)>, from: nat, p: nat)
    requires from <= p < n && Advances(n, m) && m(p).Some?
    requires forall q: nat :: from <= q < p ==> m(q).None?
    ensures Scan(n, m, from) == [m(p).value.1] + Scan(n, m, m(p).value.0)
  {
    ScanSkipRun(n, m, from, p);
  }

  /** `pat` tried at each position of `s`. */
  function Matcher(s: string, pat: Pattern): nat -> Option<(nat, nat)> {
    (p: nat) => if p <= |s| then MatchAt(s, p, pat) else None
  }

  lemma MatcherAdvances(s: string, pat: Pattern)
    ensures Advances(|s|, Matcher(s, pat)) && CapturesBelow(|s|, Matcher(s, pat), 1000)
  {
  }

  /** The captured numbers of `[...s.matchAll(pat)]` from position `from` on, in order. */
  function MatchValues(s: string, pat: Pattern, from: nat): (r: seq<nat>)
    requires from <= |s|
    ensures forall i :: 0 <= i < |r| ==> r[i] < 1000
  {
    MatcherAdvances(s, pat);
    ScanBelow(|s|, Matcher(s, pat), 1000, from);
    Scan(|s|, Matcher(s, pat), from)
  }

  /** A pattern whose keyword matches nowhere yields no numbers. */
  lemma MatchValuesNone(s: string, pat: Pattern, from: nat)
    requires from <= |s|
    requires forall p :: from <= p <= |s| ==> KeywordEnd(s, p, pat.keyword).None?
    ensures MatchValues(s, pat, from) == []
  {
    MatcherAdvances(s, pat);
    forall p: nat | from <= p < |s| ensures Matcher(s, pat)(p).None? {
      assert KeywordEnd(s, p, pat.keyword).None?;
    }
    ScanEmptyIff(|s|, Matcher(s, pat), from);
  }

  /** The captured numbers of every pattern in turn: the order the extractor tries them in. */
  function PatternValues(s: string, pats: seq<Pattern>): seq<nat> {
    if pats == [] then [] else PatternValues(s, pats[..|pats| - 1]) + MatchValues(s, pats[|pats| - 1], 0)
  }

  /** The first letter of a keyword that starts with a word. */
  function Initial(pat: Pattern): char
    requires pat.keyword != [] && pat.keyword[0].Word? && pat.keyword[0].w != []
  {
    pat.keyword[0].w[0]
  }

  predicate StartsWithWord(pat: Pattern) {
    pat.keyword != [] && pat.keyword[0].Word? && pat.keyword[0].w != []
  }

  /** Patterns whose keywords start with letters the text does not contain yield no numbers. */
  lemma {:induction false} PatternsAbsent(s: string, pats: seq<Pattern>, letters: set<char>)
    requires forall i :: 0 <= i < |s| ==> Lower(s[i]) in letters
    requires forall j :: 0 <= j < |pats| ==> StartsWithWord(pats[j]) && Initial(pats[j]) !in letters
    ensures PatternValues(s, pats) == []
    decreases |pats|
  {
    if pats != [] {
      var last := pats[|pats| - 1];
      forall p | 0 <= p <= |s| ensures KeywordEnd(s, p, last.keyword).None? {
        KeywordAbsent(s, p, last.keyword);
      }
      MatchValuesNone(s, last, 0);
      PatternsAbsent(s, pats[..|pats| - 1], letters);
    }
  }

  /** The broad total-cholesterol patterns start with `c` or `t`. */
  lemma TotalInitials()
    ensures forall j :: 0 <= j < |TotalPatterns| ==> StartsWithWord(TotalPatterns[j]) && Initial(TotalPatterns[j]) in {'c', 't'}
    ensures forall j :: 0 <= j < |FinalTotalPatterns| ==> StartsWithWord(FinalTotalPatterns[j]) && Initial(FinalTotalPatterns[j]) in {'c', 't'}
  {
  }

  /** The systolic patterns start with `s` or `b`. */
  lemma SystolicInitials()
    ensures forall j :: 0 <= j < |SystolicPatterns| ==> StartsWithWord(SystolicPatterns[j]) && Initial(SystolicPatterns[j]) in {'s', 'b'}
  {
  }

  /** `/^Cholesterol\s+(\d{2,3})$/i` on a trimmed line. */
  function ExactCholesterol(line: string): (r: Option<nat>)
    ensures r.Some? ==> r.value < 1000
  {
    match KeywordEnd(line, 0, [Word("cholesterol"), Spaces])
    case None => None
    case Some(k) =>
      var d := line[k..];
      if 2 <= |d| <= 3 && AllDigits(d) then
        assert Pow10(|d|) <= 1000 by { assert Pow10(2) == 100 && Pow10(3) == 1000; }
        Some(DigitsValue(d))
      else None
  }

  /** `/^HDL\s+Cholesterol\s+(\d{1,3})$/i` on a trimmed line. */
  function ExactHdlCholesterol(line: string): (r: Option<nat>)
    ensures r.Some? ==> r.value < 1000
  {
    match KeywordEnd(line, 0, [Word("hdl"), Spaces, Word("cholesterol"), Spaces])
    case None => None
    case Some(k) =>
      var d := line[k..];
      if 1 <= |d| <= 3 && AllDigits(d) then
        assert Pow10(|d|) <= 1000 by { assert Pow10(1) == 10 && Pow10(2) == 100 && Pow10(3) == 1000; }
        Some(DigitsValue(d))
      else None
  }

  /**
   * `(\d{2,3})\s*\/\s*(\d{2,3})` tried at `p`: the first group is the two or three digits
   * from `p` (which may sit inside a longer number), then optional spaces, a slash,
   * optional spaces and at least two digits.
   */
  predicate SlashPairAt(s: string, p: nat)
    requires p <= |s|
  {
    var run := DigitRun(s, p);
    2 <= run <= 3 &&
    var e := SkipSpaces(s, p + run);
    e < |s| && s[e] == '/' && DigitRun(s, SkipSpaces(s, e + 1)) >= 2
  }

  /** The number formed by the run of digits starting at `p`. */
  function LeadingNumber(s: string, p: nat): (v: nat)
    requires p <= |s|
    ensures v < Pow10(DigitRun(s, p))
  {
    DigitsValue(s[p..p + DigitRun(s, p)])
  }

  function SlashStarts(s: string): nat -> bool {
    (p: nat) => p <= |s| && SlashPairAt(s, p)
  }

  /** The first group of the leftmost match of the blood-pressure pair at or after `from`. */
  function FirstSlashPair(s: string, from: nat): (r: Option<nat>)
    requires from <= |s|
    ensures r.Some? ==> r.value < 1000
  {
    match FirstFrom(SlashStarts(s), from, |s|)
    case None => None
    case Some(p) =>
      assert SlashStarts(s)(p);
      PairNumberBound(s, p);
      Some(LeadingNumber(s, p))
  }

  /** The first number of a pair has at most three digits. */
  lemma PairNumberBound(s: string, p: nat)
    requires p <= |s| && SlashPairAt(s, p)
    ensures LeadingNumber(s, p) < 1000
  {
    assert Pow10(DigitRun(s, p)) <= 1000 by { assert Pow10(2) == 100 && Pow10(3) == 1000; }
  }

  /** The pair is found exactly when some position starts one. */
  lemma FirstSlashPairFound(s: string, from: nat)
    requires from <= |s|
    ensures FirstSlashPair(s, from).None? <==> forall p :: from <= p <= |s| ==> !SlashPairAt(s, p)
  {
    FirstFromNone(SlashStarts(s), from, |s|);
    if FirstSlashPair(s, from).None? {
      forall p | from <= p <= |s| ensures !SlashPairAt(s, p) {
        assert !SlashStarts(s)(p);
      }
    }
  }

  /** The pair is read from the leftmost position that starts one. */
  lemma FirstSlashPairLeftmost(s: string, from: nat, p: nat)
    requires from <= p <= |s| && SlashPairAt(s, p)
    requires forall q :: from <= q < p ==> !SlashPairAt(s, q)
    ensures FirstSlashPair(s, from) == Some(LeadingNumber(s, p))
  {
    assert SlashStarts(s)(p);
    FirstFromLeftmost(SlashStarts(s), from, |s|, p);
  }

  /** `/\d+\s*-\s*\d+/` matched at `p`; `\d+` keeps the whole run since a digit cannot precede the dash. */
  predicate NumericRangeAt(s: string, p: nat)
    requires p <= |s|
  {
    var run := DigitRun(s, p);
    run >= 1 &&
    var e := SkipSpaces(s, p + run);
    e < |s| && s[e] == '-' && DigitRun(s, SkipSpaces(s, e + 1)) >= 1
  }

  function RangeStarts(s: string): nat -> bool {
    (p: nat) => p <= |s| && NumericRangeAt(s, p)
  }

  /** `s.match(/\d+\s*-\s*\d+/)` is truthy: a range such as "100 - 199" occurs at or after `from`. */
  function HasNumericRange(s: string, from: nat): bool
    requires from <= |s|
  {
    FirstFrom(RangeStarts(s), from, |s|).Some?
  }

  lemma HasNumericRangeIff(s: string, from: nat)
    requires from <= |s|
    ensures HasNumericRange(s, from) <==> exists p :: from <= p <= |s| && NumericRangeAt(s, p)
  {
    FirstFromNone(RangeStarts(s), from, |s|);
    if HasNumericRange(s, from) {
      var p := FirstFrom(RangeStarts(s), from, |s|).value;
      assert NumericRangeAt(s, p);
    } else {
      forall p | from <= p <= |s| ensures !NumericRangeAt(s, p) {
        assert !RangeStarts(s)(p);
      }
    }
  }

  /** `\b\d+\b` matches at `p`: a whole run of digits with no word character on either side. */
  predicate TokenAt(s: string, p: nat)
    requires p <= |s|
  {
    var run := DigitRun(s, p);
    run >= 1 && (p == 0 || !IsWordChar(s[p - 1])) && (p + run == |s| || !IsWordChar(s[p + run]))
  }

  /** `s.match(/\b\d+\b/g)` from `from` on (an empty list for `null`). */
  function Tokens(s: string, from: nat): (r: seq<string>)
    requires from <= |s|
    ensures forall i :: 0 <= i < |r| ==> r[i] != [] && AllDigits(r[i])
    decreases |s| - from
  {
    if from == |s| then []
    else if TokenAt(s, from) then
      var run := DigitRun(s, from);
      [s[from..from + run]] + Tokens(s, from + run)
    else Tokens(s, from + 1)
  }

  /** `parseInt(s.match(/\b\d+\b/g)[0])`, or nothing when the line holds no standalone number. */
  function FirstToken(s: string): Option<nat> {
    var ts := Tokens(s, 0);
    if ts == [] then None else Some(DigitsValue(ts[0]))
  }

  /**
   * `s.match(/\b(\d{2,3})\b/g)`: the standalone numbers of two or three digits. `\d{2,3}`
   * followed by `\b` cannot stop inside a run of digits, so these are the tokens of that length.
   */
  function ShortTokens(ts: seq<string>): (r: seq<string>)
    ensures forall i :: 0 <= i < |r| ==> r[i] in ts && 2 <= |r[i]| <= 3
  {
    if ts == [] then []
    else if 2 <= |ts[0]| <= 3 then [ts[0]] + ShortTokens(ts[1..])
    else ShortTokens(ts[1..])
  }

  /** `/^\s*\d+\s*$/` and the number `parseInt` reads from it. */
  function BareNumber(line: string): Option<nat> {
    var q := SkipSpaces(line, 0);
    var run := DigitRun(line, q);
    if run >= 1 && SkipSpaces(line, q + run) == |line| then Some(DigitsValue(line[q..q + run])) else None
  }

  /** `/cholesterol|chol|tc/i` */
  predicate CholesterolContext(w: string) {
    ContainsKeyword(w, [Word("cholesterol")]) || ContainsKeyword(w, [Word("chol")]) || ContainsKeyword(w, [Word("tc")])
  }

  /** `/hdl|high.density/i` */
  predicate HdlContext(w: string) {
    ContainsKeyword(w, [Word("hdl")]) || ContainsKeyword(w, [Word("high"), AnyChar, Word("density")])
  }

  /** `/blood.pressure|bp|systolic|mmhg/i` */
  predicate BloodPressureContext(w: string) {
    ContainsKeyword(w, [Word("blood"), AnyChar, Word("pressure")]) || ContainsKeyword(w, [Word("bp")])
    || ContainsKeyword(w, [Word("systolic")]) || ContainsKeyword(w, [Word("mmhg")])
  }

  /** `s.substring(a, b)`: both ends clamped to the string, swapped when reversed. */
  function Substring(s: string, a: int, b: int): (r: string)
    ensures |r| <= |s|
  {
    var a' := if a < 0 then 0 else if a > |s| then |s| else a;
    var b' := if b < 0 then 0 else if b > |s| then |s| else b;
    if a' <= b' then s[a'..b'] else s[b'..a']
  }

  /** The broad total-cholesterol patterns, in the order they are tried. */
  const TotalPatterns: seq<Pattern> := [
    Pattern([Word("cholesterol")], NonDigits, true, false),
    Pattern([Word("total"), Spaces, Word("cholesterol")], NonDigits, true, false),
    Pattern([Word("tc")], ColonOrSpace, true, false),
    Pattern([Word("chol")], ColonOrSpace, true, false)
  ]

  /** The broad HDL patterns, in order. */
  const HdlPatterns: seq<Pattern> := [
    Pattern([Word("hdl"), Spaces, Word("cholesterol")], NonDigits, false, false),
    Pattern([Word("hdl")], ColonOrSpace, false, false),
    Pattern([Word("high"), Spaces, Word("density")], NonDigits, false, false)
  ]

  /** The broad systolic patterns, in order; the second needs a slash after the number. */
  const SystolicPatterns: seq<Pattern> := [
    Pattern([Word("systolic")], NonDigits, true, false),
    Pattern([Word("bp")], NonDigits, true, true),
    Pattern([Word("blood"), Spaces, Word("pressure")], NonDigits, true, false),
    Pattern([Word("sbp")], ColonOrSpace, true, false)
  ]

  /** The last-resort total-cholesterol patterns, applied to the raw text. */
  const FinalTotalPatterns: seq<Pattern> := [
    Pattern([Word("cholesterol")], NonDigits, true, false),
    Pattern([Word("total"), Spaces, Word("cholesterol")], NonDigits, true, false),
    Pattern([Word("tc")], NonDigits, true, false)
  ]

  // Laws that describe each scanner by the text it reads.

  /** Matching one keyword after another: the second match starts where the first one ends. */
  lemma {:induction false} KeywordEndAppend(s: string, p: nat, k1: seq<Atom>, k2: seq<Atom>)
    requires p <= |s|
    ensures KeywordEnd(s, p, k1 + k2) ==
              if KeywordEnd(s, p, k1).None? then None else KeywordEnd(s, KeywordEnd(s, p, k1).value, k2)
    decreases |k1|
  {
    if k1 == [] {
      assert k1 + k2 == k2;
    } else {
      assert (k1 + k2)[0] == k1[0];
      assert (k1 + k2)[1..] == k1[1..] + k2;
      match k1[0]
      case Word(w) =>
        if WordAtCI(s, p, w) { KeywordEndAppend(s, p + |w|, k1[1..], k2); }
      case Spaces =>
        if p < |s| && IsSpace(s[p]) { KeywordEndAppend(s, SkipSpaces(s, p), k1[1..], k2); }
      case AnyChar =>
        if p < |s| && !IsLineTerminator(s[p]) { KeywordEndAppend(s, p + 1, k1[1..], k2); }
    }
  }

  /** A word matches exactly where every character folds to the word's own, and ends after it. */
  lemma KeywordEndWord(s: string, p: nat, w: string)
    requires p <= |s|
    ensures KeywordEnd(s, p, [Word(w)]).Some? <==>
              p + |w| <= |s| && forall i :: 0 <= i < |w| ==> Lower(s[p + i]) == w[i]
    ensures KeywordEnd(s, p, [Word(w)]).Some? ==> KeywordEnd(s, p, [Word(w)]).value == p + |w|
  {
    assert [Word(w)][1..] == [];
    if p + |w| <= |s| {
      var l := LowerStr(s[p..p + |w|]);
      if forall i :: 0 <= i < |w| ==> Lower(s[p + i]) == w[i] {
        assert l == w;
      }
    }
  }

  /** `\s+` matches exactly a whole run of whitespace, one character or more. */
  lemma KeywordEndSpaces(s: string, p: nat, e: nat)
    requires p <= |s|
    ensures KeywordEnd(s, p, [Spaces]) == Some(e) <==>
              p < e <= |s| && (forall i :: p <= i < e ==> IsSpace(s[i])) && (e == |s| || !IsSpace(s[e]))
  {
    assert [Spaces][1..] == [];
    if p < e <= |s| && (forall i :: p <= i < e ==> IsSpace(s[i])) && (e == |s| || !IsSpace(s[e])) {
      SkipSpacesAt(s, p, e);
    }
  }

  /** `.` matches one character that does not end a line. */
  lemma KeywordEndAny(s: string, p: nat)
    requires p <= |s|
    ensures KeywordEnd(s, p, [AnyChar]).Some? <==> p < |s| && !IsLineTerminator(s[p])
    ensures KeywordEnd(s, p, [AnyChar]).Some? ==> KeywordEnd(s, p, [AnyChar]).value == p + 1
  {
    assert [AnyChar][1..] == [];
  }

  /** Whether `c` may stand in the gap. */
  predicate InGap(c: char, g: Gap) {
    match g
    case NonDigits => !IsDigit(c)
    case ColonOrSpace => c == ':' || IsSpace(c)
  }

  /** The gap covers characters of its class and stops at the first one outside it. */
  lemma {:induction false} SkipGapClass(s: string, p: nat, g: Gap)
    requires p <= |s|
    ensures forall i :: p <= i < SkipGap(s, p, g) ==> InGap(s[i], g)
    ensures SkipGap(s, p, g) == |s| || !InGap(s[SkipGap(s, p, g)], g)
    decreases |s| - p
  {
    if p < |s| && InGap(s[p], g) {
      SkipGapClass(s, p + 1, g);
    }
  }

  /** Whether a slash follows position `e`, after optional whitespace (`\s*\/`). */
  predicate SlashAfter(s: string, e: nat)
    requires e <= |s|
  {
    SkipSpaces(s, e) < |s| && s[SkipSpaces(s, e)] == '/'
  }

  /** A match whose gap of the pattern's class ends at the digit at `q` is the digit group there. */
  lemma MatchAtGap(s: string, p: nat, pat: Pattern, k: nat, q: nat)
    requires p <= |s|
    requires KeywordEnd(s, p, pat.keyword) == Some(k)
    requires k <= q < |s| && IsDigit(s[q])
    requires forall i :: k <= i < q ==> InGap(s[i], pat.gap)
    ensures MatchAt(s, p, pat) == DigitGroup(s, q, pat)
  {
    SkipGapClass(s, k, pat.gap);
    assert SkipGap(s, k, pat.gap) == q;
  }

  /**
   * The digit group at a digit exists exactly when it gets enough digits and, when a slash
   * must follow, the number has at most three digits and a slash comes after optional whitespace.
   */
  lemma DigitGroupIff(s: string, q: nat, pat: Pattern)
    requires q < |s| && IsDigit(s[q])
    ensures var run := DigitRun(s, q);
            var n := if run < 3 then run else 3;
            DigitGroup(s, q, pat).Some? <==>
              (pat.twoDigitsAtLeast ==> n >= 2) && (pat.slashAfter ==> run <= 3 && SlashAfter(s, q + n))
  {
    var run := DigitRun(s, q);
    var n := if run < 3 then run else 3;
    assert run >= 1;
    if pat.twoDigitsAtLeast && n < 2 {
      assert DigitGroup(s, q, pat).None?;
    } else if !pat.slashAfter {
      assert DigitGroup(s, q, pat).Some?;
    } else if run > 3 {
      assert DigitGroup(s, q, pat).None?;
    }
  }

  /** The digit group captures the value of its first three digits at most, and ends after them or after the slash. */
  lemma DigitGroupCapture(s: string, q: nat, pat: Pattern)
    requires q <= |s| && DigitGroup(s, q, pat).Some?
    ensures var run := DigitRun(s, q);
            var n := if run < 3 then run else 3;
            var r := DigitGroup(s, q, pat).value;
            && r.1 == DigitsValue(s[q..q + n])
            && (!pat.slashAfter ==> r.0 == q + n)
            && (pat.slashAfter ==> r.0 == SkipSpaces(s, q + n) + 1)
  {
  }

  /**
   * A match at `p` whose gap ends at the digit at `q` is the digit group there: it exists
   * exactly when the group gets enough digits (and the slash follows where one must), it
   * captures the value of at most three digits, and it ends after them or after the slash.
   */
  lemma MatchAtIff(s: string, p: nat, pat: Pattern, k: nat, q: nat)
    requires p <= |s|
    requires KeywordEnd(s, p, pat.keyword) == Some(k)
    requires k <= q < |s| && IsDigit(s[q])
    requires forall i :: k <= i < q ==> InGap(s[i], pat.gap)
    ensures var run := DigitRun(s, q);
            var n := if run < 3 then run else 3;
            var r := MatchAt(s, p, pat);
            && (r.Some? <==> (pat.twoDigitsAtLeast ==> n >= 2) && (pat.slashAfter ==> run <= 3 && SlashAfter(s, q + n)))
            && (r.Some? ==> r.value.1 == DigitsValue(s[q..q + n]))
            && (r.Some? && !pat.slashAfter ==> r.value.0 == q + n)
            && (r.Some? && pat.slashAfter ==> r.value.0 == SkipSpaces(s, q + n) + 1)
  {
    MatchAtGap(s, p, pat, k, q);
    DigitGroupIff(s, q, pat);
    if MatchAt(s, p, pat).Some? {
      DigitGroupCapture(s, q, pat);
    }
  }

  /** Every match starts with the keyword and a gap of its class that ends at a digit. */
  lemma MatchAtNeedsDigit(s: string, p: nat, pat: Pattern)
    requires p <= |s| && MatchAt(s, p, pat).Some?
    ensures KeywordEnd(s, p, pat.keyword).Some?
    ensures exists q :: KeywordEnd(s, p, pat.keyword).value <= q < |s| && IsDigit(s[q]) &&
              forall i :: KeywordEnd(s, p, pat.keyword).value <= i < q ==> InGap(s[i], pat.gap)
  {
    var k := KeywordEnd(s, p, pat.keyword).value;
    var q := SkipGap(s, k, pat.gap);
    SkipGapClass(s, k, pat.gap);
    assert DigitRun(s, q) >= 1;
    assert k <= q < |s| && IsDigit(s[q]);
  }

  /** `matchAll` yields nothing exactly when no position from `from` on starts a match. */
  lemma MatchValuesEmptyIff(s: string, pat: Pattern, from: nat)
    requires from <= |s|
    ensures MatchValues(s, pat, from) == [] <==> forall p :: from <= p < |s| ==> MatchAt(s, p, pat).None?
  {
    MatcherAdvances(s, pat);
    ScanEmptyIff(|s|, Matcher(s, pat), from);
    assert (forall p :: from <= p < |s| ==> MatchAt(s, p, pat).None?) <==>
           (forall p: nat :: from <= p < |s| ==> Matcher(s, pat)(p).None?) by {
      forall p: nat | from <= p < |s| ensures Matcher(s, pat)(p) == MatchAt(s, p, pat) { }
    }
  }

  /** `matchAll` yields the leftmost match's number first and then continues where that match ends. */
  lemma MatchValuesLeftmost(s: string, pat: Pattern, from: nat, p: nat)
    requires from <= p < |s| && MatchAt(s, p, pat).Some?
    requires forall q :: from <= q < p ==> MatchAt(s, q, pat).None?
    ensures MatchValues(s, pat, from) == [MatchAt(s, p, pat).value.1] + MatchValues(s, pat, MatchAt(s, p, pat).value.0)
  {
    MatcherAdvances(s, pat);
    forall q: nat | from <= q < p ensures Matcher(s, pat)(q).None? {
      assert MatchAt(s, q, pat).None?;
    }
    ScanLeftmost(|s|, Matcher(s, pat), from, p);
  }

  /** A keyword followed by whitespace: the word, then a whole run of whitespace. */
  lemma KeywordEndWordSpaces(s: string, p: nat, w: string, b: nat)
    requires p <= |s|
    ensures KeywordEnd(s, p, [Word(w), Spaces]) == Some(b) <==>
              p + |w| < b <= |s| && LowerStr(s[p..p + |w|]) == w &&
              AllSpaces(s[p + |w|..b]) && (b == |s| || !IsSpace(s[b]))
  {
    assert [Word(w), Spaces] == [Word(w)] + [Spaces];
    KeywordEndAppend(s, p, [Word(w)], [Spaces]);
    KeywordEndOneWord(s, p, w);
    if WordAtCI(s, p, w) {
      var m := p + |w|;
      KeywordEndSpaces(s, m, b);
      if m < b <= |s| {
        AllSpacesSlice(s, m, b);
      }
    }
  }

  lemma KeywordEndOneWord(s: string, p: nat, w: string)
    requires p <= |s|
    ensures KeywordEnd(s, p, [Word(w)]) == if WordAtCI(s, p, w) then Some(p + |w|) else None
  {
    assert [Word(w)][1..] == [];
  }

  lemma AllSpacesSlice(s: string, m: nat, b: nat)
    requires m <= b <= |s|
    ensures AllSpaces(s[m..b]) <==> forall i :: m <= i < b ==> IsSpace(s[i])
  {
    assert forall i :: m <= i < b ==> s[m..b][i - m] == s[i];
  }

  /**
   * `/^Cholesterol\s+(\d{2,3})$/i` matches a trimmed line exactly when it is the word in any
   * case, whitespace, and then two or three digits to the end, whose value is captured.
   */
  lemma ExactCholesterolIff(line: string, v: nat)
    ensures ExactCholesterol(line) == Some(v) <==>
              exists b :: 11 < b <= |line| && LowerStr(line[..11]) == "cholesterol" && AllSpaces(line[11..b]) &&
                2 <= |line| - b <= 3 && AllDigits(line[b..]) && v == DigitsValue(line[b..])
  {
    var kw := [Word("cholesterol"), Spaces];
    if ExactCholesterol(line) == Some(v) {
      var b := KeywordEnd(line, 0, kw).value;
      KeywordEndWordSpaces(line, 0, "cholesterol", b);
      assert line[..11] == line[0..11];
    }
    if exists b :: 11 < b <= |line| && LowerStr(line[..11]) == "cholesterol" && AllSpaces(line[11..b]) &&
         2 <= |line| - b <= 3 && AllDigits(line[b..]) && v == DigitsValue(line[b..]) {
      var b :| 11 < b <= |line| && LowerStr(line[..11]) == "cholesterol" && AllSpaces(line[11..b]) &&
         2 <= |line| - b <= 3 && AllDigits(line[b..]) && v == DigitsValue(line[b..]);
      assert line[..11] == line[0..11];
      assert line[b..][0] == line[b];
      KeywordEndWordSpaces(line, 0, "cholesterol", b);
    }
  }

  /** The line is `hdl`, whitespace up to `a`, `cholesterol`, whitespace up to `b`, and digits worth `v`. */
  predicate HdlLineShape(line: string, a: nat, b: nat, v: nat) {
    3 < a && a + 11 < b <= |line| && LowerStr(line[..3]) == "hdl" && AllSpaces(line[3..a]) &&
    LowerStr(line[a..a + 11]) == "cholesterol" && AllSpaces(line[a + 11..b]) &&
    1 <= |line| - b <= 3 && AllDigits(line[b..]) && v == DigitsValue(line[b..])
  }

  /**
   * `/^HDL\s+Cholesterol\s+(\d{1,3})$/i` matches a trimmed line exactly when it is the two
   * words in any case, each followed by whitespace, and then one to three digits to the end.
   */
  lemma ExactHdlCholesterolIff(line: string, v: nat)
    ensures ExactHdlCholesterol(line) == Some(v) <==> exists a, b :: HdlLineShape(line, a, b, v)
  {
    if ExactHdlCholesterol(line) == Some(v) {
      ExactHdlCholesterolShape(line, v);
    }
    if exists a, b :: HdlLineShape(line, a, b, v) {
      var a, b :| HdlLineShape(line, a, b, v);
      HdlShapeMatches(line, a, b, v);
    }
  }

  lemma ExactHdlCholesterolShape(line: string, v: nat)
    requires ExactHdlCholesterol(line) == Some(v)
    ensures exists a, b :: HdlLineShape(line, a, b, v)
  {
    var k1 := [Word("hdl"), Spaces];
    var k2 := [Word("cholesterol"), Spaces];
    assert [Word("hdl"), Spaces, Word("cholesterol"), Spaces] == k1 + k2;
    KeywordEndAppend(line, 0, k1, k2);
    var a := KeywordEnd(line, 0, k1).value;
    var b := KeywordEnd(line, a, k2).value;
    KeywordEndWordSpaces(line, 0, "hdl", a);
    KeywordEndWordSpaces(line, a, "cholesterol", b);
    assert line[..3] == line[0..3];
    assert HdlLineShape(line, a, b, v);
  }

  lemma HdlShapeMatches(line: string, a: nat, b: nat, v: nat)
    requires HdlLineShape(line, a, b, v)
    ensures ExactHdlCholesterol(line) == Some(v)
  {
    var k1 := [Word("hdl"), Spaces];
    var k2 := [Word("cholesterol"), Spaces];
    assert [Word("hdl"), Spaces, Word("cholesterol"), Spaces] == k1 + k2;
    KeywordEndAppend(line, 0, k1, k2);
    HdlFirstLabel(line, a, b, v);
    HdlSecondLabel(line, a, b, v);
  }

  lemma HdlFirstLabel(line: string, a: nat, b: nat, v: nat)
    requires HdlLineShape(line, a, b, v)
    ensures KeywordEnd(line, 0, [Word("hdl"), Spaces]) == Some(a)
  {
    assert line[..3] == line[0..3];
    assert line[a..a + 11][0] == line[a];
    KeywordEndWordSpaces(line, 0, "hdl", a);
  }

  lemma HdlSecondLabel(line: string, a: nat, b: nat, v: nat)
    requires HdlLineShape(line, a, b, v)
    ensures KeywordEnd(line, a, [Word("cholesterol"), Spaces]) == Some(b)
  {
    assert line[b..][0] == line[b];
    KeywordEndWordSpaces(line, a, "cholesterol", b);
  }

  /** Reading a number digit by digit: the first digit counts once per digit that follows it. */
  lemma LeadingNumberStep(s: string, p: nat)
    requires p < |s| && IsDigit(s[p])
    ensures DigitRun(s, p) == 1 + DigitRun(s, p + 1)
    ensures LeadingNumber(s, p) == (s[p] as int - '0' as int) * Pow10(DigitRun(s, p + 1)) + LeadingNumber(s, p + 1)
  {
    var n := DigitRun(s, p + 1);
    assert s[p..p + 1 + n] == [s[p]] + s[p + 1..p + 1 + n];
    DigitsValueAppend([s[p]], s[p + 1..p + 1 + n]);
    DigitsValueOne(s[p]);
  }

  /** `\b\d+\b/g` finds nothing exactly when no position from `from` on starts a standalone number. */
  lemma {:induction false} TokensEmptyIff(s: string, from: nat)
    requires from <= |s|
    ensures Tokens(s, from) == [] <==> forall p :: from <= p < |s| ==> !TokenAt(s, p)
    decreases |s| - from
  {
    if from < |s| && !TokenAt(s, from) {
      TokensEmptyIff(s, from + 1);
    }
  }

  /** The leftmost standalone number comes first, and the search goes on right after it. */
  lemma {:induction false} TokensLeftmost(s: string, from: nat, p: nat)
    requires from <= p < |s| && TokenAt(s, p)
    requires forall q :: from <= q < p ==> !TokenAt(s, q)
    ensures Tokens(s, from) == [s[p..p + DigitRun(s, p)]] + Tokens(s, p + DigitRun(s, p))
    decreases p - from
  {
    if from < p {
      TokensLeftmost(s, from + 1, p);
    }
  }

  /** Keeping the two- and three-digit numbers of a concatenation keeps those of each part. */
  lemma {:induction false} ShortTokensAppend(a: seq<string>, b: seq<string>)
    ensures ShortTokens(a + b) == ShortTokens(a) + ShortTokens(b)
    decreases |a|
  {
    if a == [] {
      assert a + b == b;
    } else {
      assert (a + b)[0] == a[0];
      assert (a + b)[1..] == a[1..] + b;
      ShortTokensAppend(a[1..], b);
    }
  }

  /** A single number is kept exactly when it has two or three digits. */
  lemma ShortTokensOne(t: string)
    ensures ShortTokens([t]) == if 2 <= |t| <= 3 then [t] else []
  {
    assert [t][1..] == [];
  }

  /**
   * `substring` takes the part between the two ends, whichever comes first, each end first
   * clamped to the string.
   */
  lemma SubstringBetween(s: string, a: int, b: int)
    ensures var lo := if a <= b then a else b;
            var hi := if a <= b then b else a;
            var lo' := if lo < 0 then 0 else if lo > |s| then |s| else lo;
            var hi' := if hi < 0 then 0 else if hi > |s| then |s| else hi;
            Substring(s, a, b) == s[lo'..hi']
    ensures Substring(s, a, b) == Substring(s, b, a)
  {
  }
}
