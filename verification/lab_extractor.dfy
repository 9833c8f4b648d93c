/**
 * The lab-report value extractor of the questionnaire (`parseLabFile` from the point where the
 * document's text exists). It fills up to three values -- total cholesterol, HDL cholesterol and
 * systolic blood pressure -- through six passes run in a fixed order, and counts in `foundValues`
 * the values that the counting passes stored.
 *
 * Every pass is described in two layers. What the regular expressions yield on a line or a
 * number is a plain record (an "offer" of candidate values, or a "reading" of flags); what the
 * pass then decides is a function over those records. Each pass is also written as a method with
 * the loops of the original, proved to compute exactly that function.
 */
module LabExtractor {
  import opened Wrappers
  import opened Text
  import opened LabPatterns

  /** `extractedValues`: the fields the extractor may set. */
  datatype LabValues = LabValues(totalCholesterol: Option<nat>, hdlCholesterol: Option<nat>, systolicBP: Option<nat>)

  const NoValues := LabValues(None, None, None)

  /** `extractedValues` together with the `foundValues` counter. */
  datatype Scan = Scan(values: LabValues, found: nat)

  datatype Field = TotalCholesterol | HdlCholesterol | SystolicBP

  function Slot(v: LabValues, f: Field): Option<nat> {
    match f
    case TotalCholesterol => v.totalCholesterol
    case HdlCholesterol => v.hdlCholesterol
    case SystolicBP => v.systolicBP
  }

  predicate Within(o: Option<nat>, lo: nat, hi: nat) { o.Some? ==> lo <= o.value <= hi }

  /** The ranges every stored value lies in: the widest gate any pass applies to the field. */
  predicate Plausible(v: LabValues) {
    Within(v.totalCholesterol, 100, 500) && Within(v.hdlCholesterol, 20, 150) && Within(v.systolicBP, 80, 250)
  }

  predicate AllPlausible(offers: seq<LabValues>) {
    forall i :: 0 <= i < |offers| ==> Plausible(offers[i])
  }

  function Count(o: Option<nat>): nat { if o.Some? then 1 else 0 }

  /** How many of the three fields hold a value. */
  function CountSet(v: LabValues): nat {
    Count(v.totalCholesterol) + Count(v.hdlCholesterol) + Count(v.systolicBP)
  }

  /** Every field set in `v` is still set in `w`. */
  predicate KeepsSet(v: LabValues, w: LabValues) {
    (v.totalCholesterol.Some? ==> w.totalCholesterol.Some?)
    && (v.hdlCholesterol.Some? ==> w.hdlCholesterol.Some?)
    && (v.systolicBP.Some? ==> w.systolicBP.Some?)
  }

  // ---------------------------------------------------------------------------
  // Filling empty fields: the shape shared by the counting passes (1, 4, 5 and 6)
  // ---------------------------------------------------------------------------

  /** A candidate that survives the range test of `[lo, hi]`. */
  function InRange(o: Option<nat>, lo: nat, hi: nat): Option<nat> {
    if o.Some? && lo <= o.value <= hi then o else None
  }

  function FillIfEmpty(slot: Option<nat>, offer: Option<nat>): Option<nat> {
    if slot.Some? then slot else offer
  }

  /** 1 when a slot went from empty to set: one `foundValues++`. */
  function Added(before: Option<nat>, after: Option<nat>): nat {
    if before.None? && after.Some? then 1 else 0
  }

  /** Each empty field takes the value offered for it, and every field filled counts once. */
  function FillStep(st: Scan, offer: LabValues): Scan {
    var v := st.values;
    var t := FillIfEmpty(v.totalCholesterol, offer.totalCholesterol);
    var h := FillIfEmpty(v.hdlCholesterol, offer.hdlCholesterol);
    var b := FillIfEmpty(v.systolicBP, offer.systolicBP);
    Scan(LabValues(t, h, b), st.found + Added(v.totalCholesterol, t) + Added(v.hdlCholesterol, h) + Added(v.systolicBP, b))
  }

  /** The state after a counting loop has gone through `offers` in order. */
  function AfterOffers(offers: seq<LabValues>, st: Scan): Scan
    decreases |offers|
  {
    if offers == [] then st
    else FillStep(AfterOffers(offers[..|offers| - 1], st), offers[|offers| - 1])
  }

  /** Reference definition: the first value offered for `f`. */
  function FirstOffer(offers: seq<LabValues>, f: Field): (r: Option<nat>)
    ensures r.None? <==> forall i :: 0 <= i < |offers| ==> Slot(offers[i], f).None?
    ensures r.Some? ==> exists i :: 0 <= i < |offers| && Slot(offers[i], f) == r
  {
    if offers == [] then None
    else if Slot(offers[0], f).Some? then
      assert Slot(offers[0], f) == Slot(offers[0], f);
      Slot(offers[0], f)
    else
      var r := FirstOffer(offers[1..], f);
      assert forall i :: 1 <= i < |offers| ==> offers[i] == offers[1..][i - 1];
      assert r.Some? ==> exists i :: 0 <= i < |offers| && Slot(offers[i], f) == r by {
        if r.Some? {
          var j :| 0 <= j < |offers[1..]| && Slot(offers[1..][j], f) == r;
          assert Slot(offers[j + 1], f) == r;
        }
      }
      r
  }

  lemma {:induction false} FirstOfferAppend(offers: seq<LabValues>, offer: LabValues, f: Field)
    ensures FirstOffer(offers + [offer], f)
            == if FirstOffer(offers, f).Some? then FirstOffer(offers, f) else Slot(offer, f)
    decreases |offers|
  {
    if offers == [] {
      assert offers + [offer] == [offer];
    } else {
      assert (offers + [offer])[0] == offers[0];
      assert (offers + [offer])[1..] == offers[1..] + [offer];
      FirstOfferAppend(offers[1..], offer, f);
    }
  }

  lemma FillStepSlot(st: Scan, offer: LabValues, f: Field)
    ensures Slot(FillStep(st, offer).values, f) == FillIfEmpty(Slot(st.values, f), Slot(offer, f))
  {
    match f
    case TotalCholesterol =>
    case HdlCholesterol =>
    case SystolicBP =>
  }

  /**
   * A counting loop keeps a field that was already set, and otherwise sets it from the first
   * offer for it; later offers never replace it.
   */
  lemma {:induction false} OffersFirstWins(offers: seq<LabValues>, st: Scan, f: Field)
    ensures Slot(AfterOffers(offers, st).values, f) == FillIfEmpty(Slot(st.values, f), FirstOffer(offers, f))
    decreases |offers|
  {
    if offers != [] {
      var front, last := offers[..|offers| - 1], offers[|offers| - 1];
      OffersFirstWins(front, st, f);
      FillStepSlot(AfterOffers(front, st), last, f);
      assert front + [last] == offers;
      FirstOfferAppend(front, last, f);
    }
  }

  /** `foundValues` grows by exactly the number of fields a counting loop fills, and no field is emptied. */
  lemma {:induction false} OffersCount(offers: seq<LabValues>, st: Scan)
    ensures AfterOffers(offers, st).found + CountSet(st.values) == st.found + CountSet(AfterOffers(offers, st).values)
    ensures KeepsSet(st.values, AfterOffers(offers, st).values)
    decreases |offers|
  {
    if offers != [] {
      OffersCount(offers[..|offers| - 1], st);
    }
  }

  lemma {:induction false} OffersPlausible(offers: seq<LabValues>, st: Scan)
    requires Plausible(st.values) && AllPlausible(offers)
    ensures Plausible(AfterOffers(offers, st).values)
    decreases |offers|
  {
    if offers != [] {
      OffersPlausible(offers[..|offers| - 1], st);
    }
  }

  /** The block the source repeats for every field: store the candidate if the field is empty and it is in range. */
  method FillSlot(slot: Option<nat>, candidate: Option<nat>, lo: nat, hi: nat) returns (r: Option<nat>, added: nat)
    ensures r == FillIfEmpty(slot, InRange(candidate, lo, hi))
    ensures added == Added(slot, r)
  {
    r, added := slot, 0;
    if candidate.Some? && slot.None? {
      var value := candidate.value;
      if lo <= value <= hi {
        r, added := Some(value), 1;
      }
    }
  }

  // ---------------------------------------------------------------------------
  // Pass 1: exact lines (ChatbotFlow.tsx 157-192)
  // ---------------------------------------------------------------------------

  /** What one line offers: `Cholesterol NNN` (100-500), `HDL Cholesterol NNN` (20-150), `NNN/NN` (80-250). */
  function ExactOffer(line: string): (r: LabValues)
    ensures Plausible(r)
  {
    LabValues(InRange(ExactCholesterol(line), 100, 500), InRange(ExactHdlCholesterol(line), 20, 150),
              InRange(FirstSlashPair(line, 0), 80, 250))
  }

  function ExactOffers(lines: seq<string>): (r: seq<LabValues>)
    ensures |r| == |lines| && AllPlausible(r)
  {
    seq(|lines|, i requires 0 <= i < |lines| => ExactOffer(lines[i]))
  }

  /** The three fills of one exact line, once its formats have been read. */
  method FillExact(st0: Scan, cholesterol: Option<nat>, hdl: Option<nat>, pair: Option<nat>) returns (st: Scan)
    ensures st == FillStep(st0, LabValues(InRange(cholesterol, 100, 500), InRange(hdl, 20, 150), InRange(pair, 80, 250)))
  {
    var total, addTotal := FillSlot(st0.values.totalCholesterol, cholesterol, 100, 500);
    var hdlValue, addHdl := FillSlot(st0.values.hdlCholesterol, hdl, 20, 150);
    var systolic, addSystolic := FillSlot(st0.values.systolicBP, pair, 80, 250);
    st := Scan(LabValues(total, hdlValue, systolic), st0.found + addTotal + addHdl + addSystolic);
  }

  /** One iteration of the exact-line loop. */
  method ExactLine(line: string, st0: Scan) returns (st: Scan)
    ensures st == FillStep(st0, ExactOffer(line))
  {
    st := FillExact(st0, ExactCholesterol(line), ExactHdlCholesterol(line), FirstSlashPair(line, 0));
  }

  method ScanExactLines(lines: seq<string>, st0: Scan) returns (st: Scan)
    ensures st == AfterOffers(ExactOffers(lines), st0)
  {
    ghost var offers := ExactOffers(lines);
    st := st0;
    for i := 0 to |lines|
      invariant st == AfterOffers(offers[..i], st0)
    {
      st := ExactLine(lines[i], st);
      assert offers[i] == ExactOffer(lines[i]);
      assert offers[..i + 1][..i] == offers[..i];
    }
    assert offers[..|lines|] == offers;
  }

  // ---------------------------------------------------------------------------
  // Pass 2: keyword and context lines (ChatbotFlow.tsx 200-260)
  // ---------------------------------------------------------------------------

  /** What the tests of the keyword pass find on one line (and, for the value rule, the three lines before it). */
  datatype KeywordRead = KeywordRead(
    reference: bool,      // names a normal/reference range or holds a range like "100 - 199"
    totalLabel: bool,     // mentions cholesterol but neither HDL nor LDL
    hdlLabel: bool,       // mentions HDL but neither "normal" nor "range"
    valueLine: bool,      // mentions "value"
    number: Option<nat>,  // the first standalone number
    contextHdl: bool,     // the previous three lines mention HDL
    contextTotal: bool)   // the previous three lines mention cholesterol

  predicate ReferenceLine(line: string) {
    ContainsCI(line, "normal range") || ContainsCI(line, "reference range") || ContainsCI(line, "normal value")
    || HasNumericRange(line, 0)
  }

  predicate TotalLabelLine(line: string) {
    ContainsCI(line, "cholesterol") && !ContainsCI(line, "hdl") && !ContainsCI(line, "ldl")
  }

  predicate HdlLabelLine(line: string) {
    ContainsCI(line, "hdl") && !ContainsCI(line, "normal") && !ContainsCI(line, "range")
  }

  function Max0(n: int): nat { if n < 0 then 0 else n }

  /** The previous three lines joined by spaces, lower-cased. */
  function PrecedingContext(lines: seq<string>, i: nat): string
    requires i <= |lines|
  {
    LowerStr(Join(lines[Max0(i - 3)..i], " "))
  }

  function ReadKeywordLine(lines: seq<string>, i: nat): KeywordRead
    requires i < |lines|
  {
    var line := lines[i];
    var context := PrecedingContext(lines, i);
    KeywordRead(ReferenceLine(line), TotalLabelLine(line), HdlLabelLine(line), ContainsCI(line, "value"),
                FirstToken(line), Contains(context, "hdl"), Contains(context, "cholesterol"))
  }

  function KeywordReads(lines: seq<string>): (r: seq<KeywordRead>)
    ensures |r| == |lines|
  {
    seq(|lines|, i requires 0 <= i < |lines| => ReadKeywordLine(lines, i))
  }

  /** One line of the keyword pass, its three rules applied in the source's order. */
  function KeywordLineStep(r: KeywordRead, v: LabValues): LabValues {
    if r.reference || r.number.None? then v
    else
      var n := r.number.value;
      var v1 := if r.totalLabel && 100 <= n <= 400 then v.(totalCholesterol := Some(n)) else v;
      var v2 := if r.hdlLabel && 20 <= n <= 100 then v1.(hdlCholesterol := Some(n)) else v1;
      if !r.valueLine then v2
      else if r.contextHdl && 20 <= n <= 100 then v2.(hdlCholesterol := Some(n))
      else if r.contextTotal && !r.contextHdl && 100 <= n <= 400 then v2.(totalCholesterol := Some(n))
      else v2
  }

  /**
   * Reference definition of a line's effect: the value the line writes into `f`, if any. Total
   * cholesterol takes a number in 100-400 and HDL one in 20-100; blood pressure is never written.
   */
  function KeywordSets(r: KeywordRead, f: Field): (w: Option<nat>)
    ensures f == TotalCholesterol ==> Within(w, 100, 400)
    ensures f == HdlCholesterol ==> Within(w, 20, 100)
    ensures f == SystolicBP ==> w.None?
  {
    if r.reference || r.number.None? then None
    else
      var n := r.number.value;
      match f
      case TotalCholesterol =>
        if 100 <= n <= 400 && (r.totalLabel || (r.valueLine && r.contextTotal && !r.contextHdl)) then Some(n) else None
      case HdlCholesterol =>
        if 20 <= n <= 100 && (r.hdlLabel || (r.valueLine && r.contextHdl)) then Some(n) else None
      case SystolicBP => None
  }

  /** A line overwrites `f` exactly with the value it sets, and leaves it alone otherwise. */
  lemma KeywordStepSets(r: KeywordRead, v: LabValues, f: Field)
    ensures Slot(KeywordLineStep(r, v), f) == if KeywordSets(r, f).Some? then KeywordSets(r, f) else Slot(v, f)
  {
    match f
    case TotalCholesterol =>
    case HdlCholesterol =>
    case SystolicBP =>
  }

  /** The values after the keyword pass; the pass never reads or changes `foundValues`. */
  function AfterKeywordLines(readings: seq<KeywordRead>, v: LabValues): LabValues
    decreases |readings|
  {
    if readings == [] then v else KeywordLineStep(readings[|readings| - 1], AfterKeywordLines(readings[..|readings| - 1], v))
  }

  /** Reference definition: the value written into `f` by the last line that writes it. */
  function LastKeywordSet(readings: seq<KeywordRead>, f: Field): (w: Option<nat>)
    ensures f == TotalCholesterol ==> Within(w, 100, 400)
    ensures f == HdlCholesterol ==> Within(w, 20, 100)
    ensures f == SystolicBP ==> w.None?
    decreases |readings|
  {
    if readings == [] then None
    else if KeywordSets(readings[|readings| - 1], f).Some? then KeywordSets(readings[|readings| - 1], f)
    else LastKeywordSet(readings[..|readings| - 1], f)
  }

  /**
   * The keyword pass overwrites: each field ends with the value of the last line that writes it,
   * whatever the earlier passes stored, and keeps its value when no line writes it.
   */
  lemma {:induction false} KeywordLinesLastWins(readings: seq<KeywordRead>, v: LabValues, f: Field)
    ensures Slot(AfterKeywordLines(readings, v), f) == if LastKeywordSet(readings, f).Some? then LastKeywordSet(readings, f) else Slot(v, f)
    decreases |readings|
  {
    if readings != [] {
      KeywordLinesLastWins(readings[..|readings| - 1], v, f);
      KeywordStepSets(readings[|readings| - 1], AfterKeywordLines(readings[..|readings| - 1], v), f);
    }
  }

  /** One iteration of the keyword loop. */
  method KeywordLine(lines: seq<string>, i: nat, v0: LabValues) returns (v: LabValues)
    requires i < |lines|
    ensures v == KeywordLineStep(ReadKeywordLine(lines, i), v0)
  {
    v := v0;
    var line := lines[i];
    if ContainsCI(line, "normal range") || ContainsCI(line, "reference range")
       || ContainsCI(line, "normal value") || HasNumericRange(line, 0) {
      return;
    }
    var numbers := FirstToken(line);
    if ContainsCI(line, "cholesterol") && !ContainsCI(line, "hdl") && !ContainsCI(line, "ldl") {
      if numbers.Some? {
        var cholValue := numbers.value;
        if 100 <= cholValue <= 400 {
          v := v.(totalCholesterol := Some(cholValue));
        }
      }
    }
    if ContainsCI(line, "hdl") {
      if !ContainsCI(line, "normal") && !ContainsCI(line, "range") {
        if numbers.Some? {
          var hdlValue := numbers.value;
          if 20 <= hdlValue <= 100 {
            v := v.(hdlCholesterol := Some(hdlValue));
          }
        }
      }
    }
    if ContainsCI(line, "value") && numbers.Some? {
      var value := numbers.value;
      var context := PrecedingContext(lines, i);
      if Contains(context, "hdl") && 20 <= value <= 100 {
        v := v.(hdlCholesterol := Some(value));
      } else if Contains(context, "cholesterol") && !Contains(context, "hdl") && 100 <= value <= 400 {
        v := v.(totalCholesterol := Some(value));
      }
    }
  }

  method ScanKeywordLines(lines: seq<string>, v0: LabValues) returns (v: LabValues)
    ensures v == AfterKeywordLines(KeywordReads(lines), v0)
  {
    ghost var readings := KeywordReads(lines);
    v := v0;
    for i := 0 to |lines|
      invariant v == AfterKeywordLines(readings[..i], v0)
    {
      assert readings[..i + 1][..i] == readings[..i];
      assert readings[i] == ReadKeywordLine(lines, i);
      v := KeywordLine(lines, i, v);
    }
    assert readings[..|lines|] == readings;
  }

  // ---------------------------------------------------------------------------
  // Pass 3: proximity (ChatbotFlow.tsx 263-280)
  // ---------------------------------------------------------------------------

  /** Whether a line labels total cholesterol for this pass, and the bare number it consists of. */
  datatype ProximityRead = ProximityRead(labelled: bool, bare: Option<nat>)

  predicate ProximityLabel(line: string) {
    ContainsCI(line, "cholesterol") && !ContainsCI(line, "hdl") && !ContainsCI(line, "ldl") && !ContainsCI(line, "normal")
  }

  function ProximityReads(lines: seq<string>): (r: seq<ProximityRead>)
    ensures |r| == |lines|
  {
    seq(|lines|, i requires 0 <= i < |lines| => ProximityRead(ProximityLabel(lines[i]), BareNumber(lines[i])))
  }

  function Min(a: nat, b: nat): nat { if a < b then a else b }

  /** The first bare number in 100-400 among lines `j` .. `i + 3`. */
  function ProximityValue(readings: seq<ProximityRead>, i: nat, j: nat): (r: Option<nat>)
    ensures Within(r, 100, 400)
    decreases |readings| - j
  {
    if j >= Min(i + 4, |readings|) then None
    else if readings[j].bare.Some? && 100 <= readings[j].bare.value <= 400 then readings[j].bare
    else ProximityValue(readings, i, j + 1)
  }

  /** The value line `i` writes into total cholesterol, if any. */
  function ProximitySets(readings: seq<ProximityRead>, i: nat): (w: Option<nat>)
    requires i < |readings|
    ensures Within(w, 100, 400)
  {
    if readings[i].labelled then ProximityValue(readings, i, i + 1) else None
  }

  /** The values after the proximity pass has visited lines `0 .. n - 1`; it never reads or changes `foundValues`. */
  function AfterProximity(readings: seq<ProximityRead>, n: nat, v: LabValues): LabValues
    requires n <= |readings|
  {
    if n == 0 then v
    else
      var w := AfterProximity(readings, n - 1, v);
      if ProximitySets(readings, n - 1).Some? then w.(totalCholesterol := ProximitySets(readings, n - 1)) else w
  }

  /** Reference definition: the value written by the last labelled line, among lines `0 .. n - 1`, that finds one. */
  function LastProximitySet(readings: seq<ProximityRead>, n: nat): (w: Option<nat>)
    requires n <= |readings|
    ensures Within(w, 100, 400)
  {
    if n == 0 then None
    else if ProximitySets(readings, n - 1).Some? then ProximitySets(readings, n - 1)
    else LastProximitySet(readings, n - 1)
  }

  /**
   * The proximity pass overwrites total cholesterol with the value found after the last labelled
   * line that has one, and never touches HDL or blood pressure.
   */
  lemma {:induction false} ProximityLastWins(readings: seq<ProximityRead>, n: nat, v: LabValues)
    requires n <= |readings|
    ensures AfterProximity(readings, n, v)
            == v.(totalCholesterol := if LastProximitySet(readings, n).Some? then LastProximitySet(readings, n) else v.totalCholesterol)
  {
    if n > 0 {
      ProximityLastWins(readings, n - 1, v);
    }
  }

  /** The inner loop of the proximity pass: the next three lines are searched for a bare number in 100-400. */
  method FollowingValue(lines: seq<string>, i: nat) returns (r: Option<nat>)
    requires i < |lines|
    ensures r == ProximityValue(ProximityReads(lines), i, i + 1)
  {
    ghost var readings := ProximityReads(lines);
    r := None;
    var j := i + 1;
    while j < Min(i + 4, |lines|)
      invariant i + 1 <= j
      invariant ProximityValue(readings, i, j) == ProximityValue(readings, i, i + 1)
      decreases |lines| - j
    {
      var numbers := BareNumber(lines[j]);
      assert readings[j].bare == numbers;
      if numbers.Some? {
        var cholValue := numbers.value;
        if 100 <= cholValue <= 400 {
          r := Some(cholValue);
          break;
        }
      }
      j := j + 1;
    }
  }

  /** One iteration of the proximity loop. */
  method ProximityLine(lines: seq<string>, i: nat, v0: LabValues) returns (v: LabValues)
    requires i < |lines|
    ensures var w := ProximitySets(ProximityReads(lines), i); v == if w.Some? then v0.(totalCholesterol := w) else v0
  {
    v := v0;
    var line := lines[i];
    assert ProximityReads(lines)[i] == ProximityRead(ProximityLabel(line), BareNumber(line));
    if ContainsCI(line, "cholesterol") && !ContainsCI(line, "hdl") && !ContainsCI(line, "ldl") && !ContainsCI(line, "normal") {
      var cholValue := FollowingValue(lines, i);
      if cholValue.Some? {
        v := v.(totalCholesterol := cholValue);
      }
    }
  }

  method ScanProximity(lines: seq<string>, v0: LabValues) returns (v: LabValues)
    ensures v == AfterProximity(ProximityReads(lines), |lines|, v0)
  {
    v := v0;
    for i := 0 to |lines|
      invariant v == AfterProximity(ProximityReads(lines), i, v0)
    {
      v := ProximityLine(lines, i, v);
    }
  }

  // ---------------------------------------------------------------------------
  // Pass 4: broad patterns over the whitespace-normalised text (ChatbotFlow.tsx 285-358)
  // ---------------------------------------------------------------------------

  /** Reference definition: the first value of `vals` inside `[lo, hi]`. */
  function FirstInRange(vals: seq<nat>, lo: nat, hi: nat): (r: Option<nat>)
    ensures r.Some? ==> lo <= r.value <= hi && r.value in vals
    ensures r.None? <==> forall i :: 0 <= i < |vals| ==> !(lo <= vals[i] <= hi)
  {
    if vals == [] then None
    else if lo <= vals[0] <= hi then Some(vals[0])
    else
      var r := FirstInRange(vals[1..], lo, hi);
      assert forall i :: 1 <= i < |vals| ==> vals[i] == vals[1..][i - 1];
      r
  }

  lemma {:induction false} FirstInRangeAppend(a: seq<nat>, b: seq<nat>, lo: nat, hi: nat)
    ensures FirstInRange(a + b, lo, hi) == if FirstInRange(a, lo, hi).Some? then FirstInRange(a, lo, hi) else FirstInRange(b, lo, hi)
    decreases |a|
  {
    if a == [] {
      assert a + b == b;
    } else {
      assert (a + b)[0] == a[0];
      assert (a + b)[1..] == a[1..] + b;
      FirstInRangeAppend(a[1..], b, lo, hi);
    }
  }

  /** With nothing in range before index `m`, a value in range at `m` is the first one. */
  lemma FirstInRangeFound(vals: seq<nat>, m: nat, lo: nat, hi: nat)
    requires m < |vals| && FirstInRange(vals[..m], lo, hi) == None && lo <= vals[m] <= hi
    ensures FirstInRange(vals, lo, hi) == Some(vals[m])
  {
    FirstInRangeAppend(vals[..m], vals[m..], lo, hi);
    assert vals[..m] + vals[m..] == vals;
  }

  /** With nothing in range before index `m`, a value out of range at `m` leaves nothing in range. */
  lemma FirstInRangeSkip(vals: seq<nat>, m: nat, lo: nat, hi: nat)
    requires m < |vals| && FirstInRange(vals[..m], lo, hi) == None && !(lo <= vals[m] <= hi)
    ensures FirstInRange(vals[..m + 1], lo, hi) == None
  {
    FirstInRangeAppend(vals[..m], [vals[m]], lo, hi);
    assert vals[..m + 1] == vals[..m] + [vals[m]];
  }

  /** The inner loop of a broad block: the matches of one pattern, first value in range. */
  method FirstValueInRange(vals: seq<nat>, lo: nat, hi: nat) returns (r: Option<nat>)
    ensures r == FirstInRange(vals, lo, hi)
  {
    r := None;
    for m := 0 to |vals|
      invariant FirstInRange(vals[..m], lo, hi) == None
    {
      var value := vals[m];
      if lo <= value <= hi {
        FirstInRangeFound(vals, m, lo, hi);
        return Some(value);
      }
      FirstInRangeSkip(vals, m, lo, hi);
    }
    assert vals[..|vals|] == vals;
  }

  /** The loops of one broad block: patterns in order, each pattern's matches in order, first value in range. */
  method FirstMatchInRange(s: string, pats: seq<Pattern>, lo: nat, hi: nat) returns (r: Option<nat>)
    ensures r == FirstInRange(PatternValues(s, pats), lo, hi)
  {
    r := None;
    for k := 0 to |pats|
      invariant r.None?
      invariant FirstInRange(PatternValues(s, pats[..k]), lo, hi) == None
    {
      var matches := MatchValues(s, pats[k], 0);
      r := FirstValueInRange(matches, lo, hi);
      NextPattern(s, pats, k, lo, hi);
      if r.Some? {
        RestOfValues(s, pats, k, |pats|, lo, hi);
        assert pats[..|pats|] == pats;
        return;
      }
    }
    assert pats[..|pats|] == pats;
  }

  /** While no earlier pattern has yielded a value in range, the next pattern's first value in range decides. */
  lemma NextPattern(s: string, pats: seq<Pattern>, k: nat, lo: nat, hi: nat)
    requires k < |pats| && FirstInRange(PatternValues(s, pats[..k]), lo, hi) == None
    ensures FirstInRange(PatternValues(s, pats[..k + 1]), lo, hi) == FirstInRange(MatchValues(s, pats[k], 0), lo, hi)
  {
    PrefixValues(s, pats, k);
    FirstInRangeAppend(PatternValues(s, pats[..k]), MatchValues(s, pats[k], 0), lo, hi);
  }

  /** Once a prefix of the patterns yields a value in range, the patterns after it do not matter. */
  lemma {:induction false} RestOfValues(s: string, pats: seq<Pattern>, k: nat, n: nat, lo: nat, hi: nat)
    requires k < n <= |pats| && FirstInRange(PatternValues(s, pats[..k + 1]), lo, hi).Some?
    ensures FirstInRange(PatternValues(s, pats[..n]), lo, hi) == FirstInRange(PatternValues(s, pats[..k + 1]), lo, hi)
    decreases n
  {
    if n > k + 1 {
      RestOfValues(s, pats, k, n - 1, lo, hi);
      PrefixValues(s, pats, n - 1);
      FirstInRangeAppend(PatternValues(s, pats[..n - 1]), MatchValues(s, pats[n - 1], 0), lo, hi);
    }
  }

  lemma PrefixValues(s: string, pats: seq<Pattern>, k: nat)
    requires k < |pats|
    ensures PatternValues(s, pats[..k + 1]) == PatternValues(s, pats[..k]) + MatchValues(s, pats[k], 0)
  {
    assert pats[..k + 1][..k] == pats[..k];
  }

  /** What the broad patterns offer each field: the first match in its range. */
  function BroadOffer(clean: string): (r: LabValues)
    ensures Plausible(r)
  {
    LabValues(FirstInRange(PatternValues(clean, TotalPatterns), 100, 500),
              FirstInRange(PatternValues(clean, HdlPatterns), 20, 150),
              FirstInRange(PatternValues(clean, SystolicPatterns), 80, 250))
  }

  /** Runs only while fewer than three values were counted, and only fills empty fields. */
  function AfterBroadPatterns(clean: string, st: Scan): Scan {
    if st.found >= 3 then st else FillStep(st, BroadOffer(clean))
  }

  /** One block of the broad pass: an empty field takes the first match in range, and counts. */
  method BroadField(slot: Option<nat>, clean: string, pats: seq<Pattern>, lo: nat, hi: nat) returns (r: Option<nat>, added: nat)
    ensures r == FillIfEmpty(slot, FirstInRange(PatternValues(clean, pats), lo, hi))
    ensures added == Added(slot, r)
  {
    r, added := slot, 0;
    if slot.None? {
      var value := FirstMatchInRange(clean, pats, lo, hi);
      if value.Some? {
        r, added := value, 1;
      }
    }
  }

  /** The three blocks of the broad pass, each with its own patterns and range. */
  method BroadFields(st0: Scan, clean: string, totalPats: seq<Pattern>, hdlPats: seq<Pattern>, systolicPats: seq<Pattern>)
    returns (st: Scan)
    ensures st == FillStep(st0, LabValues(FirstInRange(PatternValues(clean, totalPats), 100, 500),
                                          FirstInRange(PatternValues(clean, hdlPats), 20, 150),
                                          FirstInRange(PatternValues(clean, systolicPats), 80, 250)))
  {
    var v := st0.values;
    var total, addTotal := BroadField(v.totalCholesterol, clean, totalPats, 100, 500);
    var hdl, addHdl := BroadField(v.hdlCholesterol, clean, hdlPats, 20, 150);
    var systolic, addSystolic := BroadField(v.systolicBP, clean, systolicPats, 80, 250);
    st := Scan(LabValues(total, hdl, systolic), st0.found + addTotal + addHdl + addSystolic);
  }

  method ScanBroadPatterns(clean: string, st0: Scan) returns (st: Scan)
    ensures st == AfterBroadPatterns(clean, st0)
  {
    st := st0;
    if st.found < 3 {
      st := BroadFields(st0, clean, TotalPatterns, HdlPatterns, SystolicPatterns);
    }
  }

  // ---------------------------------------------------------------------------
  // Pass 5: context windows around standalone numbers (ChatbotFlow.tsx 361-414)
  // ---------------------------------------------------------------------------

  /** The 50 characters before the first occurrence of `numStr`, and the 50 from it on. */
  function WindowBefore(clean: string, numStr: string): string {
    var idx := IndexOf(clean, numStr);
    Substring(clean, Max0(idx - 50), idx)
  }

  function WindowAfter(clean: string, numStr: string): string {
    var idx := IndexOf(clean, numStr);
    Substring(clean, idx, Min(|clean|, Max0(idx + 50)))
  }

  /** What a number offers given which fields its windows name: total 150-300, HDL 30-100, systolic 90-180. */
  function OfferNear(num: nat, cholesterolNearby: bool, hdlNearby: bool, pressureNearby: bool): (r: LabValues)
    ensures Plausible(r)
    ensures r.totalCholesterol.Some? <==> cholesterolNearby && 150 <= num <= 300
    ensures r.hdlCholesterol.Some? <==> hdlNearby && 30 <= num <= 100
    ensures r.systolicBP.Some? <==> pressureNearby && 90 <= num <= 180
    ensures forall f :: Slot(r, f).Some? ==> Slot(r, f) == Some(num)
  {
    LabValues(
      if 150 <= num <= 300 && cholesterolNearby then Some(num) else None,
      if 30 <= num <= 100 && hdlNearby then Some(num) else None,
      if 90 <= num <= 180 && pressureNearby then Some(num) else None)
  }

  /** What one number offers: each field whose name occurs in the window before or after it. */
  function ContextOffer(clean: string, numStr: string): (r: LabValues)
    requires AllDigits(numStr)
    ensures Plausible(r)
  {
    var before, after := WindowBefore(clean, numStr), WindowAfter(clean, numStr);
    OfferNear(DigitsValue(numStr), CholesterolContext(before) || CholesterolContext(after),
              HdlContext(before) || HdlContext(after), BloodPressureContext(before) || BloodPressureContext(after))
  }

  /** The standalone numbers of two or three digits, in text order. */
  function ContextNumbers(clean: string): (r: seq<string>)
    ensures forall i :: 0 <= i < |r| ==> AllDigits(r[i])
  {
    ShortTokens(Tokens(clean, 0))
  }

  function ContextOffers(clean: string): (r: seq<LabValues>)
    ensures |r| == |ContextNumbers(clean)| && AllPlausible(r)
  {
    var nums := ContextNumbers(clean);
    seq(|nums|, i requires 0 <= i < |nums| => ContextOffer(clean, nums[i]))
  }

  /** Runs only while fewer than two values were counted. */
  function AfterContext(clean: string, st: Scan): Scan {
    if st.found >= 2 then st else AfterOffers(ContextOffers(clean), st)
  }

  /** The three fills of one iteration of the context loop, once the windows have been read. */
  method FillNear(st0: Scan, num: nat, cholesterolNearby: bool, hdlNearby: bool, pressureNearby: bool) returns (st: Scan)
    ensures st == FillStep(st0, OfferNear(num, cholesterolNearby, hdlNearby, pressureNearby))
  {
    var total, addTotal := FillSlot(st0.values.totalCholesterol, if cholesterolNearby then Some(num) else None, 150, 300);
    var hdl, addHdl := FillSlot(st0.values.hdlCholesterol, if hdlNearby then Some(num) else None, 30, 100);
    var systolic, addSystolic := FillSlot(st0.values.systolicBP, if pressureNearby then Some(num) else None, 90, 180);
    st := Scan(LabValues(total, hdl, systolic), st0.found + addTotal + addHdl + addSystolic);
  }

  /** One iteration of the context loop. */
  method ContextNumber(clean: string, numStr: string, st0: Scan) returns (st: Scan)
    requires AllDigits(numStr)
    ensures st == FillStep(st0, ContextOffer(clean, numStr))
  {
    var num := DigitsValue(numStr);
    var before, after := WindowBefore(clean, numStr), WindowAfter(clean, numStr);
    var cholesterolNearby := CholesterolContext(before) || CholesterolContext(after);
    var hdlNearby := HdlContext(before) || HdlContext(after);
    var pressureNearby := BloodPressureContext(before) || BloodPressureContext(after);
    st := FillNear(st0, num, cholesterolNearby, hdlNearby, pressureNearby);
  }

  method ScanContext(clean: string, st0: Scan) returns (st: Scan)
    ensures st == AfterContext(clean, st0)
  {
    st := st0;
    if st.found < 2 {
      var numbers := ContextNumbers(clean);
      ghost var offers := ContextOffers(clean);
      for k := 0 to |numbers|
        invariant st == AfterOffers(offers[..k], st0)
      {
        assert offers[k] == ContextOffer(clean, numbers[k]);
        assert offers[..k + 1][..k] == offers[..k];
        st := ContextNumber(clean, numbers[k], st);
      }
      assert offers[..|numbers|] == offers;
    }
  }

  // ---------------------------------------------------------------------------
  // Pass 6: last-resort total cholesterol over the raw text (ChatbotFlow.tsx 417-440)
  // ---------------------------------------------------------------------------

  function FinalOffer(text: string): (r: LabValues)
    ensures Plausible(r)
  {
    LabValues(FirstInRange(PatternValues(text, FinalTotalPatterns), 100, 500), None, None)
  }

  /** Runs only when nothing was counted; it can only fill total cholesterol. */
  function AfterFinalCholesterol(text: string, st: Scan): Scan {
    if st.found != 0 then st else FillStep(st, FinalOffer(text))
  }

  method ScanFinalCholesterol(text: string, st0: Scan) returns (st: Scan)
    ensures st == AfterFinalCholesterol(text, st0)
  {
    st := st0;
    if st.found == 0 {
      // The source re-tests `!extractedValues.totalCholesterol` for every match; the field
      // cannot change while the loops run, so testing it once gives the same result.
      if st.values.totalCholesterol.None? {
        var value := FirstMatchInRange(text, FinalTotalPatterns, 100, 500);
        if value.Some? {
          st := Scan(st.values.(totalCholesterol := value), st.found + 1);
        }
      }
    }
  }

  // ---------------------------------------------------------------------------
  // The whole cascade
  // ---------------------------------------------------------------------------

  /** The values and the counter after the six passes over the document text. */
  function Extract(text: string): Scan {
    var lines := Lines(text);
    var s1 := AfterOffers(ExactOffers(lines), Scan(NoValues, 0));
    var v2 := AfterKeywordLines(KeywordReads(lines), s1.values);
    var v3 := AfterProximity(ProximityReads(lines), |lines|, v2);
    var clean := NormaliseSpaces(text);
    var s4 := AfterBroadPatterns(clean, Scan(v3, s1.found));
    var s5 := AfterContext(clean, s4);
    AfterFinalCholesterol(text, s5)
  }

  /** Plausibility and the counter bound survive one filling step. */
  lemma FillStepBounds(st: Scan, offer: LabValues)
    requires Plausible(st.values) && Plausible(offer) && st.found <= CountSet(st.values)
    ensures Plausible(FillStep(st, offer).values)
    ensures FillStep(st, offer).found <= CountSet(FillStep(st, offer).values)
  {
  }

  /** The three line passes store only plausible values, and the counter never exceeds the fields set. */
  lemma LinePassesBounds(lines: seq<string>)
    ensures var s1 := AfterOffers(ExactOffers(lines), Scan(NoValues, 0));
            var v3 := AfterProximity(ProximityReads(lines), |lines|, AfterKeywordLines(KeywordReads(lines), s1.values));
            Plausible(v3) && s1.found <= CountSet(v3)
  {
    var s0 := Scan(NoValues, 0);
    var s1 := AfterOffers(ExactOffers(lines), s0);
    OffersPlausible(ExactOffers(lines), s0);
    OffersCount(ExactOffers(lines), s0);
    var readings := KeywordReads(lines);
    var v2 := AfterKeywordLines(readings, s1.values);
    KeywordLinesLastWins(readings, s1.values, TotalCholesterol);
    KeywordLinesLastWins(readings, s1.values, HdlCholesterol);
    KeywordLinesLastWins(readings, s1.values, SystolicBP);
    ProximityLastWins(ProximityReads(lines), |lines|, v2);
  }

  /** The text passes keep plausibility and the counter bound. */
  lemma TextPassesBounds(text: string, st: Scan)
    requires Plausible(st.values) && st.found <= CountSet(st.values)
    ensures var s := AfterFinalCholesterol(text, AfterContext(NormaliseSpaces(text), AfterBroadPatterns(NormaliseSpaces(text), st)));
            Plausible(s.values) && s.found <= CountSet(s.values)
  {
    var clean := NormaliseSpaces(text);
    var s4 := AfterBroadPatterns(clean, st);
    if st.found < 3 {
      FillStepBounds(st, BroadOffer(clean));
    }
    var s5 := AfterContext(clean, s4);
    if s4.found < 2 {
      OffersPlausible(ContextOffers(clean), s4);
      OffersCount(ContextOffers(clean), s4);
    }
    if s5.found == 0 {
      FillStepBounds(s5, FinalOffer(text));
    }
  }

  /**
   * Every value the extractor stores lies in its plausible range (total 100-500, HDL 20-150,
   * systolic 80-250), and `foundValues` never exceeds the number of fields that hold a value.
   */
  lemma ExtractBounds(text: string)
    ensures Plausible(Extract(text).values)
    ensures Extract(text).found <= CountSet(Extract(text).values) <= 3
  {
    var lines := Lines(text);
    LinePassesBounds(lines);
    var s1 := AfterOffers(ExactOffers(lines), Scan(NoValues, 0));
    var v3 := AfterProximity(ProximityReads(lines), |lines|, AfterKeywordLines(KeywordReads(lines), s1.values));
    TextPassesBounds(text, Scan(v3, s1.found));
  }

  method ExtractLabValues(text: string) returns (st: Scan)
    ensures st == Extract(text)
    ensures Plausible(st.values)
    ensures st.found <= CountSet(st.values)
  {
    var lines := Lines(text);
    st := ScanExactLines(lines, Scan(NoValues, 0));
    var v := ScanKeywordLines(lines, st.values);
    v := ScanProximity(lines, v);
    var cleanText := NormaliseSpaces(text);
    st := ScanBroadPatterns(cleanText, Scan(v, st.found));
    st := ScanContext(cleanText, st);
    st := ScanFinalCholesterol(text, st);
    ExtractBounds(text);
  }
}
