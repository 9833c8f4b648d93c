/**
 * The extractor on small documents: what it makes of the line formats the questionnaire
 * recognises, and a one-line report whose value is recognised and then not counted.
 */
module LabExamples {
  import opened Wrappers
  import opened Text
  import opened LabPatterns
  import opened LabExtractor

  /** The label of `Cholesterol 177` ends where the number starts. */
  lemma CholesterolLabel()
    ensures KeywordEnd("Cholesterol 177", 0, [Word("cholesterol"), Spaces]) == Some(12)
  {
    var s := "Cholesterol 177";
    CapitalisedCholesterol(s, 0);
    assert SkipSpaces(s, 12) == 12;
    assert SkipSpaces(s, 11) == 12;
    assert KeywordEnd(s, 12, []) == Some(12);
    assert KeywordEnd(s, 11, [Spaces]) == Some(12);
  }

  /** `Cholesterol 177` is read as 177 by the exact cholesterol line format. */
  lemma CholesterolLineRead()
    ensures ExactCholesterol("Cholesterol 177") == Some(177)
  {
    var s := "Cholesterol 177";
    CholesterolLabel();
    assert s[12..] == "177";
    assert DigitsValue("1") == 1 && DigitsValue("17") == 17 && DigitsValue("177") == 177;
  }

  /** `Cholesterol 177` on its own line offers total cholesterol 177 and nothing else. */
  lemma CholesterolLine()
    ensures ExactOffer("Cholesterol 177") == LabValues(Some(177), None, None)
  {
    var s := "Cholesterol 177";
    CholesterolLineRead();
    assert !WordAtCI(s, 0, "hdl") by { assert LowerStr(s[0..3])[0] == 'c'; }
    assert ExactHdlCholesterol(s) == None;
    CholesterolNoSlash(s);
    NoSlashPair(s);
  }

  /** `Cholesterol` and the space after it end where the number of `HDL Cholesterol 255` starts. */
  lemma HighHdlWordTail()
    ensures KeywordEnd("HDL Cholesterol 255", 4, [Word("cholesterol"), Spaces]) == Some(16)
  {
    var s := "HDL Cholesterol 255";
    CapitalisedCholesterol(s, 4);
    assert SkipSpaces(s, 16) == 16 && SkipSpaces(s, 15) == 16;
    assert KeywordEnd(s, 15, [Spaces]) == Some(16);
  }

  /** After `HDL`, the rest of the label of `HDL Cholesterol 255` ends where the number starts. */
  lemma HighHdlLabelTail()
    ensures KeywordEnd("HDL Cholesterol 255", 3, [Spaces, Word("cholesterol"), Spaces]) == Some(16)
  {
    var s := "HDL Cholesterol 255";
    HighHdlWordTail();
    assert SkipSpaces(s, 4) == 4 && SkipSpaces(s, 3) == 4;
  }

  /** The whole label of `HDL Cholesterol 255` ends where the number starts. */
  lemma HighHdlLabel()
    ensures KeywordEnd("HDL Cholesterol 255", 0, [Word("hdl"), Spaces, Word("cholesterol"), Spaces]) == Some(16)
  {
    UpperHdl("HDL Cholesterol 255", 0);
    HighHdlLabelTail();
  }

  /** `HDL Cholesterol 255` is read as 255 by the exact HDL line format. */
  lemma HighHdlLineRead()
    ensures ExactHdlCholesterol("HDL Cholesterol 255") == Some(255)
  {
    var s := "HDL Cholesterol 255";
    HighHdlLabel();
    assert s[16..] == "255";
    assert DigitsValue("2") == 2 && DigitsValue("25") == 25 && DigitsValue("255") == 255;
  }

  /** 255 is outside 20-150, so the line offers nothing at all. */
  lemma HighHdlLineRejected()
    ensures ExactOffer("HDL Cholesterol 255") == NoValues
  {
    var s := "HDL Cholesterol 255";
    HighHdlLineRead();
    assert !WordAtCI(s, 0, "cholesterol") by { assert LowerStr(s[0..11])[0] == 'h'; }
    assert ExactCholesterol(s) == None;
    HighHdlNoSlash(s);
    NoSlashPair(s);
  }

  /** `120/80` matches the blood-pressure pair at its start. */
  lemma PressurePairShape()
    ensures SlashPairAt("120/80", 0)
  {
    var s := "120/80";
    assert DigitRun(s, 3) == 0 && DigitRun(s, 2) == 1 && DigitRun(s, 1) == 2 && DigitRun(s, 0) == 3;
    assert SkipSpaces(s, 3) == 3 && SkipSpaces(s, 4) == 4;
    assert DigitRun(s, 6) == 0 && DigitRun(s, 5) == 1 && DigitRun(s, 4) == 2;
  }

  /** The first number of `120/80` is 120. */
  lemma PressureLeading()
    ensures LeadingNumber("120/80", 0) == 120
  {
    var s := "120/80";
    assert DigitRun(s, 3) == 0 && DigitRun(s, 2) == 1 && DigitRun(s, 1) == 2 && DigitRun(s, 0) == 3;
    assert s[0..3] == "120";
    assert DigitsValue("1") == 1 && DigitsValue("12") == 12 && DigitsValue("120") == 120;
  }

  /** `120/80` starts a blood-pressure pair whose first number is 120. */
  lemma PressurePairRead()
    ensures SlashPairAt("120/80", 0) && LeadingNumber("120/80", 0) == 120
  {
    PressurePairShape();
    PressureLeading();
  }

  /** `120/80` offers systolic pressure 120. */
  lemma PressurePairLine()
    ensures ExactOffer("120/80") == LabValues(None, None, Some(120))
  {
    var s := "120/80";
    assert !WordAtCI(s, 0, "hdl") by { assert LowerStr(s[0..3])[0] == '1'; }
    PressurePairRead();
    FirstSlashPairLeftmost(s, 0, 0);
  }

  /** The capitalised word folds to the lower-case keyword wherever it stands. */
  lemma CapitalisedCholesterol(s: string, p: nat)
    requires p + 11 <= |s| && s[p..p + 11] == "Cholesterol"
    ensures WordAtCI(s, p, "cholesterol")
  {
    assert LowerStr("Cholesterol") == "cholesterol";
  }

  lemma UpperHdl(s: string, p: nat)
    requires p + 3 <= |s| && s[p..p + 3] == "HDL"
    ensures WordAtCI(s, p, "hdl")
  {
    assert LowerStr("HDL") == "hdl";
  }

  lemma HighHdlNoSlash(s: string)
    requires s == "HDL Cholesterol 255"
    ensures forall i :: 0 <= i < |s| ==> s[i] != '/'
  {
  }

  lemma CholesterolNoSlash(s: string)
    requires s == "Cholesterol 177"
    ensures forall i :: 0 <= i < |s| ==> s[i] != '/'
  {
  }

  /** Without a slash no position starts a blood-pressure pair. */
  lemma NoSlashPair(s: string)
    requires forall i :: 0 <= i < |s| ==> s[i] != '/'
    ensures FirstSlashPair(s, 0).None?
  {
    FirstSlashPairFound(s, 0);
  }

  // ---------------------------------------------------------------------------
  // A one-line report: `HDL 45`
  // ---------------------------------------------------------------------------

  const HdlOnly: string := "HDL 45"

  lemma HdlOnlyChars()
    ensures |HdlOnly| == 6
    ensures forall i :: 0 <= i < 6 ==> HdlOnly[i] in {'H', 'D', 'L', ' ', '4', '5'}
    ensures forall i :: 0 <= i < 6 ==> Lower(HdlOnly[i]) in {'h', 'd', 'l', ' ', '4', '5'}
  {
  }

  lemma HdlOnlyTrimmed()
    ensures Trim(HdlOnly) == HdlOnly
  {
    var s := HdlOnly;
    assert SkipSpaces(s, 0) == 0;
    assert EndOfContent(s) == 6;
  }

  lemma HdlOnlyLines()
    ensures Lines(HdlOnly) == [HdlOnly]
  {
    HdlOnlyChars();
    IndexOfAbsent(HdlOnly, "\n", 0);
    assert SplitOnNewline(HdlOnly) == [HdlOnly];
    HdlOnlyTrimmed();
    assert TrimNonEmpty([HdlOnly][1..]) == [];
  }

  lemma HdlOnlyNormalised()
    ensures NormaliseSpaces(HdlOnly) == HdlOnly
  {
    HdlOnlyChars();
    CollapseRunsIdentity(HdlOnly);
    HdlOnlyTrimmed();
  }

  /** No exact line format fits `HDL 45`. */
  lemma HdlOnlyExact()
    ensures ExactOffer(HdlOnly) == NoValues
  {
    var s := HdlOnly;
    HdlOnlyChars();
    assert WordAtCI(s, 0, "hdl") by { assert LowerStr(s[0..3]) == "hdl"; }
    assert SkipSpaces(s, 4) == 4 && SkipSpaces(s, 3) == 4;
    assert KeywordEnd(s, 3, [Spaces, Word("cholesterol"), Spaces]) == None;
    NoSlashPair(s);
  }

  lemma HdlOnlyTokens()
    ensures Tokens(HdlOnly, 0) == ["45"]
  {
    var s := HdlOnly;
    assert DigitRun(s, 6) == 0 && DigitRun(s, 5) == 1 && DigitRun(s, 4) == 2;
    assert DigitRun(s, 3) == 0 && DigitRun(s, 2) == 0 && DigitRun(s, 1) == 0 && DigitRun(s, 0) == 0;
    assert Tokens(s, 6) == [];
    assert s[4..6] == "45";
    assert Tokens(s, 4) == ["45"];
    assert Tokens(s, 3) == ["45"];
    assert Tokens(s, 2) == ["45"];
    assert Tokens(s, 1) == ["45"];
  }

  lemma HdlOnlyLower()
    ensures LowerStr(HdlOnly) == "hdl 45"
  {
  }

  /** `HDL 45` names no reference range and holds no range of numbers. */
  lemma HdlOnlyNotReference()
    ensures !ReferenceLine(HdlOnly)
  {
    var lower := LowerStr(HdlOnly);
    HdlOnlyLower();
    IndexOfAbsent(lower, "normal range", 0);
    IndexOfAbsent(lower, "normal value", 0);
    IndexOfAbsent(lower, "reference range", 0);
    HdlOnlyChars();
    NoDashNoRange(HdlOnly);
  }

  /** Without a dash no position starts a range of numbers. */
  lemma NoDashNoRange(s: string)
    requires forall i :: 0 <= i < |s| ==> s[i] != '-'
    ensures !HasNumericRange(s, 0)
  {
    HasNumericRangeIff(s, 0);
  }

  /** `HDL 45` is an HDL label: it mentions HDL, but not cholesterol, LDL, "normal", "range" or "value". */
  lemma HdlOnlyLabels()
    ensures !TotalLabelLine(HdlOnly) && HdlLabelLine(HdlOnly) && !ContainsCI(HdlOnly, "value")
  {
    var lower := LowerStr(HdlOnly);
    HdlOnlyLower();
    assert IndexOf(lower, "hdl") == 0 by { assert lower[0..3] == "hdl"; }
    IndexOfAbsent(lower, "normal", 0);
    IndexOfAbsent(lower, "range", 0);
    IndexOfAbsent(lower, "value", 0);
    forall q | 0 <= q ensures !OccursAt(lower, q, "ldl") {
      if q + 3 <= |lower| {
        assert lower[q..q + 3][1] == lower[q + 1];
      }
    }
    IndexOfNone(lower, "ldl", 0);
  }

  /** The keyword pass sees an HDL label with the number 45 and nothing else. */
  lemma HdlOnlyKeywordRead()
    ensures ReadKeywordLine([HdlOnly], 0) == KeywordRead(false, false, true, false, Some(45), false, false)
  {
    HdlOnlyNotReference();
    HdlOnlyLabels();
    HdlOnlyTokens();
    assert DigitsValue("45") == 45 by { assert DigitsValue("4") == 4; }
    FirstLineRead(HdlOnly);
  }

  /** The first line of a document has no preceding context. */
  lemma FirstLineRead(line: string)
    ensures ReadKeywordLine([line], 0)
            == KeywordRead(ReferenceLine(line), TotalLabelLine(line), HdlLabelLine(line), ContainsCI(line, "value"),
                           FirstToken(line), false, false)
  {
    assert PrecedingContext([line], 0) == [];
  }

  lemma HdlOnlyTotalPatterns()
    ensures PatternValues(HdlOnly, TotalPatterns) == []
  {
    HdlOnlyChars();
    TotalInitials();
    PatternsAbsent(HdlOnly, TotalPatterns, {'h', 'd', 'l', ' ', '4', '5'});
  }

  lemma HdlOnlyFinalPatterns()
    ensures PatternValues(HdlOnly, FinalTotalPatterns) == []
  {
    HdlOnlyChars();
    TotalInitials();
    PatternsAbsent(HdlOnly, FinalTotalPatterns, {'h', 'd', 'l', ' ', '4', '5'});
  }

  lemma HdlOnlySystolicPatterns()
    ensures PatternValues(HdlOnly, SystolicPatterns) == []
  {
    HdlOnlyChars();
    SystolicInitials();
    PatternsAbsent(HdlOnly, SystolicPatterns, {'h', 'd', 'l', ' ', '4', '5'});
  }

  lemma HdlOnlyContextNumbers()
    ensures ContextNumbers(HdlOnly) == ["45"]
    ensures DigitsValue("45") == 45
  {
    HdlOnlyTokens();
    assert DigitsValue("4") == 4;
  }

  /** On a one-line document the exact pass is a single filling step. */
  lemma OneLineExact(line: string, st: Scan)
    ensures AfterOffers(ExactOffers([line]), st) == FillStep(st, ExactOffer(line))
  {
    assert ExactOffers([line]) == [ExactOffer(line)];
  }

  /** On a one-line document the keyword pass is a single line step. */
  lemma OneLineKeyword(line: string, v: LabValues)
    ensures AfterKeywordLines(KeywordReads([line]), v) == KeywordLineStep(ReadKeywordLine([line], 0), v)
  {
    assert KeywordReads([line]) == [ReadKeywordLine([line], 0)];
  }

  /** On a one-line document the proximity pass has no following line to read. */
  lemma OneLineProximity(line: string, v: LabValues)
    ensures AfterProximity(ProximityReads([line]), 1, v) == v
  {
    assert ProximitySets(ProximityReads([line]), 0) == None;
  }

  /** The three line passes leave HDL 45 stored and nothing counted. */
  lemma HdlOnlyLinePasses(s: string)
    requires s == HdlOnly
    ensures var lines := Lines(s);
            var s1 := AfterOffers(ExactOffers(lines), Scan(NoValues, 0));
            s1 == Scan(NoValues, 0)
            && AfterProximity(ProximityReads(lines), |lines|, AfterKeywordLines(KeywordReads(lines), s1.values))
               == LabValues(None, Some(45), None)
  {
    HdlOnlyLines();
    HdlOnlyExact();
    HdlOnlyKeywordRead();
    HdlLineOnly(s, KeywordRead(false, false, true, false, Some(45), false, false));
  }

  /** An HDL label line holding 45, and nothing else, stores HDL 45. */
  lemma HdlReadingStep(r: KeywordRead)
    requires !r.reference && !r.totalLabel && r.hdlLabel && !r.valueLine && r.number == Some(45)
    ensures KeywordLineStep(r, NoValues) == LabValues(None, Some(45), None)
  {
  }

  /** A document of one line that only an HDL keyword reading recognises. */
  lemma HdlLineOnly(line: string, r: KeywordRead)
    requires ExactOffer(line) == NoValues
    requires ReadKeywordLine([line], 0) == r
    requires !r.reference && !r.totalLabel && r.hdlLabel && !r.valueLine && r.number == Some(45)
    ensures var s1 := AfterOffers(ExactOffers([line]), Scan(NoValues, 0));
            s1 == Scan(NoValues, 0)
            && AfterProximity(ProximityReads([line]), 1, AfterKeywordLines(KeywordReads([line]), s1.values))
               == LabValues(None, Some(45), None)
  {
    var s0 := Scan(NoValues, 0);
    OneLineExact(line, s0);
    assert FillStep(s0, NoValues) == s0;
    OneLineKeyword(line, NoValues);
    HdlReadingStep(r);
    OneLineProximity(line, LabValues(None, Some(45), None));
  }

  /** A number below 90 is offered neither as total cholesterol nor as blood pressure. */
  lemma SmallNumberOffer(clean: string, numStr: string)
    requires AllDigits(numStr) && DigitsValue(numStr) < 90
    ensures ContextOffer(clean, numStr).totalCholesterol.None? && ContextOffer(clean, numStr).systolicBP.None?
  {
  }

  /** The text passes add nothing to HDL 45 and count nothing. */
  lemma HdlOnlyTextPasses(s: string)
    requires s == HdlOnly
    ensures var st := Scan(LabValues(None, Some(45), None), 0);
            AfterFinalCholesterol(s, AfterContext(s, AfterBroadPatterns(s, st))) == st
  {
    HdlOnlyTotalPatterns();
    HdlOnlyFinalPatterns();
    HdlOnlySystolicPatterns();
    HdlOnlyContextNumbers();
    var st := Scan(LabValues(None, Some(45), None), 0);
    BroadKeeps(s, st);
    ContextKeeps(s, st);
    FinalKeeps(s, st);
  }

  /** The broad pass adds nothing when its total and systolic patterns find nothing and HDL is set. */
  lemma BroadKeeps(clean: string, st: Scan)
    requires st.values.hdlCholesterol.Some?
    requires PatternValues(clean, TotalPatterns) == [] && PatternValues(clean, SystolicPatterns) == []
    ensures AfterBroadPatterns(clean, st) == st
  {
    var offer := BroadOffer(clean);
    var none: seq<nat> := [];
    assert FirstInRange(none, 100, 500) == None && FirstInRange(none, 80, 250) == None;
    assert offer.totalCholesterol == None && offer.systolicBP == None;
    OfferKeeps(st, offer);
  }

  /** A step whose offer only names fields that are already set changes nothing. */
  lemma OfferKeeps(st: Scan, offer: LabValues)
    requires offer.totalCholesterol.Some? ==> st.values.totalCholesterol.Some?
    requires offer.hdlCholesterol.Some? ==> st.values.hdlCholesterol.Some?
    requires offer.systolicBP.Some? ==> st.values.systolicBP.Some?
    ensures FillStep(st, offer) == st
  {
  }

  /** The context pass adds nothing when the only standalone number is below 90 and HDL is set. */
  lemma ContextKeeps(clean: string, st: Scan)
    requires st.values.hdlCholesterol.Some?
    requires |ContextNumbers(clean)| == 1 && DigitsValue(ContextNumbers(clean)[0]) < 90
    ensures AfterContext(clean, st) == st
  {
    var offers := ContextOffers(clean);
    assert offers == [offers[0]];
    SmallNumberOffer(clean, ContextNumbers(clean)[0]);
    assert AfterOffers(offers, st) == FillStep(st, offers[0]);
  }

  /** The last pass adds nothing when its patterns find nothing. */
  lemma FinalKeeps(text: string, st: Scan)
    requires PatternValues(text, FinalTotalPatterns) == []
    ensures AfterFinalCholesterol(text, st) == st
  {
    assert FinalOffer(text) == NoValues;
  }

  /**
   * `HDL 45` is recognised -- the keyword pass stores HDL 45 -- but no counting pass stores
   * anything, so `foundValues` stays 0 and the questionnaire discards the value.
   */
  lemma HdlOnlyRecognisedNotCounted(s: string)
    requires s == HdlOnly
    ensures Extract(s) == Scan(LabValues(None, Some(45), None), 0)
  {
    HdlOnlyLinePasses(s);
    HdlOnlyNormalised();
    HdlOnlyTextPasses(s);
  }
}
