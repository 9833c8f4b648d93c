/**
 * The risk questionnaire of the chatbot: the step it opens on, the field validators, the guarded
 * step advance, the jump back to the first step with an error, and the outcome of reading a lab
 * report file (the value scan itself lives in LabExtractor).
 */
module ChatbotFlow {
  import opened Wrappers
  import opened Text
  import LabExtractor
  import LabExamples

  datatype Step =
    | Intro | Consent | MoreInfo | Declined | Pending | NewAssessmentPrompt
    | Age | Gender | Race | Smoker | Diabetes | FamilyHistory | BloodPressure
    | BpMedication | CholesterolMedication | LabData | Review | Complete

  /** The keys of `AssessmentData`. */
  datatype DataField =
    | AgeField | GenderField | RaceField | SmokerField | DiabetesField | FamilyHistoryField
    | HighBPField | BpMedicationField | CholesterolMedicationField
    | SystolicBPField | TotalCholesterolField | HdlCholesterolField

  /** A value stored under a key: absent keys and keys set to `undefined` read as `Undefined`. */
  datatype Value = Undefined | Number(n: int) | Str(s: string) | Flag(b: bool)

  /** JavaScript truthiness. */
  predicate Truthy(v: Value) {
    match v
    case Undefined => false
    case Number(n) => n != 0
    case Str(s) => s != ""
    case Flag(b) => b
  }

  /** The partial record the questionnaire fills in; `{ ...prev, [field]: value }` is map update. */
  type AssessmentData = map<DataField, Value>

  function Get(d: AssessmentData, f: DataField): Value {
    if f in d then d[f] else Undefined
  }

  function NumberOf(v: Value): Option<int> {
    if v.Number? then Some(v.n) else None
  }

  /** The key name as the source spells it. */
  function FieldName(f: DataField): string {
    match f
    case AgeField => "age"
    case GenderField => "gender"
    case RaceField => "race"
    case SmokerField => "smoker"
    case DiabetesField => "diabetes"
    case FamilyHistoryField => "familyHistory"
    case HighBPField => "highBP"
    case BpMedicationField => "bpMedication"
    case CholesterolMedicationField => "cholesterolMedication"
    case SystolicBPField => "systolicBP"
    case TotalCholesterolField => "totalCholesterol"
    case HdlCholesterolField => "hdlCholesterol"
  }

  // ---------------------------------------------------------------- initial step

  /** The step the chatbot opens on. */
  function InitialStep(hasPendingAssessment: bool, hasCompletedAssessments: bool, hasConsent: bool): (s: Step)
    ensures s == Pending <==> hasPendingAssessment
    ensures s == NewAssessmentPrompt <==> !hasPendingAssessment && hasCompletedAssessments && hasConsent
    ensures s == Age <==> !hasPendingAssessment && !hasCompletedAssessments && hasConsent
    ensures s == Intro <==> !hasPendingAssessment && !hasConsent
  {
    if hasPendingAssessment then Pending
    else if hasCompletedAssessments && hasConsent then NewAssessmentPrompt
    else if hasConsent then Age
    else Intro
  }

  // ---------------------------------------------------------------- validation

  const AgeError := "Please enter a valid age between 45 and 85"
  const GenderError := "Please select your gender"
  const RaceError := "Please select your race"
  const SmokerError := "Please indicate if you smoke"
  const DiabetesError := "Please indicate if you have diabetes"
  const SystolicError := "Please enter a valid systolic blood pressure (70-250)"
  const TotalCholesterolError := "Please enter a valid total cholesterol (100-500 mg/dL)"
  const HdlCholesterolError := "Please enter a valid HDL cholesterol (20-100 mg/dL)"

  /** The accepted range of each numeric field, as a table independent of the validators. */
  function Bounds(f: DataField): Option<(int, int)> {
    match f
    case AgeField => Some((45, 85))
    case SystolicBPField => Some((70, 250))
    case TotalCholesterolField => Some((100, 500))
    case HdlCholesterolField => Some((20, 100))
    case _ => None
  }

  predicate InBounds(f: DataField, value: Option<int>)
    requires Bounds(f).Some?
  {
    value.Some? && Bounds(f).value.0 <= value.value <= Bounds(f).value.1
  }

  function RangeError(f: DataField): string
    requires Bounds(f).Some?
  {
    match f
    case AgeField => AgeError
    case SystolicBPField => SystolicError
    case TotalCholesterolField => TotalCholesterolError
    case HdlCholesterolField => HdlCholesterolError
  }

  /**
   * `validateField`: a missing or zero value, or one outside the field's range, is an error; the
   * fields without a range never are.
   */
  function ValidateField(f: DataField, value: Option<int>): (r: Option<string>)
    ensures Bounds(f).None? ==> r.None?
    ensures Bounds(f).Some? ==> (r.None? <==> InBounds(f, value))
    ensures r.Some? ==> Bounds(f).Some? && r.value == RangeError(f)
  {
    var missing := value.None? || value.value == 0;
    match f
    case AgeField =>
      if missing || value.value < 45 || value.value > 85 then Some(AgeError) else None
    case SystolicBPField =>
      if missing || value.value < 70 || value.value > 250 then Some(SystolicError) else None
    case TotalCholesterolField =>
      if missing || value.value < 100 || value.value > 500 then Some(TotalCholesterolError) else None
    case HdlCholesterolField =>
      if missing || value.value < 20 || value.value > 100 then Some(HdlCholesterolError) else None
    case _ => None
  }

  /** The checks of `validateAssessmentData`, in the order its errors are pushed. */
  datatype Check = AgeCheck | GenderCheck | RaceCheck | SmokerCheck | DiabetesCheck
                 | SystolicCheck | TotalCholesterolCheck | HdlCholesterolCheck

  const CheckOrder: seq<Check> :=
    [AgeCheck, GenderCheck, RaceCheck, SmokerCheck, DiabetesCheck, SystolicCheck, TotalCholesterolCheck, HdlCholesterolCheck]

  function CheckedField(c: Check): DataField {
    match c
    case AgeCheck => AgeField
    case GenderCheck => GenderField
    case RaceCheck => RaceField
    case SmokerCheck => SmokerField
    case DiabetesCheck => DiabetesField
    case SystolicCheck => SystolicBPField
    case TotalCholesterolCheck => TotalCholesterolField
    case HdlCholesterolCheck => HdlCholesterolField
  }

  function CheckError(c: Check): string {
    match c
    case AgeCheck => AgeError
    case GenderCheck => GenderError
    case RaceCheck => RaceError
    case SmokerCheck => SmokerError
    case DiabetesCheck => DiabetesError
    case SystolicCheck => SystolicError
    case TotalCholesterolCheck => TotalCholesterolError
    case HdlCholesterolCheck => HdlCholesterolError
  }

  /** Numeric fields must lie in their range; gender and race must be non-empty; the two flags defined. */
  predicate Fails(d: AssessmentData, c: Check) {
    var f := CheckedField(c);
    var v := Get(d, f);
    if Bounds(f).Some? then !InBounds(f, NumberOf(v))
    else if c == GenderCheck || c == RaceCheck then !Truthy(v)
    else v.Undefined?
  }

  /** The error a check contributes: none, or its message. */
  function Issue(d: AssessmentData, c: Check): seq<string> {
    if Fails(d, c) then [CheckError(c)] else []
  }

  /** The errors of the failing checks, in `CheckOrder`. */
  function ValidationErrors(d: AssessmentData): seq<string> {
    Issue(d, AgeCheck) + Issue(d, GenderCheck) + Issue(d, RaceCheck) + Issue(d, SmokerCheck)
    + Issue(d, DiabetesCheck) + Issue(d, SystolicCheck) + Issue(d, TotalCholesterolCheck)
    + Issue(d, HdlCholesterolCheck)
  }

  /** A record ready for the risk calculation, spelled out field by field. */
  predicate Acceptable(d: AssessmentData) {
    NumberOf(Get(d, AgeField)).Some? && 45 <= NumberOf(Get(d, AgeField)).value <= 85
    && Get(d, GenderField) != Undefined && Get(d, GenderField) != Str("") && Get(d, GenderField) != Flag(false)
    && Get(d, GenderField) != Number(0)
    && Get(d, RaceField) != Undefined && Get(d, RaceField) != Str("") && Get(d, RaceField) != Flag(false)
    && Get(d, RaceField) != Number(0)
    && Get(d, SmokerField) != Undefined && Get(d, DiabetesField) != Undefined
    && NumberOf(Get(d, SystolicBPField)).Some? && 70 <= NumberOf(Get(d, SystolicBPField)).value <= 250
    && NumberOf(Get(d, TotalCholesterolField)).Some? && 100 <= NumberOf(Get(d, TotalCholesterolField)).value <= 500
    && NumberOf(Get(d, HdlCholesterolField)).Some? && 20 <= NumberOf(Get(d, HdlCholesterolField)).value <= 100
  }

  /** One `if (...) errors.push(message)` of `validateAssessmentData`, with the source's test. */
  method CheckOne(d: AssessmentData, c: Check, errors: seq<string>) returns (r: seq<string>)
    ensures r == errors + Issue(d, c)
  {
    r := errors;
    match c
    case AgeCheck =>
      var age := NumberOf(Get(d, AgeField));
      if age.None? || age.value == 0 || age.value < 45 || age.value > 85 { r := r + [AgeError]; }
    case GenderCheck =>
      if !Truthy(Get(d, GenderField)) { r := r + [GenderError]; }
    case RaceCheck =>
      if !Truthy(Get(d, RaceField)) { r := r + [RaceError]; }
    case SmokerCheck =>
      if Get(d, SmokerField).Undefined? { r := r + [SmokerError]; }
    case DiabetesCheck =>
      if Get(d, DiabetesField).Undefined? { r := r + [DiabetesError]; }
    case SystolicCheck =>
      var systolic := NumberOf(Get(d, SystolicBPField));
      if systolic.None? || systolic.value == 0 || systolic.value < 70 || systolic.value > 250 { r := r + [SystolicError]; }
    case TotalCholesterolCheck =>
      var total := NumberOf(Get(d, TotalCholesterolField));
      if total.None? || total.value == 0 || total.value < 100 || total.value > 500 { r := r + [TotalCholesterolError]; }
    case HdlCholesterolCheck =>
      var hdl := NumberOf(Get(d, HdlCholesterolField));
      if hdl.None? || hdl.value == 0 || hdl.value < 20 || hdl.value > 100 { r := r + [HdlCholesterolError]; }
  }

  /** `validateAssessmentData`: the checks run in the source's order, each pushing its error. */
  method ValidateAssessmentData(d: AssessmentData) returns (errors: seq<string>)
    ensures errors == ValidationErrors(d)
  {
    errors := [];
    errors := CheckOne(d, AgeCheck, errors);
    assert errors == Issue(d, AgeCheck);
    errors := CheckOne(d, GenderCheck, errors);
    errors := CheckOne(d, RaceCheck, errors);
    errors := CheckOne(d, SmokerCheck, errors);
    errors := CheckOne(d, DiabetesCheck, errors);
    errors := CheckOne(d, SystolicCheck, errors);
    errors := CheckOne(d, TotalCholesterolCheck, errors);
    errors := CheckOne(d, HdlCholesterolCheck, errors);
  }

  /** Every failing check reports its error, and there is at most one error per check. */
  lemma ValidationErrorsMembers(d: AssessmentData, c: Check)
    ensures Fails(d, c) ==> CheckError(c) in ValidationErrors(d)
    ensures |ValidationErrors(d)| <= |CheckOrder|
  {
  }

  /** No errors exactly when the record is acceptable. */
  lemma ValidationEmptyIff(d: AssessmentData)
    ensures ValidationErrors(d) == [] <==> Acceptable(d)
  {
  }

  /** Family history, high blood pressure and the medication flags never produce an error. */
  lemma UncheckedFieldsIgnored(d: AssessmentData, f: DataField, v: Value)
    requires f in {FamilyHistoryField, HighBPField, BpMedicationField, CholesterolMedicationField}
    ensures ValidationErrors(d[f := v]) == ValidationErrors(d)
  {
    forall c: Check ensures Get(d[f := v], CheckedField(c)) == Get(d, CheckedField(c)) {
    }
  }

  /** The field validator and the record validator agree on every numeric field. */
  lemma FieldAgreesWithRecord(d: AssessmentData, c: Check)
    requires c in {AgeCheck, SystolicCheck, TotalCholesterolCheck, HdlCholesterolCheck}
    ensures ValidateField(CheckedField(c), NumberOf(Get(d, CheckedField(c)))) == (if Fails(d, c) then Some(CheckError(c)) else None)
  {
  }

  // ---------------------------------------------------------------- validation errors

  /** `errors.some(error => error.includes(word))`. */
  predicate Mentions(errors: seq<string>, word: string) {
    exists i :: 0 <= i < |errors| && Contains(errors[i], word)
  }

  /** `handleValidationError`: go back to the step of the first keyword some error mentions. */
  function ValidationErrorStep(errors: seq<string>, step: Step): Step {
    if Mentions(errors, "age") then Age
    else if Mentions(errors, "gender") then Gender
    else if Mentions(errors, "race") then Race
    else if Mentions(errors, "smoke") then Smoker
    else if Mentions(errors, "diabetes") then Diabetes
    else if Mentions(errors, "blood pressure") then LabData
    else if Mentions(errors, "cholesterol") then LabData
    else step
  }

  /** The keywords and their steps, in priority order. */
  const ErrorRoutes: seq<(string, Step)> :=
    [("age", Age), ("gender", Gender), ("race", Race), ("smoke", Smoker), ("diabetes", Diabetes),
     ("blood pressure", LabData), ("cholesterol", LabData)]

  /** Reference: the step of the first route from `k` on whose keyword is mentioned. */
  function FirstRoute(errors: seq<string>, k: nat): Option<Step>
    requires k <= |ErrorRoutes|
    decreases |ErrorRoutes| - k
  {
    if k == |ErrorRoutes| then None
    else if Mentions(errors, ErrorRoutes[k].0) then Some(ErrorRoutes[k].1)
    else FirstRoute(errors, k + 1)
  }

  /** No route is found exactly when no keyword from `k` on is mentioned. */
  lemma {:induction false} FirstRouteNone(errors: seq<string>, k: nat)
    requires k <= |ErrorRoutes|
    ensures FirstRoute(errors, k).None? <==> forall i :: k <= i < |ErrorRoutes| ==> !Mentions(errors, ErrorRoutes[i].0)
    decreases |ErrorRoutes| - k
  {
    if k < |ErrorRoutes| && !Mentions(errors, ErrorRoutes[k].0) {
      FirstRouteNone(errors, k + 1);
    }
  }

  /** The route found is that of the first mentioned keyword. */
  lemma {:induction false} FirstRouteFirst(errors: seq<string>, k: nat, i: nat)
    requires k <= i < |ErrorRoutes| && Mentions(errors, ErrorRoutes[i].0)
    requires forall j :: k <= j < i ==> !Mentions(errors, ErrorRoutes[j].0)
    ensures FirstRoute(errors, k) == Some(ErrorRoutes[i].1)
    decreases i - k
  {
    if k < i {
      FirstRouteFirst(errors, k + 1, i);
    }
  }

  lemma ValidationErrorStepRoutes(errors: seq<string>, step: Step)
    ensures ValidationErrorStep(errors, step) == FirstRoute(errors, 0).GetOr(step)
  {
    var routes := ErrorRoutes;
    assert routes[0].0 == "age" && routes[1].0 == "gender" && routes[2].0 == "race" && routes[3].0 == "smoke";
    assert routes[4].0 == "diabetes" && routes[5].0 == "blood pressure" && routes[6].0 == "cholesterol";
  }

  /** An age error on screen leads back to the age step, whatever else is listed. */
  lemma AgeErrorLeadsToAge(errors: seq<string>, step: Step)
    requires AgeError in errors
    ensures ValidationErrorStep(errors, step) == Age
  {
    var i :| 0 <= i < |errors| && errors[i] == AgeError;
    assert OccursAt(AgeError, 21, "age");
    IndexOfFromFirst(AgeError, "age", 0);
  }

  // ---------------------------------------------------------------- step advance

  /** The question steps in the order the questionnaire asks them. */
  const QuestionOrder: seq<Step> :=
    [Age, Gender, Race, Smoker, Diabetes, FamilyHistory, BloodPressure, BpMedication, CholesterolMedication, LabData]

  /** The field a question step asks for. */
  function StepField(step: Step): Option<DataField> {
    match step
    case Age => Some(AgeField)
    case Gender => Some(GenderField)
    case Race => Some(RaceField)
    case Smoker => Some(SmokerField)
    case Diabetes => Some(DiabetesField)
    case FamilyHistory => Some(FamilyHistoryField)
    case BloodPressure => Some(HighBPField)
    case BpMedication => Some(BpMedicationField)
    case CholesterolMedication => Some(CholesterolMedicationField)
    case _ => None
  }

  /** Age, gender and race must be truthy; the yes/no answers only defined. */
  predicate Answered(step: Step, d: AssessmentData)
    requires StepField(step).Some?
  {
    var v := Get(d, StepField(step).value);
    if step in {Age, Gender, Race} then Truthy(v) else !v.Undefined?
  }

  datatype Progress = Progress(step: Step, data: AssessmentData)

  /**
   * `handleFormSubmit`: advance when the current step's field is answered; a "no" to high blood
   * pressure records `bpMedication = false` and skips its question. Submitting from `review` sends
   * the assessment (see `SubmitsAssessment`) and leaves the progress as it is.
   */
  function FormSubmit(p: Progress): (r: Progress) {
    var d := p.data;
    match p.step
    case Age => if Truthy(Get(d, AgeField)) then p.(step := Gender) else p
    case Gender => if Truthy(Get(d, GenderField)) then p.(step := Race) else p
    case Race => if Truthy(Get(d, RaceField)) then p.(step := Smoker) else p
    case Smoker => if !Get(d, SmokerField).Undefined? then p.(step := Diabetes) else p
    case Diabetes => if !Get(d, DiabetesField).Undefined? then p.(step := FamilyHistory) else p
    case FamilyHistory => if !Get(d, FamilyHistoryField).Undefined? then p.(step := BloodPressure) else p
    case BloodPressure =>
      if Get(d, HighBPField).Undefined? then p
      else if Truthy(Get(d, HighBPField)) then p.(step := BpMedication)
      else Progress(CholesterolMedication, d[BpMedicationField := Flag(false)])
    case BpMedication => if !Get(d, BpMedicationField).Undefined? then p.(step := CholesterolMedication) else p
    case CholesterolMedication =>
      if !Get(d, CholesterolMedicationField).Undefined? then p.(step := LabData) else p
    case _ => p
  }

  predicate SubmitsAssessment(step: Step) { step == Review }

  /** Whether answering `step` with `d` skips the next question. */
  predicate SkipsNext(step: Step, d: AssessmentData) {
    step == BloodPressure && !Truthy(Get(d, HighBPField))
  }

  /**
   * An answered question moves to the next one in `QuestionOrder` (two ahead after a "no" to high
   * blood pressure); an unanswered one stays put. Only the skip changes the data.
   */
  lemma FormSubmitFollowsOrder(p: Progress, i: nat)
    requires i < |QuestionOrder| - 1 && p.step == QuestionOrder[i]
    ensures StepField(p.step).Some?
    ensures Answered(p.step, p.data) && SkipsNext(p.step, p.data) ==>
              FormSubmit(p) == Progress(QuestionOrder[i + 2], p.data[BpMedicationField := Flag(false)])
    ensures Answered(p.step, p.data) && !SkipsNext(p.step, p.data) ==> FormSubmit(p) == p.(step := QuestionOrder[i + 1])
    ensures !Answered(p.step, p.data) ==> FormSubmit(p) == p
  {
  }

  /** Steps outside the question sequence are left alone, `review` included. */
  lemma FormSubmitOtherSteps(p: Progress)
    requires StepField(p.step).None?
    ensures FormSubmit(p) == p
  {
  }

  /** `{ ...prev, [field]: value }` followed by the delayed auto-advance of new assessments. */
  function AfterUpdate(p: Progress, f: DataField, v: Value, editing: bool): (r: Progress)
    ensures Get(r.data, f) == v
  {
    var d := p.data[f := v];
    if editing then Progress(p.step, d)
    else
      match p.step
      case Gender => if f == GenderField && Truthy(v) then Progress(Race, d) else Progress(p.step, d)
      case Race => if f == RaceField && Truthy(v) then Progress(Smoker, d) else Progress(p.step, d)
      case Smoker => if f == SmokerField && !v.Undefined? then Progress(Diabetes, d) else Progress(p.step, d)
      case Diabetes => if f == DiabetesField && !v.Undefined? then Progress(FamilyHistory, d) else Progress(p.step, d)
      case FamilyHistory =>
        if f == FamilyHistoryField && !v.Undefined? then Progress(BloodPressure, d) else Progress(p.step, d)
      case BloodPressure =>
        if f == HighBPField && !v.Undefined? then
          if Truthy(v) then Progress(BpMedication, d)
          else Progress(CholesterolMedication, d[BpMedicationField := Flag(false)])
        else Progress(p.step, d)
      case BpMedication =>
        if f == BpMedicationField && !v.Undefined? then Progress(CholesterolMedication, d) else Progress(p.step, d)
      case CholesterolMedication =>
        if f == CholesterolMedicationField && !v.Undefined? then Progress(LabData, d) else Progress(p.step, d)
      case _ => Progress(p.step, d)
  }

  /**
   * Answering the current question (other than age) in a new assessment lands exactly where
   * submitting the form after that answer would.
   */
  lemma AutoAdvanceMatchesSubmit(p: Progress, v: Value)
    requires StepField(p.step).Some? && p.step != Age
    ensures AfterUpdate(p, StepField(p.step).value, v, false)
            == FormSubmit(Progress(p.step, p.data[StepField(p.step).value := v]))
  {
  }

  /** Answering a field other than the current step's, or while editing, never moves. */
  lemma UpdateStaysPut(p: Progress, f: DataField, v: Value, editing: bool)
    requires editing || StepField(p.step) != Some(f)
    ensures AfterUpdate(p, f, v, editing) == Progress(p.step, p.data[f := v])
  {
  }

  /** `prev.filter(error => !error.toLowerCase().includes(field.toLowerCase()))`. */
  function ClearFieldErrors(errors: seq<string>, f: DataField): (r: seq<string>)
    ensures |r| <= |errors|
    ensures forall e :: e in r <==> e in errors && !ContainsCI(e, LowerStr(FieldName(f)))
    decreases |errors|
  {
    if errors == [] then []
    else
      var rest := ClearFieldErrors(errors[..|errors| - 1], f);
      var e := errors[|errors| - 1];
      assert forall x :: x in errors <==> x in errors[..|errors| - 1] || x == e;
      if ContainsCI(e, LowerStr(FieldName(f))) then rest else rest + [e]
  }

  /** Filtering a concatenation filters each part in place, so the kept errors keep their order and repeats. */
  lemma {:induction false} ClearFieldErrorsAppend(a: seq<string>, b: seq<string>, f: DataField)
    ensures ClearFieldErrors(a + b, f) == ClearFieldErrors(a, f) + ClearFieldErrors(b, f)
    decreases |b|
  {
    if b == [] {
      assert a + b == a;
    } else {
      var b' := b[..|b| - 1];
      assert (a + b)[..|a + b| - 1] == a + b';
      assert b[..|b| - 1] == b';
      ClearFieldErrorsAppend(a, b', f);
    }
  }

  /** A single error is kept exactly when it does not mention the field. */
  lemma ClearFieldErrorsOne(e: string, f: DataField)
    ensures ClearFieldErrors([e], f) == if ContainsCI(e, LowerStr(FieldName(f))) then [] else [e]
  {
    assert [e][..0] == [];
  }

  // ---------------------------------------------------------------- lab report file

  /** The file handed to the upload: its MIME type and the text its reader produces, if any. */
  datatype LabFile = LabFile(mimeType: string, readText: Option<string>)

  datatype Reader = ImageReader | PdfReader | WordReader | TextReader

  const PdfType := "application/pdf"
  const WordType := "application/vnd.openxmlformats-" + "officedocument." + "wordprocessingml.document"

  /** The reader the MIME type selects; `None` throws "Unsupported file type". */
  function ChooseReader(mimeType: string): Option<Reader> {
    if OccursAt(mimeType, 0, "image/") then Some(ImageReader)
    else if mimeType == PdfType then Some(PdfReader)
    else if mimeType == WordType then Some(WordReader)
    else if OccursAt(mimeType, 0, "text/") || mimeType == "" then Some(TextReader)
    else None
  }

  const ImageReadError := "\U{274C} Error reading image file. Please try a clearer image or enter values manually."
  const PdfReadError := "\U{274C} Error reading PDF file. Please try a text-based PDF or enter values manually."
  const WordReadError := "\U{274C} Error reading Word document. Please try a different format or enter values manually."
  const FileReadError := "\U{274C} Error reading file. Please enter your lab values manually below."
  const NothingFound :=
    "\U{26A0}\U{FE0F} Could not automatically extract lab values from your file. Please enter them manually below. Make sure the file contains clear cholesterol and blood pressure values."

  /** The message of the `catch` block, chosen by the MIME type alone. */
  function ReadErrorMessage(mimeType: string): (m: string)
    ensures m in {ImageReadError, PdfReadError, WordReadError, FileReadError}
  {
    if OccursAt(mimeType, 0, "image/") then ImageReadError
    else if mimeType == PdfType then PdfReadError
    else if Contains(mimeType, "word") then WordReadError
    else FileReadError
  }

  /** Each reader's failure is reported under its own kind of file. */
  lemma ReadErrorPerReader(mimeType: string)
    requires ChooseReader(mimeType).Some?
    ensures ChooseReader(mimeType) == Some(ImageReader) ==> ReadErrorMessage(mimeType) == ImageReadError
    ensures ChooseReader(mimeType) == Some(PdfReader) ==> ReadErrorMessage(mimeType) == PdfReadError
    ensures ChooseReader(mimeType) == Some(WordReader) ==> ReadErrorMessage(mimeType) == WordReadError
    ensures ChooseReader(mimeType) == Some(TextReader) && !Contains(mimeType, "word") ==>
              ReadErrorMessage(mimeType) == FileReadError
  {
    if mimeType == WordType {
      assert !OccursAt(mimeType, 0, "image/") by { assert mimeType[0] == 'a'; }
      assert OccursAt(mimeType, 46, "word") by {
        var front, back := "application/vnd.openxmlformats-" + "officedocument.", "wordprocessingml.document";
        assert |front| == 46 && mimeType == front + back;
        assert mimeType[46..50] == back[..4];
      }
      IndexOfFromFirst(mimeType, "word", 0);
    }
  }

  /** An unsupported type throws before any reader runs; its message depends on `word` alone. */
  lemma ReadErrorUnsupported(mimeType: string)
    requires ChooseReader(mimeType).None?
    ensures ReadErrorMessage(mimeType) == if Contains(mimeType, "word") then WordReadError else FileReadError
  {
  }

  /** The three stored lab values over the record: `{ ...prev, ...extractedValues }`. */
  function MergeLabValues(d: AssessmentData, v: LabExtractor.LabValues): (r: AssessmentData)
    ensures forall f :: f !in {TotalCholesterolField, HdlCholesterolField, SystolicBPField} ==> Get(r, f) == Get(d, f)
  {
    var d1 := if v.totalCholesterol.Some? then d[TotalCholesterolField := Number(v.totalCholesterol.value)] else d;
    var d2 := if v.hdlCholesterol.Some? then d1[HdlCholesterolField := Number(v.hdlCholesterol.value)] else d1;
    if v.systolicBP.Some? then d2[SystolicBPField := Number(v.systolicBP.value)] else d2
  }

  /** Reads a lab field back: a stored value shows up, an unset one leaves the old entry. */
  lemma MergeSetsFound(d: AssessmentData, v: LabExtractor.LabValues)
    ensures Get(MergeLabValues(d, v), TotalCholesterolField) ==
            (if v.totalCholesterol.Some? then Number(v.totalCholesterol.value) else Get(d, TotalCholesterolField))
    ensures Get(MergeLabValues(d, v), HdlCholesterolField) ==
            (if v.hdlCholesterol.Some? then Number(v.hdlCholesterol.value) else Get(d, HdlCholesterolField))
    ensures Get(MergeLabValues(d, v), SystolicBPField) ==
            (if v.systolicBP.Some? then Number(v.systolicBP.value) else Get(d, SystolicBPField))
  {
  }

  /** The parts of the success message, in the order the source lists them. */
  function FoundItems(v: LabExtractor.LabValues): (items: seq<string>)
    ensures |items| == LabExtractor.CountSet(v)
  {
    (if v.totalCholesterol.Some? then ["Total Cholesterol: " + NatToString(v.totalCholesterol.value)] else [])
    + (if v.hdlCholesterol.Some? then ["HDL: " + NatToString(v.hdlCholesterol.value)] else [])
    + (if v.systolicBP.Some? then ["Systolic BP: " + NatToString(v.systolicBP.value)] else [])
  }

  function FoundMessage(st: LabExtractor.Scan): string {
    "\U{2705} Found " + NatToString(st.found) + " lab value(s): " + Join(FoundItems(st.values), ", ")
  }

  /** What the upload leaves behind: the record and the parse message. */
  datatype Outcome = Outcome(data: AssessmentData, message: string)

  function ParseOutcome(d: AssessmentData, file: LabFile): Outcome {
    if ChooseReader(file.mimeType).None? || file.readText.None? then Outcome(d, ReadErrorMessage(file.mimeType))
    else
      var st := LabExtractor.Extract(file.readText.value);
      if st.found > 0 then Outcome(MergeLabValues(d, st.values), FoundMessage(st))
      else Outcome(d, NothingFound)
  }

  /**
   * Every value merged into the record lies in its plausible range, and at least one lab field
   * is set when the success message is shown.
   */
  lemma MergedValuesPlausible(d: AssessmentData, file: LabFile)
    requires ChooseReader(file.mimeType).Some? && file.readText.Some?
    requires LabExtractor.Extract(file.readText.value).found > 0
    ensures var st := LabExtractor.Extract(file.readText.value);
            ParseOutcome(d, file) == Outcome(MergeLabValues(d, st.values), FoundMessage(st))
            && LabExtractor.Plausible(st.values) && FoundItems(st.values) != []
  {
    LabExtractor.ExtractBounds(file.readText.value);
  }

  lemma TextPlainReader()
    ensures ChooseReader("text/plain") == Some(TextReader)
  {
    assert OccursAt("text/plain", 0, "text/");
    assert !OccursAt("text/plain", 0, "image/") by { assert "text/plain"[0..6][0] == 't'; }
    assert |WordType| > 10;
  }

  /** An `HDL 45` text file is recognised, but nothing is counted, so the record is untouched. */
  lemma HdlOnlyFileDiscarded(d: AssessmentData, text: string)
    requires text == "HDL 45"
    ensures ParseOutcome(d, LabFile("text/plain", Some(text))) == Outcome(d, NothingFound)
  {
    TextPlainReader();
    LabExamples.HdlOnlyRecognisedNotCounted(text);
  }

  /** The `try`/`catch` of `parseLabFile`: pick the reader, scan its text, merge what was counted. */
  method ReadLabFile(d: AssessmentData, file: LabFile) returns (r: Outcome)
    ensures r == ParseOutcome(d, file)
  {
    var reader := ChooseReader(file.mimeType);
    if reader.None? || file.readText.None? {
      return Outcome(d, ReadErrorMessage(file.mimeType));
    }
    var st := LabExtractor.ExtractLabValues(file.readText.value);
    if st.found > 0 {
      r := Outcome(MergeLabValues(d, st.values), FoundMessage(st));
    } else {
      r := Outcome(d, NothingFound);
    }
  }

  /** The chatbot component's own state. */
  class Chatbot {
    var step: Step
    var data: AssessmentData
    var validationErrors: seq<string>
    var fileParseMessage: string
    var isParsingFile: bool
    const editing: bool

    /**
     * The component as it stands once mounted. When an assessment is being edited, the effect
     * that loads its answers has run: the answers are the edited ones and the step is the age
     * question. Otherwise the step is the `useState` initialiser's and there are no answers.
     */
    constructor (hasPendingAssessment: bool, hasCompletedAssessments: bool, hasConsent: bool,
                 editingInputs: Option<AssessmentData>)
      ensures editingInputs.None? ==>
                step == InitialStep(hasPendingAssessment, hasCompletedAssessments, hasConsent) && data == map[]
      ensures editingInputs.Some? ==> step == Age && data == editingInputs.value
      ensures validationErrors == [] && fileParseMessage == "" && !isParsingFile
      ensures editing == editingInputs.Some?
    {
      if editingInputs.Some? {
        step := Age;
        data := editingInputs.value;
      } else {
        step := InitialStep(hasPendingAssessment, hasCompletedAssessments, hasConsent);
        data := map[];
      }
      validationErrors := [];
      fileParseMessage := "";
      isParsingFile := false;
      editing := editingInputs.Some?;
    }

    /** `updateAssessmentData`, with the delayed auto-advance taken as having fired. */
    method UpdateAssessmentData(f: DataField, v: Value)
      modifies this
      ensures Progress(step, data) == AfterUpdate(Progress(old(step), old(data)), f, v, editing)
      ensures validationErrors == ClearFieldErrors(old(validationErrors), f)
      ensures fileParseMessage == old(fileParseMessage) && isParsingFile == old(isParsingFile)
    {
      var p := AfterUpdate(Progress(step, data), f, v, editing);
      step, data := p.step, p.data;
      validationErrors := ClearFieldErrors(validationErrors, f);
    }

    /** `handleFormSubmit`; `submits` is the call to `submitAssessment`. */
    method HandleFormSubmit() returns (submits: bool)
      modifies this
      ensures Progress(step, data) == FormSubmit(Progress(old(step), old(data)))
      ensures submits == SubmitsAssessment(old(step))
      ensures validationErrors == old(validationErrors)
      ensures fileParseMessage == old(fileParseMessage) && isParsingFile == old(isParsingFile)
    {
      var p := FormSubmit(Progress(step, data));
      submits := step == Review;
      step, data := p.step, p.data;
    }

    method HandleValidationError()
      modifies this
      ensures step == ValidationErrorStep(old(validationErrors), old(step))
      ensures data == old(data) && validationErrors == old(validationErrors)
      ensures fileParseMessage == old(fileParseMessage) && isParsingFile == old(isParsingFile)
    {
      step := ValidationErrorStep(validationErrors, step);
    }

    /** `parseLabFile` from the point where the reader has produced its text. */
    method ParseLabFile(file: LabFile)
      modifies this
      ensures Outcome(data, fileParseMessage) == ParseOutcome(old(data), file)
      ensures !isParsingFile
      ensures step == old(step) && validationErrors == old(validationErrors)
    {
      StartParsing();
      var outcome := ReadLabFile(data, file);
      FinishParsing(outcome);
    }

    /** The upload starts: the spinner shows and the previous parse message goes away. */
    method StartParsing()
      modifies this
      ensures isParsingFile && fileParseMessage == ""
      ensures data == old(data) && step == old(step) && validationErrors == old(validationErrors)
    {
      isParsingFile := true;
      fileParseMessage := "";
    }

    /** The outcome is stored, and the `finally` block turns the spinner off on every path. */
    method FinishParsing(outcome: Outcome)
      modifies this
      ensures data == outcome.data && fileParseMessage == outcome.message && !isParsingFile
      ensures step == old(step) && validationErrors == old(validationErrors)
    {
      data, fileParseMessage := outcome.data, outcome.message;
      isParsingFile := false;
    }
  }
}
