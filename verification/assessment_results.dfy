/**
 * The results view of one assessment: the colour given to a risk category, when the
 * cardiologist search is offered, how the provider search answer is read, and how each
 * recommendation heading is formatted and decorated.
 */
module AssessmentResults {
  import opened Wrappers
  import opened Text
  import opened Json

  // ---------------------------------------------------------------------------
  // Risk colour
  // ---------------------------------------------------------------------------

  /** The bands the colour switch distinguishes. */
  datatype RiskBand = LowRisk | Borderline | Intermediate | HighRisk | Unrated

  /** The band of an already lower-cased category name, by the switch's case labels. */
  function LabelBand(name: string): RiskBand {
    if name == "low" then LowRisk
    else if name == "borderline" then Borderline
    else if name == "intermediate" then Intermediate
    else if name == "very high" || name == "very high risk" || name == "high" || name == "high risk" then HighRisk
    else Unrated
  }

  /** The band of `category?.toLowerCase()`; a missing category is unrated. */
  function Band(category: Option<string>): RiskBand {
    if category.None? then Unrated else LabelBand(LowerStr(category.value))
  }

  /** The colour classes of each band in the results view, written as text, background and border. */
  function ResultsPalette(b: RiskBand): string {
    match b
    case LowRisk => "text-green-600 bg-green-100 border-green-200"
    case Borderline => "text-yellow-600 bg-yellow-100 border-yellow-200"
    case Intermediate => "text-orange-600 bg-orange-100 border-orange-200"
    case HighRisk => "text-red-600 bg-red-100"
    case Unrated => "text-gray-600 bg-gray-100 border-gray-200"
  }

  /** The border class each band adds in the results view; the red band has none. */
  function BorderClass(b: RiskBand): string {
    match b
    case LowRisk => " border-green-200"
    case Borderline => " border-yellow-200"
    case Intermediate => " border-orange-200"
    case HighRisk => ""
    case Unrated => " border-gray-200"
  }

  /** `getRiskColor` of the results view, as its switch on the lower-cased category. */
  function ResultsRiskColor(category: Option<string>): (r: string)
    ensures r == ResultsPalette(Band(category))
  {
    if category.None? then "text-gray-600 bg-gray-100 border-gray-200"
    else
      var c := LowerStr(category.value);
      if c == "low" then "text-green-600 bg-green-100 border-green-200"
      else if c == "borderline" then "text-yellow-600 bg-yellow-100 border-yellow-200"
      else if c == "intermediate" then "text-orange-600 bg-orange-100 border-orange-200"
      else if c == "very high" || c == "very high risk" || c == "high" || c == "high risk" then "text-red-600 bg-red-100"
      else "text-gray-600 bg-gray-100 border-gray-200"
  }

  /** The colour depends on the category only up to letter case. */
  lemma RiskColorIgnoresCase(s: string)
    ensures ResultsRiskColor(Some(s)) == ResultsRiskColor(Some(LowerStr(s)))
  {
    LowerStrIdempotent(s);
  }

  // ---------------------------------------------------------------------------
  // When the cardiologist search is offered
  // ---------------------------------------------------------------------------

  const DiscussionMarker: string := "requires-discussion"

  /** `overall_recommendation?.toLowerCase().includes('requires-discussion')`, absent meaning hidden. */
  function ShouldShowCardiologistSearch(recommendation: Option<string>): (r: bool)
    ensures r <==> recommendation.Some? && exists q :: OccursAt(LowerStr(recommendation.value), q, DiscussionMarker)
  {
    if recommendation.None? then false
    else
      ContainsIff(LowerStr(recommendation.value), DiscussionMarker);
      ContainsCI(recommendation.value, DiscussionMarker)
  }

  /** The marker is found in any letter case and anywhere in the recommendation. */
  lemma SearchShownForMarker(before: string, marker: string, after: string)
    requires LowerStr(marker) == DiscussionMarker
    ensures ShouldShowCardiologistSearch(Some(before + marker + after))
  {
    var s := before + marker + after;
    var l := LowerStr(s);
    assert l[|before|..|before| + |marker|] == LowerStr(marker) by {
      forall k | 0 <= k < |marker|
        ensures l[|before| + k] == LowerStr(marker)[k]
      {
        assert s[|before| + k] == marker[k];
      }
    }
    assert OccursAt(l, |before|, DiscussionMarker);
  }

  // ---------------------------------------------------------------------------
  // Reading the provider search answer
  // ---------------------------------------------------------------------------

  /** How the webhook answered: the request or the body parse threw, a non-ok status, or a body. */
  datatype Reply = Threw | NotOk | Ok(data: Json)

  /** What the answer body is read as. */
  datatype Shape =
    | ProviderList(list: Json)  // the value handed to `setCardiologists`
    | NoProviders               // none of the three shapes
    | ReadThrows                // `data[0].name` read on a `null` first element

  /** A non-empty array, whose first element is then read. */
  predicate NonEmptyArray(data: Json) {
    data.JArr? && |data.items| > 0
  }

  /** Shape 1: a non-empty array whose first element has a truthy `name`. */
  predicate NamedArray(data: Json)
    requires NonEmptyArray(data) ==> !data.items[0].JNull?
  {
    NonEmptyArray(data) && PropTruthy(data.items[0], "name")
  }

  /** Shape 2: a value with a truthy `providers` field that is an array. */
  predicate WrappedProviders(data: Json) {
    Truthy(data) && PropTruthy(data, "providers") && Prop(data, "providers").value.JArr?
  }

  /** Shape 3: a non-empty array whose first element has a truthy `providers`. */
  predicate NestedProviders(data: Json)
    requires NonEmptyArray(data) ==> !data.items[0].JNull?
  {
    NonEmptyArray(data) && PropTruthy(data.items[0], "providers")
  }

  /** The three shape checks of the search, tried in order. */
  function ResponseShape(data: Json): (s: Shape)
    ensures s.ReadThrows? <==> NonEmptyArray(data) && data.items[0].JNull?
    ensures s.ProviderList? ==> Truthy(s.list)
    ensures s.NoProviders? ==> !NamedArray(data) && !WrappedProviders(data) && !NestedProviders(data)
  {
    if NonEmptyArray(data) && data.items[0].JNull? then ReadThrows
    else if NamedArray(data) then ProviderList(data)
    else if WrappedProviders(data) then ProviderList(Prop(data, "providers").value)
    else if NestedProviders(data) then ProviderList(Prop(data.items[0], "providers").value)
    else NoProviders
  }

  /** Shape 2 needs an object and shapes 1 and 3 an array, so only shape 1 versus 3 is an ordering choice. */
  lemma WrappedExcludesArrays(data: Json)
    requires WrappedProviders(data)
    ensures !NonEmptyArray(data)
    ensures ResponseShape(data) == ProviderList(data.fields["providers"])
  {
  }

  /** A first element that has both a name and a providers list makes the array itself the list. */
  lemma NamedArrayFirst(data: Json)
    requires NonEmptyArray(data) && data.items[0].JObj?
    requires "name" in data.items[0].fields && Truthy(data.items[0].fields["name"])
    ensures ResponseShape(data) == ProviderList(data)
  {
  }

  /** The nested list is taken only when the first element has no truthy name. */
  lemma NestedWhenUnnamed(data: Json)
    requires NonEmptyArray(data) && data.items[0].JObj?
    requires "name" !in data.items[0].fields
    requires "providers" in data.items[0].fields && Truthy(data.items[0].fields["providers"])
    ensures ResponseShape(data) == ProviderList(data.items[0].fields["providers"])
  {
  }

  const NoCardiologistsFound: string := "No cardiologists found in your area."
  const SearchFailed: string := "Failed to search for cardiologists. Please try again."
  const SearchErrored: string := "An error occurred while searching. Please try again."

  /** The list and error a search ends with. */
  datatype SearchOutcome = SearchOutcome(list: Json, error: string)

  /** The list and error a search leaves, starting from the cleared list and error. */
  function SearchResult(reply: Reply): (o: SearchOutcome)
    ensures o.error == "" <==> reply.Ok? && ResponseShape(reply.data).ProviderList?
    ensures o.error == "" ==> o.list == ResponseShape(reply.data).list
    ensures o.error != "" ==> o.list == JArr([]) && o.error in {NoCardiologistsFound, SearchFailed, SearchErrored}
    ensures o.error == SearchFailed <==> reply.NotOk?
    ensures o.error == NoCardiologistsFound <==> reply.Ok? && ResponseShape(reply.data).NoProviders?
  {
    match reply
    case Threw => SearchOutcome(JArr([]), SearchErrored)
    case NotOk => SearchOutcome(JArr([]), SearchFailed)
    case Ok(data) =>
      match ResponseShape(data)
      case ProviderList(list) => SearchOutcome(list, "")
      case NoProviders => SearchOutcome(JArr([]), NoCardiologistsFound)
      case ReadThrows => SearchOutcome(JArr([]), SearchErrored)
  }

  /** An object whose `providers` is an empty array is a found, empty list with no message. */
  lemma EmptyProvidersNoMessage()
    ensures SearchResult(Ok(JObj(map["providers" := JArr([])]))) == SearchOutcome(JArr([]), "")
  {
    var data := JObj(map["providers" := JArr([])]);
    assert PropTruthy(data, "providers");
  }

  /** The cardiologist search state of the results view. */
  class ResultsSearch {
    var zipCode: string
    var cardiologists: Json
    var searching: bool
    var completed: bool
    var searchError: string

    constructor()
      ensures zipCode == "" && cardiologists == JArr([]) && !searching && !completed && searchError == ""
    {
      zipCode := "";
      cardiologists := JArr([]);
      searching := false;
      completed := false;
      searchError := "";
    }

    /** The ZIP input's change handler. */
    method SetZipCode(zip: string)
      modifies this
      ensures zipCode == zip
      ensures cardiologists == old(cardiologists) && searching == old(searching)
      ensures completed == old(completed) && searchError == old(searchError)
    {
      zipCode := zip;
    }

    /**
     * `searchCardiologists`: nothing at all with an empty ZIP; otherwise clear the list and the
     * error, read the reply, and always end with the search not running and completed.
     */
    method SearchCardiologists(reply: Reply) returns (requested: bool)
      modifies this
      ensures requested <==> old(zipCode) != ""
      ensures zipCode == old(zipCode)
      ensures !requested ==> cardiologists == old(cardiologists) && searching == old(searching)
                             && completed == old(completed) && searchError == old(searchError)
      ensures requested ==> cardiologists == SearchResult(reply).list && searchError == SearchResult(reply).error
      ensures requested ==> !searching && completed
    {
      if zipCode == "" {
        return false;
      }
      requested := true;
      searching := true;
      completed := false;
      searchError := "";
      cardiologists := JArr([]);
      match reply {
        case Threw =>
          searchError := SearchErrored;
        case NotOk =>
          searchError := SearchFailed;
        case Ok(data) =>
          if NonEmptyArray(data) && data.items[0].JNull? {
            searchError := SearchErrored;
          } else if NamedArray(data) {
            cardiologists := data;
          } else if WrappedProviders(data) {
            cardiologists := Prop(data, "providers").value;
          } else if NestedProviders(data) {
            cardiologists := Prop(data.items[0], "providers").value;
          } else {
            searchError := NoCardiologistsFound;
          }
      }
      searching := false;
      completed := true;
    }
  }

  // ---------------------------------------------------------------------------
  // Recommendation headings
  // ---------------------------------------------------------------------------

  /** `.replace(/_/g, ' ')`. */
  function Underscores(s: string): (r: string)
    ensures |r| == |s|
    ensures forall i :: 0 <= i < |s| ==> r[i] == (if s[i] == '_' then ' ' else s[i])
  {
    seq(|s|, i requires 0 <= i < |s| => if s[i] == '_' then ' ' else s[i])
  }

  /** `.replace(/\b\w/g, l => l.toUpperCase())`: the first character of each word upper-cased. */
  function CapitaliseWords(s: string): (r: string)
    ensures |r| == |s|
    ensures forall i :: 0 <= i < |s| ==> r[i] == (if WordStartsAt(s, i) then Upper(s[i]) else s[i])
  {
    seq(|s|, i requires 0 <= i < |s| => if WordStartsAt(s, i) then Upper(s[i]) else s[i])
  }

  /** No word of `s` starts with a lower-case letter. */
  predicate WordsCapitalised(s: string) {
    forall i :: 0 <= i < |s| && WordStartsAt(s, i) ==> !IsLower(s[i])
  }

  /** `formatCategoryName`. */
  function FormatCategoryName(category: string): string {
    Trim(CapitaliseWords(Underscores(category)))
  }

  /** Upper-casing keeps a character a word character or not. */
  lemma UpperKeepsWordChar(c: char)
    ensures IsWordChar(Upper(c)) <==> IsWordChar(c)
  {
  }

  lemma {:induction false} CapitaliseWordsCapitalises(s: string)
    ensures WordsCapitalised(CapitaliseWords(s))
  {
    var r := CapitaliseWords(s);
    forall i | 0 <= i < |r| && WordStartsAt(r, i)
      ensures !IsLower(r[i])
    {
      UpperKeepsWordChar(s[i]);
      if i > 0 {
        UpperKeepsWordChar(s[i - 1]);
      }
      assert WordStartsAt(s, i);
    }
  }

  /** Trimming spaces off the ends keeps every word start a word start. */
  lemma {:induction false} TrimKeepsCapitals(s: string)
    requires WordsCapitalised(s)
    ensures WordsCapitalised(Trim(s))
  {
    var r := Trim(s);
    var a, b :| 0 <= a <= b <= |s| && r == s[a..b] && AllSpaces(s[..a]) && AllSpaces(s[b..]);
    forall i | 0 <= i < |r| && WordStartsAt(r, i)
      ensures !IsLower(r[i])
    {
      SliceWordStart(s, a, b, i);
    }
  }

  /** A word start inside a slice that follows only spaces is a word start of the whole string. */
  lemma SliceWordStart(s: string, a: nat, b: nat, i: nat)
    requires a <= b <= |s| && AllSpaces(s[..a])
    requires i < b - a && WordStartsAt(s[a..b], i)
    ensures WordStartsAt(s, a + i) && s[a..b][i] == s[a + i]
  {
    if i == 0 && a > 0 {
      assert s[..a][a - 1] == s[a - 1];
      SpaceIsNoWordChar(s[a - 1]);
    }
  }

  lemma SpaceIsNoWordChar(c: char)
    requires IsSpace(c)
    ensures !IsWordChar(c)
  {
  }

  /** Capitalising never brings an underscore back. */
  lemma CapitalisedHasNoUnderscore(category: string)
    ensures '_' !in CapitaliseWords(Underscores(category))
  {
    var u := Underscores(category);
    var c := CapitaliseWords(u);
    forall i | 0 <= i < |c| ensures c[i] != '_' {
      if WordStartsAt(u, i) {
        assert !IsLower(Upper(u[i]));
      }
    }
  }

  /** Trimming keeps only characters of the string it trims. */
  lemma TrimKeepsAbsent(s: string, x: char)
    requires x !in s
    ensures x !in Trim(s)
  {
    var r := Trim(s);
    var a, b :| 0 <= a <= b <= |s| && r == s[a..b] && AllSpaces(s[..a]) && AllSpaces(s[b..]);
    assert forall i :: 0 <= i < |r| ==> r[i] == s[a + i];
  }

  /** No underscore is left, and every word of the heading starts with a capital. */
  lemma FormatCategoryNameShape(category: string)
    ensures '_' !in FormatCategoryName(category)
    ensures WordsCapitalised(FormatCategoryName(category))
    ensures FormatCategoryName(category) == Trim(FormatCategoryName(category))
  {
    var u := Underscores(category);
    var c := CapitaliseWords(u);
    CapitalisedHasNoUnderscore(category);
    TrimKeepsAbsent(c, '_');
    CapitaliseWordsCapitalises(u);
    TrimKeepsCapitals(c);
    TrimIdempotent(c);
  }

  /** Formatting an already formatted heading changes nothing. */
  lemma {:induction false} FormatCategoryNameIdempotent(category: string)
    ensures FormatCategoryName(FormatCategoryName(category)) == FormatCategoryName(category)
  {
    var f := FormatCategoryName(category);
    FormatCategoryNameShape(category);
    assert Underscores(f) == f;
    assert CapitaliseWords(f) == f by {
      forall i | 0 <= i < |f| ensures CapitaliseWords(f)[i] == f[i] {
        if WordStartsAt(f, i) {
          assert !IsLower(f[i]);
        }
      }
    }
  }

  // ---------------------------------------------------------------------------
  // Recommendation icons
  // ---------------------------------------------------------------------------

  /** 🧘 🥗 🚬 💊 🧬 🍬 🩹 and the default 💡. */
  datatype Icon = Meditation | Salad | Cigarette | Pill | Dna | Candy | Bandage | Bulb

  /** `getIcon`: the first keyword found in the lower-cased category decides. */
  function GetIcon(category: string): Icon {
    var lower := LowerStr(category);
    if Contains(lower, "exercise") then Meditation
    else if Contains(lower, "nutrition") then Salad
    else if Contains(lower, "smoking") then Cigarette
    else if Contains(lower, "bp") || Contains(lower, "hypertension") then Pill
    else if Contains(lower, "cholesterol") then Dna
    else if Contains(lower, "diabetes") then Candy
    else if Contains(lower, "aspirin") then Bandage
    else Bulb
  }

  /** The keywords in priority order with their icons. */
  const IconRules: seq<(string, Icon)> :=
    [("exercise", Meditation), ("nutrition", Salad), ("smoking", Cigarette), ("bp", Pill),
     ("hypertension", Pill), ("cholesterol", Dna), ("diabetes", Candy), ("aspirin", Bandage)]

  /** Reference: the icon of the first rule from `k` on whose keyword occurs. */
  function FirstIcon(lower: string, k: nat): Icon
    requires k <= |IconRules|
    decreases |IconRules| - k
  {
    if k == |IconRules| then Bulb
    else if Contains(lower, IconRules[k].0) then IconRules[k].1
    else FirstIcon(lower, k + 1)
  }

  lemma GetIconByRules(category: string)
    ensures GetIcon(category) == FirstIcon(LowerStr(category), 0)
  {
    var rules := IconRules;
    assert rules[0].0 == "exercise" && rules[1].0 == "nutrition" && rules[2].0 == "smoking" && rules[3].0 == "bp";
    assert rules[4].0 == "hypertension" && rules[5].0 == "cholesterol" && rules[6].0 == "diabetes" && rules[7].0 == "aspirin";
  }

  /** The icon is that of the first keyword found. */
  lemma {:induction false} FirstIconWins(lower: string, k: nat, i: nat)
    requires k <= i < |IconRules| && Contains(lower, IconRules[i].0)
    requires forall j :: k <= j < i ==> !Contains(lower, IconRules[j].0)
    ensures FirstIcon(lower, k) == IconRules[i].1
    decreases i - k
  {
    if k < i {
      FirstIconWins(lower, k + 1, i);
    }
  }

  /** The default icon is shown exactly when no keyword occurs. */
  lemma {:induction false} FirstIconDefault(lower: string, k: nat)
    requires k <= |IconRules|
    ensures FirstIcon(lower, k) == Bulb <==> forall j :: k <= j < |IconRules| ==> !Contains(lower, IconRules[j].0)
    decreases |IconRules| - k
  {
    if k < |IconRules| {
      FirstIconDefault(lower, k + 1);
    }
  }

  /** The icon depends on the category only up to letter case. */
  lemma GetIconIgnoresCase(category: string)
    ensures GetIcon(LowerStr(category)) == GetIcon(category)
  {
    LowerStrIdempotent(category);
  }
}
