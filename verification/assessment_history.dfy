/**
 * The list of a patient's past assessments: its colours, which view it shows, the actions
 * each entry offers, deleting an entry, and its own cardiologist search.
 */
module AssessmentHistory {
  import opened Wrappers
  import opened Text
  import opened Json
  import opened AssessmentResults

  /** The parts of a stored assessment that this view and the dashboard look at. */
  datatype Assessment = Assessment(id: string, status: string, riskCategory: Option<string>)

  const PendingReview: string := "pending_review"

  // ---------------------------------------------------------------------------
  // Risk colour
  // ---------------------------------------------------------------------------

  /** Each bordered band's class list in the results view is the history's list and its border. */
  lemma GreenBorder()
    ensures "text-green-600 bg-green-100" + BorderClass(LowRisk) == ResultsPalette(LowRisk)
  {
  }

  lemma YellowBorder()
    ensures "text-yellow-600 bg-yellow-100" + BorderClass(Borderline) == ResultsPalette(Borderline)
  {
  }

  lemma OrangeBorder()
    ensures "text-orange-600 bg-orange-100" + BorderClass(Intermediate) == ResultsPalette(Intermediate)
  {
  }

  lemma GrayBorder()
    ensures "text-gray-600 bg-gray-100" + BorderClass(Unrated) == ResultsPalette(Unrated)
  {
  }

  /** `getRiskColor` of the history list: the results view's switch without border classes. */
  function HistoryRiskColor(category: Option<string>): (r: string)
    ensures r + BorderClass(Band(category)) == ResultsRiskColor(category)
  {
    GreenBorder(); YellowBorder(); OrangeBorder(); GrayBorder();
    if category.None? then "text-gray-600 bg-gray-100"
    else
      var c := LowerStr(category.value);
      if c == "low" then "text-green-600 bg-green-100"
      else if c == "borderline" then "text-yellow-600 bg-yellow-100"
      else if c == "intermediate" then "text-orange-600 bg-orange-100"
      else if c == "very high" || c == "very high risk" || c == "high" || c == "high risk" then "text-red-600 bg-red-100"
      else "text-gray-600 bg-gray-100"
  }

  /** The red band looks the same in both views; every other band differs by its border class only. */
  lemma HistoryColorIsResultsPrefix(category: Option<string>)
    ensures Band(category) == HighRisk <==> HistoryRiskColor(category) == ResultsRiskColor(category)
    ensures ResultsRiskColor(category)[..|HistoryRiskColor(category)|] == HistoryRiskColor(category)
  {
    var h := HistoryRiskColor(category);
    var b := BorderClass(Band(category));
    assert b == "" <==> Band(category) == HighRisk;
    assert (h + b)[..|h|] == h;
  }

  // ---------------------------------------------------------------------------
  // Which view is shown
  // ---------------------------------------------------------------------------

  datatype View = Editing(editing: Assessment) | Results(selected: Assessment) | List

  /** The editor wins over the results view, which wins over the list. */
  function HistoryView(editing: Option<Assessment>, selected: Option<Assessment>): (v: View)
    ensures v.Editing? <==> editing.Some?
    ensures v.Results? <==> editing.None? && selected.Some?
    ensures v.Editing? ==> v.editing == editing.value
    ensures v.Results? ==> v.selected == selected.value
  {
    if editing.Some? then Editing(editing.value)
    else if selected.Some? then Results(selected.value)
    else List
  }

  // ---------------------------------------------------------------------------
  // What each entry offers
  // ---------------------------------------------------------------------------

  datatype Badge = PendingBadge | ReviewedBadge

  /** The status badge and the buttons rendered for one entry. */
  datatype Actions = Actions(badge: Badge, edit: bool, view: bool, delete: bool)

  /**
   * The two branches on the status. The reviewed branch still carries the guards
   * `status !== 'pending_review'` and `status === 'pending_review'` on its buttons.
   */
  function EntryActions(status: string): (a: Actions)
    ensures a.badge == PendingBadge <==> status == PendingReview
    ensures a.edit <==> status == PendingReview
    ensures a.view <==> status != PendingReview
    ensures a.delete
  {
    if status == PendingReview then Actions(PendingBadge, true, false, true)
    else Actions(ReviewedBadge, status == PendingReview, status != PendingReview, true)
  }

  /** An entry offers exactly one of editing and viewing. */
  lemma EditOrViewNotBoth(status: string)
    ensures EntryActions(status).edit != EntryActions(status).view
  {
  }

  // ---------------------------------------------------------------------------
  // State
  // ---------------------------------------------------------------------------

  /** How the history's webhook call went. */
  datatype HistoryReply = HistoryThrew | HistoryNotOk | HistoryOk(data: Json)

  /** `data || []`: a falsy body becomes the empty list. */
  function OrEmptyList(data: Json): (r: Json)
    ensures Truthy(data) ==> r == data
    ensures !Truthy(data) ==> r == JArr([])
  {
    if Truthy(data) then data else JArr([])
  }

  class History {
    var selected: Option<Assessment>
    var editing: Option<Assessment>
    var deleteConfirmId: Option<string>
    var zipCode: string
    var cardiologists: Json
    var searching: bool

    constructor()
      ensures selected.None? && editing.None? && deleteConfirmId.None?
      ensures zipCode == "" && cardiologists == JArr([]) && !searching
    {
      selected := None;
      editing := None;
      deleteConfirmId := None;
      zipCode := "";
      cardiologists := JArr([]);
      searching := false;
    }

    function CurrentView(): View
      reads this
    {
      HistoryView(editing, selected)
    }

    /** The Edit button of a pending entry. */
    method EditAssessment(a: Assessment)
      modifies this
      ensures editing == Some(a) && CurrentView() == Editing(a)
      ensures selected == old(selected) && deleteConfirmId == old(deleteConfirmId)
      ensures zipCode == old(zipCode) && cardiologists == old(cardiologists) && searching == old(searching)
    {
      editing := Some(a);
    }

    /** The View button of a reviewed entry. */
    method ViewAssessment(a: Assessment)
      modifies this
      ensures selected == Some(a)
      ensures editing == old(editing) && deleteConfirmId == old(deleteConfirmId)
      ensures zipCode == old(zipCode) && cardiologists == old(cardiologists) && searching == old(searching)
      ensures old(editing).None? ==> CurrentView() == Results(a)
    {
      selected := Some(a);
    }

    /**
     * The editor's back button (`completed` false) and its two completion callbacks
     * (`completed` true): each closes the editor, and only a completion asks the parent to refresh.
     */
    method CloseEditor(completed: bool) returns (refreshRequested: bool)
      modifies this
      ensures editing.None?
      ensures refreshRequested == completed
      ensures selected == old(selected) && deleteConfirmId == old(deleteConfirmId)
      ensures zipCode == old(zipCode) && cardiologists == old(cardiologists) && searching == old(searching)
    {
      editing := None;
      refreshRequested := completed;
    }

    /** The results view's back button. */
    method CloseResults()
      modifies this
      ensures selected.None?
      ensures editing == old(editing) && deleteConfirmId == old(deleteConfirmId)
      ensures zipCode == old(zipCode) && cardiologists == old(cardiologists) && searching == old(searching)
    {
      selected := None;
    }

    /** The trash button of an entry asks for confirmation. */
    method AskDelete(id: string)
      modifies this
      ensures deleteConfirmId == Some(id)
      ensures selected == old(selected) && editing == old(editing)
      ensures zipCode == old(zipCode) && cardiologists == old(cardiologists) && searching == old(searching)
    {
      deleteConfirmId := Some(id);
    }

    /** The confirmation's Cancel button closes it and deletes nothing. */
    method CancelDelete()
      modifies this
      ensures deleteConfirmId.None?
      ensures selected == old(selected) && editing == old(editing)
      ensures zipCode == old(zipCode) && cardiologists == old(cardiologists) && searching == old(searching)
    {
      deleteConfirmId := None;
    }

    /** The ZIP input of the cardiologist search. */
    method SetZipCode(zip: string)
      modifies this
      ensures zipCode == zip
      ensures selected == old(selected) && editing == old(editing) && deleteConfirmId == old(deleteConfirmId)
      ensures cardiologists == old(cardiologists) && searching == old(searching)
    {
      zipCode := zip;
    }

    /**
     * `handleDeleteConfirm`: the delete callback is always called; when it returns, the
     * confirmation closes and the list is refreshed, and when it throws nothing changes.
     */
    method HandleDeleteConfirm(id: string, callbackThrows: bool) returns (deleted: string, refreshed: bool)
      modifies this
      ensures deleted == id
      ensures refreshed <==> !callbackThrows
      ensures deleteConfirmId == (if callbackThrows then old(deleteConfirmId) else None)
      ensures selected == old(selected) && editing == old(editing)
      ensures zipCode == old(zipCode) && cardiologists == old(cardiologists) && searching == old(searching)
    {
      deleted := id;
      refreshed := false;
      if !callbackThrows {
        deleteConfirmId := None;
        refreshed := true;
      }
    }

    /**
     * `searchCardiologists`: nothing with an empty ZIP; an ok answer replaces the list by
     * `data || []`, anything else keeps it; the search always ends not running.
     */
    method SearchCardiologists(reply: HistoryReply) returns (requested: bool)
      modifies this
      ensures requested <==> old(zipCode) != ""
      ensures !requested ==> cardiologists == old(cardiologists) && searching == old(searching)
      ensures requested ==> !searching
      ensures requested && reply.HistoryOk? ==> cardiologists == OrEmptyList(reply.data)
      ensures requested && !reply.HistoryOk? ==> cardiologists == old(cardiologists)
      ensures zipCode == old(zipCode) && selected == old(selected) && editing == old(editing)
      ensures deleteConfirmId == old(deleteConfirmId)
    {
      if zipCode == "" {
        return false;
      }
      requested := true;
      searching := true;
      if reply.HistoryOk? {
        if Truthy(reply.data) {
          cardiologists := reply.data;
        } else {
          cardiologists := JArr([]);
        }
      }
      searching := false;
    }
  }
}
