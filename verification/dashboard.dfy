/**
 * The patient dashboard's own state: the assessments and consent rows it holds, the flags
 * derived from them, deleting one assessment, and revoking consent with all data.
 */
module Dashboard {
  import opened Json
  import opened AssessmentHistory
  import ChatbotFlow

  /** A consent row; `consent_given` is compared with `=== true`, so only the JSON `true` counts. */
  datatype ConsentRecord = ConsentRecord(consentGiven: Json)

  /** `assessments.some(a => a.status === 'pending_review')`. */
  function HasPendingAssessment(assessments: seq<Assessment>): (r: bool)
    ensures r <==> exists i :: 0 <= i < |assessments| && assessments[i].status == PendingReview
  {
    if assessments == [] then false
    else
      assert forall i :: 1 <= i < |assessments| ==> assessments[i] == assessments[1..][i - 1];
      assessments[0].status == PendingReview || HasPendingAssessment(assessments[1..])
  }

  /** `consentHistory.some(c => c.consent_given === true)`. */
  function HasConsent(consentHistory: seq<ConsentRecord>): (r: bool)
    ensures r <==> exists i :: 0 <= i < |consentHistory| && consentHistory[i].consentGiven == JBool(true)
  {
    if consentHistory == [] then false
    else
      assert forall i :: 1 <= i < |consentHistory| ==> consentHistory[i] == consentHistory[1..][i - 1];
      consentHistory[0].consentGiven == JBool(true) || HasConsent(consentHistory[1..])
  }

  /** The chatbot opens on the pending step whenever the dashboard holds a pending assessment. */
  lemma PendingAssessmentOpensPending(assessments: seq<Assessment>, consentHistory: seq<ConsentRecord>, i: nat)
    requires i < |assessments| && assessments[i].status == PendingReview
    ensures ChatbotFlow.InitialStep(HasPendingAssessment(assessments), |assessments| > 0, HasConsent(consentHistory)) == ChatbotFlow.Pending
  {
  }

  /** `prev.filter(a => a.id !== id)`. */
  function RemoveId(assessments: seq<Assessment>, id: string): (r: seq<Assessment>)
    ensures |r| <= |assessments|
    ensures forall a :: a in r <==> a in assessments && a.id != id
  {
    if assessments == [] then []
    else if assessments[0].id == id then RemoveId(assessments[1..], id)
    else [assessments[0]] + RemoveId(assessments[1..], id)
  }

  /** Filtering a concatenation filters each part in place, so the kept entries keep their order. */
  lemma {:induction false} RemoveIdAppend(a: seq<Assessment>, b: seq<Assessment>, id: string)
    ensures RemoveId(a + b, id) == RemoveId(a, id) + RemoveId(b, id)
  {
    if a != [] {
      assert (a + b)[0] == a[0];
      assert (a + b)[1..] == a[1..] + b;
      RemoveIdAppend(a[1..], b, id);
    } else {
      assert a + b == b;
    }
  }

  /** A list without the id is left exactly as it was. */
  lemma {:induction false} RemoveIdAbsent(assessments: seq<Assessment>, id: string)
    requires forall i :: 0 <= i < |assessments| ==> assessments[i].id != id
    ensures RemoveId(assessments, id) == assessments
  {
    if assessments != [] {
      RemoveIdAbsent(assessments[1..], id);
    }
  }

  /** Deleting the same id twice is the same as deleting it once. */
  lemma RemoveIdIdempotent(assessments: seq<Assessment>, id: string)
    ensures RemoveId(RemoveId(assessments, id), id) == RemoveId(assessments, id)
  {
    var r := RemoveId(assessments, id);
    forall i | 0 <= i < |r| ensures r[i].id != id {
      assert r[i] in r;
    }
    RemoveIdAbsent(r, id);
  }

  /** How a supabase delete went: no error, an error object with its message, or a thrown value as text. */
  datatype DeleteReply = Deleted | DeleteFailed(message: string) | DeleteThrew(shown: string)

  const DeleteAssessmentFailed: string := "Failed to delete assessment: "
  const DeleteAssessmentErrored: string := "An error occurred while deleting the assessment"
  const DeleteAssessmentsFailed: string := "Failed to delete assessments: "
  const DeleteConsentFailed: string := "Failed to delete consent history: "
  const DeleteDataErrored: string := "An error occurred while deleting your data: "

  /** The error `handleRevokeConfirm` leaves when one of its two deletes fails. */
  function RevokeStepError(reply: DeleteReply, failedPrefix: string): string
    requires !reply.Deleted?
  {
    if reply.DeleteFailed? then failedPrefix + reply.message else DeleteDataErrored + reply.shown
  }

  class DashboardState {
    const signedIn: bool
    var assessments: seq<Assessment>
    var consentHistory: seq<ConsentRecord>
    var loading: bool
    var error: string
    var showRevokeModal: bool

    constructor(signedIn: bool, assessments: seq<Assessment>, consentHistory: seq<ConsentRecord>)
      ensures this.signedIn == signedIn && this.assessments == assessments && this.consentHistory == consentHistory
      ensures !loading && error == "" && !showRevokeModal
    {
      this.signedIn := signedIn;
      this.assessments := assessments;
      this.consentHistory := consentHistory;
      loading := false;
      error := "";
      showRevokeModal := false;
    }

    /** The revoke button is rendered exactly when some consent row says `true`. */
    function RevokeButtonShown(): (r: bool)
      reads this
      ensures r <==> exists i :: 0 <= i < |consentHistory| && consentHistory[i].consentGiven == JBool(true)
    {
      HasConsent(consentHistory)
    }

    /**
     * `handleDeleteAssessment`: with a user, delete remotely; on success drop every entry with
     * that id locally, otherwise keep the list and show the error.
     */
    method HandleDeleteAssessment(id: string, reply: DeleteReply) returns (requested: bool)
      modifies this
      ensures requested <==> signedIn
      ensures requested && reply.Deleted? ==> assessments == RemoveId(old(assessments), id) && error == old(error)
      ensures requested && reply.DeleteFailed? ==> assessments == old(assessments) && error == DeleteAssessmentFailed + reply.message
      ensures requested && reply.DeleteThrew? ==> assessments == old(assessments) && error == DeleteAssessmentErrored
      ensures !requested ==> assessments == old(assessments) && error == old(error)
      ensures consentHistory == old(consentHistory) && loading == old(loading) && showRevokeModal == old(showRevokeModal)
    {
      if !signedIn {
        return false;
      }
      requested := true;
      match reply {
        case Deleted =>
          assessments := RemoveId(assessments, id);
        case DeleteFailed(message) =>
          error := DeleteAssessmentFailed + message;
        case DeleteThrew(_) =>
          error := DeleteAssessmentErrored;
      }
    }

    /** `revokeConsentAndDeleteData` only opens the confirmation. */
    method RevokeConsentAndDeleteData()
      modifies this
      ensures showRevokeModal
      ensures assessments == old(assessments) && consentHistory == old(consentHistory)
      ensures loading == old(loading) && error == old(error)
    {
      showRevokeModal := true;
    }

    /** The confirmation's Cancel button closes it and clears the error; no data changes. */
    method CancelRevoke()
      modifies this
      ensures !showRevokeModal && error == ""
      ensures assessments == old(assessments) && consentHistory == old(consentHistory) && loading == old(loading)
    {
      showRevokeModal := false;
      error := "";
    }

    /**
     * `handleRevokeConfirm`: delete the assessments, then the consent history, stopping at the
     * first failure; only when both succeed are both lists emptied and the confirmation closed.
     */
    method HandleRevokeConfirm(assessmentsReply: DeleteReply, consentReply: DeleteReply)
      returns (assessmentsDeleteCalled: bool, consentDeleteCalled: bool)
      modifies this
      ensures assessmentsDeleteCalled <==> signedIn
      ensures consentDeleteCalled <==> signedIn && assessmentsReply.Deleted?
      ensures signedIn ==> !loading
      ensures !signedIn ==> loading == old(loading) && error == old(error)
      ensures signedIn && !assessmentsReply.Deleted? ==> error == RevokeStepError(assessmentsReply, DeleteAssessmentsFailed)
      ensures consentDeleteCalled && !consentReply.Deleted? ==> error == RevokeStepError(consentReply, DeleteConsentFailed)
      ensures consentDeleteCalled && consentReply.Deleted? ==>
                assessments == [] && consentHistory == [] && !showRevokeModal && error == ""
      ensures !(consentDeleteCalled && consentReply.Deleted?) ==>
                assessments == old(assessments) && consentHistory == old(consentHistory) && showRevokeModal == old(showRevokeModal)
    {
      assessmentsDeleteCalled, consentDeleteCalled := false, false;
      if !signedIn {
        return;
      }
      loading := true;
      assessmentsDeleteCalled := true;
      if !assessmentsReply.Deleted? {
        error := RevokeStepError(assessmentsReply, DeleteAssessmentsFailed);
        loading := false;
        return;
      }
      consentDeleteCalled := true;
      if !consentReply.Deleted? {
        error := RevokeStepError(consentReply, DeleteConsentFailed);
        loading := false;
        return;
      }
      assessments := [];
      consentHistory := [];
      showRevokeModal := false;
      error := "";
      loading := false;
    }
  }

  /** After a successful revoke nothing is pending and no consent is left, so the chatbot starts at the intro. */
  lemma RevokedStartsAtIntro(assessments: seq<Assessment>, consentHistory: seq<ConsentRecord>)
    requires assessments == [] && consentHistory == []
    ensures ChatbotFlow.InitialStep(HasPendingAssessment(assessments), |assessments| > 0, HasConsent(consentHistory)) == ChatbotFlow.Intro
  {
  }
}
