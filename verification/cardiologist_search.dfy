/**
 * The stand-alone cardiologist search form: the ZIP gate, the edge function call and the
 * result-count label.
 */
module CardiologistSearch {
  import opened Wrappers
  import opened Json

  const ZipTooShort: string := "Please enter a 5-digit ZIP code."
  const InvocationFailed: string := "Invocation failed"
  const SomethingWentWrong: string := "Something went wrong."

  /** The ZIP gate `!zip || zip.length < 5`: it looks at the length only. */
  predicate ZipRejected(zip: string) {
    zip == "" || |zip| < 5
  }

  /** Any five characters pass the gate, digits or not. */
  lemma ZipLengthOnly(zip: string)
    ensures !ZipRejected(zip) <==> |zip| >= 5
  {
  }

  /**
   * How `supabase.functions.invoke` went: data (possibly `null`), an error object with its
   * message, or a thrown value whose `message`, if any, is given.
   */
  datatype Invocation = InvokeOk(data: Option<Json>) | InvokeError(message: string) | InvokeThrew(thrownMessage: Option<string>)

  /** `data?.providers ?? []`. */
  function ProvidersOf(data: Option<Json>): (r: Json)
    ensures r == JArr([]) || (data.Some? && data.value.JObj? && "providers" in data.value.fields && r == data.value.fields["providers"])
    ensures OptionalProp(data, "providers").None? ==> r == JArr([])
    ensures data.Some? && data.value.JObj? && "providers" in data.value.fields ==>
              r == (if data.value.fields["providers"].JNull? then JArr([]) else data.value.fields["providers"])
  {
    Coalesce(OptionalProp(data, "providers"), JArr([]))
  }

  /**
   * The error an invocation leaves: an error object is rethrown as `Error(message || "Invocation
   * failed")`, and the catch shows `err?.message ?? "Something went wrong."`.
   */
  function InvocationError(outcome: Invocation): (e: Option<string>)
    ensures outcome.InvokeOk? <==> e.None?
    ensures outcome.InvokeError? ==> e == Some(if outcome.message == "" then InvocationFailed else outcome.message)
    ensures outcome.InvokeThrew? ==> e == Some(outcome.thrownMessage.GetOr(SomethingWentWrong))
  {
    match outcome
    case InvokeOk(_) => None
    case InvokeError(message) => Some(if message == "" then InvocationFailed else message)
    case InvokeThrew(message) => Some(message.GetOr(SomethingWentWrong))
  }

  /** An empty message from a thrown value stays empty, unlike an empty error object message. */
  lemma EmptyMessagesDiffer()
    ensures InvocationError(InvokeError("")) == Some(InvocationFailed)
    ensures InvocationError(InvokeThrew(Some(""))) == Some("")
  {
  }

  /** The label under the table: "result" for exactly one provider, "results" otherwise. */
  function ResultLabel(count: nat): (r: string)
    ensures count == 1 <==> r == "result"
    ensures count != 1 <==> r == "results"
  {
    if count == 1 then "result" else "results"
  }

  class SearchForm {
    var zip: string
    var loading: bool
    var providers: Json
    var error: Option<string>

    constructor()
      ensures zip == "" && !loading && providers == JArr([]) && error.None?
    {
      zip := "";
      loading := false;
      providers := JArr([]);
      error := None;
    }

    method SetZip(typed: string)
      modifies this
      ensures zip == typed
      ensures loading == old(loading) && providers == old(providers) && error == old(error)
    {
      zip := typed;
    }

    /**
     * `handleSubmit`: clear the error and the list, stop at the ZIP gate without calling
     * anything, otherwise call the edge function and show its providers or its error.
     */
    method HandleSubmit(outcome: Invocation) returns (invoked: bool)
      modifies this
      ensures invoked <==> !ZipRejected(old(zip))
      ensures !invoked ==> error == Some(ZipTooShort) && providers == JArr([]) && loading == old(loading)
      ensures invoked ==> error == InvocationError(outcome) && !loading
      ensures invoked && outcome.InvokeOk? ==> providers == ProvidersOf(outcome.data)
      ensures invoked && !outcome.InvokeOk? ==> providers == JArr([])
      ensures zip == old(zip)
    {
      error := None;
      providers := JArr([]);
      if zip == "" || |zip| < 5 {
        error := Some(ZipTooShort);
        return false;
      }
      invoked := true;
      loading := true;
      match outcome {
        case InvokeError(message) =>
          var thrown := if message == "" then InvocationFailed else message;
          error := Some(thrown);
        case InvokeOk(data) =>
          providers := Coalesce(OptionalProp(data, "providers"), JArr([]));
        case InvokeThrew(message) =>
          error := Some(message.GetOr(SomethingWentWrong));
      }
      loading := false;
    }
  }
}
