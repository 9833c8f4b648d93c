/**
 * The frequently asked questions list, in which at most one answer is open.
 */
module Faq {
  import opened Wrappers

  /** `openIndex === index ? null : index`. */
  function Toggled(openIndex: Option<int>, index: int): (r: Option<int>)
    ensures r == None <==> openIndex == Some(index)
    ensures r.Some? ==> r.value == index
  {
    if openIndex == Some(index) then None else Some(index)
  }

  /** Whether the answer of question `index` is rendered: `openIndex === index`. */
  predicate AnswerShown(openIndex: Option<int>, index: int) {
    openIndex == Some(index)
  }

  /** At most one answer is shown, whatever the state. */
  lemma SingleOpen(openIndex: Option<int>, i: int, j: int)
    requires AnswerShown(openIndex, i) && AnswerShown(openIndex, j)
    ensures i == j
  {
  }

  /** Toggling the same question twice restores the previous state. */
  lemma ToggleTwice(openIndex: Option<int>, index: int)
    requires openIndex.None? || openIndex == Some(index)
    ensures Toggled(Toggled(openIndex, index), index) == openIndex
  {
  }

  /** Toggling a question other than the open one closes the open one and opens it. */
  lemma ToggleOther(openIndex: Option<int>, index: int, other: int)
    requires openIndex == Some(other) && other != index
    ensures AnswerShown(Toggled(openIndex, index), index) && !AnswerShown(Toggled(openIndex, index), other)
  {
  }

  class FaqList {
    var openIndex: Option<int>

    constructor()
      ensures openIndex.None?
    {
      openIndex := None;
    }

    /** `toggleFAQ`. */
    method ToggleFaq(index: int)
      modifies this
      ensures openIndex == Toggled(old(openIndex), index)
      ensures forall i :: AnswerShown(openIndex, i) ==> i == index
    {
      openIndex := Toggled(openIndex, index);
    }
  }
}
