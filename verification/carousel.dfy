/**
 * The testimonials carousel: which of the six testimonials is shown, and whether it still
 * advances by itself.
 */
module Carousel {
  /** The number of testimonials. */
  const Count: nat := 6

  /** `(prev + 1) % testimonials.length`. */
  function NextIndex(i: int): (r: int)
    ensures 0 <= r < Count
    ensures 0 <= i < Count - 1 ==> r == i + 1
    ensures i == Count - 1 ==> r == 0
  {
    (i + 1) % Count
  }

  /** `(prev - 1 + testimonials.length) % testimonials.length`. */
  function PreviousIndex(i: int): (r: int)
    ensures 0 <= r < Count
    ensures 0 < i <= Count - 1 ==> r == i - 1
    ensures i == 0 ==> r == Count - 1
  {
    (i - 1 + Count) % Count
  }

  /** Within the range, next and previous undo each other. */
  lemma NextPreviousInverse(i: int)
    requires 0 <= i < Count
    ensures PreviousIndex(NextIndex(i)) == i
    ensures NextIndex(PreviousIndex(i)) == i
  {
  }

  /** Six steps forward come back to the start. */
  lemma {:induction false} NextCycle(i: int)
    requires 0 <= i < Count
    ensures NextIndex(NextIndex(NextIndex(NextIndex(NextIndex(NextIndex(i)))))) == i
  {
    if i == 0 {
      assert NextIndex(0) == 1 && NextIndex(1) == 2 && NextIndex(2) == 3;
      assert NextIndex(3) == 4 && NextIndex(4) == 5 && NextIndex(5) == 0;
    }
  }

  class TestimonialsCarousel {
    var currentIndex: int
    var isAutoPlaying: bool

    predicate Valid()
      reads this
    {
      0 <= currentIndex < Count
    }

    constructor()
      ensures Valid() && currentIndex == 0 && isAutoPlaying
    {
      currentIndex := 0;
      isAutoPlaying := true;
    }

    /** The interval's tick: it is only scheduled while auto-playing, and never stops auto-play. */
    method Tick()
      requires Valid()
      modifies this
      ensures Valid()
      ensures currentIndex == (if old(isAutoPlaying) then NextIndex(old(currentIndex)) else old(currentIndex))
      ensures isAutoPlaying == old(isAutoPlaying)
    {
      if isAutoPlaying {
        currentIndex := NextIndex(currentIndex);
      }
    }

    /** `goToPrevious`. */
    method GoToPrevious()
      modifies this
      ensures Valid()
      ensures currentIndex == PreviousIndex(old(currentIndex)) && !isAutoPlaying
    {
      currentIndex := PreviousIndex(currentIndex);
      isAutoPlaying := false;
    }

    /** `goToNext`. */
    method GoToNext()
      modifies this
      ensures Valid()
      ensures currentIndex == NextIndex(old(currentIndex)) && !isAutoPlaying
    {
      currentIndex := NextIndex(currentIndex);
      isAutoPlaying := false;
    }

    /** A dot click: jump to that testimonial; the dots are the six indices. */
    method SelectDot(index: int)
      requires 0 <= index < Count
      modifies this
      ensures Valid()
      ensures currentIndex == index && !isAutoPlaying
    {
      currentIndex := index;
      isAutoPlaying := false;
    }
  }
}
