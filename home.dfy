/** The landing page's image carousel (client/src/pages/Home.jsx): five
    slides, arrows that step forward and back around the ring, and an
    indicator per slide that jumps to it. The current slide is the state
    of `Carousel`. */
module Home {

  const SlideCount := 5

  /** `(prev + 1) % slides.length`. */
  function NextIndex(i: int): (j: int)
    ensures 0 <= j < SlideCount
    ensures 0 <= i < SlideCount - 1 ==> j == i + 1
    ensures i == SlideCount - 1 ==> j == 0
  {
    (i + 1) % SlideCount
  }

  /** `(prev - 1 + slides.length) % slides.length`: never negative. */
  function PrevIndex(i: int): (j: int)
    ensures 0 <= j < SlideCount
    ensures 0 < i < SlideCount ==> j == i - 1
    ensures i == 0 ==> j == SlideCount - 1
  {
    (i - 1 + SlideCount) % SlideCount
  }

  /** Stepping back undoes stepping forward and the other way round. */
  lemma StepsAreInverse(i: int)
    requires 0 <= i < SlideCount
    ensures PrevIndex(NextIndex(i)) == i
    ensures NextIndex(PrevIndex(i)) == i
  {
  }

  /** The slide reached after `n` steps forward. */
  function Advance(i: int, n: nat): int {
    if n == 0 then i else NextIndex(Advance(i, n - 1))
  }

  /** `n` steps forward land `n` slides on, around the ring. */
  lemma {:induction false} AdvanceIsModular(i: int, n: nat)
    requires 0 <= i < SlideCount
    ensures Advance(i, n) == (i + n) % SlideCount
  {
    if n > 0 {
      AdvanceIsModular(i, n - 1);
    }
  }

  /** Five steps forward come back to the starting slide. */
  lemma FiveStepsComeBack(i: int)
    requires 0 <= i < SlideCount
    ensures Advance(i, SlideCount) == i
  {
    AdvanceIsModular(i, SlideCount);
  }

  class Carousel {
    var current: int

    predicate Valid()
      reads this
    {
      0 <= current < SlideCount
    }

    /** The slide shown with full opacity; every other is transparent. */
    predicate Visible(index: int)
      reads this
    {
      current == index
    }

    constructor ()
      ensures Valid() && current == 0
    {
      current := 0;
    }

    /** The right arrow, and the four-second timer. */
    method NextSlide()
      requires Valid()
      modifies this
      ensures Valid() && current == NextIndex(old(current))
    {
      current := NextIndex(current);
    }

    /** The left arrow. */
    method PrevSlide()
      requires Valid()
      modifies this
      ensures Valid() && current == PrevIndex(old(current))
    {
      current := PrevIndex(current);
    }

    /** The indicator of slide `index`; indicators exist for the five
        slides only. */
    method GoTo(index: int)
      requires 0 <= index < SlideCount
      modifies this
      ensures Valid() && current == index
    {
      current := index;
    }

    /** Exactly one slide is visible at a time. */
    lemma ExactlyOneVisible()
      requires Valid()
      ensures (set k | 0 <= k < SlideCount && Visible(k)) == {current}
    {
      assert Visible(current);
    }
  }
}
