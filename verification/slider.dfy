/** One image slider of a project case study (`initSliders`): a strip of
    images shown one at a time, a row of dots of which the one for the
    current image carries the `active` class, and "previous"/"next"
    buttons. The number of images and the number of dots are counted
    separately in the page, so they need not agree. */
module Slider {
  import Cycle

  /** How many entries of `s` are set. */
  function CountSet(s: seq<bool>): nat
  {
    if s == [] then 0 else CountSet(s[..|s| - 1]) + (if s[|s| - 1] then 1 else 0)
  }

  /** A row of dots in which only the dot at `current` is set has exactly one
      set dot when `current` names a dot, and none otherwise. */
  lemma {:induction false} OnlyCurrentSet(s: seq<bool>, current: int)
    requires forall i :: 0 <= i < |s| ==> s[i] == (i == current)
    ensures CountSet(s) == if 0 <= current < |s| then 1 else 0
  {
    if s != [] {
      var init := s[..|s| - 1];
      assert forall i :: 0 <= i < |init| ==> init[i] == s[i];
      OnlyCurrentSet(init, current);
    }
  }

  class Slider {
    /** Number of `img` elements in the slider's container. */
    const imageCount: nat
    /** The `active` class of each `.dot` element. */
    const dots: array<bool>
    /** The closure variable `currentIndex`. */
    var currentIndex: int

    /** Once there is an image, the current index names one of them. */
    ghost predicate Valid()
      reads this
    {
      imageCount >= 1 ==> 0 <= currentIndex < imageCount
    }

    /** Wiring a slider: the index starts at the first image; the dots keep
        whatever classes the page gave them. */
    constructor (imageCount: nat, initialDots: seq<bool>)
      ensures Valid()
      ensures this.imageCount == imageCount && currentIndex == 0
      ensures fresh(dots) && dots[..] == initialDots
    {
      this.imageCount := imageCount;
      currentIndex := 0;
      dots := new bool[|initialDots|](i requires 0 <= i < |initialDots| => initialDots[i]);
    }

    /** `updateSlider(index)`: wrap the requested index, then mark exactly the
        dot at the new index as active. */
    method Update(index: int)
      requires Valid()
      modifies this, dots
      ensures Valid()
      ensures currentIndex == Cycle.Wrap(index, imageCount)
      ensures forall i :: 0 <= i < dots.Length ==> dots[i] == (i == currentIndex)
      ensures CountSet(dots[..]) == if 0 <= currentIndex < dots.Length then 1 else 0
      ensures dots.Length == imageCount >= 1 ==> CountSet(dots[..]) == 1
    {
      currentIndex := index;
      if currentIndex < 0 {
        currentIndex := imageCount - 1;
      }
      if currentIndex >= imageCount {
        currentIndex := 0;
      }
      var i := 0;
      while i < dots.Length
        modifies dots
        invariant 0 <= i <= dots.Length
        invariant forall j :: 0 <= j < i ==> dots[j] == (j == currentIndex)
      {
        dots[i] := i == currentIndex;
        i := i + 1;
      }
      OnlyCurrentSet(dots[..], currentIndex);
    }

    /** The "previous" button. */
    method Previous()
      requires Valid()
      modifies this, dots
      ensures Valid()
      ensures currentIndex == Cycle.Step(old(currentIndex), -1, imageCount)
      ensures forall i :: 0 <= i < dots.Length ==> dots[i] == (i == currentIndex)
    {
      Update(currentIndex - 1);
    }

    /** The "next" button. */
    method Next()
      requires Valid()
      modifies this, dots
      ensures Valid()
      ensures currentIndex == Cycle.Step(old(currentIndex), 1, imageCount)
      ensures forall i :: 0 <= i < dots.Length ==> dots[i] == (i == currentIndex)
    {
      Update(currentIndex + 1);
    }

    /** A click on a dot, carrying the integer parsed from its `data-index`. */
    method SelectDot(dataIndex: int)
      requires Valid()
      modifies this, dots
      ensures Valid()
      ensures currentIndex == Cycle.Wrap(dataIndex, imageCount)
      ensures forall i :: 0 <= i < dots.Length ==> dots[i] == (i == currentIndex)
    {
      Update(dataIndex);
    }
  }
}
