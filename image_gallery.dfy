/**
 * The image gallery: which image is shown (`activeIndex`), whether the
 * enlarged view is open, and the buttons, thumbnails and keys that change
 * them. The index moves in a cycle over the images.
 */
module ImageGallery {
  import opened Common

  /** `goNext`'s update: the last image wraps to the first. */
  function NextIndex(current: int, count: nat): int {
    if current == count - 1 then 0 else current + 1
  }

  /** `goPrev`'s update: the first image wraps to the last. */
  function PrevIndex(current: int, count: nat): int {
    if current == 0 then count - 1 else current - 1
  }

  /** Both steps keep an index that is in range in range. */
  lemma StepsStayInRange(current: int, count: nat)
    requires 0 <= current < count
    ensures 0 <= NextIndex(current, count) < count
    ensures 0 <= PrevIndex(current, count) < count
  {
  }

  /** A value below the modulus is its own remainder. */
  lemma ModSmall(a: int, n: int)
    requires 0 <= a < n
    ensures a % n == a
  {
  }

  /** A value one modulus above a small value has that value as remainder. */
  lemma ModShift(a: int, n: int)
    requires 0 <= a < n
    ensures (a + n) % n == a
  {
    assert (a + n) / n == 1;
  }

  /** Both steps are the cyclic successor and predecessor. */
  lemma StepsAreModular(current: int, count: nat)
    requires 0 <= current < count
    ensures NextIndex(current, count) == (current + 1) % count
    ensures PrevIndex(current, count) == (current + count - 1) % count
  {
    if current == count - 1 {
      ModShift(0, count);
    } else {
      ModSmall(current + 1, count);
    }
    if current == 0 {
      ModSmall(count - 1, count);
    } else {
      ModShift(current - 1, count);
    }
  }

  /** Back after forward, and forward after back, return to the same image. */
  lemma StepsAreInverse(current: int, count: nat)
    requires 0 <= current < count
    ensures PrevIndex(NextIndex(current, count), count) == current
    ensures NextIndex(PrevIndex(current, count), count) == current
  {
  }

  /** The index after `k` presses of "next". */
  function NextTimes(current: int, count: nat, k: nat): int {
    if k == 0 then current else NextIndex(NextTimes(current, count, k - 1), count)
  }

  /** Up to a full round, `k` presses of "next" move `k` places, wrapping past the last image once. */
  lemma {:induction false} NextTimesWraps(current: int, count: nat, k: nat)
    requires 0 <= current < count && k <= count
    ensures NextTimes(current, count, k) == if current + k < count then current + k else current + k - count
  {
    if k > 0 {
      NextTimesWraps(current, count, k - 1);
    }
  }

  /** Pressing "next" once per image comes back to where it started. */
  lemma FullCycleReturns(current: int, count: nat)
    requires 0 <= current < count
    ensures NextTimes(current, count, count) == current
  {
    NextTimesWraps(current, count, count);
  }

  /** The gallery's state over `count` images. */
  class Gallery {
    const count: nat
    var activeIndex: int
    var isLightboxOpen: bool

    /** The shown image is one of the images. */
    predicate Valid()
      reads this
    {
      0 <= activeIndex < count
    }

    /** The starting state: `initialIndex` (0 when not given), enlarged view closed. */
    constructor (count: nat, initialIndex: Option<int>)
      ensures this.count == count
      ensures activeIndex == initialIndex.GetOr(0) && !isLightboxOpen
      ensures 0 <= initialIndex.GetOr(0) < count ==> Valid()
    {
      this.count := count;
      activeIndex := initialIndex.GetOr(0);
      isLightboxOpen := false;
    }

    /** `goNext`, from the button, the enlarged view or the right arrow key. */
    method GoNext()
      modifies this
      ensures activeIndex == NextIndex(old(activeIndex), count) && isLightboxOpen == old(isLightboxOpen)
      ensures old(Valid()) ==> Valid()
    {
      activeIndex := NextIndex(activeIndex, count);
    }

    /** `goPrev`, from the button, the enlarged view or the left arrow key. */
    method GoPrev()
      modifies this
      ensures activeIndex == PrevIndex(old(activeIndex), count) && isLightboxOpen == old(isLightboxOpen)
      ensures old(Valid()) ==> Valid()
    {
      activeIndex := PrevIndex(activeIndex, count);
    }

    /**
     * `handleKeyDown`: the left arrow steps back, the right arrow forward,
     * Escape closes the enlarged view when it is open; any other key does nothing.
     */
    method HandleKeyDown(key: string)
      modifies this
      ensures key == "ArrowLeft" ==> activeIndex == PrevIndex(old(activeIndex), count) && isLightboxOpen == old(isLightboxOpen)
      ensures key == "ArrowRight" ==> activeIndex == NextIndex(old(activeIndex), count) && isLightboxOpen == old(isLightboxOpen)
      ensures key == "Escape" ==> activeIndex == old(activeIndex) && !isLightboxOpen
      ensures key != "ArrowLeft" && key != "ArrowRight" && key != "Escape" ==>
                activeIndex == old(activeIndex) && isLightboxOpen == old(isLightboxOpen)
      ensures old(Valid()) ==> Valid()
    {
      if key == "ArrowLeft" {
        GoPrev();
      } else if key == "ArrowRight" {
        GoNext();
      } else if key == "Escape" && isLightboxOpen {
        isLightboxOpen := false;
      }
    }

    /** A thumbnail click shows that image. */
    method SelectThumbnail(index: nat)
      requires index < count
      modifies this
      ensures activeIndex == index && isLightboxOpen == old(isLightboxOpen)
      ensures Valid()
    {
      activeIndex := index;
    }

    /** A click on the main image opens the enlarged view of the same image. */
    method OpenLightbox()
      modifies this
      ensures isLightboxOpen && activeIndex == old(activeIndex)
    {
      isLightboxOpen := true;
    }

    /** The close button or a click on the backdrop closes the enlarged view. */
    method CloseLightbox()
      modifies this
      ensures !isLightboxOpen && activeIndex == old(activeIndex)
    {
      isLightboxOpen := false;
    }
  }
}
