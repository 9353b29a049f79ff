/**
  The slide index of `ImageCarousel`: every five seconds a timer replaces the
  current index by its successor modulo the number of slides. Only the index
  arithmetic is modelled; the timer itself is the caller that counts ticks.
*/
module ImageCarousel {
  /** Number of slides in the industry carousel and in the Canadian carousel. */
  const IndustrySlideCount := 5
  const CanadianSlideCount := 4

  /** `(prevIndex + 1) % items.length` */
  function NextIndex(prevIndex: nat, itemCount: nat): (next: nat)
    requires 0 < itemCount
    ensures next < itemCount
    ensures prevIndex + 1 < itemCount ==> next == prevIndex + 1
    ensures prevIndex + 1 == itemCount ==> next == 0
  {
    (prevIndex + 1) % itemCount
  }

  /** The index shown after `ticks` timer ticks, starting from the initial index 0. */
  function IndexAfter(ticks: nat, itemCount: nat): (index: nat)
    requires 0 < itemCount
    ensures index < itemCount
  {
    if ticks == 0 then 0 else NextIndex(IndexAfter(ticks - 1, itemCount), itemCount)
  }

  /** During the first round each slide is shown in turn, in order. */
  lemma {:induction false} FirstRoundInOrder(ticks: nat, itemCount: nat)
    requires ticks < itemCount
    ensures IndexAfter(ticks, itemCount) == ticks
  {
    if ticks > 0 {
      FirstRoundInOrder(ticks - 1, itemCount);
    }
  }

  /** After a full round the carousel is back where it was: the slides repeat with period `itemCount`. */
  lemma {:induction false} SlidesRepeat(ticks: nat, itemCount: nat)
    requires 0 < itemCount
    ensures IndexAfter(ticks + itemCount, itemCount) == IndexAfter(ticks, itemCount)
  {
    if ticks == 0 {
      FirstRoundInOrder(itemCount - 1, itemCount);
    } else {
      SlidesRepeat(ticks - 1, itemCount);
      assert ticks + itemCount - 1 == (ticks - 1) + itemCount;
    }
  }

  /** Both carousels on the page are back at their first slide after one full round. */
  lemma CarouselsReturnToFirstSlide()
    ensures IndexAfter(IndustrySlideCount, IndustrySlideCount) == 0
    ensures IndexAfter(CanadianSlideCount, CanadianSlideCount) == 0
  {
    SlidesRepeat(0, IndustrySlideCount);
    SlidesRepeat(0, CanadianSlideCount);
  }
}
