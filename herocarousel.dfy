/** `src/components/HeroCarousel.tsx`: the slide index of the home page carousel. */
module HeroCarousel {
  import Categories

  /** The categories the five slides link to, in slide order. */
  const SlideNames: seq<string> := ["Handbags", "TWS", "Sneakers", "Smart Watch", "Skincare"]

  /** `slides.length`. */
  const SlideCount: nat := 5

  /** `(prevIndex + 1) % slides.length`, used by the arrow and the auto-slide. */
  function Next(i: int, n: nat): (r: int)
    requires n > 0
    ensures 0 <= r < n
    ensures 0 <= i < n - 1 ==> r == i + 1
    ensures i == n - 1 ==> r == 0
  {
    (i + 1) % n
  }

  /** `(prevIndex - 1 + slides.length) % slides.length`. */
  function Prev(i: int, n: nat): (r: int)
    requires n > 0
    ensures 0 <= r < n
    ensures 0 < i < n ==> r == i - 1
    ensures i == 0 ==> r == n - 1
  {
    (i - 1 + n) % n
  }

  lemma PrevAfterNext(i: int, n: nat)
    requires 0 <= i < n
    ensures Prev(Next(i, n), n) == i
  {
  }

  lemma NextAfterPrev(i: int, n: nat)
    requires 0 <= i < n
    ensures Next(Prev(i, n), n) == i
  {
  }

  /** `k` arrow presses from slide `i`. */
  function NextTimes(i: int, n: nat, k: nat): (r: int)
    requires n > 0 && 0 <= i < n
    ensures 0 <= r < n
  {
    if k == 0 then i else Next(NextTimes(i, n, k - 1), n)
  }

  /** Before the last slide, `k` presses simply move `k` slides on. */
  lemma {:induction false} NextTimesBelow(i: int, n: nat, k: nat)
    requires n > 0 && 0 <= i < n && i + k < n
    ensures NextTimes(i, n, k) == i + k
  {
    if k > 0 {
      NextTimesBelow(i, n, k - 1);
    }
  }

  /** Presses compose: `a + b` presses are `a` presses followed by `b`. */
  lemma {:induction false} NextTimesAdd(i: int, n: nat, a: nat, b: nat)
    requires n > 0 && 0 <= i < n
    ensures NextTimes(i, n, a + b) == NextTimes(NextTimes(i, n, a), n, b)
  {
    if b > 0 {
      NextTimesAdd(i, n, a, b - 1);
    }
  }

  /** `n` presses on `n` slides come back to the starting slide. */
  lemma FullTurn(i: int, n: nat)
    requires n > 0 && 0 <= i < n
    ensures NextTimes(i, n, n) == i
  {
    NextTimesBelow(i, n, n - 1 - i);
    NextTimesAdd(i, n, n - 1 - i, 1);
    assert NextTimes(i, n, n - i) == 0;
    NextTimesBelow(0, n, i);
    NextTimesAdd(i, n, n - i, i);
  }

  /** With the five slides of the page, five presses come back round. */
  lemma FiveNextsReturn(i: int)
    requires 0 <= i < SlideCount
    ensures NextTimes(i, SlideCount, 5) == i
  {
    FullTurn(i, SlideCount);
  }

  /** Every slide links to a category of the catalogue. */
  lemma SlidesLinkToCategories()
    ensures |SlideNames| == SlideCount
    ensures forall k :: 0 <= k < |SlideNames| ==> SlideNames[k] in Categories.AllCategoryNames()
  {
    Categories.AllCategoryNamesListed();
  }

  /** What `handleTouchEnd` does with the horizontal distance of a swipe. */
  datatype Swipe = NoSwipe | ToPrev | ToNext

  function SwipeFor(deltaX: int): (s: Swipe)
    ensures s == NoSwipe <==> -50 <= deltaX <= 50
    ensures s == ToPrev <==> deltaX > 50
    ensures s == ToNext <==> deltaX < -50
  {
    if (if deltaX < 0 then -deltaX else deltaX) > 50 then
      if deltaX > 0 then ToPrev else ToNext
    else NoSwipe
  }

  class Carousel {
    var currentIndex: int

    ghost predicate Valid()
      reads this
    {
      0 <= currentIndex < SlideCount
    }

    constructor ()
      ensures Valid() && currentIndex == 0
    {
      currentIndex := 0;
    }

    /** `goToNext`, and the seven-second auto-slide. */
    method GoToNext()
      modifies this
      requires Valid()
      ensures Valid() && currentIndex == Next(old(currentIndex), SlideCount)
    {
      currentIndex := (currentIndex + 1) % SlideCount;
    }

    /** `goToPrev`. */
    method GoToPrev()
      modifies this
      requires Valid()
      ensures Valid() && currentIndex == Prev(old(currentIndex), SlideCount)
    {
      currentIndex := (currentIndex - 1 + SlideCount) % SlideCount;
    }

    /** `handleTouchEnd`. */
    method TouchEnd(touchStartX: int, touchEndX: int)
      modifies this
      requires Valid()
      ensures Valid()
      ensures SwipeFor(touchEndX - touchStartX) == NoSwipe ==> currentIndex == old(currentIndex)
      ensures SwipeFor(touchEndX - touchStartX) == ToPrev ==> currentIndex == Prev(old(currentIndex), SlideCount)
      ensures SwipeFor(touchEndX - touchStartX) == ToNext ==> currentIndex == Next(old(currentIndex), SlideCount)
    {
      var deltaX := touchEndX - touchStartX;
      if (if deltaX < 0 then -deltaX else deltaX) > 50 {
        if deltaX > 0 {
          GoToPrev();
        } else {
          GoToNext();
        }
      }
    }

    /** A click on dot `k` shows slide `k`. */
    method DotClick(k: int)
      modifies this
      requires 0 <= k < SlideCount
      ensures Valid() && currentIndex == k
    {
      currentIndex := k;
    }

    /** The dot that carries the `active` class. */
    predicate DotActive(k: int)
      reads this
    {
      currentIndex == k
    }
  }
}
