/**
 * The testimonials carousel: a breakpoint table for the cards shown at
 * once, the last index that still fills the view, and the index machine
 * driven by the arrow buttons, the dots and a two-second auto-advance.
 */
module Testimonials {

  const TestimonialCount: nat := 6

  /** The cards visible at once for a window width: 2 on desktop, 1.5 on a tablet (a peek), 1 on a phone. */
  function CardsPerView(innerWidth: int): (c: real)
    ensures 1.0 <= c <= 2.0
  {
    if innerWidth >= 1024 then 2.0
    else if innerWidth >= 768 then 1.5
    else 1.0
  }

  /** A wider window never shows fewer cards. */
  lemma CardsPerViewMonotone(w1: int, w2: int)
    requires w1 <= w2
    ensures CardsPerView(w1) <= CardsPerView(w2)
  {
  }

  /** `Math.ceil`: the least integer not below `x`. */
  function Ceil(x: real): (n: int)
    ensures x <= n as real < x + 1.0
  {
    -((-x).Floor)
  }

  /** The last index at which a full view of cards still fits. */
  function MaxIndex(cardsPerView: real): (m: nat)
    ensures cardsPerView > 0.0 ==> m < TestimonialCount
    ensures m == 0 || (TestimonialCount - 1) as real < m as real + cardsPerView <= TestimonialCount as real
  {
    var r := TestimonialCount as int - Ceil(cardsPerView);
    if r > 0 then r else 0
  }

  /** Four on desktop and on a tablet, five on a phone. */
  lemma MaxIndexByWidth(innerWidth: int)
    ensures innerWidth >= 768 ==> MaxIndex(CardsPerView(innerWidth)) == 4
    ensures innerWidth < 768 ==> MaxIndex(CardsPerView(innerWidth)) == 5
  {
    if innerWidth >= 1024 {
      assert Ceil(2.0) == 2;
    } else if innerWidth >= 768 {
      assert Ceil(1.5) == 2;
    } else {
      assert Ceil(1.0) == 1;
    }
  }

  /** The next-arrow and auto-advance update: step forward, or wrap to the start from `maxIndex` on. */
  function Next(i: nat, maxIndex: nat): (r: nat)
    ensures r <= maxIndex
    ensures r == i + 1 || r == 0
  {
    if i >= maxIndex then 0 else i + 1
  }

  /** The previous-arrow update: step back, or wrap from the start to `maxIndex`. */
  function Prev(i: nat, maxIndex: nat): (r: nat)
    ensures i <= maxIndex ==> r <= maxIndex
    ensures r + 1 == i || r == maxIndex
  {
    if i > 0 then i - 1 else maxIndex
  }

  predicate InRange(i: nat, maxIndex: nat) {
    i <= maxIndex
  }

  /** On `[0, maxIndex]` the two arrows undo each other. */
  lemma NextPrevInverse(i: nat, maxIndex: nat)
    requires InRange(i, maxIndex)
    ensures Prev(Next(i, maxIndex), maxIndex) == i
    ensures Next(Prev(i, maxIndex), maxIndex) == i
  {
  }

  /** `k` forward steps. */
  function NextN(i: nat, maxIndex: nat, k: nat): nat {
    if k == 0 then i else Next(NextN(i, maxIndex, k - 1), maxIndex)
  }

  /** From the start, `maxIndex + 1` forward steps come back to the start. */
  lemma NextCycle(maxIndex: nat)
    ensures NextN(0, maxIndex, maxIndex + 1) == 0
  {
    NextClimb(maxIndex, maxIndex);
  }

  /** From the start, `k <= maxIndex` forward steps reach index `k`. */
  lemma {:induction false} NextClimb(maxIndex: nat, k: nat)
    requires k <= maxIndex
    ensures NextN(0, maxIndex, k) == k
  {
    if k > 0 {
      NextClimb(maxIndex, k - 1);
    }
  }

  /** The arrows do not wrap while they are enabled: only a dot or the auto-advance reaches a wrap. */
  lemma EnabledArrowsDoNotWrap(i: nat, maxIndex: nat)
    ensures i < maxIndex ==> Next(i, maxIndex) == i + 1
    ensures i != 0 ==> Prev(i, maxIndex) == i - 1
    ensures i >= maxIndex ==> Next(i, maxIndex) == 0
  {
  }

  class Carousel {
    var currentIndex: nat
    var cardsPerView: real
    var isPaused: bool
    var isInView: bool

    ghost predicate Valid()
      reads this
    {
      currentIndex < TestimonialCount && 1.0 <= cardsPerView <= 2.0
    }

    function MaxIdx(): (m: nat)
      reads this
      ensures cardsPerView > 0.0 ==> m < TestimonialCount
    {
      MaxIndex(cardsPerView)
    }

    /** The previous arrow is disabled exactly where a click would wrap instead of stepping back. */
    function PrevDisabled(): (b: bool)
      reads this
      ensures b <==> !(Prev(currentIndex, MaxIdx()) < currentIndex)
    {
      currentIndex == 0
    }

    /** The next arrow is disabled exactly where a click would wrap instead of stepping forward. */
    function NextDisabled(): (b: bool)
      reads this
      ensures b <==> !(Next(currentIndex, MaxIdx()) > currentIndex)
    {
      currentIndex >= MaxIdx()
    }

    /** The auto-advance interval exists only while the section has come into view and the pointer is not over it. */
    predicate Advancing()
      reads this
    {
      isInView && !isPaused
    }

    /** Mounting: the first index, and cards-per-view taken at once from the window width. */
    constructor (innerWidth: int)
      ensures Valid()
      ensures currentIndex == 0 && cardsPerView == CardsPerView(innerWidth) && !isPaused && !isInView
    {
      currentIndex := 0;
      cardsPerView := CardsPerView(innerWidth);
      isPaused := false;
      isInView := false;
    }

    /** A window resize re-reads the breakpoint table; the index is left as it was, even above the new `maxIndex`. */
    method Resize(innerWidth: int)
      requires Valid()
      modifies this
      ensures Valid()
      ensures cardsPerView == CardsPerView(innerWidth)
      ensures currentIndex == old(currentIndex) && isPaused == old(isPaused) && isInView == old(isInView)
    {
      cardsPerView := CardsPerView(innerWidth);
    }

    method NextClick()
      requires Valid()
      modifies this
      ensures Valid()
      ensures currentIndex == Next(old(currentIndex), old(MaxIdx()))
      ensures cardsPerView == old(cardsPerView) && isPaused == old(isPaused) && isInView == old(isInView)
    {
      currentIndex := Next(currentIndex, MaxIdx());
    }

    method PrevClick()
      requires Valid()
      modifies this
      ensures Valid()
      ensures currentIndex == Prev(old(currentIndex), old(MaxIdx()))
      ensures cardsPerView == old(cardsPerView) && isPaused == old(isPaused) && isInView == old(isInView)
    {
      currentIndex := Prev(currentIndex, MaxIdx());
    }

    /** A dot jumps to any of the six cards, past `maxIndex` included. */
    method Dot(k: nat)
      requires Valid() && k < TestimonialCount
      modifies this
      ensures Valid()
      ensures currentIndex == k
      ensures cardsPerView == old(cardsPerView) && isPaused == old(isPaused) && isInView == old(isInView)
    {
      currentIndex := k;
    }

    /** The interval fires: the same update as the next arrow. */
    method Tick()
      requires Valid() && Advancing()
      modifies this
      ensures Valid()
      ensures currentIndex == Next(old(currentIndex), old(MaxIdx()))
      ensures cardsPerView == old(cardsPerView) && isPaused == old(isPaused) && isInView == old(isInView)
    {
      currentIndex := Next(currentIndex, MaxIdx());
    }

    method MouseEnter()
      requires Valid()
      modifies this
      ensures Valid() && isPaused && !Advancing()
      ensures currentIndex == old(currentIndex) && cardsPerView == old(cardsPerView) && isInView == old(isInView)
    {
      isPaused := true;
    }

    method MouseLeave()
      requires Valid()
      modifies this
      ensures Valid() && !isPaused
      ensures currentIndex == old(currentIndex) && cardsPerView == old(cardsPerView) && isInView == old(isInView)
    {
      isPaused := false;
    }

    /** The section scrolls into view; being observed once, it never leaves view again. */
    method EnterView()
      requires Valid()
      modifies this
      ensures Valid() && isInView
      ensures currentIndex == old(currentIndex) && cardsPerView == old(cardsPerView) && isPaused == old(isPaused)
    {
      isInView := true;
    }
  }

  /**
   * From 768 pixels up (between 768 and 1024 both the dots and the arrows show),
   * jumping by dot to the last card goes past `maxIndex`, and the next step returns to the start.
   */
  lemma DotPastMaxThenNext(innerWidth: int)
    requires innerWidth >= 768
    ensures 5 > MaxIndex(CardsPerView(innerWidth))
    ensures Next(5, MaxIndex(CardsPerView(innerWidth))) == 0
  {
    MaxIndexByWidth(innerWidth);
  }
}
