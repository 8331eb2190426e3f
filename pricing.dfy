/**
 * The stacked pricing cards: a card's depth, size, offset and fade as a
 * function of its distance from the selected plan, and the one state
 * cell that says which plan is selected.
 */
module Pricing {

  const PlanCount: nat := 3

  datatype CardStyle = CardStyle(zIndex: int, scale: real, x: real, y: real, opacity: real)

  function Abs(n: int): nat { if n < 0 then -n else n }

  function Max(a: real, b: real): real { if a >= b then a else b }

  /**
   * The style of card `index` while card `active` is selected. Only the
   * selected card is on top at full size and opacity; every card's scale and
   * opacity stay above their floors, and a card is pushed to its own side.
   */
  function GetCardStyle(index: int, active: int): (s: CardStyle)
    ensures s.zIndex <= 10 && (s.zIndex == 10 <==> index == active)
    ensures 0.85 <= s.scale <= 1.0 && (s.scale == 1.0 <==> index == active)
    ensures 0.3 <= s.opacity <= 1.0 && (s.opacity == 1.0 <==> index == active)
    ensures s.y >= 0.0
    ensures (s.x > 0.0 <==> index > active) && (s.x < 0.0 <==> index < active)
  {
    var offset := index - active;
    var d := Abs(offset) as real;
    if offset == 0 then CardStyle(10, 1.0, 0.0, 0.0, 1.0)
    else if offset > 0 then
      CardStyle(10 - Abs(offset), Max(0.85, 0.92 - d * 0.04), 40.0 + d * 20.0, d * 8.0, Max(0.3, 0.6 - d * 0.15))
    else
      CardStyle(10 - Abs(offset), Max(0.85, 0.92 - d * 0.04), -(40.0 + d * 20.0), d * 8.0, Max(0.3, 0.6 - d * 0.15))
  }

  /** The selected card sits in front, full size, unshifted and opaque. */
  lemma SelectedStyle(active: int)
    ensures GetCardStyle(active, active) == CardStyle(10, 1.0, 0.0, 0.0, 1.0)
  {
  }

  /** Every other card is behind it, smaller, fainter, lower, and pushed at least 60 to its own side. */
  lemma UnselectedStyle(index: int, active: int)
    requires index != active
    ensures var s := GetCardStyle(index, active);
      s.zIndex == 10 - Abs(index - active) && s.zIndex < 10
      && 0.85 <= s.scale <= 0.88 && 0.3 <= s.opacity <= 0.45
      && s.y == 8.0 * Abs(index - active) as real && s.y >= 8.0
      && (index > active ==> s.x >= 60.0) && (index < active ==> s.x <= -60.0)
  {
  }

  /** Cards farther from the selection are deeper, no larger, no brighter, lower and farther out. */
  lemma StyleRecedes(i: int, j: int, active: int)
    requires 0 < Abs(i - active) < Abs(j - active)
    ensures var si, sj := GetCardStyle(i, active), GetCardStyle(j, active);
      sj.zIndex < si.zIndex && sj.scale <= si.scale && sj.opacity <= si.opacity
      && si.y < sj.y && Abs2(si.x) < Abs2(sj.x)
  {
  }

  function Abs2(r: real): real { if r < 0.0 then -r else r }

  /** Mirror images: cards the same distance to the right and to the left differ only in the sign of `x`. */
  lemma StyleSymmetric(active: int, k: nat)
    ensures var r, l := GetCardStyle(active + k, active), GetCardStyle(active - k, active);
      r.x == -l.x && r.zIndex == l.zIndex && r.scale == l.scale && r.y == l.y && r.opacity == l.opacity
  {
  }

  /** The three-plan stack: one step away scales to 0.88 at opacity 0.45, two steps hit both floors, 0.85 and 0.3. */
  lemma ThreePlanStyles(active: int)
    ensures GetCardStyle(active + 1, active) == CardStyle(9, 0.88, 60.0, 8.0, 0.45)
    ensures GetCardStyle(active + 2, active) == CardStyle(8, 0.85, 80.0, 16.0, 0.3)
    ensures GetCardStyle(active - 2, active) == CardStyle(8, 0.85, -80.0, 16.0, 0.3)
  {
  }

  /** The position actually animated: the style's offset from the stack's anchor at (-210, -240). */
  function RenderedX(s: CardStyle): real { -210.0 + s.x }
  function RenderedY(s: CardStyle): real { -240.0 + s.y }

  /** The selected card is drawn at the anchor; another is drawn below it and to its own side. */
  lemma RenderedPositions(index: int, active: int)
    ensures index == active ==> RenderedX(GetCardStyle(index, active)) == -210.0 && RenderedY(GetCardStyle(index, active)) == -240.0
    ensures index > active ==> RenderedX(GetCardStyle(index, active)) >= -150.0 && RenderedY(GetCardStyle(index, active)) >= -232.0
    ensures index < active ==> RenderedX(GetCardStyle(index, active)) <= -270.0 && RenderedY(GetCardStyle(index, active)) >= -232.0
  {
    if index != active {
      UnselectedStyle(index, active);
    }
  }

  class PricingSection {
    var activeIndex: int

    ghost predicate Valid()
      reads this
    {
      0 <= activeIndex < PlanCount
    }

    predicate IsActive(index: int)
      reads this
    {
      index == activeIndex
    }

    /** The selected plan is drawn above every other plan. */
    lemma ActiveOnTop(index: int)
      requires Valid() && 0 <= index < PlanCount && !IsActive(index)
      ensures GetCardStyle(index, activeIndex).zIndex < GetCardStyle(activeIndex, activeIndex).zIndex
    {
    }

    constructor ()
      ensures Valid() && activeIndex == 0
    {
      activeIndex := 0;
    }

    /** A plan's control button selects it. */
    method Select(index: int)
      requires Valid() && 0 <= index < PlanCount
      modifies this
      ensures Valid() && activeIndex == index
      ensures forall i :: IsActive(i) <==> i == index
    {
      activeIndex := index;
    }
  }
}
