/** A product card on the home page: it tilts under the pointer, lifts while hovered, and navigates on click. */
module TradingCard {

  import opened Wrappers
  import opened PointerTilt

  /** How the `delay` prop arrives: omitted, `null`, or a number. */
  datatype DelayProp = Omitted | Null | Given(seconds: real)

  /** The entrance delay: the parameter default covers an omitted prop and `|| 0` covers `null` (and maps a zero to zero, so a given delay is used as is). */
  function EffectiveDelay(d: DelayProp): (s: real)
    ensures d.Given? ==> s == d.seconds
    ensures !d.Given? ==> s == 0.0
  {
    match d
    case Omitted => 0.0
    case Null => 0.0
    case Given(v) => v
  }

  /** The hover lift: six pixels up and two percent larger while hovered. */
  datatype Lift = Lift(y: real, scale: real)

  function HoverLift(hovered: bool): (l: Lift)
    ensures hovered <==> l.y < 0.0
    ensures hovered ==> l == Lift(-6.0, 1.02)
    ensures !hovered ==> l == Lift(0.0, 1.0)
  {
    if hovered then Lift(-6.0, 1.02) else Lift(0.0, 1.0)
  }

  class Card {
    const path: string
    var rotate: Rotation
    var isHovered: bool
    /** Every route handed to the router, in order. */
    var navigations: seq<string>

    constructor (path: string)
      ensures this.path == path && rotate == Level && !isHovered && navigations == []
    {
      this.path := path;
      rotate := Level;
      isHovered := false;
      navigations := [];
    }

    /** Pointer motion; `rect` is the card's bounding rectangle, or none before the card is mounted. */
    method MouseMove(rect: Option<Rect>, clientX: real, clientY: real)
      modifies this
      ensures rect.None? ==> rotate == old(rotate)
      ensures rect.Some? ==> rotate == CardTilt(clientX, clientY, rect.value)
      ensures isHovered == old(isHovered) && navigations == old(navigations)
    {
      if rect.None? {
        return;
      }
      rotate := CardTilt(clientX, clientY, rect.value);
    }

    method MouseEnter()
      modifies this
      ensures isHovered && HoverLift(isHovered) == Lift(-6.0, 1.02)
      ensures rotate == old(rotate) && navigations == old(navigations)
    {
      isHovered := true;
    }

    method MouseLeave()
      modifies this
      ensures rotate == Level && !isHovered && HoverLift(isHovered) == Lift(0.0, 1.0)
      ensures navigations == old(navigations)
    {
      rotate := Level;
      isHovered := false;
    }

    method Click()
      modifies this
      ensures navigations == old(navigations) + [path]
      ensures rotate == old(rotate) && isHovered == old(isHovered)
    {
      navigations := navigations + [path];
    }
  }
}
