/**
 * The pointer tilt shared by the trading cards and the service cards: a
 * linear map from the pointer's position over a card to the card's two
 * rotations, in degrees.
 */
module PointerTilt {

  /** A bounding client rectangle. */
  datatype Rect = Rect(left: real, top: real, width: real, height: real)

  datatype Rotation = Rotation(x: real, y: real)

  const Level := Rotation(0.0, 0.0)

  /** The rotation for a pointer at client position (clientX, clientY) over `r`: one degree per ten pixels off centre. */
  function CardTilt(clientX: real, clientY: real, r: Rect): Rotation {
    var x := clientX - r.left;
    var y := clientY - r.top;
    Rotation((y - r.height / 2.0) / 10.0, (r.width / 2.0 - x) / 10.0)
  }

  /** The pointer position that produces a rotation: the inverse map. */
  function PointerFor(rot: Rotation, r: Rect): (real, real) {
    (r.left + r.width / 2.0 - 10.0 * rot.y, r.top + r.height / 2.0 + 10.0 * rot.x)
  }

  /** A pointer at the centre leaves the card level. */
  lemma CentreIsLevel(r: Rect)
    ensures CardTilt(r.left + r.width / 2.0, r.top + r.height / 2.0, r) == Level
  {
  }

  /** The map is a bijection between pointer positions and rotations. */
  lemma TiltRoundTrip(clientX: real, clientY: real, rot: Rotation, r: Rect)
    ensures PointerFor(CardTilt(clientX, clientY, r), r) == (clientX, clientY)
    ensures CardTilt(PointerFor(rot, r).0, PointerFor(rot, r).1, r) == rot
  {
  }

  /** Pointing lower tips the card forward and pointing further right turns it left, ten pixels to the degree. */
  lemma TiltLinear(clientX: real, clientY: real, dx: real, dy: real, r: Rect)
    ensures CardTilt(clientX + dx, clientY + dy, r).x == CardTilt(clientX, clientY, r).x + dy / 10.0
    ensures CardTilt(clientX + dx, clientY + dy, r).y == CardTilt(clientX, clientY, r).y - dx / 10.0
  {
  }

  /** Over the card itself, each rotation stays within a twentieth of the card's extent along the other axis. */
  lemma TiltBounded(clientX: real, clientY: real, r: Rect)
    requires r.left <= clientX <= r.left + r.width && r.top <= clientY <= r.top + r.height
    ensures -r.height / 20.0 <= CardTilt(clientX, clientY, r).x <= r.height / 20.0
    ensures -r.width / 20.0 <= CardTilt(clientX, clientY, r).y <= r.width / 20.0
  {
  }
}
