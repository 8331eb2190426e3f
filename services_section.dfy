/** A service card: it tilts under the pointer, and while hovered it grows, rises toward the viewer and spins its icon. */
module ServicesSection {

  import opened Wrappers
  import opened PointerTilt

  datatype HoverPose = HoverPose(scale: real, z: real, iconRotate: real)

  function Pose(hovered: bool): (p: HoverPose)
    ensures hovered <==> p.z > 0.0
    ensures hovered ==> p == HoverPose(1.06, 20.0, 360.0)
    ensures !hovered ==> p == HoverPose(1.0, 0.0, 0.0)
  {
    if hovered then HoverPose(1.06, 20.0, 360.0) else HoverPose(1.0, 0.0, 0.0)
  }

  class ServiceCard {
    var rotate: Rotation
    var isHovered: bool

    constructor ()
      ensures rotate == Level && !isHovered
    {
      rotate := Level;
      isHovered := false;
    }

    /** Pointer motion; `rect` is the card's bounding rectangle, or none before the card is mounted. */
    method MouseMove(rect: Option<Rect>, clientX: real, clientY: real)
      modifies this
      ensures rect.None? ==> rotate == old(rotate)
      ensures rect.Some? ==> rotate == CardTilt(clientX, clientY, rect.value)
      ensures isHovered == old(isHovered)
    {
      if rect.None? {
        return;
      }
      rotate := CardTilt(clientX, clientY, rect.value);
    }

    method MouseEnter()
      modifies this
      ensures isHovered && Pose(isHovered) == HoverPose(1.06, 20.0, 360.0)
      ensures rotate == old(rotate)
    {
      isHovered := true;
    }

    method MouseLeave()
      modifies this
      ensures rotate == Level && !isHovered && Pose(isHovered) == HoverPose(1.0, 0.0, 0.0)
    {
      rotate := Level;
      isHovered := false;
    }
  }
}
