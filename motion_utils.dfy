/** The motion helpers used across the site: a gentler 3D tilt, the viewport tests, and the GPU-layer style writes. */
module MotionUtils {

  import opened Wrappers
  import opened PointerTilt
  import Testimonials

  datatype Tilt3D = Tilt3D(rotateX: real, rotateY: real, scale: real, y: real)

  /** `get3DTilt`: the pointer offset from the centre over 25, damped by 0.3, with a fixed lift and scale. */
  function Get3DTilt(mouseX: real, mouseY: real, r: Rect): Tilt3D {
    var centerX := r.left + r.width / 2.0;
    var centerY := r.top + r.height / 2.0;
    Tilt3D((mouseY - centerY) / 25.0 * 0.3, (centerX - mouseX) / 25.0 * 0.3, 1.02, -4.0)
  }

  /** The tilt is level at the centre, always lifts by 4 at scale 1.02, and is 0.12 times the card tilt. */
  lemma Get3DTiltShape(mouseX: real, mouseY: real, r: Rect)
    ensures Get3DTilt(r.left + r.width / 2.0, r.top + r.height / 2.0, r).rotateX == 0.0
    ensures Get3DTilt(r.left + r.width / 2.0, r.top + r.height / 2.0, r).rotateY == 0.0
    ensures Get3DTilt(mouseX, mouseY, r).scale == 1.02 && Get3DTilt(mouseX, mouseY, r).y == -4.0
    ensures Get3DTilt(mouseX, mouseY, r).rotateX == 0.12 * CardTilt(mouseX, mouseY, r).x
    ensures Get3DTilt(mouseX, mouseY, r).rotateY == 0.12 * CardTilt(mouseX, mouseY, r).y
  {
  }

  /** `isMobile`; `innerWidth` is none without a window. */
  predicate IsMobile(innerWidth: Option<int>) {
    innerWidth.Some? && innerWidth.value < 768
  }

  /** The phone breakpoint is the one that shows a single testimonial at a time. */
  lemma MobileMatchesCarousel(w: int)
    ensures IsMobile(Some(w)) <==> Testimonials.CardsPerView(w) == 1.0
  {
  }

  /** `prefersReducedMotion`; `reduceMatches` is the media query's answer, none without a window. */
  predicate PrefersReducedMotion(reduceMatches: Option<bool>) {
    reduceMatches.Some? && reduceMatches.value
  }

  /** Without a window (rendering outside a browser) neither test holds. */
  lemma WithoutWindow()
    ensures !IsMobile(None) && !PrefersReducedMotion(None)
  {
  }

  /** The two properties of an element's inline style that the helpers write. */
  class Style {
    var willChange: string
    var transform: string

    constructor (willChange: string, transform: string)
      ensures this.willChange == willChange && this.transform == transform
    {
      this.willChange := willChange;
      this.transform := transform;
    }
  }

  /** `gpuTransform.enable`: promotes the element to its own layer; nothing for no element. */
  method Enable(element: Style?)
    modifies element
    ensures element != null ==> element.willChange == "transform" && element.transform == "translateZ(0)"
  {
    if element != null {
      element.willChange := "transform";
      element.transform := "translateZ(0)";
    }
  }

  /** `gpuTransform.disable`: resets the hint only; the transform stays. */
  method Disable(element: Style?)
    modifies element
    ensures element != null ==> element.willChange == "auto" && element.transform == old(element.transform)
  {
    if element != null {
      element.willChange := "auto";
    }
  }
}
