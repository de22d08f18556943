/**
 * ServiceCard of the services section: a card that tilts towards the pointer while
 * hovered (by at most 7 degrees), except on touch devices, and flattens on leave.
 */
module ServiceCard {
  import opened Tilt

  /** The full swing of the tilt: the card edges tilt by half of it. */
  const Span: real := 14.0

  /** The card's CSS transform: rotated and enlarged, or plainly `scale(1)`. */
  datatype CssTransform = Tilted(rotateX: real, rotateY: real, scale: real) | Flat(scale: real)

  /** The transform shown: the tilt only while hovered on a device without touch. */
  function CardTransform(hovered: bool, isTouch: bool, tilt: Angles): (t: CssTransform)
    ensures t.Tilted? <==> hovered && !isTouch
    ensures t.Tilted? ==> t.rotateX == tilt.x && t.rotateY == tilt.y && t.scale > 1.0
    ensures t.Flat? ==> t.scale == 1.0
  {
    if hovered && !isTouch then Tilted(tilt.x, tilt.y, 1.03) else Flat(1.0)
  }

  /** Anywhere over the card, both angles stay within 7 degrees. */
  lemma TiltWithinSeven(clientX: real, clientY: real, rect: Rect)
    requires rect.width > 0.0 && rect.height > 0.0 && Inside(clientX, clientY, rect)
    ensures -7.0 <= PointerTilt(clientX, clientY, rect, Span).x <= 7.0
    ensures -7.0 <= PointerTilt(clientX, clientY, rect, Span).y <= 7.0
  {
    InsideIsBounded(clientX, clientY, rect, Span);
  }

  /** Level at the centre; right of centre turns positive about `y`, below centre negative about `x`. */
  lemma TiltDirection(clientX: real, clientY: real, rect: Rect)
    requires rect.width > 0.0 && rect.height > 0.0
    ensures PointerTilt(rect.left + rect.width / 2.0, rect.top + rect.height / 2.0, rect, Span) == Level
    ensures PointerTilt(clientX, clientY, rect, Span).y > 0.0 <==> clientX > rect.left + rect.width / 2.0
    ensures PointerTilt(clientX, clientY, rect, Span).x < 0.0 <==> clientY > rect.top + rect.height / 2.0
  {
    CentreIsLevel(rect, Span);
    TiltFollowsPointer(clientX, clientY, rect, Span);
  }

  class Card {
    /** Whether the window has touch support, fixed when the card is created. */
    const isTouch: bool
    var tilt: Angles
    var hovered: bool

    constructor (isTouch: bool)
      ensures this.isTouch == isTouch && tilt == Level && !hovered
    {
      this.isTouch := isTouch;
      tilt := Level;
      hovered := false;
    }

    /** The transform the card shows now. */
    function Transform(): CssTransform
      reads this
    {
      CardTransform(hovered, isTouch, tilt)
    }

    /**
     * `handleMouseMove`: the tilt follows the pointer over the event target's box;
     * on touch devices the event is ignored.
     */
    method MouseMove(clientX: real, clientY: real, target: Rect)
      requires target.width > 0.0 && target.height > 0.0
      modifies this
      ensures tilt == if isTouch then old(tilt) else PointerTilt(clientX, clientY, target, Span)
      ensures hovered == old(hovered)
    {
      if isTouch {
        return;
      }
      var x := clientX - target.left;
      var y := clientY - target.top;
      var rotateY := (x / target.width - 0.5) * 14.0;
      var rotateX := (y / target.height - 0.5) * -14.0;
      tilt := Angles(rotateX, rotateY);
    }

    /** `handleMouseLeave`: level again and not hovered, so the card shows `scale(1)`. */
    method MouseLeave()
      modifies this
      ensures tilt == Level && !hovered
      ensures Transform() == Flat(1.0)
    {
      tilt := Angles(0.0, 0.0);
      hovered := false;
    }

    /** `handleMouseEnter`: hovered, tilt kept. */
    method MouseEnter()
      modifies this
      ensures hovered && tilt == old(tilt)
      ensures Transform().Tilted? <==> !isTouch
    {
      hovered := true;
    }
  }
}
