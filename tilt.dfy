/**
 * The pointer-tilt formula shared by the service cards and the case-study cards:
 * the pointer's position inside the element's box, as a fraction of the box, is
 * centred and scaled by a span, so that the box edges tilt by half the span.
 */
module Tilt {

  /** A bounding client rectangle. */
  datatype Rect = Rect(left: real, top: real, width: real, height: real)

  /** Rotation angles in degrees: `x` about the horizontal axis, `y` about the vertical one. */
  datatype Angles = Angles(x: real, y: real)

  const Level: Angles := Angles(0.0, 0.0)

  predicate Inside(clientX: real, clientY: real, rect: Rect)
  {
    rect.left <= clientX <= rect.left + rect.width && rect.top <= clientY <= rect.top + rect.height
  }

  /**
   * `rotateY = ((x / width) - 0.5) * span` and `rotateX = ((y / height) - 0.5) * -span`
   * with `x`, `y` the pointer's offset from the box's top-left corner.
   */
  function PointerTilt(clientX: real, clientY: real, rect: Rect, span: real): (a: Angles)
    requires rect.width > 0.0 && rect.height > 0.0
  {
    var x := clientX - rect.left;
    var y := clientY - rect.top;
    Angles((y / rect.height - 0.5) * -span, (x / rect.width - 0.5) * span)
  }

  /** The fraction `p / w` lies in [0, 1] when `p` lies in [0, w]. */
  lemma FractionInUnit(p: real, w: real)
    requires w > 0.0 && 0.0 <= p <= w
    ensures 0.0 <= p / w <= 1.0
  {
    assert p / w * w == p;
  }

  /** The fraction `p / w` is above one half exactly when `p` is past the middle of `w`. */
  lemma FractionPastMiddle(p: real, w: real)
    requires w > 0.0
    ensures p / w > 0.5 <==> p > w / 2.0
    ensures p / w == 0.5 <==> p == w / 2.0
  {
    assert p / w * w == p;
    if p / w > 0.5 {
      assert p / w * w > 0.5 * w;
    }
    if p / w < 0.5 {
      assert p / w * w < 0.5 * w;
    }
  }

  /** The pointer at the exact centre of the box leaves the element level. */
  lemma CentreIsLevel(rect: Rect, span: real)
    requires rect.width > 0.0 && rect.height > 0.0
    ensures PointerTilt(rect.left + rect.width / 2.0, rect.top + rect.height / 2.0, rect, span) == Level
  {
    FractionPastMiddle(rect.width / 2.0, rect.width);
    FractionPastMiddle(rect.height / 2.0, rect.height);
  }

  /** Inside the box neither angle exceeds half the span. */
  lemma InsideIsBounded(clientX: real, clientY: real, rect: Rect, span: real)
    requires rect.width > 0.0 && rect.height > 0.0 && span >= 0.0
    requires Inside(clientX, clientY, rect)
    ensures -span / 2.0 <= PointerTilt(clientX, clientY, rect, span).x <= span / 2.0
    ensures -span / 2.0 <= PointerTilt(clientX, clientY, rect, span).y <= span / 2.0
  {
    var fx := (clientX - rect.left) / rect.width;
    var fy := (clientY - rect.top) / rect.height;
    FractionInUnit(clientX - rect.left, rect.width);
    FractionInUnit(clientY - rect.top, rect.height);
    MulBounded(fx - 0.5, span);
    MulBounded(fy - 0.5, span);
  }

  lemma MulBounded(c: real, span: real)
    requires -0.5 <= c <= 0.5 && span >= 0.0
    ensures -span / 2.0 <= c * span <= span / 2.0
    ensures -span / 2.0 <= c * -span <= span / 2.0
  {
    if c >= 0.0 {
      assert c * span <= 0.5 * span;
    } else {
      assert c * span >= -0.5 * span;
    }
  }

  /**
   * With a positive span the element turns towards the pointer: right of the centre
   * gives a positive `y` angle, below the centre a negative `x` angle, and conversely.
   */
  lemma TiltFollowsPointer(clientX: real, clientY: real, rect: Rect, span: real)
    requires rect.width > 0.0 && rect.height > 0.0 && span > 0.0
    ensures PointerTilt(clientX, clientY, rect, span).y > 0.0 <==> clientX > rect.left + rect.width / 2.0
    ensures PointerTilt(clientX, clientY, rect, span).x < 0.0 <==> clientY > rect.top + rect.height / 2.0
  {
    var fx := (clientX - rect.left) / rect.width;
    var fy := (clientY - rect.top) / rect.height;
    FractionPastMiddle(clientX - rect.left, rect.width);
    FractionPastMiddle(clientY - rect.top, rect.height);
    SignOfProduct(fx - 0.5, span);
    SignOfProduct(fy - 0.5, span);
  }

  lemma SignOfProduct(c: real, span: real)
    requires span > 0.0
    ensures c * span > 0.0 <==> c > 0.0
    ensures c * -span < 0.0 <==> c > 0.0
  {
    if c > 0.0 {
      assert c * span > 0.0 * span;
    } else {
      assert c * span <= 0.0 * span;
    }
  }
}
