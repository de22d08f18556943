/**
 * SectionRevealCaseStudy: a case-study card whose layers (card, shadow, filter, glass,
 * border, content) start revealing at fixed offsets after a base delay (the shimmer's
 * reveal is overridden by its own looping `animate`), and
 * which tilts towards the pointer by at most 5 degrees while hovered.
 */
module CaseStudyReveal {
  import opened Wrappers
  import opened Tilt

  /** The full swing of the tilt: the card edges tilt by half of it. */
  const Span: real := 10.0
  const DefaultDelay: real := 0.0

  datatype Layer = Card | Shadow | Filter | Glass | Shimmer | Border | Content

  /**
   * A value given to a layer's `animate` attribute: a variant label, or the shimmer's
   * looping background-position keyframes.
   */
  datatype AnimateProp = Label(name: string) | BackgroundLoop

  /** Of the `animate` attributes written on one element, the last one is the one React passes. */
  function EffectiveAnimate(attrs: seq<AnimateProp>): (a: AnimateProp)
    requires |attrs| >= 1
    ensures a in attrs && a == attrs[|attrs| - 1]
  {
    attrs[|attrs| - 1]
  }

  /** The shimmer layer is written with `animate="animate"` and then `animate={{ backgroundPosition }}`. */
  const ShimmerAnimateAttrs: seq<AnimateProp> := [Label("animate"), BackgroundLoop]

  /** The layers that play their reveal variant, in the order their reveals start. */
  const Layers: seq<Layer> := [Card, Shadow, Filter, Glass, Border, Content]

  /**
   * How long after the base delay each layer's reveal starts, for a layer whose
   * `animate` is the variant label; the shimmer's reveal (`delay + 0.22`) plays only
   * when its effective `animate` is that label.
   */
  function LayerOffset(layer: Layer): (o: Option<real>)
    ensures o.None? <==> layer == Shimmer
    ensures o.Some? ==> 0.0 <= o.value <= 0.26
    ensures o == Some(0.0) <==> layer == Card
  {
    match layer
    case Card => Some(0.0)
    case Shadow => Some(0.05)
    case Filter => Some(0.07)
    case Glass => Some(0.17)
    case Shimmer => if EffectiveAnimate(ShimmerAnimateAttrs) == Label("animate") then Some(0.22) else None
    case Border => Some(0.22)
    case Content => Some(0.26)
  }

  /** The shimmer's later `animate` attribute wins, so its reveal variant never plays and it stays at its initial opacity 0. */
  lemma ShimmerNeverReveals()
    ensures EffectiveAnimate(ShimmerAnimateAttrs) == BackgroundLoop
    ensures LayerOffset(Shimmer).None?
    ensures Shimmer !in Layers
    ensures forall l: Layer :: LayerOffset(l).Some? <==> l in Layers
  {
  }

  /** The start time of each revealed layer, in `Layers` order. */
  function LayerStarts(delay: real): (r: seq<real>)
    ensures |r| == |Layers|
  {
    seq(|Layers|, i requires 0 <= i < |Layers| => delay + LayerOffset(Layers[i]).value)
  }

  /** The reveal starts are in order, the card first at the base delay, none before it and none later than 0.26 after it. */
  lemma LayerStartsOrdered(delay: real)
    ensures LayerStarts(delay)[0] == delay
    ensures forall i, j :: 0 <= i <= j < |Layers| ==> LayerStarts(delay)[i] <= LayerStarts(delay)[j]
    ensures forall i :: 0 <= i < |Layers| ==> delay <= LayerStarts(delay)[i] <= delay + 0.26
  {
    var r := LayerStarts(delay);
    assert r == [delay + 0.0, delay + 0.05, delay + 0.07, delay + 0.17, delay + 0.22, delay + 0.26];
  }

  /** `interactiveStyle`: the hover target angles are the current tilt while hovered, level otherwise. */
  function InteractiveStyle(hovered: bool, tilt: Angles): (a: Angles)
    ensures hovered ==> a == tilt
    ensures !hovered ==> a == Level
  {
    if hovered then tilt else Angles(0.0, 0.0)
  }

  /** Anywhere over the card, both angles stay within 5 degrees, and the centre is level. */
  lemma TiltWithinFive(clientX: real, clientY: real, rect: Rect)
    requires rect.width > 0.0 && rect.height > 0.0 && Inside(clientX, clientY, rect)
    ensures -5.0 <= PointerTilt(clientX, clientY, rect, Span).x <= 5.0
    ensures -5.0 <= PointerTilt(clientX, clientY, rect, Span).y <= 5.0
    ensures PointerTilt(rect.left + rect.width / 2.0, rect.top + rect.height / 2.0, rect, Span) == Level
  {
    InsideIsBounded(clientX, clientY, rect, Span);
    CentreIsLevel(rect, Span);
  }

  class CaseStudyCard {
    var hovered: bool
    var tilt: Angles

    constructor ()
      ensures !hovered && tilt == Level
    {
      hovered := false;
      tilt := Level;
    }

    /** The angles the card is driven to while the pointer is over it. */
    function HoverTarget(): Angles
      reads this
    {
      InteractiveStyle(hovered, tilt)
    }

    /** `handleMouseMove`: the tilt follows the pointer over the card's own box. */
    method MouseMove(clientX: real, clientY: real, rect: Rect)
      requires rect.width > 0.0 && rect.height > 0.0
      modifies this
      ensures tilt == PointerTilt(clientX, clientY, rect, Span) && hovered == old(hovered)
    {
      var x := clientX - rect.left;
      var y := clientY - rect.top;
      var rotateY := (x / rect.width - 0.5) * 10.0;
      var rotateX := (y / rect.height - 0.5) * -10.0;
      tilt := Angles(rotateX, rotateY);
    }

    /** `handleMouseLeave`: level and not hovered. */
    method MouseLeave()
      modifies this
      ensures tilt == Level && !hovered && HoverTarget() == Level
    {
      tilt := Angles(0.0, 0.0);
      hovered := false;
    }

    /** `handleMouseEnter`: hovered, so the hover target becomes the current tilt. */
    method MouseEnter()
      modifies this
      ensures hovered && tilt == old(tilt) && HoverTarget() == tilt
    {
      hovered := true;
    }
  }
}
