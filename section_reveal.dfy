/**
 * SectionReveal: a section that, when it comes into view, plays one of five overlay
 * animations (chosen by the caller or drawn at random once, on mount) and staggers its
 * children in; with animation disabled or reduced motion preferred it renders plainly.
 */
module SectionReveal {
  import opened Wrappers
  import opened Tilt

  /** The five overlay animations, numbered as the `mode` prop numbers them. */
  type RevealMode = m: int | 1 <= m <= 5 witness 1

  datatype Overlay = MaskSweep | SplitReveal | ParallaxFade | GradientShift | PerspectiveTilt

  /** The pose of the section itself. */
  datatype Pose = Pose(opacity: real, y: real)

  /** The entry motion of one child: its hidden offset, the duration of its entry and its delay. */
  datatype ChildMotion = ChildMotion(hiddenY: real, duration: real, delay: real)

  datatype Rendering =
    | Plain
    | Animated(pose: Pose, overlays: seq<Overlay>, children: seq<ChildMotion>)

  /** `Math.floor(r * 5) + 1` for a draw `r` of `Math.random()`, which lies in [0, 1). */
  function DrawMode(r: real): (m: RevealMode)
    requires 0.0 <= r < 1.0
    ensures (m - 1) as real <= r * 5.0 < m as real
  {
    assert 0.0 <= r * 5.0 < 5.0;
    (r * 5.0).Floor + 1
  }

  predicate AreDraws(draws: seq<real>)
  {
    forall i :: 0 <= i < |draws| ==> 0.0 <= draws[i] < 1.0
  }

  /**
   * The do-while of the initializer: draw a mode, and draw again while it repeats
   * `prev` (when there is one). Returns the mode and how many draws were used.
   */
  method DrawAvoiding(prev: Option<RevealMode>, draws: seq<real>) returns (m: RevealMode, used: nat)
    requires AreDraws(draws) && |draws| >= 1
    requires prev.Some? ==> exists k :: 0 <= k < |draws| && DrawMode(draws[k]) != prev.value
    ensures 1 <= used <= |draws| && m == DrawMode(draws[used - 1])
    ensures prev.Some? ==> m != prev.value
    ensures prev.Some? ==> forall k :: 0 <= k < used - 1 ==> DrawMode(draws[k]) == prev.value
    ensures prev.None? ==> used == 1
  {
    m := DrawMode(draws[0]);
    used := 1;
    while prev.Some? && m == prev.value
      invariant 1 <= used <= |draws| && m == DrawMode(draws[used - 1])
      invariant prev.Some? ==> forall k :: 0 <= k < used - 1 ==> DrawMode(draws[k]) == prev.value
      invariant prev.None? ==> used == 1
      decreases |draws| - used
    {
      var k :| 0 <= k < |draws| && DrawMode(draws[k]) != prev.value;
      assert k >= used;
      m := DrawMode(draws[used]);
      used := used + 1;
    }
  }

  /**
   * The mode of a section: the `mode` prop when given; otherwise a single draw, since
   * the previous-mode ref of a freshly mounted section is always null.
   */
  method InitialMode(mode: Option<RevealMode>, draws: seq<real>) returns (m: RevealMode, used: nat)
    requires AreDraws(draws) && |draws| >= 1
    ensures mode.Some? ==> m == mode.value && used == 0
    ensures mode.None? ==> m == DrawMode(draws[0]) && used == 1
  {
    if mode.Some? {
      return mode.value, 0;
    }
    var prevModeRef: Option<RevealMode> := None;
    m, used := DrawAvoiding(prevModeRef, draws);
  }

  /** The mode number of each overlay. */
  function OverlayMode(o: Overlay): RevealMode
  {
    match o
    case MaskSweep => 1
    case SplitReveal => 2
    case ParallaxFade => 3
    case GradientShift => 4
    case PerspectiveTilt => 5
  }

  /** The five guarded overlay branches, in render order. */
  function Overlays(randMode: RevealMode): (r: seq<Overlay>)
    ensures |r| == 1 && OverlayMode(r[0]) == randMode
  {
    (if randMode == 1 then [MaskSweep] else [])
    + (if randMode == 2 then [SplitReveal] else [])
    + (if randMode == 3 then [ParallaxFade] else [])
    + (if randMode == 4 then [GradientShift] else [])
    + (if randMode == 5 then [PerspectiveTilt] else [])
  }

  /** Different modes draw different overlays. */
  lemma OverlaysDistinct(a: RevealMode, b: RevealMode)
    requires a != b
    ensures Overlays(a) != Overlays(b)
  {
  }

  /** The section is shown at rest when in view, and faded and lowered by 30 otherwise, also after it was shown. */
  function SectionPose(inView: bool): (p: Pose)
    ensures p == Pose(1.0, 0.0) <==> inView
    ensures p == Pose(0.0, 30.0) <==> !inView
  {
    if inView then Pose(1.0, 0.0) else Pose(0.0, 30.0)
  }

  /** The container's `staggerChildren`: the gap between the starts of consecutive children. */
  const StaggerChildren: real := 0.04

  /**
   * The entry of child `i`: lowered by 25 (mobile) or 30, for 0.5 s (mobile) or 0.55 s.
   * The child's `visible` variant carries its own transition, which replaces the
   * `delay: 0.06 * i` of its `transition` prop, so its start is set by the container's
   * stagger: `0.04 * i` s.
   */
  function ChildVariant(i: nat, isMobile: bool): (c: ChildMotion)
    ensures c.delay == StaggerChildren * i as real
    ensures c.hiddenY == (if isMobile then 25.0 else 30.0)
    ensures c.duration == (if isMobile then 0.5 else 0.55)
  {
    ChildMotion(if isMobile then 25.0 else 30.0, if isMobile then 0.5 else 0.55, 0.04 * i as real)
  }

  /** Later children start strictly later, by one stagger step per child, and on mobile they travel less and faster. */
  lemma ChildStagger(i: nat, j: nat)
    requires i < j
    ensures ChildVariant(i, false).delay < ChildVariant(j, false).delay
    ensures ChildVariant(i + 1, false).delay == ChildVariant(i, false).delay + StaggerChildren
    ensures ChildVariant(i, true).delay == ChildVariant(i, false).delay
    ensures ChildVariant(i, true).hiddenY < ChildVariant(i, false).hiddenY
    ensures ChildVariant(i, true).duration < ChildVariant(i, false).duration
  {
  }

  function ChildVariants(count: nat, isMobile: bool): (r: seq<ChildMotion>)
    ensures |r| == count && forall i :: 0 <= i < count ==> r[i] == ChildVariant(i, isMobile)
  {
    seq(count, i requires 0 <= i => ChildVariant(i, isMobile))
  }

  /** What the section renders. */
  function Render(disableAnimation: bool, prefersReducedMotion: bool, randMode: RevealMode,
                  inView: bool, isMobile: bool, childCount: nat): (r: Rendering)
    ensures r.Plain? <==> disableAnimation || prefersReducedMotion
    ensures r.Animated? ==> |r.overlays| == 1 && OverlayMode(r.overlays[0]) == randMode
    ensures r.Animated? ==> r.overlays == Overlays(randMode) && r.pose == SectionPose(inView)
    ensures r.Animated? ==> r.children == ChildVariants(childCount, isMobile)
    ensures r.Animated? ==>
      (|r.children| == childCount && forall i :: 0 <= i < childCount ==> r.children[i].delay == StaggerChildren * i as real)
  {
    if disableAnimation || prefersReducedMotion then Plain
    else Animated(SectionPose(inView), Overlays(randMode), ChildVariants(childCount, isMobile))
  }

  /** The clamped progress of `v` through [lo, hi]. */
  function Progress(v: real, lo: real, hi: real): (t: real)
    requires lo < hi
    ensures 0.0 <= t <= 1.0
    ensures v <= lo ==> t == 0.0
    ensures v >= hi ==> t == 1.0
  {
    if v <= lo then 0.0
    else if v >= hi then 1.0
    else FractionInUnit(v - lo, hi - lo); (v - lo) / (hi - lo)
  }

  /** Clamped linear interpolation of `v` from [lo, hi] onto [a, b]. */
  function Interpolate(v: real, lo: real, hi: real, a: real, b: real): real
    requires lo < hi
  {
    a + (b - a) * Progress(v, lo, hi)
  }

  lemma ScaleUnit(m: real, t: real)
    requires m >= 0.0 && 0.0 <= t <= 1.0
    ensures 0.0 <= m * t <= m
  {
    assert m * t <= m * 1.0;
  }

  /** Onto a falling range, the interpolated value stays between the two ends and hits them at and beyond the input ends. */
  lemma InterpolateFalling(v: real, lo: real, hi: real, a: real, b: real)
    requires lo < hi && b <= a
    ensures b <= Interpolate(v, lo, hi, a, b) <= a
    ensures v <= lo ==> Interpolate(v, lo, hi, a, b) == a
    ensures v >= hi ==> Interpolate(v, lo, hi, a, b) == b
  {
    var t := Progress(v, lo, hi);
    ScaleUnit(a - b, t);
    assert Interpolate(v, lo, hi, a, b) == a - (a - b) * t;
  }

  /** Onto a rising range likewise. */
  lemma InterpolateRising(v: real, lo: real, hi: real, a: real, b: real)
    requires lo < hi && a <= b
    ensures a <= Interpolate(v, lo, hi, a, b) <= b
    ensures v <= lo ==> Interpolate(v, lo, hi, a, b) == a
    ensures v >= hi ==> Interpolate(v, lo, hi, a, b) == b
  {
    ScaleUnit(b - a, Progress(v, lo, hi));
  }

  function RotateX(mouseY: real): real { Interpolate(mouseY, -300.0, 300.0, 5.0, -5.0) }
  function RotateY(mouseX: real): real { Interpolate(mouseX, -300.0, 300.0, -5.0, 5.0) }
  function Brightness(mouseY: real): real { Interpolate(mouseY, -300.0, 300.0, 1.1, 0.9) }

  /** Whatever the pointer offset, both angles stay within 5 degrees and the brightness within [0.9, 1.1]. */
  lemma TiltBounded(mouseX: real, mouseY: real)
    ensures -5.0 <= RotateX(mouseY) <= 5.0 && -5.0 <= RotateY(mouseX) <= 5.0
    ensures 0.9 <= Brightness(mouseY) <= 1.1
    ensures mouseY <= -300.0 ==> RotateX(mouseY) == 5.0
    ensures mouseY >= 300.0 ==> RotateX(mouseY) == -5.0
  {
    InterpolateFalling(mouseY, -300.0, 300.0, 5.0, -5.0);
    InterpolateRising(mouseX, -300.0, 300.0, -5.0, 5.0);
    InterpolateFalling(mouseY, -300.0, 300.0, 1.1, 0.9);
  }

  /** With the pointer at the centre (offset 0) the overlay is level at full brightness. */
  lemma CentreIsNeutral()
    ensures RotateX(0.0) == 0.0 && RotateY(0.0) == 0.0 && Brightness(0.0) == 1.0
  {
    assert Progress(0.0, -300.0, 300.0) == 0.5;
  }

  class SectionRevealState {
    const randMode: RevealMode
    const disableAnimation: bool
    var isMobile: bool
    var prefersReducedMotion: bool
    /** The pointer's offset from the centre of the tilt overlay. */
    var mouseX: real
    var mouseY: real

    /** Mounting: the mode is chosen once; the pointer offset starts at 0. */
    constructor (mode: Option<RevealMode>, draws: seq<real>, disableAnimation: bool)
      requires AreDraws(draws) && |draws| >= 1
      ensures randMode == if mode.Some? then mode.value else DrawMode(draws[0])
      ensures this.disableAnimation == disableAnimation
      ensures !isMobile && !prefersReducedMotion && mouseX == 0.0 && mouseY == 0.0
    {
      var m, _ := InitialMode(mode, draws);
      randMode := m;
      this.disableAnimation := disableAnimation;
      isMobile, prefersReducedMotion := false, false;
      mouseX, mouseY := 0.0, 0.0;
    }

    /** What the mounted section renders now: plain, or the mode's one overlay and the staggered children. */
    function RenderNow(inView: bool, childCount: nat): (r: Rendering)
      reads this
      ensures r.Plain? <==> disableAnimation || prefersReducedMotion
      ensures r.Animated? ==> r.overlays == Overlays(randMode) && OverlayMode(r.overlays[0]) == randMode
      ensures r.Animated? ==> r.children == ChildVariants(childCount, isMobile) && r.pose == SectionPose(inView)
    {
      Render(disableAnimation, prefersReducedMotion, randMode, inView, isMobile, childCount)
    }

    /** `checkMobile`. */
    method Resize(innerWidth: int)
      modifies this
      ensures isMobile == (innerWidth < 768)
      ensures prefersReducedMotion == old(prefersReducedMotion) && mouseX == old(mouseX) && mouseY == old(mouseY)
    {
      isMobile := innerWidth < 768;
    }

    /** `checkReducedMotion`. */
    method ReducedMotionChanged(matches: bool)
      modifies this
      ensures prefersReducedMotion == matches
      ensures isMobile == old(isMobile) && mouseX == old(mouseX) && mouseY == old(mouseY)
    {
      prefersReducedMotion := matches;
    }

    /**
     * The tilt overlay's `onMouseMove`: it records the pointer's offset from the overlay's
     * centre. The overlay is `pointer-events-none`, so in the page this handler never runs
     * (`OverlayStaysLevel`).
     */
    method MouseMove(clientX: real, clientY: real, rect: Rect)
      modifies this
      ensures mouseX == clientX - (rect.left + rect.width / 2.0)
      ensures mouseY == clientY - (rect.top + rect.height / 2.0)
      ensures isMobile == old(isMobile) && prefersReducedMotion == old(prefersReducedMotion)
    {
      mouseX := clientX - rect.left - rect.width / 2.0;
      mouseY := clientY - rect.top - rect.height / 2.0;
    }

    /** The tilt overlay's `onMouseLeave`: it recentres the offset, so the overlay is level again (`CentreIsNeutral`); it never runs either. */
    method MouseLeave()
      modifies this
      ensures mouseX == 0.0 && mouseY == 0.0
      ensures isMobile == old(isMobile) && prefersReducedMotion == old(prefersReducedMotion)
    {
      mouseX, mouseY := 0.0, 0.0;
    }
  }

  /** The events a mounted section can receive: the overlay takes no pointer events, so only these two. */
  datatype Event = WindowResized(innerWidth: int) | MotionPreference(matches: bool)

  /**
   * A section mounted and then sent any sequence of the events it can receive: the tilt
   * overlay keeps a zero pointer offset, so it is always level at brightness 1.
   */
  method OverlayStaysLevel(mode: Option<RevealMode>, draws: seq<real>, disableAnimation: bool, events: seq<Event>)
    returns (rotateX: real, rotateY: real, brightness: real)
    requires AreDraws(draws) && |draws| >= 1
    ensures rotateX == 0.0 && rotateY == 0.0 && brightness == 1.0
  {
    var s := new SectionRevealState(mode, draws, disableAnimation);
    var i := 0;
    while i < |events|
      invariant 0 <= i <= |events|
      invariant s.mouseX == 0.0 && s.mouseY == 0.0
    {
      match events[i] {
        case WindowResized(w) => s.Resize(w);
        case MotionPreference(m) => s.ReducedMotionChanged(m);
      }
      i := i + 1;
    }
    CentreIsNeutral();
    rotateX, rotateY, brightness := RotateX(s.mouseY), RotateY(s.mouseX), Brightness(s.mouseY);
  }
}
