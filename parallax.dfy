/**
 * ParallaxSection: a background image translated along one axis as the section
 * scrolls through the viewport, by up to `speed * 100` percent (less on mobile),
 * switched off by an explicit flag, by the reduced-motion preference, or for 800 ms
 * after a layout shift; plus the blur placeholder and overlay chosen for the image.
 */
module Parallax {
  import opened Wrappers
  import opened Timers
  import JsString

  datatype Direction = Up | Down | Left | Right
  datatype Axis = X | Y

  /** The control points of a `cubicBezier(x1, y1, x2, y2)` easing curve. */
  datatype Bezier = Bezier(x1: real, y1: real, x2: real, y2: real)

  /** A translation of the background along one axis, in percent of its size. */
  datatype Translate = Translate(axis: Axis, percent: real)

  /** A performance timeline entry. */
  datatype PerfEntry = PerfEntry(entryType: string, value: real)

  datatype Placeholder = Blank | LightBlur | DarkBlur | NeutralBlur

  /** The overlay over the image: a flat colour, or a CSS linear gradient. */
  datatype Background = Color(color: string) | Gradient(css: string)

  const MobileBreakpoint: int := 768
  const JankThreshold: real := 0.05
  const JankCooldownMs: real := 800.0

  predicate IsMobile(innerWidth: int)
  {
    innerWidth < MobileBreakpoint
  }

  /** `effectiveSpeed`: the speed as given on desktop, reduced and capped at 0.15 on mobile. */
  function EffectiveSpeed(speed: real, isMobile: bool): (r: real)
    ensures !isMobile ==> r == speed
    ensures isMobile ==> r <= 0.15 && r <= speed * 0.6 && (r == 0.15 || r == speed * 0.6)
  {
    if isMobile then (if speed * 0.6 < 0.15 then speed * 0.6 else 0.15) else speed
  }

  /** `getEasingFunction`: the three named curves, and the linear curve for any other name. */
  function EasingCurve(name: string): (b: Bezier)
    ensures 0.0 <= b.x1 <= 1.0 && 0.0 <= b.x2 <= 1.0 && 0.0 <= b.y1 <= 1.0 && 0.0 <= b.y2 <= 1.0
    ensures IsIdentity(b) <==> name != "easeIn" && name != "easeOut" && name != "easeInOut"
  {
    if name == "easeIn" then Bezier(0.42, 0.0, 1.0, 1.0)
    else if name == "easeOut" then Bezier(0.0, 0.0, 0.58, 1.0)
    else if name == "easeInOut" then Bezier(0.42, 0.0, 0.58, 1.0)
    else Bezier(0.0, 0.0, 1.0, 1.0)
  }

  /** A curve whose control points lie on the diagonal is the identity. */
  predicate IsIdentity(b: Bezier)
  {
    b.x1 == b.y1 && b.x2 == b.y2
  }

  /**
   * The eased scroll progress: the progress itself for the identity curve; otherwise
   * `curveValue`, the value of the curve at `p`, which the animation library computes.
   */
  function Eased(b: Bezier, p: real, curveValue: real): (e: real)
    ensures IsIdentity(b) ==> e == p
  {
    if IsIdentity(b) then p else curveValue
  }

  /** Up and down move the image vertically, left and right horizontally. */
  function AxisOf(d: Direction): (a: Axis)
    ensures a == Y <==> d == Up || d == Down
  {
    match d
    case Up => Y
    case Down => Y
    case Left => X
    case Right => X
  }

  /** The offset at the end of the scroll range: `-speed * 100%` up or left, `+speed * 100%` down or right. */
  function EndOffset(d: Direction, effectiveSpeed: real): (r: real)
    ensures d == Up || d == Left ==> r == -effectiveSpeed * 100.0
    ensures d == Down || d == Right ==> r == effectiveSpeed * 100.0
  {
    match d
    case Up => -effectiveSpeed * 100.0
    case Down => effectiveSpeed * 100.0
    case Left => -effectiveSpeed * 100.0
    case Right => effectiveSpeed * 100.0
  }

  /** The offset at eased progress `e`: the interpolation from `0%` to the end offset. */
  function Offset(d: Direction, effectiveSpeed: real, e: real): real
  {
    0.0 + (EndOffset(d, effectiveSpeed) - 0.0) * e
  }

  /** The offset starts at `0%` and reaches the end offset at the end of the scroll range. */
  lemma OffsetEndpoints(d: Direction, effectiveSpeed: real)
    ensures Offset(d, effectiveSpeed, 0.0) == 0.0
    ensures Offset(d, effectiveSpeed, 1.0) == EndOffset(d, effectiveSpeed)
  {
  }

  /** In between, the offset keeps the sign of the end offset and never goes past it. */
  lemma OffsetBounded(d: Direction, effectiveSpeed: real, e: real)
    requires effectiveSpeed >= 0.0 && 0.0 <= e <= 1.0
    ensures -effectiveSpeed * 100.0 <= Offset(d, effectiveSpeed, e) <= effectiveSpeed * 100.0
    ensures (d == Up || d == Left) ==> Offset(d, effectiveSpeed, e) <= 0.0
    ensures (d == Down || d == Right) ==> Offset(d, effectiveSpeed, e) >= 0.0
  {
    var m := effectiveSpeed * 100.0;
    var o := Offset(d, effectiveSpeed, e);
    ScaledFraction(m, e);
    if d == Up || d == Left {
      assert EndOffset(d, effectiveSpeed) == -m;
      NegatedProduct(m, e);
      assert o == -(m * e);
    } else {
      assert EndOffset(d, effectiveSpeed) == m;
      assert o == m * e;
    }
  }

  lemma NegatedProduct(m: real, e: real)
    ensures (-m) * e == -(m * e)
  {
  }

  lemma ScaledFraction(m: real, e: real)
    requires m >= 0.0 && 0.0 <= e <= 1.0
    ensures 0.0 <= m * e <= m
  {
    assert m * e <= m * 1.0;
  }

  /** With linear easing, half-way through the scroll range an "up" image is at `-speed * 50%`. */
  lemma LinearHalfway(speed: real, isMobile: bool, curveValue: real)
    ensures Offset(Up, EffectiveSpeed(speed, isMobile), Eased(EasingCurve("linear"), 0.5, curveValue))
         == -EffectiveSpeed(speed, isMobile) * 50.0
  {
  }

  /** The motion style applied to the image: the translation, unless any of the three switches is on. */
  function MotionStyle(disableParallax: bool, disableParallaxTemp: bool, prefersReducedMotion: bool,
                       d: Direction, offset: real): (r: Option<Translate>)
    ensures r.Some? <==> !disableParallax && !disableParallaxTemp && !prefersReducedMotion
    ensures r.Some? ==> r.value == Translate(AxisOf(d), offset)
  {
    if !disableParallax && !disableParallaxTemp && !prefersReducedMotion
    then Some(if d == Up || d == Down then Translate(Y, offset) else Translate(X, offset))
    else None
  }

  /** A layout-shift entry large enough to count as jank. */
  predicate IsJank(entry: PerfEntry)
  {
    entry.entryType == "layout-shift" && entry.value > JankThreshold
  }

  /** The number of jank entries in a batch. */
  function JankCount(entries: seq<PerfEntry>): (n: nat)
    ensures n <= |entries|
    ensures n == 0 <==> forall i :: 0 <= i < |entries| ==> !IsJank(entries[i])
  {
    if |entries| == 0 then 0
    else JankCount(entries[..|entries| - 1]) + (if IsJank(entries[|entries| - 1]) then 1 else 0)
  }

  function Repeat(x: real, n: nat): (r: seq<real>)
    ensures |r| == n && forall i :: 0 <= i < n ==> r[i] == x
  {
    seq(n, _ => x)
  }

  /** `getOptimizedBlurData`'s choice: no path (or the empty one), light hints, dark hints, or neutral. */
  function BlurPlaceholder(path: Option<string>): (p: Placeholder)
    ensures p == Blank <==> path.None? || path.value == ""
    ensures p == LightBlur <==>
      (path.Some? && path.value != ""
       && (JsString.Contains(path.value, "light") || JsString.Contains(path.value, "white")))
    ensures p == DarkBlur <==>
      (path.Some? && path.value != ""
       && !JsString.Contains(path.value, "light") && !JsString.Contains(path.value, "white")
       && (JsString.Contains(path.value, "dark") || JsString.Contains(path.value, "black")))
  {
    if path.None? || path.value == "" then Blank
    else if JsString.Contains(path.value, "light") || JsString.Contains(path.value, "white") then LightBlur
    else if JsString.Contains(path.value, "dark") || JsString.Contains(path.value, "black") then DarkBlur
    else NeutralBlur
  }

  /** A light hint wins over a dark one. */
  lemma LightWinsOverDark(path: string)
    requires JsString.Contains(path, "light") && JsString.Contains(path, "dark")
    ensures BlurPlaceholder(Some(path)) == LightBlur
  {
  }

  /** The 1x1 PNG data URL of each placeholder. */
  function BlurDataUrl(p: Placeholder): string
  {
    match p
    case Blank => "data:image/png;base64,iVBORw0KGgoAAAANSUhEUgAAAAEAAAABCAYAAAAfFcSJAAAADUlEQVR42mNk+P+/HgAEhAI/+tkfOwAAAABJRU5ErkJggg=="
    case LightBlur => "data:image/png;base64,iVBORw0KGgoAAAANSUhEUgAAAAEAAAABCAYAAAAfFcSJAAAADUlEQVR42mP8z8BQDwAEhQGAhKmMIQAAAABJRU5ErkJggg=="
    case DarkBlur => "data:image/png;base64,iVBORw0KGgoAAAANSUhEUgAAAAEAAAABCAYAAAAfFcSJAAAADUlEQVR42mNkYPj/HwADBwIAMCbHYQAAAABJRU5ErkJggg=="
    case NeutralBlur => "data:image/png;base64,iVBORw0KGgoAAAANSUhEUgAAAAEAAAABCAYAAAAfFcSJAAAADUlEQVR42mNkmM9QDwAECQGAZalTpgAAAABJRU5ErkJggg=="
  }

  /** The CSS direction of a gradient: the first `to-` becomes `to `. */
  function GradientDirection(direction: string): string
  {
    JsString.ReplaceFirst(direction, "to-", "to ")
  }

  /** Every direction prop `to-XX` is written `to XX` in the CSS gradient. */
  lemma GradientDirectionRewrite(side: string)
    ensures GradientDirection("to-" + side) == "to " + side
  {
    JsString.ReplaceFirstAtStart("to-", side, "to ");
  }

  /** The overlay: a gradient between the two colours when `overlayGradient` is set, the flat colour otherwise. */
  function OverlayBackground(overlayGradient: bool, overlayColor: string, direction: string,
                             from: string, to: string): (b: Background)
    ensures b.Color? <==> !overlayGradient
    ensures b.Color? ==> b.color == overlayColor
    ensures b.Gradient? ==> b.css == "linear-gradient(" + GradientDirection(direction) + " , " + from + ", " + to + ")"
  {
    if overlayGradient
    then Gradient("linear-gradient(" + GradientDirection(direction) + " , " + from + ", " + to + ")")
    else Color(overlayColor)
  }

  /** A direction prop `to-XX` gives the CSS gradient `linear-gradient(to XX , from, to)`. */
  lemma OverlayGradientCss(side: string, overlayColor: string, from: string, to: string)
    ensures OverlayBackground(true, overlayColor, "to-" + side, from, to)
         == Gradient("linear-gradient(to " + side + " , " + from + ", " + to + ")")
  {
    GradientDirectionRewrite(side);
  }

  class Section {
    const speed: real
    const direction: Direction
    const easing: string
    const disableParallax: bool
    var isMobile: bool
    var prefersReducedMotion: bool
    var disableParallaxTemp: bool
    /** Deadlines of the pending re-enable timers, in the order they were set. */
    var timers: seq<real>

    constructor (speed: real, direction: Direction, easing: string, disableParallax: bool)
      ensures this.speed == speed && this.direction == direction && this.easing == easing
      ensures this.disableParallax == disableParallax
      ensures !isMobile && !prefersReducedMotion && !disableParallaxTemp && timers == []
    {
      this.speed := speed;
      this.direction := direction;
      this.easing := easing;
      this.disableParallax := disableParallax;
      isMobile, prefersReducedMotion, disableParallaxTemp := false, false, false;
      timers := [];
    }

    /** The translation applied at scroll progress `p`, given the library's value of the easing curve at `p`. */
    function Style(p: real, curveValue: real): (r: Option<Translate>)
      reads this
      ensures r.None? <==> disableParallax || disableParallaxTemp || prefersReducedMotion
      ensures r.Some? ==> r.value.axis == AxisOf(direction)
      ensures r.Some? ==> r.value.percent == Offset(direction, EffectiveSpeed(speed, isMobile), Eased(EasingCurve(easing), p, curveValue))
      ensures r.Some? && IsIdentity(EasingCurve(easing)) ==> r.value.percent == Offset(direction, EffectiveSpeed(speed, isMobile), p)
    {
      var e := Eased(EasingCurve(easing), p, curveValue);
      MotionStyle(disableParallax, disableParallaxTemp, prefersReducedMotion, direction,
                  Offset(direction, EffectiveSpeed(speed, isMobile), e))
    }

    /** `checkMobile`, run on mount and on every resize. */
    method Resize(innerWidth: int)
      modifies this
      ensures isMobile == IsMobile(innerWidth)
      ensures prefersReducedMotion == old(prefersReducedMotion) && disableParallaxTemp == old(disableParallaxTemp)
      ensures timers == old(timers)
    {
      isMobile := innerWidth < 768;
    }

    /** `checkReducedMotion`, run on mount and whenever the media query changes. */
    method ReducedMotionChanged(matches: bool)
      modifies this
      ensures prefersReducedMotion == matches
      ensures isMobile == old(isMobile) && disableParallaxTemp == old(disableParallaxTemp) && timers == old(timers)
    {
      prefersReducedMotion := matches;
    }

    /**
     * The performance observer's callback on a batch of entries at time `now`: every
     * jank entry switches the parallax off and sets one more timer 800 ms ahead.
     */
    method Observe(entries: seq<PerfEntry>, now: real)
      modifies this
      ensures disableParallaxTemp == (old(disableParallaxTemp) || JankCount(entries) > 0)
      ensures timers == old(timers) + Repeat(now + JankCooldownMs, JankCount(entries))
      ensures isMobile == old(isMobile) && prefersReducedMotion == old(prefersReducedMotion)
    {
      var i := 0;
      while i < |entries|
        invariant 0 <= i <= |entries|
        invariant disableParallaxTemp == (old(disableParallaxTemp) || JankCount(entries[..i]) > 0)
        invariant timers == old(timers) + Repeat(now + JankCooldownMs, JankCount(entries[..i]))
        invariant isMobile == old(isMobile) && prefersReducedMotion == old(prefersReducedMotion)
      {
        assert entries[..i + 1][..i] == entries[..i];
        var entry := entries[i];
        if entry.entryType == "layout-shift" && entry.value > 0.05 {
          disableParallaxTemp := true;
          timers := timers + [now + JankCooldownMs];
        }
        i := i + 1;
      }
      assert entries[..|entries|] == entries;
    }

    /**
     * Time reaches `now` and pending timer `i`, the earliest and due, runs: the parallax
     * is switched back on, whatever janks came later. Returns the timer's deadline.
     */
    method FireTimer(now: real, i: int) returns (at: real)
      requires NextDue(timers, i, now)
      modifies this
      ensures at == old(timers)[i] && at <= now && timers == RemoveAt(old(timers), i)
      ensures !disableParallaxTemp
      ensures isMobile == old(isMobile) && prefersReducedMotion == old(prefersReducedMotion)
    {
      at := timers[i];
      timers := timers[..i] + timers[i + 1..];
      disableParallaxTemp := false;
    }
  }

  /**
   * Two janks 0 < t1 - t0 < 800 ms apart: the timer of the first re-enables the
   * parallax at t0 + 800, before 800 ms have passed since the second.
   */
  method JankCooldownFromFirst(t0: real, t1: real) returns (at: real, stillOff: bool)
    requires t0 < t1 < t0 + 800.0
    ensures at == t0 + 800.0 && at < t1 + 800.0
    ensures !stillOff
  {
    var s := new Section(0.2, Up, "linear", false);
    s.Observe([PerfEntry("layout-shift", 0.1)], t0);
    s.Observe([PerfEntry("layout-shift", 0.1)], t1);
    assert s.timers == [t0 + 800.0, t1 + 800.0];
    at := s.FireTimer(t0 + 800.0, 0);
    stillOff := s.disableParallaxTemp;
  }
}
