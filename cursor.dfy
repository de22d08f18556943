/**
 * CustomCursor of the landing page: a pointer-following disc whose look is switched by
 * a four-state hover type, and a trail of the most recent pointer samples drawn as
 * fading, blurring ghosts.
 */
module Cursor {
  import opened Wrappers
  import JsString

  datatype CursorType = Default | Button | Card | Audio

  /** One trail entry: the disc's corner (the pointer position minus 18 on each axis) and the frame time. */
  datatype Sample = Sample(x: real, y: real, t: real)

  /** The motion values a hover type sets. */
  datatype Style = Style(scale: real, color: string, ringColor: string, glow: string, borderColor: string)

  /** The derived look of the disc and its ring for a hover type. */
  datatype Appearance = Appearance(opacity: real, ringScale: real, ringBlur: real, spinSeconds: real, brightened: bool)

  const NumGhosts: int := 6
  /** Half the disc size: the disc is drawn with its centre on the pointer. */
  const HalfSize: real := 18.0

  /** `setType`'s switch: the three named targets, and the default for anything else, null included. */
  function HoverType(t: Option<string>): (c: CursorType)
    ensures c == Button <==> t == Some("button")
    ensures c == Audio <==> t == Some("audio")
    ensures c == Card <==> t == Some("card")
  {
    if t == Some("button") then Button
    else if t == Some("audio") then Audio
    else if t == Some("card") then Card
    else Default
  }

  /** The preset of each hover type. */
  function Preset(c: CursorType): (s: Style)
    ensures s.scale >= 1.0
    ensures s.scale == 1.0 <==> c == Default
  {
    match c
    case Button => Style(1.4, "#01FBFD", "#01FBFD", "rgba(1,251,253,0.23)", "#02EDF8AA")
    case Audio => Style(1.9, "#00778D", "#01FBFD", "rgba(0,119,141,0.18)", "#11FFFDE0")
    case Card => Style(1.25, "#19A5B2", "#00E7CE", "rgba(0,246,237,0.14)", "#00F6ED44")
    case Default => Style(1.0, "#fff", "#00E7CE", "rgba(0,198,216,0.16)", "#8af6fe40")
  }

  /** The look of the disc and ring: any non-default type brightens, enlarges and sharpens the ring. */
  function AppearanceOf(c: CursorType): (a: Appearance)
    ensures a.brightened <==> c != Default
    ensures c == Default ==> a.opacity < 0.96 && a.ringScale == 1.0 && a.ringBlur == 4.0
    ensures c != Default ==> a.opacity == 0.96 && a.ringScale > 1.0 && a.ringBlur < 4.0
    ensures a.spinSeconds == (if c == Audio then 2.0 else 5.0)
  {
    var base := c == Default;
    Appearance(if base then 0.92 else 0.96, if base then 1.0 else 1.13, if base then 4.0 else 1.7,
               if c == Audio then 2.0 else 5.0, !base)
  }

  /** One frame of the trail: `[...prev.slice(-numGhosts + 1), latest]`. */
  function NextTrail(prev: seq<Sample>, latest: Sample, numGhosts: int): (r: seq<Sample>)
    ensures |r| >= 1 && r[|r| - 1] == latest
    ensures |r| <= |prev| + 1
  {
    JsString.SliceFrom(prev, -numGhosts + 1) + [latest]
  }

  /** The last `n` samples (all of them when there are fewer), oldest first. */
  function Recent(samples: seq<Sample>, n: nat): (r: seq<Sample>)
    ensures |r| == if |samples| < n then |samples| else n
  {
    samples[if |samples| < n then 0 else |samples| - n..]
  }

  /** The trail after one frame per sample, starting from the empty trail. */
  function TrailAfter(samples: seq<Sample>): seq<Sample>
  {
    if |samples| == 0 then []
    else NextTrail(TrailAfter(samples[..|samples| - 1]), samples[|samples| - 1], NumGhosts)
  }

  /** With at least two ghosts a frame keeps the `numGhosts - 1` most recent entries and appends the new one. */
  lemma TrailWindow(prev: seq<Sample>, latest: Sample, numGhosts: int)
    requires numGhosts >= 2
    ensures NextTrail(prev, latest, numGhosts) == Recent(prev, numGhosts - 1) + [latest]
    ensures |NextTrail(prev, latest, numGhosts)| <= numGhosts
  {
  }

  /** With one ghost `slice(-0)` is `slice(0)`: nothing is dropped and the trail grows every frame. */
  lemma OneGhostTrailGrows(prev: seq<Sample>, latest: Sample)
    ensures NextTrail(prev, latest, 1) == prev + [latest]
  {
  }

  lemma RecentOfRecent(s: seq<Sample>, m: nat, n: nat)
    requires n <= m
    ensures Recent(Recent(s, m), n) == Recent(s, n)
  {
  }

  lemma RecentSnoc(s: seq<Sample>, x: Sample, n: nat)
    requires n >= 1
    ensures Recent(s + [x], n) == Recent(s, n - 1) + [x]
  {
    var t := s + [x];
    assert Recent(t, n) == t[|t| - |Recent(t, n)|..];
  }

  /** A frame applied to the window of the samples so far gives the window of the samples with the new one. */
  lemma FrameKeepsWindow(samples: seq<Sample>, latest: Sample)
    ensures NextTrail(Recent(samples, 6), latest, NumGhosts) == Recent(samples + [latest], 6)
  {
    TrailWindow(Recent(samples, 6), latest, NumGhosts);
    RecentOfRecent(samples, 6, 5);
    RecentSnoc(samples, latest, 6);
  }

  /** After any number of frames the trail is the most recent samples, at most six, in order. */
  lemma {:induction false} TrailIsMostRecent(samples: seq<Sample>)
    ensures TrailAfter(samples) == Recent(samples, NumGhosts as nat)
  {
    if |samples| > 0 {
      var before, x := samples[..|samples| - 1], samples[|samples| - 1];
      assert samples == before + [x];
      calc {
        TrailAfter(samples);
        NextTrail(TrailAfter(before), x, NumGhosts);
        { TrailIsMostRecent(before); }
        NextTrail(Recent(before, 6), x, NumGhosts);
        { FrameKeepsWindow(before, x); }
        Recent(samples, 6);
      }
    }
  }

  /** The opacity of ghost `idx`: faint for the oldest, stronger for newer ones. */
  function GhostOpacity(idx: nat): (o: real)
    requires idx < NumGhosts
    ensures 0.10 <= o < 0.28
  {
    0.10 + 0.18 * (idx as real / NumGhosts as real)
  }

  /** The blur radius of ghost `idx`, in pixels. */
  function GhostBlur(idx: nat): (b: int)
    ensures b >= 2 && b % 2 == 0
  {
    2 + idx * 2
  }

  /** Newer ghosts are strictly more opaque and more blurred. */
  lemma GhostsStrengthen(i: nat, j: nat)
    requires i < j < NumGhosts
    ensures GhostOpacity(i) < GhostOpacity(j)
    ensures GhostBlur(i) < GhostBlur(j)
  {
    assert i as real / 6.0 < j as real / 6.0;
  }

  class CustomCursor {
    var cursorType: CursorType
    var style: Style
    var x: real
    var y: real
    var trail: seq<Sample>
    /** Every sample taken so far, oldest first. */
    ghost var samples: seq<Sample>

    ghost predicate Valid()
      reads this
    {
      style == Preset(cursorType) && trail == Recent(samples, NumGhosts as nat)
    }

    /** The initial motion values are the default preset, the pointer at the origin, the trail empty. */
    constructor ()
      ensures Valid()
      ensures cursorType == Default && style == Preset(Default)
      ensures x == 0.0 && y == 0.0 && trail == [] && samples == []
    {
      cursorType := Default;
      style := Style(1.0, "#fff", "#00E7CE", "rgba(0,198,216,0.16)", "#8af6fe40");
      x, y := 0.0, 0.0;
      trail := [];
      samples := [];
    }

    /** `setType`: the new type and its preset depend on the argument alone. */
    method SetType(t: Option<string>)
      requires Valid()
      modifies this
      ensures Valid()
      ensures cursorType == HoverType(t) && style == Preset(cursorType)
      ensures x == old(x) && y == old(y) && trail == old(trail) && samples == old(samples)
    {
      if t == Some("button") {
        style := Style(1.4, "#01FBFD", "#01FBFD", "rgba(1,251,253,0.23)", "#02EDF8AA");
        cursorType := Button;
      } else if t == Some("audio") {
        style := Style(1.9, "#00778D", "#01FBFD", "rgba(0,119,141,0.18)", "#11FFFDE0");
        cursorType := Audio;
      } else if t == Some("card") {
        style := Style(1.25, "#19A5B2", "#00E7CE", "rgba(0,246,237,0.14)", "#00F6ED44");
        cursorType := Card;
      } else {
        style := Style(1.0, "#fff", "#00E7CE", "rgba(0,198,216,0.16)", "#8af6fe40");
        cursorType := Default;
      }
    }

    /** A pointer move puts the disc's corner half a disc up and left of the pointer. */
    method Move(clientX: real, clientY: real)
      requires Valid()
      modifies this
      ensures Valid()
      ensures x + HalfSize == clientX && y + HalfSize == clientY
      ensures cursorType == old(cursorType) && style == old(style)
      ensures trail == old(trail) && samples == old(samples)
    {
      x := clientX - HalfSize;
      y := clientY - HalfSize;
    }

    /** One animation frame: sample the pointer and slide the trail window. */
    method Frame(now: real)
      requires Valid()
      modifies this
      ensures Valid()
      ensures samples == old(samples) + [Sample(x, y, now)]
      ensures trail == NextTrail(old(trail), Sample(x, y, now), NumGhosts)
      ensures x == old(x) && y == old(y) && cursorType == old(cursorType) && style == old(style)
    {
      var latest := Sample(x, y, now);
      FrameKeepsWindow(samples, latest);
      trail, samples := NextTrail(trail, latest, NumGhosts), samples + [latest];
    }
  }

  /** `setType` is idempotent, and null has the same effect as "default". */
  method SetTypeTwice(c: CustomCursor, t: Option<string>)
    requires c.Valid()
    modifies c
    ensures c.Valid()
    ensures c.cursorType == HoverType(t) && c.style == Preset(HoverType(t))
    ensures HoverType(None) == HoverType(Some("default")) == Default
  {
    c.SetType(t);
    c.SetType(t);
  }
}
