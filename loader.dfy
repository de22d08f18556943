/**
 * Loader: the full-screen splash whose percentage creeps up every animation frame,
 * by a decreasing amount but never less than 0.1, and stops below 100 until the page
 * reports it is loaded; then it jumps to 100, plays its closing effect and goes away.
 */
module Loader {
  import opened Timers

  const Start: real := 1.0
  /** Progress at or past this value no longer moves on its own. */
  const Plateau: real := 99.5
  /** Past the plateau by at most one minimal step. */
  const Ceiling: real := 99.6
  const LoadedDoneMs: real := 1800.0
  const WowDoneMs: real := 600.0

  /** `Math.max(0.10, (102 - prev) * 0.009)`. */
  function Increment(p: real): (d: real)
    ensures d >= 0.1
    ensures d == 0.1 || d == (102.0 - p) * 0.009
  {
    if 0.1 > (102.0 - p) * 0.009 then 0.1 else (102.0 - p) * 0.009
  }

  /** One frame's update of the progress. */
  function Step(p: real): (q: real)
    ensures q >= p
    ensures p < Plateau ==> q >= p + 0.1
    ensures p >= Plateau ==> q == p
  {
    if p < 99.5 then p + Increment(p) else p
  }

  /** Below the plateau a frame never reaches 100: it ends before the ceiling. */
  lemma StepBelowCeiling(p: real)
    requires p < Ceiling
    ensures Step(p) < Ceiling
  {
    if p < Plateau && Increment(p) != 0.1 {
      assert (102.0 - p) * 0.009 >= 0.1;
      assert p <= 91.0;
    }
  }

  /** The progress after `n` frames. */
  function Iterate(p: real, n: nat): real
  {
    if n == 0 then p else Step(Iterate(p, n - 1))
  }

  /** The progress never decreases from frame to frame. */
  lemma {:induction false} IterateMonotone(p: real, m: nat, n: nat)
    requires m <= n
    ensures p <= Iterate(p, m) <= Iterate(p, n)
  {
    if m < n {
      IterateMonotone(p, m, n - 1);
    } else if m > 0 {
      IterateMonotone(p, m - 1, m);
    }
  }

  /** Started below the ceiling, the progress stays below it however many frames pass. */
  lemma {:induction false} IterateBelowCeiling(p: real, n: nat)
    requires p < Ceiling
    ensures Iterate(p, n) < Ceiling
  {
    if n > 0 {
      IterateBelowCeiling(p, n - 1);
      StepBelowCeiling(Iterate(p, n - 1));
    }
  }

  /** Every frame before the plateau adds at least 0.1. */
  lemma {:induction false} IterateAdvances(p: real, n: nat)
    ensures Iterate(p, n) >= Plateau || Iterate(p, n) >= p + 0.1 * n as real
  {
    if n > 0 {
      IterateAdvances(p, n - 1);
    }
  }

  /** At the plateau the progress stays fixed. */
  lemma {:induction false} PlateauIsFixed(p: real, n: nat)
    requires p >= Plateau
    ensures Iterate(p, n) == p
  {
    if n > 0 {
      PlateauIsFixed(p, n - 1);
    }
  }

  /** From the start value the plateau is reached within 985 frames, and stays. */
  lemma ReachesPlateau(n: nat)
    requires n >= 985
    ensures Plateau <= Iterate(Start, n) < Ceiling
  {
    IterateAdvances(Start, 985);
    IterateMonotone(Start, 985, n);
    IterateBelowCeiling(Start, n);
  }

  /** The number shown: `Math.floor(progress)`. */
  function Percent(p: real): int
  {
    p.Floor
  }

  /** Until the page is loaded the number shown is at most 99; once loaded it is 100. */
  lemma PercentShown(p: real)
    requires Start <= p < Ceiling
    ensures 1 <= Percent(p) <= 99
    ensures Percent(100.0) == 100
  {
  }

  class LoaderState {
    var progress: real
    var done: bool
    var playWow: bool
    /** The `isLoaded` prop. */
    var loaded: bool
    /** Deadlines of the pending `setDone(true)` timers. */
    var doneTimers: seq<real>

    /** While loading the progress is between the start and the ceiling; once loaded it is 100 with the effect on. */
    predicate Valid()
      reads this
    {
      (!loaded ==> Start <= progress < Ceiling && !playWow)
      && (loaded ==> progress == 100.0 && playWow)
    }

    constructor ()
      ensures Valid()
      ensures progress == Start && !done && !playWow && !loaded && doneTimers == []
    {
      progress := 1.0;
      done, playWow, loaded := false, false, false;
      doneTimers := [];
    }

    /** One animation frame while the page is loading. */
    method Frame()
      requires Valid() && !loaded
      modifies this
      ensures Valid()
      ensures progress == Step(old(progress)) && progress >= old(progress)
      ensures done == old(done) && playWow == old(playWow) && loaded == old(loaded) && doneTimers == old(doneTimers)
    {
      StepBelowCeiling(progress);
      progress := Step(progress);
    }

    /** `n` frames of the animation loop. */
    method RunFrames(n: nat)
      requires Valid() && !loaded
      modifies this
      ensures Valid()
      ensures progress == Iterate(old(progress), n)
      ensures done == old(done) && playWow == old(playWow) && loaded == old(loaded) && doneTimers == old(doneTimers)
    {
      var i := 0;
      while i < n
        invariant 0 <= i <= n
        invariant Valid() && !loaded
        invariant progress == Iterate(old(progress), i)
        invariant done == old(done) && playWow == old(playWow) && doneTimers == old(doneTimers)
      {
        Frame();
        i := i + 1;
      }
    }

    /** The page reports it is loaded at time `now`: 100, the closing effect, and the loader is done 1800 ms later. */
    method Load(now: real)
      requires Valid()
      modifies this
      ensures Valid() && loaded
      ensures progress == 100.0 && playWow
      ensures done == old(done) && doneTimers == old(doneTimers) + [now + LoadedDoneMs]
    {
      loaded := true;
      progress := 100.0;
      playWow := true;
      doneTimers := doneTimers + [now + LoadedDoneMs];
    }

    /** The second effect: at 100 with the closing effect on and not yet done, the loader is done 600 ms later. */
    method WowEffect(now: real)
      requires Valid()
      modifies this
      ensures Valid()
      ensures doneTimers == old(doneTimers) + (if progress >= 100.0 && !done && playWow then [now + WowDoneMs] else [])
      ensures progress == old(progress) && done == old(done) && playWow == old(playWow) && loaded == old(loaded)
      ensures !loaded ==> doneTimers == old(doneTimers)
    {
      if progress >= 100.0 && !done && playWow {
        doneTimers := doneTimers + [now + WowDoneMs];
      }
    }

    /**
     * Time reaches `now` and pending timer `i`, the earliest and due, runs: the loader
     * is done and is removed. Both timers only set `done`, so whichever runs first decides.
     */
    method FireDone(now: real, i: int)
      requires Valid() && NextDue(doneTimers, i, now)
      modifies this
      ensures Valid() && done
      ensures doneTimers == RemoveAt(old(doneTimers), i)
      ensures progress == old(progress) && playWow == old(playWow) && loaded == old(loaded)
    {
      doneTimers := doneTimers[..i] + doneTimers[i + 1..];
      done := true;
    }
  }

  /** However long the page takes, a mounted loader never shows 100 before it is loaded. */
  method NeverFullBeforeLoad(n: nat) returns (shown: int)
    ensures 1 <= shown <= 99
  {
    var l := new LoaderState();
    l.RunFrames(n);
    PercentShown(l.progress);
    shown := Percent(l.progress);
  }
}
