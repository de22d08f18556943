/**
 * SectionFullTransitionProvider: a full-screen overlay that covers the page as soon
 * as `trigger` is called and uncovers it 650 ms after the latest trigger, each new
 * trigger cancelling the pending uncover; and the hook that requires the provider.
 */
module FullTransition {
  import opened Wrappers

  datatype Phase = Cover | Uncover

  /** A variant of the overlay: its vertical scale, its opacity and the duration of the move to it. */
  datatype Pose = Pose(scaleY: real, opacity: real, duration: real)

  const HoldMs: real := 650.0
  const MissingProvider: string := "SectionFullTransitionProvider missing"

  /** The overlay fills the screen and is opaque when covering; it is flat and transparent when uncovered. */
  function Variant(p: Phase): (v: Pose)
    ensures v.scaleY == v.opacity && v.duration > 0.0
    ensures v.scaleY == 1.0 <==> p == Cover
    ensures v.scaleY == 0.0 <==> p == Uncover
  {
    match p
    case Cover => Pose(1.0, 1.0, 0.66)
    case Uncover => Pose(0.0, 0.0, 0.57)
  }

  /** `useSectionFullTransition`: the context value of the nearest provider, or the error thrown without one. */
  function UseSectionFullTransition<T>(ctx: Option<T>): (r: Result<T>)
    ensures r.Ok? <==> ctx.Some?
    ensures r.Ok? ==> r.value == ctx.value
    ensures r.Err? ==> r.message == MissingProvider
  {
    if ctx.None? then Err("SectionFullTransitionProvider missing") else Ok(ctx.value)
  }

  /**
   * The phase at time `t` after triggers at the given times (all at or before `t`):
   * covering exactly when there was a trigger and the latest one is less than 650 ms ago.
   */
  function PhaseAfter(triggers: seq<real>, t: real): Phase
  {
    if |triggers| > 0 && t < triggers[|triggers| - 1] + HoldMs then Cover else Uncover
  }

  class Provider {
    var phase: Phase
    /** The deadline of the pending uncover timer, if any. */
    var pending: Option<real>
    /** The time of the latest trigger. */
    ghost var lastTrigger: Option<real>

    /** A pending uncover is due 650 ms after the latest trigger, and the overlay covers until then. */
    ghost predicate Valid()
      reads this
    {
      pending.Some? ==> phase == Cover && lastTrigger.Some? && pending.value == lastTrigger.value + HoldMs
    }

    /** The overlay starts uncovered, with no timer. */
    constructor ()
      ensures Valid() && phase == Uncover && pending.None? && lastTrigger.None?
    {
      phase := Uncover;
      pending := None;
      lastTrigger := None;
    }

    /** `trigger`: cover now, cancel any pending uncover and schedule a new one 650 ms from now. */
    method Trigger(now: real)
      modifies this
      ensures Valid()
      ensures phase == Cover && pending == Some(now + HoldMs) && lastTrigger == Some(now)
    {
      phase := Cover;
      pending := Some(now + 650.0);
      lastTrigger := Some(now);
    }

    /** Time reaches `now`: a pending uncover that is due fires. */
    method Tick(now: real)
      requires Valid()
      modifies this
      ensures Valid() && lastTrigger == old(lastTrigger)
      ensures old(pending).Some? && now >= old(pending).value ==> phase == Uncover && pending.None?
      ensures !(old(pending).Some? && now >= old(pending).value) ==> phase == old(phase) && pending == old(pending)
    {
      if pending.Some? && now >= pending.value {
        phase := Uncover;
        pending := None;
      }
    }
  }

  /**
   * A fresh provider, triggered at the given times in order and observed at `t`:
   * its phase is the one `PhaseAfter` gives, so only the latest trigger decides the uncover.
   */
  method Replay(triggers: seq<real>, t: real) returns (phase: Phase)
    requires forall i, j :: 0 <= i <= j < |triggers| ==> triggers[i] <= triggers[j]
    requires forall i :: 0 <= i < |triggers| ==> triggers[i] <= t
    ensures phase == PhaseAfter(triggers, t)
  {
    var p := new Provider();
    var i := 0;
    while i < |triggers|
      invariant 0 <= i <= |triggers|
      invariant p.Valid()
      invariant i == 0 ==> p.phase == Uncover && p.pending.None?
      invariant i > 0 ==> p.phase == Cover && p.pending == Some(triggers[i - 1] + HoldMs)
    {
      p.Tick(triggers[i]);
      p.Trigger(triggers[i]);
      i := i + 1;
    }
    p.Tick(t);
    phase := p.phase;
  }

  /** Two triggers 400 ms apart: still covered 650 ms after the first, uncovered 650 ms after the second. */
  lemma DebounceExample()
    ensures PhaseAfter([0.0, 400.0], 650.0) == Cover
    ensures PhaseAfter([0.0, 400.0], 1050.0) == Uncover
    ensures PhaseAfter([], 0.0) == Uncover
  {
  }
}
