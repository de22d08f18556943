/**
 * Pending `setTimeout` callbacks, each kept as its deadline. The browser runs a callback
 * only once its deadline has passed, and among the pending ones the earliest first.
 */
module Timers {

  /** Timer `i` is due at time `now` and no pending timer has an earlier deadline. */
  predicate NextDue(deadlines: seq<real>, i: int, now: real)
  {
    0 <= i < |deadlines| && deadlines[i] <= now
    && forall j :: 0 <= j < |deadlines| ==> deadlines[i] <= deadlines[j]
  }

  /** The pending timers once timer `i` has run: the others, in their order. */
  function RemoveAt(deadlines: seq<real>, i: int): (r: seq<real>)
    requires 0 <= i < |deadlines|
    ensures |r| == |deadlines| - 1
    ensures multiset(r) + multiset{deadlines[i]} == multiset(deadlines)
    ensures forall j :: 0 <= j < |r| ==> r[j] == (if j < i then deadlines[j] else deadlines[j + 1])
  {
    assert deadlines == deadlines[..i] + [deadlines[i]] + deadlines[i + 1..];
    deadlines[..i] + deadlines[i + 1..]
  }

  /** The index of a pending timer with the smallest deadline. */
  function Earliest(deadlines: seq<real>): (i: int)
    requires |deadlines| >= 1
    ensures 0 <= i < |deadlines|
    ensures forall j :: 0 <= j < |deadlines| ==> deadlines[i] <= deadlines[j]
  {
    if |deadlines| == 1 then 0
    else
      var k := Earliest(deadlines[1..]);
      if deadlines[0] <= deadlines[1..][k] then 0 else k + 1
  }

  /** Whenever some pending timer is due, a next one to run exists: the earliest. */
  lemma NextDueExists(deadlines: seq<real>, k: int, now: real)
    requires 0 <= k < |deadlines| && deadlines[k] <= now
    ensures NextDue(deadlines, Earliest(deadlines), now)
  {
  }
}
