/** Threshold tiers. Several components classify a score or a rate with an
    if-chain `if (x >= t0) ... else if (x >= t1) ...` over thresholds listed
    from the highest down. This module gives the tier an independent meaning:
    the number of thresholds the value reaches, 0 for the bottom tier. */
module Tiers {

  /** How many of `thresholds` the value `x` reaches (`x >= t`). */
  function Reached(x: real, thresholds: seq<real>): (n: nat)
    ensures n <= |thresholds|
  {
    if thresholds == [] then 0
    else (if x >= thresholds[0] then 1 else 0) + Reached(x, thresholds[1..])
  }

  lemma ReachedCons(x: real, t: real, rest: seq<real>)
    ensures Reached(x, [t] + rest) == (if x >= t then 1 else 0) + Reached(x, rest)
  {
    assert ([t] + rest)[1..] == rest;
  }

  /** A larger value never lands in a lower tier. */
  lemma {:induction false} ReachedMonotone(x: real, y: real, thresholds: seq<real>)
    requires x <= y
    ensures Reached(x, thresholds) <= Reached(y, thresholds)
  {
    if thresholds != [] {
      ReachedMonotone(x, y, thresholds[1..]);
    }
  }

  /** A value at or above every threshold is in the top tier; one below all of them in the bottom tier. */
  lemma {:induction false} ReachedExtremes(x: real, thresholds: seq<real>)
    ensures (forall i :: 0 <= i < |thresholds| ==> x >= thresholds[i]) ==> Reached(x, thresholds) == |thresholds|
    ensures (forall i :: 0 <= i < |thresholds| ==> x < thresholds[i]) ==> Reached(x, thresholds) == 0
  {
    if thresholds != [] {
      ReachedExtremes(x, thresholds[1..]);
      assert forall i :: 0 <= i < |thresholds| - 1 ==> thresholds[1..][i] == thresholds[i + 1];
    }
  }
}
