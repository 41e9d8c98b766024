/** Counting the thresholds a distance has reached: the reference against
    which the drivers' distance-band if-chains are checked. */
module Bands {
  /** How many of the thresholds `distance` has reached. */
  function Reached(thresholds: seq<int>, distance: int): (n: nat)
    ensures n <= |thresholds|
  {
    if thresholds == [] then 0
    else (if thresholds[0] <= distance then 1 else 0) + Reached(thresholds[1..], distance)
  }

  /** A larger distance has reached at least as many thresholds. */
  lemma {:induction false} ReachedMonotone(thresholds: seq<int>, d1: int, d2: int)
    requires d1 <= d2
    ensures Reached(thresholds, d1) <= Reached(thresholds, d2)
    decreases |thresholds|
  {
    if thresholds != [] {
      ReachedMonotone(thresholds[1..], d1, d2);
    }
  }
}
