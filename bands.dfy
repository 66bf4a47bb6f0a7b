/** Half-open bands cut out of the real line by a rising list of thresholds,
    the shape of every `if x < t1 ... elif t1 <= x < t2 ...` chain in the
    planner scripts. */
module Bands {

  /** Band `k` of thresholds `ts` is the half-open interval [ts[k-1], ts[k]),
      unbounded below for the first band and above for the last. */
  predicate InBand(ts: seq<real>, k: nat, x: real)
    requires k <= |ts|
  {
    (k == 0 || ts[k - 1] <= x) && (k == |ts| || x < ts[k])
  }

  /** How many of the thresholds `ts` the value `x` has reached. */
  function Reached(ts: seq<real>, x: real): (n: nat)
    ensures n <= |ts|
  {
    if ts == [] then 0 else (if ts[0] <= x then 1 else 0) + Reached(ts[1..], x)
  }

  /** Thresholds in strictly rising order. */
  predicate StrictlyRising(ts: seq<real>) {
    forall a, b :: 0 <= a < b < |ts| ==> ts[a] < ts[b]
  }

  /** Strictly rising thresholds give pairwise disjoint bands. */
  lemma BandsDisjoint(ts: seq<real>, j: nat, k: nat, x: real)
    requires StrictlyRising(ts)
    requires j <= |ts| && k <= |ts|
    ensures InBand(ts, j, x) && InBand(ts, k, x) ==> j == k
  {
  }

  /** A value below every threshold has reached none of them. */
  lemma {:induction false} ReachedNone(ts: seq<real>, x: real)
    requires forall i :: 0 <= i < |ts| ==> x < ts[i]
    ensures Reached(ts, x) == 0
  {
    if ts != [] {
      ReachedNone(ts[1..], x);
    }
  }

  /** Against strictly rising thresholds, the number reached is the index of
      the band the value lies in. */
  lemma {:induction false} ReachedIsBand(ts: seq<real>, x: real)
    requires StrictlyRising(ts)
    ensures InBand(ts, Reached(ts, x), x)
  {
    if ts != [] {
      var rest := ts[1..];
      ReachedIsBand(rest, x);
      if x < ts[0] {
        ReachedNone(rest, x);
      }
    }
  }

  /** With strictly rising thresholds, the band a value lies in is the
      number of thresholds it has reached. */
  lemma BandIsReached(ts: seq<real>, k: nat, x: real)
    requires StrictlyRising(ts) && k <= |ts|
    ensures InBand(ts, k, x) <==> k == Reached(ts, x)
  {
    ReachedIsBand(ts, x);
    BandsDisjoint(ts, k, Reached(ts, x), x);
  }

  /** Reaching more of the thresholds as the value grows. */
  lemma {:induction false} ReachedMonotone(ts: seq<real>, b1: real, b2: real)
    requires b1 <= b2
    ensures Reached(ts, b1) <= Reached(ts, b2)
  {
    if ts != [] {
      ReachedMonotone(ts[1..], b1, b2);
    }
  }
}
