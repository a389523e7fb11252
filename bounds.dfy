/** The bounds clamp `force_bounds`, shared verbatim by the BOA, SABOA and
    xBOA strategies (optimizers/boa.py:181-190, optimizers/saboa.py:118-127,
    optimizers/xboa.py:177-186). */
module Bounds {
  import opened Vectors

  /** One gene: below the lower bound it becomes the lower bound, otherwise
      above the upper bound it becomes the upper bound (the `elif` is only
      tried when the first test fails). */
  function ClampGene(v: real, lo: real, hi: real): real
  {
    if v < lo then lo else if v > hi then hi else v
  }

  /** The value `force_bounds` leaves in its argument. Only the first |x|
      entries of the bounds are read. */
  function Clamped(x: Vector, lower: Vector, upper: Vector): (r: Vector)
    requires |x| <= |lower| && |x| <= |upper|
    ensures |r| == |x|
    // each gene is kept or set to one of its two bounds
    ensures forall k :: 0 <= k < |x| ==> r[k] == x[k] || r[k] == lower[k] || r[k] == upper[k]
  {
    seq(|x|, k requires 0 <= k < |x| => ClampGene(x[k], lower[k], upper[k]))
  }

  /** Every gene lies within its bounds. */
  ghost predicate Within(x: Vector, lower: Vector, upper: Vector)
    requires |x| <= |lower| && |x| <= |upper|
  {
    forall k :: 0 <= k < |x| ==> lower[k] <= x[k] <= upper[k]
  }

  /** Bounds of equal length whose lower entry never exceeds the upper one. */
  ghost predicate Ordered(lower: Vector, upper: Vector)
  {
    |lower| == |upper| && forall k :: 0 <= k < |lower| ==> lower[k] <= upper[k]
  }

  lemma ClampedWithin(x: Vector, lower: Vector, upper: Vector)
    requires Ordered(lower, upper) && |x| <= |lower|
    ensures |Clamped(x, lower, upper)| == |x|
    ensures Within(Clamped(x, lower, upper), lower, upper)
  {
  }

  /** A gene already within its bounds is left as it is. */
  lemma ClampedKeepsInRange(x: Vector, lower: Vector, upper: Vector, k: nat)
    requires |x| <= |lower| && |x| <= |upper| && k < |x|
    requires lower[k] <= x[k] <= upper[k]
    ensures Clamped(x, lower, upper)[k] == x[k]
  {
  }

  /** A vector within its bounds is its own clamp. */
  lemma {:induction false} ClampedWithinIsIdentity(x: Vector, lower: Vector, upper: Vector)
    requires |x| <= |lower| && |x| <= |upper|
    requires Within(x, lower, upper)
    ensures Clamped(x, lower, upper) == x
  {
    forall k | 0 <= k < |x| ensures Clamped(x, lower, upper)[k] == x[k] {
      ClampedKeepsInRange(x, lower, upper, k);
    }
  }

  /** With ordered bounds, clamping twice is clamping once. */
  lemma ClampedIdempotent(x: Vector, lower: Vector, upper: Vector)
    requires Ordered(lower, upper) && |x| <= |lower|
    ensures Clamped(Clamped(x, lower, upper), lower, upper) == Clamped(x, lower, upper)
  {
    ClampedWithin(x, lower, upper);
    ClampedWithinIsIdentity(Clamped(x, lower, upper), lower, upper);
  }

  /** With a crossed pair of bounds the clamp is not idempotent: 0.5 clamped to
      [1, 0] becomes 1 (below the lower bound), and 1 becomes 0 (above the
      upper bound). */
  lemma CrossedBoundsNotIdempotent()
    ensures Clamped([0.5], [1.0], [0.0]) == [1.0]
    ensures Clamped([1.0], [1.0], [0.0]) == [0.0]
  {
  }

  /** `force_bounds` works on the array in place, gene by gene, and returns
      the same array. */
  method ForceBounds(x: array<real>, lower: Vector, upper: Vector)
    requires x.Length <= |lower| && x.Length <= |upper|
    modifies x
    ensures x[..] == Clamped(old(x[..]), lower, upper)
    ensures Ordered(lower, upper) ==> Within(x[..], lower, upper)
  {
    for k := 0 to x.Length
      invariant forall t :: 0 <= t < k ==> x[t] == ClampGene(old(x[t]), lower[t], upper[t])
      invariant forall t :: k <= t < x.Length ==> x[t] == old(x[t])
    {
      if x[k] < lower[k] {
        x[k] := lower[k];
      } else if x[k] > upper[k] {
        x[k] := upper[k];
      }
    }
  }
}
