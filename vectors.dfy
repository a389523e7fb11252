/** Element-wise vector arithmetic on positions, in the way numpy applies
    `+`, `-` and scalar `*` to one-dimensional float arrays. Real numbers stand
    for the floats; rounding is not modelled. */
module Vectors {

  type Vector = seq<real>

  function Add(x: Vector, y: Vector): (r: Vector)
    requires |x| == |y|
  {
    seq(|x|, k requires 0 <= k < |x| => x[k] + y[k])
  }

  function Sub(x: Vector, y: Vector): (r: Vector)
    requires |x| == |y|
  {
    seq(|x|, k requires 0 <= k < |x| => x[k] - y[k])
  }

  function Scale(f: real, x: Vector): (r: Vector)
  {
    seq(|x|, k requires 0 <= k < |x| => f * x[k])
  }

  function Abs(v: real): (r: real)
  {
    if v > 0.0 then v else -v
  }

  /** The in-place `x += delta` of numpy: the right-hand side is computed
      first, then every element of the stored array is updated. */
  method AddInPlace(x: array<real>, delta: Vector)
    requires |delta| == x.Length
    modifies x
    ensures x[..] == Add(old(x[..]), delta)
  {
    for k := 0 to x.Length
      invariant forall t :: 0 <= t < k ==> x[t] == old(x[t]) + delta[t]
      invariant forall t :: k <= t < x.Length ==> x[t] == old(x[t])
    {
      x[k] := x[k] + delta[k];
    }
  }

  /** Overwrites every element of `x` with `v`. */
  method Assign(x: array<real>, v: Vector)
    requires |v| == x.Length
    modifies x
    ensures x[..] == v
  {
    for k := 0 to x.Length
      invariant x[..k] == v[..k]
    {
      x[k] := v[k];
      assert x[..k + 1] == x[..k] + [x[k]];
    }
    assert x[..] == x[..x.Length];
  }

  /** A new array holding the elements of `s` (numpy's `copy`, or an array
      built by an expression). */
  method NewArray(s: Vector) returns (a: array<real>)
    ensures fresh(a) && a[..] == s
  {
    a := new real[|s|](k requires 0 <= k < |s| => s[k]);
  }
}
