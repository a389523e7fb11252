/** The example objective of minimization_problem.py: minimise the sum of the
    genes, with the same lower and upper limit for every gene. */
module MinimizationProblem {
  import opened Vectors
  import Bounds
  import Populations

  datatype Option<T> = None | Some(value: T)

  /** The constructor's arguments. A bound given as None leaves the matching
      attribute unset (minimization_problem.py:22-25). */
  datatype Problem = Problem(dim: int, minX: Option<real>, maxX: Option<real>)

  /** Python's `sum`: 0 plus the elements from left to right. */
  function Sum(x: Vector): (r: real)
    ensures (forall k :: 0 <= k < |x| ==> 0.0 <= x[k]) ==> 0.0 <= r
  {
    if x == [] then 0.0 else Sum(x[..|x| - 1]) + x[|x| - 1]
  }

  /** `fitness(X)`: a one-element list holding the sum of the genes. */
  function Fitness(p: Problem, x: Vector): (r: seq<real>)
    ensures |r| == 1
  {
    [Sum(x)]
  }

  lemma SumEmpty(p: Problem)
    ensures Fitness(p, []) == [0.0]
  {
  }

  /** The sum is additive over concatenation. */
  lemma {:induction false} SumAppend(x: Vector, y: Vector)
    ensures Sum(x + y) == Sum(x) + Sum(y)
  {
    if y == [] {
      assert x + y == x;
    } else {
      var y' := y[..|y| - 1];
      assert (x + y)[..|x + y| - 1] == x + y';
      SumAppend(x, y');
    }
  }

  lemma FitnessAdditive(p: Problem, x: Vector, y: Vector)
    ensures Fitness(p, x + y)[0] == Fitness(p, x)[0] + Fitness(p, y)[0]
  {
    SumAppend(x, y);
  }

  /** Python's list replication `[v] * n`, which is empty for n <= 0. */
  function Replicate(v: real, n: int): (r: Vector)
    ensures |r| == if n <= 0 then 0 else n
    ensures forall k :: 0 <= k < |r| ==> r[k] == v
  {
    if n <= 0 then [] else Replicate(v, n - 1) + [v]
  }

  /** `get_bounds`: two lists of length `dim`, broadcast from the scalar
      limits. When a limit was never set the attribute access fails, which
      is None here. */
  function GetBounds(p: Problem): (r: Option<(Vector, Vector)>)
    ensures r.None? <==> p.minX.None? || p.maxX.None?
    ensures r.Some? ==> |r.value.0| == |r.value.1| == (if p.dim <= 0 then 0 else p.dim)
    ensures r.Some? ==> forall k :: 0 <= k < |r.value.0| ==> r.value.0[k] == p.minX.value
    ensures r.Some? ==> forall k :: 0 <= k < |r.value.1| ==> r.value.1[k] == p.maxX.value
  {
    if p.minX.None? || p.maxX.None? then None
    else Some((Replicate(p.minX.value, p.dim), Replicate(p.maxX.value, p.dim)))
  }

  /** `get_nix`: no gene is an integer variable. */
  function GetNix(p: Problem): (r: int)
    ensures r == 0
  {
    0
  }

  /** The objective handed to the optimiser: the single fitness value. */
  function Objective(p: Problem): (f: Vector -> real)
    ensures forall x :: f(x) == Sum(x)
  {
    x => Fitness(p, x)[0]
  }

  /** The problem as pygmo hands it to the strategies: the objective with
      the bound lists of `get_bounds`, or None when `get_bounds` fails. With
      `min_x <= max_x` the bounds are ordered, as every strategy needs. */
  function LandscapeOf(p: Problem): (r: Option<Populations.Landscape>)
    ensures r.None? <==> GetBounds(p).None?
    ensures r.Some? ==> (r.value.lower, r.value.upper) == GetBounds(p).value
    ensures r.Some? ==> forall x :: r.value.objective(x) == Sum(x)
    ensures r.Some? ==> |r.value.lower| == (if p.dim <= 0 then 0 else p.dim)
    ensures r.Some? && p.minX.value <= p.maxX.value ==> Bounds.Ordered(r.value.lower, r.value.upper)
  {
    match GetBounds(p)
    case None => None
    case Some(b) => Some(Populations.Landscape(Objective(p), b.0, b.1))
  }
}
