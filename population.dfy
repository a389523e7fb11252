/** The part of pygmo's population and problem objects that the strategies
    use: positions, fitness values, the champion, the evaluation counter and
    the bounds. pygmo itself is not modelled; this class states the behaviour
    the strategies rely on, as documented for a single-objective problem. */
module Populations {
  import opened Vectors
  import opened Bounds

  /** What `population.problem` supplies: the objective and the bounds. */
  datatype Landscape = Landscape(objective: Vector -> real, lower: Vector, upper: Vector)

  ghost predicate Shaped(xs: seq<Vector>, dim: nat)
  {
    forall t :: 0 <= t < |xs| ==> |xs[t]| == dim
  }

  /** Every gene of every position lies within the bounds. */
  ghost predicate AllWithin(xs: seq<Vector>, land: Landscape)
  {
    forall t :: 0 <= t < |xs| ==>
      |xs[t]| <= |land.lower| && |xs[t]| <= |land.upper| && Within(xs[t], land.lower, land.upper)
  }

  predicate IsMin(fs: seq<real>, b: int)
  {
    0 <= b < |fs| && forall t :: 0 <= t < |fs| ==> fs[b] <= fs[t]
  }

  predicate IsMax(fs: seq<real>, w: int)
  {
    0 <= w < |fs| && forall t :: 0 <= t < |fs| ==> fs[t] <= fs[w]
  }

  /** `best_idx()`: an index of a minimum fitness. pygmo's tie rule is not
      modelled; this takes the first minimum. */
  function FirstMin(fs: seq<real>): (b: nat)
    requires |fs| > 0
    ensures IsMin(fs, b)
    ensures forall t :: 0 <= t < b ==> fs[b] < fs[t]
  {
    if |fs| == 1 then 0
    else
      var b := FirstMin(fs[..|fs| - 1]);
      if fs[|fs| - 1] < fs[b] then |fs| - 1 else b
  }

  /** `worst_idx()`: an index of a maximum fitness. pygmo's tie rule is not
      modelled; this takes the first maximum. */
  function FirstMax(fs: seq<real>): (w: nat)
    requires |fs| > 0
    ensures IsMax(fs, w)
    ensures forall t :: 0 <= t < w ==> fs[t] < fs[w]
  {
    if |fs| == 1 then 0
    else
      var w := FirstMax(fs[..|fs| - 1]);
      if fs[|fs| - 1] > fs[w] then |fs| - 1 else w
  }

  /** The champion after `set_xf` was called for every index in turn: a newly
      set individual replaces the champion only when it is strictly better. */
  function ChampionAfter(cx: Vector, cf: real, xs: seq<Vector>, fs: seq<real>): (r: (Vector, real))
    requires |xs| == |fs|
    ensures r.1 <= cf
    ensures forall t :: 0 <= t < |fs| ==> r.1 <= fs[t]
    ensures r.1 == cf ==> r.0 == cx
    ensures r.1 < cf ==> exists t :: 0 <= t < |fs| && r.0 == xs[t] && r.1 == fs[t]
  {
    if xs == [] then (cx, cf)
    else
      var n := |xs| - 1;
      var prev := ChampionAfter(cx, cf, xs[..n], fs[..n]);
      if fs[n] < prev.1 then (xs[n], fs[n]) else prev
  }

  class Population {
    const land: Landscape
    var xs: seq<Vector>
    var fs: seq<real>
    var championX: Vector
    var championF: real
    var fevals: nat

    /** pygmo refuses an empty or crossed pair of bounds; the initial
        population is never empty here; the champion is at least as good as
        every individual. */
    ghost predicate Valid()
      reads this`xs, this`fs, this`championX, this`championF
    {
      && Ordered(land.lower, land.upper) && |land.lower| > 0
      && |xs| == |fs| > 0
      && Shaped(xs, |land.lower|)
      && |championX| == |land.lower|
      && forall t :: 0 <= t < |fs| ==> championF <= fs[t]
    }

    /** `pg.population(problem, size, seed)` once its positions are drawn
        (pygmo draws each gene within its bounds): each one is evaluated and
        the first best becomes the champion. */
    constructor Sampled(land: Landscape, xs: seq<Vector>)
      requires Ordered(land.lower, land.upper) && |land.lower| > 0
      requires |xs| > 0 && Shaped(xs, |land.lower|) && AllWithin(xs, land)
      ensures Valid()
      ensures this.land == land && this.xs == xs
      ensures |fs| == |xs| && forall t :: 0 <= t < |xs| ==> fs[t] == land.objective(xs[t])
      ensures championF == fs[FirstMin(fs)] && championX == xs[FirstMin(fs)]
      ensures fevals == |xs|
    {
      this.land := land;
      this.xs := xs;
      var fs := seq(|xs|, t requires 0 <= t < |xs| => land.objective(xs[t]));
      this.fs := fs;
      championF := fs[FirstMin(fs)];
      championX := xs[FirstMin(fs)];
      fevals := |xs|;
    }

    function Size(): nat
      reads this`xs
    {
      |xs|
    }

    function BestIdx(): (b: nat)
      reads this`xs, this`fs, this`championX, this`championF
      requires Valid()
      ensures IsMin(fs, b)
    {
      FirstMin(fs)
    }

    function WorstIdx(): (w: nat)
      reads this`xs, this`fs, this`championX, this`championF
      requires Valid()
      ensures IsMax(fs, w)
    {
      FirstMax(fs)
    }

    /** `population.problem.fitness(x)`: evaluates the objective and counts
        the evaluation. */
    method Evaluate(x: Vector) returns (f: real)
      modifies this`fevals
      ensures f == land.objective(x)
      ensures fevals == old(fevals) + 1
    {
      f := land.objective(x);
      fevals := fevals + 1;
    }

    /** `set_xf(i, x, f)`: overwrites one individual; the champion follows
        when the new fitness is strictly better. */
    method SetXF(i: nat, x: Vector, f: real)
      requires Valid() && i < |xs| && |x| == |land.lower|
      modifies this
      ensures Valid()
      ensures xs == old(xs)[i := x] && fs == old(fs)[i := f]
      ensures (championX, championF) == if f < old(championF) then (x, f) else (old(championX), old(championF))
      ensures fevals == old(fevals)
    {
      xs := xs[i := x];
      fs := fs[i := f];
      if f < championF {
        championX, championF := x, f;
      }
    }
  }

  /** The sweep-local store: one array per individual. Distinct arrays, so an
      in-place update of one individual's position changes no other. */
  ghost predicate Distinct(rows: seq<array<real>>)
  {
    forall a, b :: 0 <= a < b < |rows| ==> rows[a] != rows[b]
  }

  ghost predicate RowsShaped(rows: seq<array<real>>, dim: nat)
  {
    Distinct(rows) && forall t :: 0 <= t < |rows| ==> rows[t].Length == dim
  }

  /** What the store holds, as values. */
  ghost function Contents(rows: seq<array<real>>): (r: seq<Vector>)
    reads rows
    ensures |r| == |rows|
    ensures forall t :: 0 <= t < |rows| ==> r[t] == rows[t][..]
  {
    seq(|rows|, t requires 0 <= t < |rows| reads rows => rows[t][..])
  }

  /** Copies `v` into row `i`; the other rows are separate arrays and keep
      their values. */
  method Overwrite(rows: seq<array<real>>, i: nat, v: Vector)
    requires Distinct(rows) && i < |rows| && |v| == rows[i].Length
    modifies rows[i]
    ensures Contents(rows) == old(Contents(rows))[i := v]
  {
    Assign(rows[i], v);
    forall t | 0 <= t < |rows| && t != i ensures rows[t][..] == old(rows[t][..]) {
      assert t < i || i < t;
    }
  }

  /** `population.get_x()`: a fresh array per individual. */
  method Snapshot(pop: Population) returns (rows: seq<array<real>>)
    requires pop.Valid()
    ensures RowsShaped(rows, |pop.land.lower|) && |rows| == |pop.xs|
    ensures forall t :: 0 <= t < |rows| ==> fresh(rows[t])
    ensures Contents(rows) == pop.xs
  {
    rows := [];
    for i := 0 to |pop.xs|
      invariant |rows| == i && RowsShaped(rows, |pop.land.lower|)
      invariant forall t :: 0 <= t < i ==> fresh(rows[t]) && rows[t][..] == pop.xs[t]
    {
      var x := NewArray(pop.xs[i]);
      rows := rows + [x];
    }
  }

  /** The closing loop of every `evolve`: `set_xf(i, x, f)` for each index. */
  method WriteBack(pop: Population, rows: seq<array<real>>, fits: seq<real>)
    requires pop.Valid() && RowsShaped(rows, |pop.land.lower|)
    requires |rows| == |fits| == |pop.xs|
    modifies pop
    ensures pop.Valid()
    ensures pop.xs == Contents(rows) && pop.fs == fits
    ensures (pop.championX, pop.championF) == ChampionAfter(old(pop.championX), old(pop.championF), Contents(rows), fits)
    ensures pop.fevals == old(pop.fevals)
  {
    ghost var xs := Contents(rows);
    for i := 0 to |rows|
      invariant pop.Valid() && |pop.xs| == |rows| && pop.fevals == old(pop.fevals)
      invariant pop.xs[..i] == xs[..i] && pop.xs[i..] == old(pop.xs)[i..]
      invariant pop.fs[..i] == fits[..i] && pop.fs[i..] == old(pop.fs)[i..]
      invariant (pop.championX, pop.championF) == ChampionAfter(old(pop.championX), old(pop.championF), xs[..i], fits[..i])
    {
      assert xs[..i + 1][..i] == xs[..i] && fits[..i + 1][..i] == fits[..i];
      pop.SetXF(i, rows[i][..], fits[i]);
    }
    assert xs[..|rows|] == xs && fits[..|rows|] == fits;
    assert pop.xs == pop.xs[..|rows|] && pop.fs == pop.fs[..|rows|];
  }
}
