/** The crossover variant of optimizers/xboa.py (xBOA, and xABOA with the
    non-linear modality update). Unlike BOA, every sweep starts again from
    the population object, which is written only once all sweeps are done.
    So only the last sweep's results survive, while `c` and the log carry
    over from sweep to sweep. An individual either crosses over with a mate
    (two offspring, the better one replaces it if either beats it) or moves
    in place relative to two random neighbours. There is no `best_id`. */
module Xboa {
  import opened Vectors
  import opened Bounds
  import opened Populations
  import opened Strategy

  /** The random values one individual consumes in one sweep: the switch
      draw; for the crossover, the successive `random.choice` draws of the
      mate loop and the draw from `range(len(x) - 1)` that sets the cut point;
      for the neighbour move, `r1`, `r2` and the neighbours `j`, `k`. */
  datatype XDraw = XDraw(switch: real, tries: seq<nat>, point: nat, r1: real, r2: real, j: nat, k: nat)

  /** The sweep-local dictionary `pop`: position and fitness per individual. */
  datatype Store = Store(xs: seq<Vector>, fits: seq<real>)

  /** The two accepted values of the lower-cased `variant` string. */
  datatype XVariant = Crossover | CrossoverAdaptive

  function XVariantName(v: XVariant): string
  {
    match v
    case Crossover => "xboa"
    case CrossoverAdaptive => "xaboa"
  }

  /** Lines 37-39: the name is lower-cased and anything other than "xboa" or
      "xaboa" falls back to "xboa". */
  function XVariantOf(name: string): (v: XVariant)
    ensures Lower(name) == XVariantName(v) || (v == Crossover && Lower(name) !in {"xboa", "xaboa"})
  {
    if Lower(name) == "xaboa" then CrossoverAdaptive else Crossover
  }

  /** Normalising a variant's own name gives it back. */
  lemma XVariantOfName(v: XVariant)
    ensures XVariantOf(XVariantName(v)) == v
  {
    LowerKeepsLowerCase(XVariantName(v));
  }

  /** The strategy fields that stay fixed during one `evolve`. */
  datatype Config = Config(a: real, p: real, mu: real, variant: XVariant, maxIterations: int,
                           currentIteration: int, verbosity: int)

  /** What one sweep reads from the strategy. */
  datatype Tunables = Tunables(c: real, a: real, p: real)

  function TunablesOf(cfg: Config, c: real): Tunables
  {
    Tunables(c, cfg.a, cfg.p)
  }

  /** The state carried from sweep to sweep: the last sweep's store, `c`, the
      log and the evaluation counter. */
  datatype Run = Run(store: Store, c: real, log: seq<LogRecord>, fevals: nat)

  ghost predicate WellFormed(land: Landscape, s: Store, n: nat)
  {
    |land.upper| == |land.lower| && |s.xs| == n && |s.fits| == n && Shaped(s.xs, |land.lower|)
  }

  /** The mate loop of lines 81-83 finds a mate other than `id` among the
      draws when the population has more than one individual. */
  predicate MateFound(id: nat, popSize: nat, tries: seq<nat>)
  {
    popSize > 1 ==> exists t :: 0 <= t < |tries| && tries[t] != id
  }

  /** The draws suit individual `i` of `n` in dimension `dim`: the indices are
      individuals, and a crossover has a mate and a cut point; `random.choice`
      on the empty `range(0)` fails for dimension 1. */
  predicate DrawFits(d: XDraw, n: nat, i: nat, dim: nat, p: real)
  {
    d.j < n && d.k < n && (forall t :: 0 <= t < |d.tries| ==> d.tries[t] < n) &&
    (d.switch > p ==> MateFound(i, n, d.tries) && d.point + 1 < dim)
  }

  ghost predicate DrawsFit(ds: seq<XDraw>, n: nat, dim: nat, p: real)
  {
    forall i :: 0 <= i < |ds| ==> DrawFits(ds[i], n, i, dim, p)
  }

  /** The first draw other than `id`. */
  function FirstOther(id: nat, tries: seq<nat>): (j: nat)
    requires exists t :: 0 <= t < |tries| && tries[t] != id
    ensures j != id
    ensures exists t :: 0 <= t < |tries| && tries[t] == j && forall u :: 0 <= u < t ==> tries[u] == id
  {
    if tries[0] != id then tries[0]
    else
      assert forall t :: 0 <= t < |tries| && tries[t] != id ==> tries[1..][t - 1] != id;
      var j := FirstOther(id, tries[1..]);
      assert forall t :: 0 <= t < |tries| - 1 ==> tries[1..][t] == tries[t + 1];
      j
  }

  /** The mate `j` of lines 81-83: `id` itself when the population has one
      individual, otherwise the first drawn index other than `id`. */
  function MateOf(id: nat, popSize: nat, tries: seq<nat>): (j: nat)
    requires MateFound(id, popSize, tries)
    ensures j == id <==> popSize <= 1
  {
    if popSize > 1 then FirstOther(id, tries) else id
  }

  /** The mate is never the individual itself when there is another one to
      choose, it is the individual itself otherwise, and it was drawn. */
  lemma MateOfIsOther(id: nat, popSize: nat, tries: seq<nat>)
    requires MateFound(id, popSize, tries)
    ensures popSize > 1 ==> MateOf(id, popSize, tries) != id
    ensures popSize <= 1 ==> MateOf(id, popSize, tries) == id
    ensures popSize > 1 ==> MateOf(id, popSize, tries) in tries
  {
  }

  /** The mate loop of lines 81-83. */
  method ChooseMate(id: nat, popSize: nat, tries: seq<nat>) returns (j: nat)
    requires MateFound(id, popSize, tries)
    ensures j == MateOf(id, popSize, tries)
  {
    j := id;
    var t := 0;
    while j == id && popSize > 1
      invariant 0 <= t <= |tries|
      invariant j == id ==> forall u :: 0 <= u < t ==> tries[u] == id
      invariant j != id ==> popSize > 1 && j == FirstOther(id, tries)
      decreases |tries| - t
    {
      if t == |tries| {
        assert false;
      }
      j := tries[t];
      if j != id {
        FirstOtherIsFirst(id, tries, t);
      }
      t := t + 1;
    }
  }

  /** The first draw other than `id` is the one at any position preceded by
      draws of `id` only. */
  lemma {:induction false} FirstOtherIsFirst(id: nat, tries: seq<nat>, t: nat)
    requires t < |tries| && tries[t] != id && forall u :: 0 <= u < t ==> tries[u] == id
    ensures FirstOther(id, tries) == tries[t]
    decreases t
  {
    if t > 0 {
      assert tries[1..][t - 1] == tries[t];
      FirstOtherIsFirst(id, tries[1..], t - 1);
    }
  }

  /** The splice of lines 84-92: each offspring takes the part before the cut
      from one parent and the rest from the other. The parents are copied,
      not changed. */
  function Splice(x: Vector, mate: Vector, cp: nat): (o: (Vector, Vector))
    requires 0 < cp < |x| == |mate|
    ensures |o.0| == |o.1| == |x|
  {
    (x[..cp] + mate[cp..], mate[..cp] + x[cp..])
  }

  /** Gene by gene: offspring1 is `x` before the cut and `mate` from it on,
      offspring2 the other way round, both of the parents' length. */
  lemma SpliceGenes(x: Vector, mate: Vector, cp: nat)
    requires 0 < cp < |x| == |mate|
    ensures var o := Splice(x, mate, cp);
      && |o.0| == |x| && |o.1| == |x|
      && (forall g :: 0 <= g < |x| ==> o.0[g] == (if g < cp then x[g] else mate[g]))
      && (forall g :: 0 <= g < |x| ==> o.1[g] == (if g < cp then mate[g] else x[g]))
  {
  }

  /** Splicing the two offspring at the same point gives the parents back. */
  lemma SpliceInvolution(x: Vector, mate: Vector, cp: nat)
    requires 0 < cp < |x| == |mate|
    ensures var o := Splice(x, mate, cp);
      |o.0| == |o.1| == |x| && Splice(o.0, o.1, cp) == (x, mate)
  {
    var o := Splice(x, mate, cp);
    assert o.0[..cp] == x[..cp] && o.0[cp..] == mate[cp..];
    assert o.1[..cp] == mate[..cp] && o.1[cp..] == x[cp..];
    assert x[..cp] + x[cp..] == x;
    assert mate[..cp] + mate[cp..] == mate;
  }

  /** Crossing an individual with itself changes nothing, as with a
      population of one. */
  lemma SpliceSelf(x: Vector, cp: nat)
    requires 0 < cp < |x|
    ensures Splice(x, x, cp) == (x, x)
  {
    assert x[..cp] + x[cp..] == x;
  }

  /** The two clamped offspring of individual `i` (lines 81-96). */
  function Offspring(land: Landscape, s: Store, i: nat, d: XDraw): (o: (Vector, Vector))
    requires WellFormed(land, s, |s.xs|) && i < |s.xs|
    requires d.point + 1 < |land.lower| && MateFound(i, |s.xs|, d.tries)
    requires forall t :: 0 <= t < |d.tries| ==> d.tries[t] < |s.xs|
    ensures |o.0| == |o.1| == |land.lower|
  {
    var mate := s.xs[MateOf(i, |s.xs|, d.tries)];
    var sp := Splice(s.xs[i], mate, d.point + 1);
    (Clamped(sp.0, land.lower, land.upper), Clamped(sp.1, land.lower, land.upper))
  }

  /** Lines 101-105: the better offspring replaces the parent if either
      offspring beats it; on a tie between the offspring the second one is
      kept. */
  function Replacement(x: Vector, fit: real, o1: Vector, nf1: real, o2: Vector, nf2: real): (r: (Vector, real))
    ensures r == (x, fit) || r == (o1, nf1) || r == (o2, nf2)
    ensures r.1 <= fit
  {
    if nf1 < fit || nf2 < fit then
      if nf1 < nf2 then (o1, nf1) else (o2, nf2)
    else (x, fit)
  }

  /** The parent is replaced exactly when the smaller offspring fitness is
      below its fitness, and then by that minimum; a tie goes to offspring 2. */
  lemma ReplacementIsMin(x: Vector, fit: real, o1: Vector, nf1: real, o2: Vector, nf2: real)
    ensures var r := Replacement(x, fit, o1, nf1, o2, nf2);
      var lo := if nf1 < nf2 then nf1 else nf2;
      && (r.1 < fit <==> lo < fit)
      && (lo < fit ==> r.1 == lo)
      && (lo >= fit ==> r == (x, fit))
      && (lo < fit && nf1 == nf2 ==> r == (o2, nf2))
      && r.1 <= fit
  {
  }

  /** The neighbour move of line 112, `x += f * (r1 * r2 * x_j - x_k)`,
      followed by the clamp of line 115. */
  function NeighbourPosition(land: Landscape, num: Numerics, tun: Tunables, s: Store, i: nat, d: XDraw): (m: Vector)
    requires WellFormed(land, s, |s.xs|) && i < |s.xs| && d.j < |s.xs| && d.k < |s.xs|
    ensures |m| == |land.lower|
  {
    var f := Fragrance(num, tun.c, tun.a, s.fits[i]);
    Clamped(Add(s.xs[i], Step(f, d.r1, d.r2, s.xs[d.j], s.xs[d.k])), land.lower, land.upper)
  }

  /** The step `f * (r1 * r2 * x_j - x_k)`. */
  function Step(f: real, r1: real, r2: real, xj: Vector, xk: Vector): (v: Vector)
    requires |xj| == |xk|
    ensures |v| == |xj|
  {
    seq(|xj|, g requires 0 <= g < |xj| => f * (r1 * r2 * xj[g] - xk[g]))
  }

  /** One pass of the loop body at lines 67-118 for individual `i`. The
      crossover works on copies; the neighbour move works on the stored array
      itself, so its result is written even when it is rejected. */
  function Visited(land: Landscape, num: Numerics, tun: Tunables, s: Store, i: nat, d: XDraw): (r: Store)
    requires WellFormed(land, s, |s.xs|) && i < |s.xs| && DrawFits(d, |s.xs|, i, |land.lower|, tun.p)
    ensures WellFormed(land, r, |s.xs|)
  {
    if d.switch > tun.p then
      var o := Offspring(land, s, i, d);
      var r := Replacement(s.xs[i], s.fits[i], o.0, land.objective(o.0), o.1, land.objective(o.1));
      Store(s.xs[i := r.0], s.fits[i := r.1])
    else
      var moved := NeighbourPosition(land, num, tun, s, i, d);
      var nf := land.objective(moved);
      Store(s.xs[i := moved], if nf < s.fits[i] then s.fits[i := nf] else s.fits)
  }

  /** What one visit does to the store. */
  lemma VisitedEffect(land: Landscape, num: Numerics, tun: Tunables, s: Store, i: nat, d: XDraw)
    requires WellFormed(land, s, |s.xs|) && i < |s.xs| && DrawFits(d, |s.xs|, i, |land.lower|, tun.p)
    ensures var r := Visited(land, num, tun, s, i, d);
      // only individual i changes, and its stored fitness never increases
      && (forall t :: 0 <= t < |s.xs| && t != i ==> r.xs[t] == s.xs[t] && r.fits[t] == s.fits[t])
      && r.fits[i] <= s.fits[i]
      // an improved individual carries its own fitness
      && (r.fits[i] < s.fits[i] ==> r.fits[i] == land.objective(r.xs[i]))
      // crossover: the parent is replaced exactly when an offspring beats it,
      // and then by an offspring with the smaller fitness; otherwise it stays
      && (d.switch > tun.p ==>
            var o := Offspring(land, s, i, d);
            var n1, n2 := land.objective(o.0), land.objective(o.1);
            && (r.fits[i] < s.fits[i] <==> n1 < s.fits[i] || n2 < s.fits[i])
            && (r.fits[i] == s.fits[i] ==> r.xs[i] == s.xs[i])
            && (r.fits[i] < s.fits[i] ==> (r.xs[i] == o.0 || r.xs[i] == o.1) && r.fits[i] <= n1 && r.fits[i] <= n2))
      // neighbour move: the moved position is stored even when rejected
      && (d.switch <= tun.p ==> r.xs[i] == NeighbourPosition(land, num, tun, s, i, d))
      && (d.switch <= tun.p ==> (r.fits[i] < s.fits[i] <==> land.objective(r.xs[i]) < s.fits[i]))
      && (Ordered(land.lower, land.upper) && Within(s.xs[i], land.lower, land.upper) ==>
            Within(r.xs[i], land.lower, land.upper))
  {
    if d.switch > tun.p {
      var o := Offspring(land, s, i, d);
      ReplacementIsMin(s.xs[i], s.fits[i], o.0, land.objective(o.0), o.1, land.objective(o.1));
      if Ordered(land.lower, land.upper) {
        var mate := s.xs[MateOf(i, |s.xs|, d.tries)];
        var sp := Splice(s.xs[i], mate, d.point + 1);
        ClampedWithin(sp.0, land.lower, land.upper);
        ClampedWithin(sp.1, land.lower, land.upper);
      }
    } else if Ordered(land.lower, land.upper) {
      var f := Fragrance(num, tun.c, tun.a, s.fits[i]);
      ClampedWithin(Add(s.xs[i], Step(f, d.r1, d.r2, s.xs[d.j], s.xs[d.k])), land.lower, land.upper);
    }
  }

  /** A population of one mates the individual with itself (lines 81-83 do
      not loop): the offspring are the parent clamped, so a parent within the
      bounds that carries its own fitness is kept as it is, although both
      offspring are still evaluated. */
  lemma LoneCrossoverKeeps(land: Landscape, num: Numerics, tun: Tunables, s: Store, d: XDraw)
    requires WellFormed(land, s, 1) && DrawFits(d, 1, 0, |land.lower|, tun.p) && d.switch > tun.p
    requires Ordered(land.lower, land.upper) && Within(s.xs[0], land.lower, land.upper)
    requires s.fits[0] == land.objective(s.xs[0])
    ensures Visited(land, num, tun, s, 0, d) == s
    ensures VisitEvals(tun, d) == 2
  {
    SpliceSelf(s.xs[0], d.point + 1);
    ClampedWithinIsIdentity(s.xs[0], land.lower, land.upper);
    assert s.xs[0 := s.xs[0]] == s.xs && s.fits[0 := s.fits[0]] == s.fits;
  }

  /** Objective evaluations spent on one individual. */
  function VisitEvals(tun: Tunables, d: XDraw): nat
  {
    if d.switch > tun.p then 2 else 1
  }

  function SweepEvals(tun: Tunables, ds: seq<XDraw>): nat
  {
    if ds == [] then 0 else SweepEvals(tun, ds[..|ds| - 1]) + VisitEvals(tun, ds[|ds| - 1])
  }

  /** The sweep from individual `i` on, in population order. */
  function SweptFrom(land: Landscape, num: Numerics, tun: Tunables, s: Store, ds: seq<XDraw>, i: nat): (r: Store)
    requires WellFormed(land, s, |s.xs|) && |ds| == |s.xs| && i <= |ds| && DrawsFit(ds, |s.xs|, |land.lower|, tun.p)
    ensures WellFormed(land, r, |s.xs|)
    decreases |ds| - i, 2
  {
    if i == |ds| then s else VisitNext(land, num, tun, s, ds, i)
  }

  /** Individual `i` is still to be visited. The sweep is spread over three
      mutually recursive functions so that the verifier unfolds a visit only
      where a proof asks for it (see SweptFromStep). */
  function VisitNext(land: Landscape, num: Numerics, tun: Tunables, s: Store, ds: seq<XDraw>, i: nat): (r: Store)
    requires WellFormed(land, s, |s.xs|) && |ds| == |s.xs| && i < |ds| && DrawsFit(ds, |s.xs|, |land.lower|, tun.p)
    ensures WellFormed(land, r, |s.xs|)
    decreases |ds| - i, 1
  {
    VisitedThen(land, num, tun, s, ds, i)
  }

  function VisitedThen(land: Landscape, num: Numerics, tun: Tunables, s: Store, ds: seq<XDraw>, i: nat): (r: Store)
    requires WellFormed(land, s, |s.xs|) && |ds| == |s.xs| && i < |ds| && DrawsFit(ds, |s.xs|, |land.lower|, tun.p)
    ensures WellFormed(land, r, |s.xs|)
    decreases |ds| - i, 0
  {
    SweptFrom(land, num, tun, Visited(land, num, tun, s, i, ds[i]), ds, i + 1)
  }

  /** Visiting individual `i` is the first step of the sweep from `i`. */
  lemma SweptFromStep(land: Landscape, num: Numerics, tun: Tunables, s: Store, ds: seq<XDraw>, i: nat)
    requires WellFormed(land, s, |s.xs|) && |ds| == |s.xs| && i < |ds| && DrawsFit(ds, |s.xs|, |land.lower|, tun.p)
    ensures SweptFrom(land, num, tun, s, ds, i) == SweptFrom(land, num, tun, Visited(land, num, tun, s, i, ds[i]), ds, i + 1)
  {
    assert SweptFrom(land, num, tun, s, ds, i) == VisitNext(land, num, tun, s, ds, i);
    assert VisitNext(land, num, tun, s, ds, i) == VisitedThen(land, num, tun, s, ds, i);
  }

  /** The sweep from individual `i` on: no stored fitness increases, those
      before `i` are untouched and positions within the bounds stay so. */
  lemma {:induction false} SweptEffect(land: Landscape, num: Numerics, tun: Tunables, s: Store, ds: seq<XDraw>, i: nat)
    requires WellFormed(land, s, |s.xs|) && |ds| == |s.xs| && i <= |ds| && DrawsFit(ds, |s.xs|, |land.lower|, tun.p)
    ensures var r := SweptFrom(land, num, tun, s, ds, i);
      && (forall t :: 0 <= t < |s.xs| ==> r.fits[t] <= s.fits[t])
      && (forall t :: 0 <= t < i ==> r.xs[t] == s.xs[t] && r.fits[t] == s.fits[t])
      && (Ordered(land.lower, land.upper) && AllWithin(s.xs, land) ==> AllWithin(r.xs, land))
    decreases |ds| - i
  {
    if i < |ds| {
      var v := Visited(land, num, tun, s, i, ds[i]);
      VisitedEffect(land, num, tun, s, i, ds[i]);
      SweptEffect(land, num, tun, v, ds, i + 1);
      var r := SweptFrom(land, num, tun, v, ds, i + 1);
      SweptFromStep(land, num, tun, s, ds, i);
      forall t | 0 <= t < i ensures r.xs[t] == s.xs[t] && r.fits[t] == s.fits[t] {
        assert v.xs[t] == s.xs[t] && v.fits[t] == s.fits[t];
      }
      if Ordered(land.lower, land.upper) && AllWithin(s.xs, land) {
        forall t | 0 <= t < |v.xs| ensures Within(v.xs[t], land.lower, land.upper) {
          if t != i {
            assert v.xs[t] == s.xs[t];
          }
        }
        assert AllWithin(v.xs, land);
      }
    }
  }

  ghost predicate UpdatesOk(num: Numerics, cfg: Config, c: real, sweeps: nat)
  {
    UpdatesDefined(cfg.variant == CrossoverAdaptive, num, c, cfg.currentIteration, cfg.maxIterations, cfg.mu, sweeps)
  }

  /** One sweep over a fresh copy `base` of the population, followed by the
      modality update and `save_log` (lines 55-133). The population object is
      not written during the sweeps, so the champion read before the sweep
      and the one read after it are the same value `champion`: the logged
      improvement is their difference. */
  function SweptOnce(land: Landscape, num: Numerics, cfg: Config, base: Store, champion: real, r: Run,
                     ds: seq<XDraw>, iteration: int): (e: Run)
    requires WellFormed(land, base, |base.xs|) && |ds| == |base.xs| && DrawsFit(ds, |base.xs|, |land.lower|, cfg.p)
    requires UpdateDefined(cfg.variant == CrossoverAdaptive, r.c, cfg.maxIterations, cfg.mu)
    ensures WellFormed(land, e.store, |base.xs|)
    ensures e.c == NextC(cfg.variant == CrossoverAdaptive, num, r.c, cfg.currentIteration, cfg.maxIterations, cfg.mu)
  {
    var tun := TunablesOf(cfg, r.c);
    var s := SweptFrom(land, num, tun, base, ds, 0);
    var ev := r.fevals + SweepEvals(tun, ds);
    Run(s, NextC(cfg.variant == CrossoverAdaptive, num, r.c, cfg.currentIteration, cfg.maxIterations, cfg.mu),
        Logged(r.log, cfg.verbosity, LogRecord(iteration, ev, champion, champion - champion)), ev)
  }

  /** The pieces a sweep produces, assembled. */
  lemma SweptOnceIs(land: Landscape, num: Numerics, cfg: Config, base: Store, champion: real, r: Run,
                    ds: seq<XDraw>, iteration: int, s: Store, c: real, log: seq<LogRecord>, ev: nat)
    requires WellFormed(land, base, |base.xs|) && |ds| == |base.xs| && DrawsFit(ds, |base.xs|, |land.lower|, cfg.p)
    requires UpdateDefined(cfg.variant == CrossoverAdaptive, r.c, cfg.maxIterations, cfg.mu)
    requires s == SweptFrom(land, num, TunablesOf(cfg, r.c), base, ds, 0)
    requires ev == r.fevals + SweepEvals(TunablesOf(cfg, r.c), ds)
    requires c == NextC(cfg.variant == CrossoverAdaptive, num, r.c, cfg.currentIteration, cfg.maxIterations, cfg.mu)
    requires log == Logged(r.log, cfg.verbosity, LogRecord(iteration, ev, champion, champion - champion))
    ensures Run(s, c, log, ev) == SweptOnce(land, num, cfg, base, champion, r, ds, iteration)
  {
  }

  ghost predicate DrawGrid(dss: seq<seq<XDraw>>, n: nat, dim: nat, p: real)
  {
    forall s :: 0 <= s < |dss| ==> |dss[s]| == n && DrawsFit(dss[s], n, dim, p)
  }

  /** The sweeps of one `evolve` from sweep `s` (counted from 0) on, each over
      the same `base`. */
  function EvolvedFrom(land: Landscape, num: Numerics, cfg: Config, base: Store, champion: real, r: Run,
                       dss: seq<seq<XDraw>>, s: nat): (e: Run)
    requires WellFormed(land, base, |base.xs|) && WellFormed(land, r.store, |base.xs|)
    requires DrawGrid(dss, |base.xs|, |land.lower|, cfg.p) && s <= |dss|
    requires UpdatesOk(num, cfg, r.c, |dss| - s)
    ensures WellFormed(land, e.store, |base.xs|)
    // `c` has received one modality update per sweep
    ensures e.c == CAfter(cfg.variant == CrossoverAdaptive, num, r.c, cfg.currentIteration, cfg.maxIterations, cfg.mu, |dss| - s)
    decreases |dss| - s, 2
  {
    if s == |dss| then r else SweepNext(land, num, cfg, base, champion, r, dss, s)
  }

  /** Sweep `s` is still to be run; a layer like VisitNext. */
  function SweepNext(land: Landscape, num: Numerics, cfg: Config, base: Store, champion: real, r: Run,
                     dss: seq<seq<XDraw>>, s: nat): (e: Run)
    requires WellFormed(land, base, |base.xs|) && WellFormed(land, r.store, |base.xs|)
    requires DrawGrid(dss, |base.xs|, |land.lower|, cfg.p) && s < |dss|
    requires UpdatesOk(num, cfg, r.c, |dss| - s)
    ensures WellFormed(land, e.store, |base.xs|)
    ensures e.c == CAfter(cfg.variant == CrossoverAdaptive, num, r.c, cfg.currentIteration, cfg.maxIterations, cfg.mu, |dss| - s)
    decreases |dss| - s, 1
  {
    SweptThen(land, num, cfg, base, champion, r, dss, s)
  }

  function SweptThen(land: Landscape, num: Numerics, cfg: Config, base: Store, champion: real, r: Run,
                     dss: seq<seq<XDraw>>, s: nat): (e: Run)
    requires WellFormed(land, base, |base.xs|) && WellFormed(land, r.store, |base.xs|)
    requires DrawGrid(dss, |base.xs|, |land.lower|, cfg.p) && s < |dss|
    requires UpdatesOk(num, cfg, r.c, |dss| - s)
    ensures WellFormed(land, e.store, |base.xs|)
    ensures e.c == CAfter(cfg.variant == CrossoverAdaptive, num, r.c, cfg.currentIteration, cfg.maxIterations, cfg.mu, |dss| - s)
    decreases |dss| - s, 0
  {
    EvolvedFrom(land, num, cfg, base, champion, SweptOnce(land, num, cfg, base, champion, r, dss[s], s + 1), dss, s + 1)
  }

  /** Running sweep `s` is the first step of the sweeps from `s`. */
  lemma EvolvedFromStep(land: Landscape, num: Numerics, cfg: Config, base: Store, champion: real, r: Run,
                     dss: seq<seq<XDraw>>, s: nat)
    requires WellFormed(land, base, |base.xs|) && WellFormed(land, r.store, |base.xs|)
    requires DrawGrid(dss, |base.xs|, |land.lower|, cfg.p) && s < |dss|
    requires UpdatesOk(num, cfg, r.c, |dss| - s)
    ensures EvolvedFrom(land, num, cfg, base, champion, r, dss, s) ==
            EvolvedFrom(land, num, cfg, base, champion, SweptOnce(land, num, cfg, base, champion, r, dss[s], s + 1), dss, s + 1)
  {
    assert EvolvedFrom(land, num, cfg, base, champion, r, dss, s) == SweepNext(land, num, cfg, base, champion, r, dss, s);
    assert SweepNext(land, num, cfg, base, champion, r, dss, s) == SweptThen(land, num, cfg, base, champion, r, dss, s);
  }

  /** Only the last sweep survives: after at least one sweep the store is the
      last sweep over `base`, made with the modality of that sweep. */
  lemma {:induction false} LastSweepSurvives(land: Landscape, num: Numerics, cfg: Config, base: Store, champion: real,
                                             r: Run, dss: seq<seq<XDraw>>, s: nat)
    requires WellFormed(land, base, |base.xs|) && WellFormed(land, r.store, |base.xs|)
    requires DrawGrid(dss, |base.xs|, |land.lower|, cfg.p) && s < |dss|
    requires UpdatesOk(num, cfg, r.c, |dss| - s)
    ensures UpdatesOk(num, cfg, r.c, |dss| - 1 - s)
    ensures EvolvedFrom(land, num, cfg, base, champion, r, dss, s).store ==
            SweptFrom(land, num,
                      TunablesOf(cfg, CAfter(cfg.variant == CrossoverAdaptive, num, r.c, cfg.currentIteration,
                                             cfg.maxIterations, cfg.mu, |dss| - 1 - s)),
                      base, dss[|dss| - 1], 0)
    decreases |dss| - s
  {
    var next := SweptOnce(land, num, cfg, base, champion, r, dss[s], s + 1);
    EvolvedFromStep(land, num, cfg, base, champion, r, dss, s);
    if s + 1 < |dss| {
      LastSweepSurvives(land, num, cfg, base, champion, next, dss, s + 1);
    }
  }

  /** Over the remaining sweeps: after at least one sweep no stored fitness
      is above the population's and positions within the bounds stay so; the
      log grows by at most one record per sweep, each logging the unchanged
      champion with an improvement of zero. */
  lemma {:induction false} EvolvedEffect(land: Landscape, num: Numerics, cfg: Config, base: Store, champion: real,
                                         r: Run, dss: seq<seq<XDraw>>, s: nat)
    requires WellFormed(land, base, |base.xs|) && WellFormed(land, r.store, |base.xs|)
    requires DrawGrid(dss, |base.xs|, |land.lower|, cfg.p) && s <= |dss|
    requires UpdatesOk(num, cfg, r.c, |dss| - s)
    ensures var e := EvolvedFrom(land, num, cfg, base, champion, r, dss, s);
            && (s < |dss| ==> forall t :: 0 <= t < |base.xs| ==> e.store.fits[t] <= base.fits[t])
            && (s < |dss| && Ordered(land.lower, land.upper) && AllWithin(base.xs, land) ==> AllWithin(e.store.xs, land))
            && |r.log| <= |e.log| <= |r.log| + (|dss| - s) && e.log[..|r.log|] == r.log
            && (forall k :: |r.log| <= k < |e.log| ==> e.log[k].improvement == 0.0 && e.log[k].fbest == champion)
            && e.fevals >= r.fevals
    decreases |dss| - s
  {
    if s < |dss| {
      var next := SweptOnce(land, num, cfg, base, champion, r, dss[s], s + 1);
      SweptEffect(land, num, TunablesOf(cfg, r.c), base, dss[s], 0);
      EvolvedEffect(land, num, cfg, base, champion, next, dss, s + 1);
      var e := EvolvedFrom(land, num, cfg, base, champion, r, dss, s);
      EvolvedFromStep(land, num, cfg, base, champion, r, dss, s);
      assert e == EvolvedFrom(land, num, cfg, base, champion, next, dss, s + 1);
      if s + 1 < |dss| {
        LastSweepSurvives(land, num, cfg, base, champion, next, dss, s + 1);
        SweptEffect(land, num, TunablesOf(cfg, next.c), base, dss[|dss| - 1], 0);
      }
      assert e.log[..|r.log|] == e.log[..|next.log|][..|r.log|];
      forall k | |r.log| <= k < |e.log| ensures e.log[k].improvement == 0.0 && e.log[k].fbest == champion {
        if k < |next.log| {
          assert e.log[k] == e.log[..|next.log|][k];
        }
      }
    }
  }

  /** With a verbosity of at most 0 no sweep is due for `save_log`, so the log
      after the sweeps is the log before them. */
  lemma {:induction false} EvolvedQuiet(land: Landscape, num: Numerics, cfg: Config, base: Store, champion: real,
                                        r: Run, dss: seq<seq<XDraw>>, s: nat)
    requires WellFormed(land, base, |base.xs|) && WellFormed(land, r.store, |base.xs|)
    requires DrawGrid(dss, |base.xs|, |land.lower|, cfg.p) && s <= |dss|
    requires UpdatesOk(num, cfg, r.c, |dss| - s)
    ensures cfg.verbosity <= 0 ==> EvolvedFrom(land, num, cfg, base, champion, r, dss, s).log == r.log
    decreases |dss| - s
  {
    if s < |dss| {
      var next := SweptOnce(land, num, cfg, base, champion, r, dss[s], s + 1);
      EvolvedQuiet(land, num, cfg, base, champion, next, dss, s + 1);
      EvolvedFromStep(land, num, cfg, base, champion, r, dss, s);
    }
  }

  /** The crossover of lines 84-98 on copies of the parents: two new arrays,
      clamped and evaluated. */
  method Cross(pop: Population, x: Vector, mate: Vector, cp: nat)
    returns (o1: array<real>, nf1: real, o2: array<real>, nf2: real)
    requires pop.Valid() && 0 < cp < |x| == |mate|
    requires |x| <= |pop.land.lower| && |x| <= |pop.land.upper|
    modifies pop`fevals
    ensures fresh(o1) && fresh(o2)
    ensures o1[..] == Clamped(Splice(x, mate, cp).0, pop.land.lower, pop.land.upper)
    ensures o2[..] == Clamped(Splice(x, mate, cp).1, pop.land.lower, pop.land.upper)
    ensures nf1 == pop.land.objective(o1[..]) && nf2 == pop.land.objective(o2[..])
    ensures pop.fevals == old(pop.fevals) + 2
  {
    o1 := NewArray(x[..cp] + mate[cp..]);
    o2 := NewArray(mate[..cp] + x[cp..]);
    ForceBounds(o1, pop.land.lower, pop.land.upper);
    ForceBounds(o2, pop.land.lower, pop.land.upper);
    nf1 := pop.Evaluate(o1[..]);
    nf2 := pop.Evaluate(o2[..]);
  }

  /** The neighbour move of lines 108-116 on the individual's own array. */
  method Neighbour(pop: Population, num: Numerics, tun: Tunables, rows: seq<array<real>>, fits: seq<real>,
                   i: nat, d: XDraw)
    returns (newFitness: real)
    requires pop.Valid() && RowsShaped(rows, |pop.land.lower|)
    requires |rows| == |fits| && i < |rows| && d.j < |rows| && d.k < |rows|
    modifies rows[i], pop`fevals
    ensures Contents(rows) ==
            old(Contents(rows))[i := NeighbourPosition(pop.land, num, tun, Store(old(Contents(rows)), fits), i, d)]
    ensures newFitness == pop.land.objective(rows[i][..])
    ensures pop.fevals == old(pop.fevals) + 1
  {
    ghost var s := Store(Contents(rows), fits);
    var x := rows[i];
    var fitness := fits[i];
    var f := if fitness > 0.0 then tun.c * num.power(fitness, tun.a) else tun.c * num.power(-fitness, tun.a);
    assert f == Fragrance(num, tun.c, tun.a, s.fits[i]);
    assert rows[d.j][..] == s.xs[d.j] && rows[d.k][..] == s.xs[d.k] && x[..] == s.xs[i];
    var delta := Step(f, d.r1, d.r2, rows[d.j][..], rows[d.k][..]);
    AddInPlace(x, delta);
    ForceBounds(x, pop.land.lower, pop.land.upper);
    ghost var moved := NeighbourPosition(pop.land, num, tun, s, i, d);
    assert x[..] == moved;
    assert Contents(rows) == s.xs[i := moved] by {
      forall t | 0 <= t < |rows| && t != i ensures rows[t][..] == s.xs[t] {
        assert rows[t] != x;
      }
    }
    newFitness := pop.Evaluate(x[..]);
  }

  /** The crossover branch of the visit (lines 79-105): the better offspring
      is copied into the individual's array when it wins. */
  method Breed(pop: Population, rows: seq<array<real>>, fits: seq<real>, i: nat, d: XDraw)
    returns (fits': seq<real>)
    requires pop.Valid() && RowsShaped(rows, |pop.land.lower|) && |rows| == |fits| && i < |rows|
    requires d.point + 1 < |pop.land.lower| && MateFound(i, |rows|, d.tries)
    requires forall t :: 0 <= t < |d.tries| ==> d.tries[t] < |rows|
    modifies rows[i], pop`fevals
    ensures var s := Store(old(Contents(rows)), fits);
            var o := Offspring(pop.land, s, i, d);
            var r := Replacement(s.xs[i], fits[i], o.0, pop.land.objective(o.0), o.1, pop.land.objective(o.1));
            Contents(rows) == s.xs[i := r.0] && fits' == fits[i := r.1]
    ensures pop.fevals == old(pop.fevals) + 2
  {
    ghost var s := Store(Contents(rows), fits);
    ghost var o := Offspring(pop.land, s, i, d);
    var j := ChooseMate(i, |rows|, d.tries);
    var o1, nf1, o2, nf2 := Cross(pop, rows[i][..], rows[j][..], d.point + 1);
    assert o1[..] == o.0 && o2[..] == o.1;
    var r := Replacement(rows[i][..], fits[i], o1[..], nf1, o2[..], nf2);
    if nf1 < fits[i] || nf2 < fits[i] {
      Overwrite(rows, i, r.0);
      fits' := fits[i := r.1];
    } else {
      fits' := fits;
    }
  }

  /** The visit of individual `i` on the store (lines 67-118). */
  method Visit(pop: Population, num: Numerics, tun: Tunables, rows: seq<array<real>>, fits: seq<real>, i: nat, d: XDraw)
    returns (fits': seq<real>)
    requires pop.Valid() && RowsShaped(rows, |pop.land.lower|)
    requires |rows| == |fits| && i < |rows| && DrawFits(d, |rows|, i, |pop.land.lower|, tun.p)
    modifies rows[i], pop`fevals
    ensures |fits'| == |rows|
    ensures Store(Contents(rows), fits') == Visited(pop.land, num, tun, Store(old(Contents(rows)), fits), i, d)
    ensures pop.fevals == old(pop.fevals) + VisitEvals(tun, d)
  {
    if d.switch > tun.p {
      fits' := Breed(pop, rows, fits, i, d);
    } else {
      var newFitness := Neighbour(pop, num, tun, rows, fits, i, d);
      fits' := if newFitness < fits[i] then fits[i := newFitness] else fits;
    }
  }

  /** One pass of the sweep loop: visiting individual `i` leaves the rest of
      the sweep to do from `i + 1`. */
  method SweepStep(pop: Population, num: Numerics, tun: Tunables, rows: seq<array<real>>, fits: seq<real>,
                   ds: seq<XDraw>, i: nat)
    returns (fits': seq<real>)
    requires pop.Valid() && RowsShaped(rows, |pop.land.lower|)
    requires |rows| == |fits| == |ds| && i < |rows| && DrawsFit(ds, |rows|, |pop.land.lower|, tun.p)
    modifies rows[i], pop`fevals
    ensures |fits'| == |rows|
    ensures SweptFrom(pop.land, num, tun, Store(Contents(rows), fits'), ds, i + 1) ==
            SweptFrom(pop.land, num, tun, Store(old(Contents(rows)), fits), ds, i)
    ensures pop.fevals == old(pop.fevals) + VisitEvals(tun, ds[i])
  {
    ghost var before := Store(Contents(rows), fits);
    SweptFromStep(pop.land, num, tun, before, ds, i);
    fits' := Visit(pop, num, tun, rows, fits, i, ds[i]);
  }

  /** One sweep over every individual in population order (lines 67-118). */
  method Sweep(pop: Population, num: Numerics, tun: Tunables, rows: seq<array<real>>, fits: seq<real>, ds: seq<XDraw>)
    returns (fits': seq<real>)
    requires pop.Valid() && RowsShaped(rows, |pop.land.lower|)
    requires |rows| == |fits| == |ds| && DrawsFit(ds, |rows|, |pop.land.lower|, tun.p)
    modifies rows, pop`fevals
    ensures |fits'| == |rows|
    ensures Store(Contents(rows), fits') == SweptFrom(pop.land, num, tun, Store(old(Contents(rows)), fits), ds, 0)
    ensures pop.fevals == old(pop.fevals) + SweepEvals(tun, ds)
  {
    ghost var s0 := Store(Contents(rows), fits);
    fits' := fits;
    for i := 0 to |rows|
      invariant |fits'| == |rows|
      invariant SweptFrom(pop.land, num, tun, Store(Contents(rows), fits'), ds, i) ==
                SweptFrom(pop.land, num, tun, s0, ds, 0)
      invariant pop.fevals == old(pop.fevals) + SweepEvals(tun, ds[..i])
    {
      assert ds[..i + 1][..i] == ds[..i];
      fits' := SweepStep(pop, num, tun, rows, fits', ds, i);
    }
    assert ds[..|rows|] == ds;
  }

  class XBOA {
    var iterations: int
    var c: real
    var a: real
    var p: real
    var mu: real
    var variant: XVariant
    var maxIterations: int
    var verbosityLevel: int
    var log: seq<LogRecord>
    var currentIteration: int

    /** What the constructor establishes and nothing changes afterwards. */
    ghost predicate Valid()
      reads this`iterations, this`p
    {
      iterations >= 1 && 0.0 <= p <= 1.0
    }

    ghost function CurrentConfig(): Config
      reads this`a, this`p, this`mu, this`variant, this`maxIterations, this`currentIteration, this`verbosityLevel
    {
      Config(a, p, mu, variant, maxIterations, currentIteration, verbosityLevel)
    }

    /** `XBOA.__init__` (lines 32-44): at least one generation, an
        out-of-range switch probability becomes 0.8, an unknown variant
        becomes "xboa". */
    constructor (gen: int, c: real, a: real, p: real, mu: real, maxGen: int, variant: string)
      ensures Valid()
      ensures iterations == NormalisedIterations(gen) && this.p == NormalisedP(p)
      ensures this.variant == XVariantOf(variant)
      ensures this.c == c && this.a == a && this.mu == mu && maxIterations == maxGen
      ensures verbosityLevel == 0 && log == [] && currentIteration == 1
    {
      iterations := if gen > 1 then gen else 1;
      this.c := c;
      this.a := a;
      this.p := if p >= 0.0 && p <= 1.0 then p else 0.8;
      this.mu := mu;
      this.variant := XVariantOf(variant);
      maxIterations := maxGen;
      verbosityLevel := 0;
      log := [];
      currentIteration := 1;
    }

    /** `set_verbosity`, without the header it prints. */
    method SetVerbosity(l: int)
      modifies this`verbosityLevel
      ensures verbosityLevel == if l > 0 then l else old(verbosityLevel)
    {
      if l > 0 {
        verbosityLevel := l;
      }
    }

    method SetIter(i: int)
      modifies this`currentIteration
      ensures currentIteration == i
    {
      currentIteration := i;
    }

    /** Lines 120-128: the modality update. */
    method UpdateC(num: Numerics)
      requires UpdateDefined(variant == CrossoverAdaptive, c, maxIterations, mu)
      modifies this`c
      ensures c == NextC(variant == CrossoverAdaptive, num, old(c), currentIteration, maxIterations, mu)
    {
      if variant == CrossoverAdaptive {
        c := AboaC(num, currentIteration, maxIterations, mu);
      } else {
        c := LinearC(c, maxIterations);
      }
    }

    /** `save_log`, without the line it prints. */
    method SaveLog(iteration: int, fevals: int, fbest: real, improvement: real)
      modifies this`log
      ensures log == Logged(old(log), verbosityLevel, LogRecord(iteration, fevals, fbest, improvement))
    {
      if verbosityLevel > 0 && iteration % verbosityLevel == 0 {
        log := log + [LogRecord(iteration, fevals, fbest, improvement)];
      }
    }

    /** One pass of the generation loop of `evolve` (lines 55-133): a fresh
        snapshot of the population, the sweep over it, the modality update
        and `save_log`. `prev`, the previous sweep's store, is dropped. */
    method Generation(pop: Population, num: Numerics, ghost prev: Store, ds: seq<XDraw>, iteration: int)
      returns (rows: seq<array<real>>, fits: seq<real>)
      requires pop.Valid() && |ds| == |pop.xs| && DrawsFit(ds, |pop.xs|, |pop.land.lower|, p)
      requires UpdateDefined(variant == CrossoverAdaptive, c, maxIterations, mu)
      modifies this`c, this`log, pop`fevals
      ensures RowsShaped(rows, |pop.land.lower|) && |rows| == |fits| == |pop.xs|
      ensures forall t :: 0 <= t < |rows| ==> fresh(rows[t])
      ensures Run(Store(Contents(rows), fits), c, log, pop.fevals) ==
              SweptOnce(pop.land, num, CurrentConfig(), Store(pop.xs, pop.fs), pop.championF,
                        old(Run(prev, c, log, pop.fevals)), ds, iteration)
    {
      ghost var cfg := CurrentConfig();
      ghost var cur := Run(prev, c, log, pop.fevals);
      var oldBestFit := pop.championF;
      rows := Snapshot(pop);
      fits := pop.fs;
      fits := Sweep(pop, num, Tunables(c, a, p), rows, fits, ds);
      UpdateC(num);
      var improvement := pop.championF - oldBestFit;
      SaveLog(iteration, pop.fevals, pop.championF, improvement);
      SweptOnceIs(pop.land, num, cfg, Store(pop.xs, pop.fs), pop.championF, cur, ds, iteration,
                  Store(Contents(rows), fits), c, log, pop.fevals);
    }

    /** One pass of the generation loop, as a step of `EvolvedFrom`. */
    method Advance(pop: Population, num: Numerics, ghost base: Store, ghost champion: real,
                   rows: seq<array<real>>, fits: seq<real>, dss: seq<seq<XDraw>>, s: nat)
      returns (rows': seq<array<real>>, fits': seq<real>)
      requires pop.Valid() && RowsShaped(rows, |pop.land.lower|) && |rows| == |fits| == |pop.xs|
      requires base == Store(pop.xs, pop.fs) && champion == pop.championF
      requires s < |dss| && DrawGrid(dss, |pop.xs|, |pop.land.lower|, p)
      requires UpdatesOk(num, CurrentConfig(), c, |dss| - s)
      modifies this`c, this`log, pop`fevals
      ensures RowsShaped(rows', |pop.land.lower|) && |rows'| == |fits'| == |pop.xs|
      ensures UpdatesOk(num, CurrentConfig(), c, |dss| - (s + 1))
      ensures EvolvedFrom(pop.land, num, CurrentConfig(), base, champion, Run(Store(Contents(rows'), fits'), c, log, pop.fevals), dss, s + 1) ==
              EvolvedFrom(pop.land, num, CurrentConfig(), base, champion, old(Run(Store(Contents(rows), fits), c, log, pop.fevals)), dss, s)
    {
      ghost var cur := Run(Store(Contents(rows), fits), c, log, pop.fevals);
      EvolvedFromStep(pop.land, num, CurrentConfig(), base, champion, cur, dss, s);
      rows', fits' := Generation(pop, num, cur.store, dss[s], s + 1);
    }

    /** The generation loop of `evolve` (lines 55-133). */
    method Generations(pop: Population, num: Numerics, dss: seq<seq<XDraw>>)
      returns (rows: seq<array<real>>, fits: seq<real>)
      requires Valid() && pop.Valid()
      requires |dss| == iterations && DrawGrid(dss, |pop.xs|, |pop.land.lower|, p)
      requires UpdatesOk(num, CurrentConfig(), c, iterations)
      modifies this`c, this`log, pop`fevals
      ensures RowsShaped(rows, |pop.land.lower|) && |rows| == |fits| == |pop.xs|
      ensures Run(Store(Contents(rows), fits), c, log, pop.fevals) ==
              EvolvedFrom(pop.land, num, CurrentConfig(), Store(pop.xs, pop.fs), pop.championF,
                          old(Run(Store(pop.xs, pop.fs), c, log, pop.fevals)), dss, 0)
    {
      ghost var cfg := CurrentConfig();
      ghost var base := Store(pop.xs, pop.fs);
      ghost var goal := EvolvedFrom(pop.land, num, cfg, base, pop.championF, Run(base, c, log, pop.fevals), dss, 0);
      rows := Snapshot(pop);
      fits := pop.fs;
      for s := 0 to iterations
        invariant CurrentConfig() == cfg
        invariant RowsShaped(rows, |pop.land.lower|) && |rows| == |fits| == |pop.xs|
        invariant UpdatesOk(num, cfg, c, iterations - s)
        invariant EvolvedFrom(pop.land, num, cfg, base, pop.championF, Run(Store(Contents(rows), fits), c, log, pop.fevals),
                              dss, s) == goal
      {
        rows, fits := Advance(pop, num, base, pop.championF, rows, fits, dss, s);
      }
    }

    /** `evolve` (lines 46-140): the sweeps, then the last sweep's store
        written back to the population. */
    method Evolve(pop: Population, num: Numerics, dss: seq<seq<XDraw>>)
      requires Valid() && pop.Valid()
      requires |dss| == iterations && DrawGrid(dss, |pop.xs|, |pop.land.lower|, p)
      requires UpdatesOk(num, CurrentConfig(), c, iterations)
      modifies this`c, this`log, pop
      ensures Valid() && pop.Valid()
      ensures var base := Store(old(pop.xs), old(pop.fs));
              var e := EvolvedFrom(pop.land, num, old(CurrentConfig()), base, old(pop.championF),
                                   Run(base, old(c), old(log), old(pop.fevals)), dss, 0);
              && pop.xs == e.store.xs && pop.fs == e.store.fits
              && c == e.c && log == e.log && pop.fevals == e.fevals
              && (pop.championX, pop.championF) ==
                 ChampionAfter(old(pop.championX), old(pop.championF), e.store.xs, e.store.fits)
      // no stored fitness increases, so neither does the champion
      ensures |pop.fs| == |old(pop.fs)| && forall t :: 0 <= t < |pop.fs| ==> pop.fs[t] <= old(pop.fs[t])
      ensures pop.championF <= old(pop.championF)
      // positions within the bounds stay so
      ensures AllWithin(old(pop.xs), pop.land) ==> AllWithin(pop.xs, pop.land)
      // `c` has received one modality update per sweep
      ensures c == CAfter(variant == CrossoverAdaptive, num, old(c), currentIteration, maxIterations, mu, iterations)
      // every record logged reports the unchanged champion and a zero improvement
      ensures |old(log)| <= |log| && log[..|old(log)|] == old(log)
      ensures forall k :: |old(log)| <= k < |log| ==> log[k].improvement == 0.0 && log[k].fbest == old(pop.championF)
    {
      ghost var cfg := CurrentConfig();
      ghost var base := Store(pop.xs, pop.fs);
      ghost var r0 := Run(base, c, log, pop.fevals);
      ghost var champion := pop.championF;
      ghost var e := EvolvedFrom(pop.land, num, cfg, base, champion, r0, dss, 0);
      EvolvedEffect(pop.land, num, cfg, base, champion, r0, dss, 0);
      var rows, fits := Generations(pop, num, dss);
      assert Contents(rows) == e.store.xs && fits == e.store.fits && c == e.c && log == e.log && pop.fevals == e.fevals;
      WriteBack(pop, rows, fits);
    }
  }
}
