/** The BOA family of optimizers/boa.py: BOA, mBOA (an extra exploitation
    search) and ABOA (a non-linear modality update). One `evolve` call runs
    `iterations` sweeps; a sweep visits every individual in population order,
    moves it, clamps it, evaluates it and keeps the result only if it is
    strictly better. `best_id` is updated as soon as an individual beats it,
    so later individuals of the same sweep move towards the new best. */
module Boa {
  import opened Vectors
  import opened Bounds
  import opened Populations
  import opened Strategy

  /** The random values one individual consumes in one sweep: `r1`, `r2`,
      the switch draw, the neighbour indices `j`, `k` (used by the local
      move), and for mBOA the draw that enables the extra search with its
      own `r1`, `r2` (here `e1`, `e2`). */
  datatype BoaDraw = BoaDraw(r1: real, r2: real, switch: real, j: nat, k: nat, extra: real, e1: real, e2: real)

  /** The sweep-local dictionary `pop` (position and stored fitness per
      individual, by population index) and `best_id`. */
  datatype Swarm = Swarm(xs: seq<Vector>, fits: seq<real>, best: nat)

  /** What one sweep reads from the strategy: `c`, `a`, `p`, and whether the
      variant is mBOA. */
  datatype Tunables = Tunables(c: real, a: real, p: real, mboa: bool)

  /** The three accepted values of the lower-cased `variant` string. */
  datatype Variant = Standard | Modified | Adaptive

  function VariantName(v: Variant): string
  {
    match v
    case Standard => "boa"
    case Modified => "mboa"
    case Adaptive => "aboa"
  }

  /** Lines 52-54: the name is lower-cased and anything other than "boa",
      "mboa" or "aboa" falls back to "boa". */
  function VariantOf(name: string): (v: Variant)
    ensures Lower(name) == VariantName(v) || (v == Standard && Lower(name) !in {"boa", "mboa", "aboa"})
  {
    var l := Lower(name);
    if l == "mboa" then Modified else if l == "aboa" then Adaptive else Standard
  }

  /** The fields the constructor kept: normalising a variant's own name gives it back. */
  lemma VariantOfName(v: Variant)
    ensures VariantOf(VariantName(v)) == v
  {
    LowerKeepsLowerCase(VariantName(v));
  }

  /** The strategy fields that stay fixed during one `evolve`. */
  datatype Config = Config(a: real, p: real, mu: real, variant: Variant, maxIterations: int,
                           currentIteration: int, verbosity: int)

  /** The state carried from sweep to sweep: the swarm, `c`, the log and the
      evaluation counter. */
  datatype Run = Run(swarm: Swarm, c: real, log: seq<LogRecord>, fevals: nat)

  ghost predicate WellFormed(land: Landscape, s: Swarm, n: nat)
  {
    |land.upper| == |land.lower| && |s.xs| == n && |s.fits| == n && s.best < n &&
    Shaped(s.xs, |land.lower|)
  }

  predicate DrawFits(d: BoaDraw, n: nat)
  {
    d.j < n && d.k < n
  }

  ghost predicate DrawsFit(ds: seq<BoaDraw>, n: nat)
  {
    forall t :: 0 <= t < |ds| ==> DrawFits(ds[t], n)
  }

  /** The move of lines 89-98: towards the best (global) when the switch draw
      exceeds `p`, otherwise between two random neighbours `j` and `k`. */
  function Step(p: real, f: real, d: BoaDraw, best: Vector, x: Vector, xj: Vector, xk: Vector): (delta: Vector)
    requires |best| == |x| == |xj| == |xk|
    ensures |delta| == |x|
  {
    if d.switch > p then seq(|x|, g requires 0 <= g < |x| => f * (d.r1 * d.r2 * best[g] - x[g]))
    else seq(|x|, g requires 0 <= g < |x| => f * (d.r1 * d.r2 * xj[g] - xk[g]))
  }

  /** The move of individual `i` in swarm `s`. */
  function Delta(tun: Tunables, f: real, s: Swarm, i: nat, d: BoaDraw): (delta: Vector)
    requires i < |s.xs| && s.best < |s.xs| && d.j < |s.xs| && d.k < |s.xs|
    requires Shaped(s.xs, |s.xs[i]|)
    ensures |delta| == |s.xs[i]|
  {
    Step(tun.p, f, d, s.xs[s.best], s.xs[i], s.xs[d.j], s.xs[d.k])
  }

  /** The position left in the individual's own array after `x += ...` and
      `force_bounds`: the array is the one stored in `pop`, so this is
      written whether or not the move is accepted. */
  function MovedPosition(land: Landscape, num: Numerics, tun: Tunables, s: Swarm, i: nat, d: BoaDraw): (m: Vector)
    requires WellFormed(land, s, |s.xs|) && i < |s.xs| && DrawFits(d, |s.xs|)
    ensures |m| == |land.lower|
  {
    var f := Fragrance(num, tun.c, tun.a, s.fits[i]);
    Clamped(Add(s.xs[i], Delta(tun, f, s, i, d)), land.lower, land.upper)
  }

  /** mBOA's exploitation point `best + (r1 - r2) * best`. */
  function ExtraSearch(best: Vector, e1: real, e2: real): (x2: Vector)
    ensures |x2| == |best|
  {
    seq(|best|, g requires 0 <= g < |best| => best[g] + (e1 - e2) * best[g])
  }

  /** mBOA keeps the second candidate only when it is strictly better. */
  function Pick(x: Vector, nf: real, x2: Vector, nf2: real): (r: (Vector, real))
    ensures r.1 <= nf && r.1 <= nf2
    ensures r == (x, nf) || r == (x2, nf2)
    ensures nf <= nf2 ==> r == (x, nf)
  {
    if nf2 < nf then (x2, nf2) else (x, nf)
  }

  /** Objective evaluations spent on one individual. */
  function VisitEvals(tun: Tunables, d: BoaDraw): nat
  {
    if tun.mboa && d.extra < tun.p then 2 else 1
  }

  function SweepEvals(tun: Tunables, ds: seq<BoaDraw>): nat
  {
    if ds == [] then 0 else SweepEvals(tun, ds[..|ds| - 1]) + VisitEvals(tun, ds[|ds| - 1])
  }

  /** One pass of the loop body at lines 78-120 for individual `i`. */
  function Visited(land: Landscape, num: Numerics, tun: Tunables, s: Swarm, i: nat, d: BoaDraw): (r: Swarm)
    requires WellFormed(land, s, |s.xs|) && i < |s.xs| && DrawFits(d, |s.xs|)
    ensures WellFormed(land, r, |s.xs|)
  {
    var moved := MovedPosition(land, num, tun, s, i, d);
    var xs1 := s.xs[i := moved];
    var nf := land.objective(moved);
    var pick :=
      if tun.mboa && d.extra < tun.p then
        var x2 := Clamped(ExtraSearch(xs1[s.best], d.e1, d.e2), land.lower, land.upper);
        Pick(moved, nf, x2, land.objective(x2))
      else (moved, nf);
    if pick.1 < s.fits[i] then
      var fits2 := s.fits[i := pick.1];
      Swarm(xs1[i := pick.0], fits2, if pick.1 < fits2[s.best] then i else s.best)
    else
      Swarm(xs1, s.fits, if pick.1 < s.fits[s.best] then i else s.best)
  }

  /** What one visit does to the swarm. */
  lemma VisitedEffect(land: Landscape, num: Numerics, tun: Tunables, s: Swarm, i: nat, d: BoaDraw)
    requires WellFormed(land, s, |s.xs|) && i < |s.xs| && DrawFits(d, |s.xs|)
    ensures var r := Visited(land, num, tun, s, i, d);
      // only individual i changes
      && (forall t :: 0 <= t < |s.xs| && t != i ==> r.xs[t] == s.xs[t] && r.fits[t] == s.fits[t])
      // greedy acceptance: the stored fitness never increases
      && r.fits[i] <= s.fits[i]
      // an accepted candidate carries its own fitness
      && (r.fits[i] < s.fits[i] ==> r.fits[i] == land.objective(r.xs[i]))
      // a rejected move still overwrites the stored position (aliasing)
      && (r.fits[i] == s.fits[i] ==> r.xs[i] == MovedPosition(land, num, tun, s, i, d))
      && (Ordered(land.lower, land.upper) ==> Within(r.xs[i], land.lower, land.upper))
      // best_id only ever moves to the individual just visited ...
      && (r.best != s.best ==> r.best == i)
      // ... while it indexes a minimum it keeps doing so, and it moves only
      // for a candidate that beat the best and was accepted
      && (IsMin(s.fits, s.best) ==> IsMin(r.fits, r.best))
      && (IsMin(s.fits, s.best) && r.best != s.best ==> r.fits[i] < s.fits[s.best] && r.fits[i] < s.fits[i])
  {
    var moved := MovedPosition(land, num, tun, s, i, d);
    if Ordered(land.lower, land.upper) {
      ClampedWithin(Add(s.xs[i], Delta(tun, Fragrance(num, tun.c, tun.a, s.fits[i]), s, i, d)), land.lower, land.upper);
      if tun.mboa && d.extra < tun.p {
        ClampedWithin(ExtraSearch(s.xs[i := moved][s.best], d.e1, d.e2), land.lower, land.upper);
      }
    }
  }

  /** The sweep from individual `i` on, in population order: individual `i`
      is visited, then the rest. */
  function SweptFrom(land: Landscape, num: Numerics, tun: Tunables, s: Swarm, ds: seq<BoaDraw>, i: nat): (r: Swarm)
    requires WellFormed(land, s, |s.xs|) && |ds| == |s.xs| && i <= |ds| && DrawsFit(ds, |s.xs|)
    ensures WellFormed(land, r, |s.xs|)
    decreases |ds| - i, 2
  {
    if i == |ds| then s else VisitNext(land, num, tun, s, ds, i)
  }

  /** Individual `i` is still to be visited. The sweep is spread over three
      mutually recursive functions so that the verifier unfolds a visit only
      where a proof asks for it (see SweptFromStep). */
  function VisitNext(land: Landscape, num: Numerics, tun: Tunables, s: Swarm, ds: seq<BoaDraw>, i: nat): (r: Swarm)
    requires WellFormed(land, s, |s.xs|) && |ds| == |s.xs| && i < |ds| && DrawsFit(ds, |s.xs|)
    ensures WellFormed(land, r, |s.xs|)
    decreases |ds| - i, 1
  {
    VisitedThen(land, num, tun, s, ds, i)
  }

  function VisitedThen(land: Landscape, num: Numerics, tun: Tunables, s: Swarm, ds: seq<BoaDraw>, i: nat): (r: Swarm)
    requires WellFormed(land, s, |s.xs|) && |ds| == |s.xs| && i < |ds| && DrawsFit(ds, |s.xs|)
    ensures WellFormed(land, r, |s.xs|)
    decreases |ds| - i, 0
  {
    SweptFrom(land, num, tun, Visited(land, num, tun, s, i, ds[i]), ds, i + 1)
  }

  /** Visiting individual `i` is the first step of the sweep from `i`. */
  lemma SweptFromStep(land: Landscape, num: Numerics, tun: Tunables, s: Swarm, ds: seq<BoaDraw>, i: nat)
    requires WellFormed(land, s, |s.xs|) && |ds| == |s.xs| && i < |ds| && DrawsFit(ds, |s.xs|)
    ensures SweptFrom(land, num, tun, s, ds, i) == SweptFrom(land, num, tun, Visited(land, num, tun, s, i, ds[i]), ds, i + 1)
  {
    assert SweptFrom(land, num, tun, s, ds, i) == VisitNext(land, num, tun, s, ds, i);
    assert VisitNext(land, num, tun, s, ds, i) == VisitedThen(land, num, tun, s, ds, i);
  }

  /** The sweep from individual `i` on: no stored fitness increases, those
      before `i` are untouched, those from `i` on end within the bounds, and
      `best_id` still indexes a minimum. */
  lemma {:induction false} SweptEffect(land: Landscape, num: Numerics, tun: Tunables, s: Swarm, ds: seq<BoaDraw>, i: nat)
    requires WellFormed(land, s, |s.xs|) && |ds| == |s.xs| && i <= |ds| && DrawsFit(ds, |s.xs|)
    ensures var r := SweptFrom(land, num, tun, s, ds, i);
      && (forall t :: 0 <= t < |s.xs| ==> r.fits[t] <= s.fits[t])
      && (forall t :: 0 <= t < i ==> r.xs[t] == s.xs[t] && r.fits[t] == s.fits[t])
      && (Ordered(land.lower, land.upper) ==> forall t :: i <= t < |s.xs| ==> Within(r.xs[t], land.lower, land.upper))
      && (IsMin(s.fits, s.best) ==> IsMin(r.fits, r.best))
    decreases |ds| - i
  {
    if i < |ds| {
      var v := Visited(land, num, tun, s, i, ds[i]);
      VisitedEffect(land, num, tun, s, i, ds[i]);
      SweptEffect(land, num, tun, v, ds, i + 1);
      SweptFromStep(land, num, tun, s, ds, i);
    }
  }

  function TunablesOf(cfg: Config, c: real): Tunables
  {
    Tunables(c, cfg.a, cfg.p, cfg.variant == Modified)
  }

  ghost predicate DrawGrid(dss: seq<seq<BoaDraw>>, n: nat)
  {
    forall s :: 0 <= s < |dss| ==> |dss[s]| == n && DrawsFit(dss[s], n)
  }

  /** A store of shaped rows is a well-formed swarm. */
  lemma StoreWellFormed(land: Landscape, rows: seq<array<real>>, fits: seq<real>, best: nat)
    requires RowsShaped(rows, |land.lower|) && |land.upper| == |land.lower| && |fits| == |rows| && best < |rows|
    ensures WellFormed(land, Swarm(Contents(rows), fits, best), |rows|)
  {
  }

  ghost predicate UpdatesOk(num: Numerics, cfg: Config, c: real, sweeps: nat)
  {
    UpdatesDefined(cfg.variant == Adaptive, num, c, cfg.currentIteration, cfg.maxIterations, cfg.mu, sweeps)
  }

  /** One full sweep followed by the modality update and `save_log`
      (lines 76-135); `iteration` is the sweep's number `i + 1`. */
  function SweptOnce(land: Landscape, num: Numerics, cfg: Config, r: Run, ds: seq<BoaDraw>, iteration: int): (e: Run)
    requires WellFormed(land, r.swarm, |r.swarm.xs|) && |ds| == |r.swarm.xs| && DrawsFit(ds, |r.swarm.xs|)
    requires UpdateDefined(cfg.variant == Adaptive, r.c, cfg.maxIterations, cfg.mu)
    ensures WellFormed(land, e.swarm, |r.swarm.xs|)
    ensures e.c == NextC(cfg.variant == Adaptive, num, r.c, cfg.currentIteration, cfg.maxIterations, cfg.mu)
  {
    var tun := TunablesOf(cfg, r.c);
    var s := SweptFrom(land, num, tun, r.swarm, ds, 0);
    var ev := r.fevals + SweepEvals(tun, ds);
    var improvement := s.fits[s.best] - r.swarm.fits[r.swarm.best];
    Run(s, NextC(cfg.variant == Adaptive, num, r.c, cfg.currentIteration, cfg.maxIterations, cfg.mu),
        Logged(r.log, cfg.verbosity, LogRecord(iteration, ev, s.fits[s.best], improvement)), ev)
  }

  /** One sweep with its update: fitness only improves, `best_id` keeps
      indexing a minimum, everyone ends within the bounds, and the log grows
      by at most one record whose improvement is at most zero. */
  lemma SweptOnceEffect(land: Landscape, num: Numerics, cfg: Config, r: Run, ds: seq<BoaDraw>, iteration: int)
    requires WellFormed(land, r.swarm, |r.swarm.xs|) && |ds| == |r.swarm.xs| && DrawsFit(ds, |r.swarm.xs|)
    requires UpdateDefined(cfg.variant == Adaptive, r.c, cfg.maxIterations, cfg.mu)
    ensures var e := SweptOnce(land, num, cfg, r, ds, iteration);
      && (forall t :: 0 <= t < |r.swarm.xs| ==> e.swarm.fits[t] <= r.swarm.fits[t])
      && (IsMin(r.swarm.fits, r.swarm.best) ==> IsMin(e.swarm.fits, e.swarm.best))
      && (Ordered(land.lower, land.upper) ==> AllWithin(e.swarm.xs, land))
      && |r.log| <= |e.log| <= |r.log| + 1 && e.log[..|r.log|] == r.log
      && (IsMin(r.swarm.fits, r.swarm.best) && |e.log| > |r.log| ==> e.log[|r.log|].improvement <= 0.0)
      && e.fevals >= r.fevals
  {
    SweptEffect(land, num, TunablesOf(cfg, r.c), r.swarm, ds, 0);
  }

  /** The pieces a sweep-plus-update produces, assembled. */
  lemma SweptOnceIs(land: Landscape, num: Numerics, cfg: Config, r: Run, ds: seq<BoaDraw>, iteration: int,
                    s: Swarm, c: real, log: seq<LogRecord>, ev: nat, improvement: real)
    requires WellFormed(land, r.swarm, |r.swarm.xs|) && |ds| == |r.swarm.xs| && DrawsFit(ds, |r.swarm.xs|)
    requires UpdateDefined(cfg.variant == Adaptive, r.c, cfg.maxIterations, cfg.mu)
    requires s == SweptFrom(land, num, TunablesOf(cfg, r.c), r.swarm, ds, 0)
    requires ev == r.fevals + SweepEvals(TunablesOf(cfg, r.c), ds)
    requires c == NextC(cfg.variant == Adaptive, num, r.c, cfg.currentIteration, cfg.maxIterations, cfg.mu)
    requires improvement == s.fits[s.best] - r.swarm.fits[r.swarm.best]
    requires log == Logged(r.log, cfg.verbosity, LogRecord(iteration, ev, s.fits[s.best], improvement))
    ensures Run(s, c, log, ev) == SweptOnce(land, num, cfg, r, ds, iteration)
  {
  }

  /** The sweeps of one `evolve` from sweep `s` (counted from 0) on; sweep
      `s` logs iteration number `s + 1`. */
  function EvolvedFrom(land: Landscape, num: Numerics, cfg: Config, r: Run, dss: seq<seq<BoaDraw>>, s: nat): (e: Run)
    requires WellFormed(land, r.swarm, |r.swarm.xs|) && DrawGrid(dss, |r.swarm.xs|) && s <= |dss|
    requires UpdatesOk(num, cfg, r.c, |dss| - s)
    ensures WellFormed(land, e.swarm, |r.swarm.xs|)
    // `c` has received one modality update per sweep
    ensures e.c == CAfter(cfg.variant == Adaptive, num, r.c, cfg.currentIteration, cfg.maxIterations, cfg.mu, |dss| - s)
    decreases |dss| - s, 2
  {
    if s == |dss| then r else SweepNext(land, num, cfg, r, dss, s)
  }

  /** Sweep `s` is still to be run; a layer like VisitNext. */
  function SweepNext(land: Landscape, num: Numerics, cfg: Config, r: Run, dss: seq<seq<BoaDraw>>, s: nat): (e: Run)
    requires WellFormed(land, r.swarm, |r.swarm.xs|) && DrawGrid(dss, |r.swarm.xs|) && s < |dss|
    requires UpdatesOk(num, cfg, r.c, |dss| - s)
    ensures WellFormed(land, e.swarm, |r.swarm.xs|)
    ensures e.c == CAfter(cfg.variant == Adaptive, num, r.c, cfg.currentIteration, cfg.maxIterations, cfg.mu, |dss| - s)
    decreases |dss| - s, 1
  {
    SweptThen(land, num, cfg, r, dss, s)
  }

  function SweptThen(land: Landscape, num: Numerics, cfg: Config, r: Run, dss: seq<seq<BoaDraw>>, s: nat): (e: Run)
    requires WellFormed(land, r.swarm, |r.swarm.xs|) && DrawGrid(dss, |r.swarm.xs|) && s < |dss|
    requires UpdatesOk(num, cfg, r.c, |dss| - s)
    ensures WellFormed(land, e.swarm, |r.swarm.xs|)
    ensures e.c == CAfter(cfg.variant == Adaptive, num, r.c, cfg.currentIteration, cfg.maxIterations, cfg.mu, |dss| - s)
    decreases |dss| - s, 0
  {
    EvolvedFrom(land, num, cfg, SweptOnce(land, num, cfg, r, dss[s], s + 1), dss, s + 1)
  }

  /** Running sweep `s` is the first step of the sweeps from `s`. */
  lemma EvolvedFromStep(land: Landscape, num: Numerics, cfg: Config, r: Run, dss: seq<seq<BoaDraw>>, s: nat)
    requires WellFormed(land, r.swarm, |r.swarm.xs|) && DrawGrid(dss, |r.swarm.xs|) && s < |dss|
    requires UpdatesOk(num, cfg, r.c, |dss| - s)
    ensures EvolvedFrom(land, num, cfg, r, dss, s) ==
            EvolvedFrom(land, num, cfg, SweptOnce(land, num, cfg, r, dss[s], s + 1), dss, s + 1)
  {
    assert EvolvedFrom(land, num, cfg, r, dss, s) == SweepNext(land, num, cfg, r, dss, s);
    assert SweepNext(land, num, cfg, r, dss, s) == SweptThen(land, num, cfg, r, dss, s);
  }

  /** Over the remaining sweeps no stored fitness increases, `best_id` keeps
      indexing a minimum, and after at least one sweep every individual is
      within the bounds. */
  lemma {:induction false} EvolvedImproves(land: Landscape, num: Numerics, cfg: Config, r: Run, dss: seq<seq<BoaDraw>>,
                                           s: nat)
    requires WellFormed(land, r.swarm, |r.swarm.xs|) && DrawGrid(dss, |r.swarm.xs|) && s <= |dss|
    requires UpdatesOk(num, cfg, r.c, |dss| - s)
    ensures var e := EvolvedFrom(land, num, cfg, r, dss, s);
            && (forall t :: 0 <= t < |r.swarm.xs| ==> e.swarm.fits[t] <= r.swarm.fits[t])
            && (IsMin(r.swarm.fits, r.swarm.best) ==> IsMin(e.swarm.fits, e.swarm.best))
            && (s < |dss| && Ordered(land.lower, land.upper) ==> AllWithin(e.swarm.xs, land))
            && e.fevals >= r.fevals
    decreases |dss| - s
  {
    if s < |dss| {
      var next := SweptOnce(land, num, cfg, r, dss[s], s + 1);
      SweptOnceEffect(land, num, cfg, r, dss[s], s + 1);
      EvolvedImproves(land, num, cfg, next, dss, s + 1);
      EvolvedFromStep(land, num, cfg, r, dss, s);
    }
  }

  /** The log only grows, by at most one record per sweep, and while
      `best_id` indexes a minimum every logged improvement is at most zero. */
  lemma {:induction false} EvolvedLog(land: Landscape, num: Numerics, cfg: Config, r: Run, dss: seq<seq<BoaDraw>>, s: nat)
    requires WellFormed(land, r.swarm, |r.swarm.xs|) && DrawGrid(dss, |r.swarm.xs|) && s <= |dss|
    requires UpdatesOk(num, cfg, r.c, |dss| - s)
    ensures var e := EvolvedFrom(land, num, cfg, r, dss, s);
            && |r.log| <= |e.log| <= |r.log| + (|dss| - s) && e.log[..|r.log|] == r.log
            && (IsMin(r.swarm.fits, r.swarm.best) ==>
                  forall k :: |r.log| <= k < |e.log| ==> e.log[k].improvement <= 0.0)
    decreases |dss| - s
  {
    if s < |dss| {
      var next := SweptOnce(land, num, cfg, r, dss[s], s + 1);
      SweptOnceEffect(land, num, cfg, r, dss[s], s + 1);
      EvolvedLog(land, num, cfg, next, dss, s + 1);
      var e := EvolvedFrom(land, num, cfg, r, dss, s);
      EvolvedFromStep(land, num, cfg, r, dss, s);
      assert e == EvolvedFrom(land, num, cfg, next, dss, s + 1);
      assert e.log[..|r.log|] == e.log[..|next.log|][..|r.log|];
      if IsMin(r.swarm.fits, r.swarm.best) {
        forall k | |r.log| <= k < |e.log| ensures e.log[k].improvement <= 0.0 {
          if k < |next.log| {
            assert e.log[k] == e.log[..|next.log|][k];
          }
        }
      }
    }
  }

  /** With a verbosity of at most 0 no sweep is due for `save_log`, so the log
      after the sweeps is the log before them. */
  lemma {:induction false} EvolvedQuiet(land: Landscape, num: Numerics, cfg: Config, r: Run, dss: seq<seq<BoaDraw>>,
                                        s: nat)
    requires WellFormed(land, r.swarm, |r.swarm.xs|) && DrawGrid(dss, |r.swarm.xs|) && s <= |dss|
    requires UpdatesOk(num, cfg, r.c, |dss| - s)
    ensures cfg.verbosity <= 0 ==> EvolvedFrom(land, num, cfg, r, dss, s).log == r.log
    decreases |dss| - s
  {
    if s < |dss| {
      var next := SweptOnce(land, num, cfg, r, dss[s], s + 1);
      EvolvedQuiet(land, num, cfg, next, dss, s + 1);
      EvolvedFromStep(land, num, cfg, r, dss, s);
    }
  }

  /** `x += delta` followed by `force_bounds` on the individual's own array
      (lines 99-100). Returns the fitness of the new position. */
  method MoveAndEvaluate(pop: Population, num: Numerics, tun: Tunables, rows: seq<array<real>>, fits: seq<real>,
                         best: nat, i: nat, d: BoaDraw)
    returns (newFitness: real)
    requires pop.Valid() && RowsShaped(rows, |pop.land.lower|)
    requires |rows| == |fits| && best < |rows| && i < |rows| && DrawFits(d, |rows|)
    modifies rows[i], pop`fevals
    ensures Contents(rows) ==
            old(Contents(rows))[i := MovedPosition(pop.land, num, tun, Swarm(old(Contents(rows)), fits, best), i, d)]
    ensures newFitness == pop.land.objective(rows[i][..])
    ensures pop.fevals == old(pop.fevals) + 1
  {
    ghost var s := Swarm(Contents(rows), fits, best);
    var x := rows[i];
    var fitness := fits[i];
    var f := if fitness > 0.0 then tun.c * num.power(fitness, tun.a) else tun.c * num.power(-fitness, tun.a);
    assert f == Fragrance(num, tun.c, tun.a, s.fits[i]);
    assert rows[best][..] == s.xs[best] && x[..] == s.xs[i];
    assert rows[d.j][..] == s.xs[d.j] && rows[d.k][..] == s.xs[d.k];
    var delta := Step(tun.p, f, d, rows[best][..], x[..], rows[d.j][..], rows[d.k][..]);
    AddInPlace(x, delta);
    ForceBounds(x, pop.land.lower, pop.land.upper);
    ghost var moved := MovedPosition(pop.land, num, tun, s, i, d);
    assert x[..] == moved;
    assert Contents(rows) == s.xs[i := moved] by {
      forall t | 0 <= t < |rows| && t != i ensures rows[t][..] == s.xs[t] {
        assert rows[t] != x;
      }
    }
    newFitness := pop.Evaluate(x[..]);
  }

  /** mBOA's extra exploitation search (lines 103-112): a fresh array at
      `best + (r1 - r2) * best`, clamped and evaluated; `better` says whether
      it beats the candidate `nf`. */
  method Exploit(pop: Population, bx: Vector, nf: real, e1: real, e2: real)
    returns (x2: array<real>, nf': real, better: bool)
    requires pop.Valid() && |bx| == |pop.land.lower|
    modifies pop`fevals
    ensures fresh(x2)
    ensures x2[..] == Clamped(ExtraSearch(bx, e1, e2), pop.land.lower, pop.land.upper)
    ensures better == (pop.land.objective(x2[..]) < nf)
    ensures nf' == if better then pop.land.objective(x2[..]) else nf
    ensures pop.fevals == old(pop.fevals) + 1
  {
    x2 := NewArray(ExtraSearch(bx, e1, e2));
    ForceBounds(x2, pop.land.lower, pop.land.upper);
    var newFitness2 := pop.Evaluate(x2[..]);
    better := newFitness2 < nf;
    nf' := if better then newFitness2 else nf;
  }

  /** The visit of individual `i` on the store (lines 78-120): `x` is the
      individual's own array, moved and clamped in place. */
  method Visit(pop: Population, num: Numerics, tun: Tunables, rows: seq<array<real>>, fits: seq<real>,
               best: nat, i: nat, d: BoaDraw)
    returns (fits': seq<real>, best': nat)
    requires pop.Valid() && RowsShaped(rows, |pop.land.lower|)
    requires |rows| == |fits| && best < |rows| && i < |rows| && DrawFits(d, |rows|)
    modifies rows[i], pop`fevals
    ensures |fits'| == |rows|
    ensures Swarm(Contents(rows), fits', best') ==
            Visited(pop.land, num, tun, Swarm(old(Contents(rows)), fits, best), i, d)
    ensures pop.fevals == old(pop.fevals) + VisitEvals(tun, d)
  {
    ghost var s := Swarm(Contents(rows), fits, best);
    var newFitness := MoveAndEvaluate(pop, num, tun, rows, fits, best, i, d);
    ghost var moved := rows[i][..];
    var x := rows[i];
    var x2 := x;
    var better := false;
    if tun.mboa && d.extra < tun.p {
      var bx := rows[best][..];
      x2, newFitness, better := Exploit(pop, bx, newFitness, d.e1, d.e2);
    }
    fits', best' := fits, best;
    if newFitness < fits[i] {
      if better {
        Assign(x, x2[..]);
      }
      fits' := fits[i := newFitness];
    }
    if newFitness < fits'[best] {
      best' := i;
    }
  }

  /** One pass of the sweep loop: visiting individual `i` leaves the rest of
      the sweep to do from `i + 1`. */
  method SweepStep(pop: Population, num: Numerics, tun: Tunables, rows: seq<array<real>>, fits: seq<real>,
                   best: nat, ds: seq<BoaDraw>, i: nat)
    returns (fits': seq<real>, best': nat)
    requires pop.Valid() && RowsShaped(rows, |pop.land.lower|)
    requires |rows| == |fits| == |ds| && best < |rows| && i < |rows| && DrawsFit(ds, |rows|)
    modifies rows[i], pop`fevals
    ensures |fits'| == |rows| && best' < |rows|
    ensures SweptFrom(pop.land, num, tun, Swarm(Contents(rows), fits', best'), ds, i + 1) ==
            SweptFrom(pop.land, num, tun, Swarm(old(Contents(rows)), fits, best), ds, i)
    ensures pop.fevals == old(pop.fevals) + VisitEvals(tun, ds[i])
  {
    ghost var before := Swarm(Contents(rows), fits, best);
    SweptFromStep(pop.land, num, tun, before, ds, i);
    fits', best' := Visit(pop, num, tun, rows, fits, best, i, ds[i]);
  }

  /** One sweep over every individual in population order (lines 77-120). */
  method Sweep(pop: Population, num: Numerics, tun: Tunables, rows: seq<array<real>>, fits: seq<real>,
               best: nat, ds: seq<BoaDraw>)
    returns (fits': seq<real>, best': nat)
    requires pop.Valid() && RowsShaped(rows, |pop.land.lower|)
    requires |rows| == |fits| == |ds| && best < |rows| && DrawsFit(ds, |rows|)
    modifies rows, pop`fevals
    ensures |fits'| == |rows|
    ensures Swarm(Contents(rows), fits', best') ==
            SweptFrom(pop.land, num, tun, Swarm(old(Contents(rows)), fits, best), ds, 0)
    ensures pop.fevals == old(pop.fevals) + SweepEvals(tun, ds)
  {
    ghost var s0 := Swarm(Contents(rows), fits, best);
    fits', best' := fits, best;
    for i := 0 to |rows|
      invariant |fits'| == |rows| && best' < |rows|
      invariant SweptFrom(pop.land, num, tun, Swarm(Contents(rows), fits', best'), ds, i) ==
                SweptFrom(pop.land, num, tun, s0, ds, 0)
      invariant pop.fevals == old(pop.fevals) + SweepEvals(tun, ds[..i])
    {
      assert ds[..i + 1][..i] == ds[..i];
      fits', best' := SweepStep(pop, num, tun, rows, fits', best', ds, i);
    }
    assert ds[..|rows|] == ds;
  }

  class BOA {
    var iterations: int
    var c: real
    var a: real
    var p: real
    var mu: real
    var variant: Variant
    var maxIterations: int
    var verbosityLevel: int
    var log: seq<LogRecord>
    var currentIteration: int

    /** What the constructor establishes and nothing changes afterwards. */
    ghost predicate Valid()
      reads this`iterations, this`p
    {
      iterations >= 1 && 0.0 <= p <= 1.0
    }

    ghost function CurrentConfig(): Config
      reads this`a, this`p, this`mu, this`variant, this`maxIterations, this`currentIteration, this`verbosityLevel
    {
      Config(a, p, mu, variant, maxIterations, currentIteration, verbosityLevel)
    }

    /** `BOA.__init__` (lines 47-58): the generation count is at least 1, an
        out-of-range switch probability becomes 0.8, an unknown variant
        becomes "boa". */
    constructor (gen: int, c: real, a: real, p: real, mu: real, maxGen: int, variant: string)
      ensures Valid()
      ensures iterations == NormalisedIterations(gen) && this.p == NormalisedP(p)
      ensures this.variant == VariantOf(variant)
      ensures this.c == c && this.a == a && this.mu == mu && maxIterations == maxGen
      ensures verbosityLevel == 0 && log == [] && currentIteration == 1
    {
      iterations := if gen > 1 then gen else 1;
      this.c := c;
      this.a := a;
      this.p := if p >= 0.0 && p <= 1.0 then p else 0.8;
      this.mu := mu;
      this.variant := VariantOf(variant);
      maxIterations := maxGen;
      verbosityLevel := 0;
      log := [];
      currentIteration := 1;
    }

    /** `set_verbosity`, without the header it prints. */
    method SetVerbosity(l: int)
      modifies this`verbosityLevel
      ensures verbosityLevel == if l > 0 then l else old(verbosityLevel)
    {
      if l > 0 {
        verbosityLevel := l;
      }
    }

    method SetIter(i: int)
      modifies this`currentIteration
      ensures currentIteration == i
    {
      currentIteration := i;
    }

    /** `save_log`, without the line it prints. */
    method SaveLog(iteration: int, fevals: int, fbest: real, improvement: real)
      modifies this`log
      ensures log == Logged(old(log), verbosityLevel, LogRecord(iteration, fevals, fbest, improvement))
    {
      if verbosityLevel > 0 && iteration % verbosityLevel == 0 {
        log := log + [LogRecord(iteration, fevals, fbest, improvement)];
      }
    }

    /** One pass of the generation loop of `evolve` (lines 76-135): the
        sweep, the modality update and `save_log`. */
    method Generation(pop: Population, num: Numerics, rows: seq<array<real>>, fits: seq<real>, best: nat,
                      ds: seq<BoaDraw>, iteration: int)
      returns (fits': seq<real>, best': nat)
      requires pop.Valid() && RowsShaped(rows, |pop.land.lower|)
      requires |rows| == |fits| == |ds| && best < |rows| && DrawsFit(ds, |rows|)
      requires UpdateDefined(variant == Adaptive, c, maxIterations, mu)
      modifies this`c, this`log, rows, pop`fevals
      ensures |fits'| == |rows| && best' < |rows|
      ensures Run(Swarm(Contents(rows), fits', best'), c, log, pop.fevals) ==
              SweptOnce(pop.land, num, CurrentConfig(), old(Run(Swarm(Contents(rows), fits, best), c, log, pop.fevals)),
                        ds, iteration)
    {
      ghost var cfg := CurrentConfig();
      ghost var cur := Run(Swarm(Contents(rows), fits, best), c, log, pop.fevals);
      var oldBestFit := fits[best];
      fits', best' := Sweep(pop, num, Tunables(c, a, p, variant == Modified), rows, fits, best, ds);
      ghost var after := Swarm(Contents(rows), fits', best');
      if variant == Adaptive {
        c := AboaC(num, currentIteration, maxIterations, mu);
      } else {
        c := LinearC(c, maxIterations);
      }
      var improvement := fits'[best'] - oldBestFit;
      SaveLog(iteration, pop.fevals, fits'[best'], improvement);
      SweptOnceIs(pop.land, num, cfg, cur, ds, iteration, after, c, log, pop.fevals, improvement);
    }

    /** The generation loop of `evolve` (lines 76-135) on the snapshot. */
    method Generations(pop: Population, num: Numerics, rows: seq<array<real>>, fits: seq<real>, best: nat,
                       dss: seq<seq<BoaDraw>>)
      returns (fits': seq<real>, best': nat)
      requires Valid() && pop.Valid() && RowsShaped(rows, |pop.land.lower|)
      requires |rows| == |fits| && best < |rows|
      requires |dss| == iterations && DrawGrid(dss, |rows|)
      requires UpdatesOk(num, CurrentConfig(), c, iterations)
      modifies this`c, this`log, rows, pop`fevals
      ensures |fits'| == |rows|
      ensures Run(Swarm(Contents(rows), fits', best'), c, log, pop.fevals) ==
              EvolvedFrom(pop.land, num, CurrentConfig(), old(Run(Swarm(Contents(rows), fits, best), c, log, pop.fevals)),
                          dss, 0)
    {
      ghost var cfg := CurrentConfig();
      ghost var goal := EvolvedFrom(pop.land, num, cfg, Run(Swarm(Contents(rows), fits, best), c, log, pop.fevals), dss, 0);
      fits', best' := fits, best;
      for s := 0 to iterations
        invariant CurrentConfig() == cfg
        invariant |fits'| == |rows| && best' < |rows|
        invariant UpdatesOk(num, cfg, c, iterations - s)
        invariant EvolvedFrom(pop.land, num, cfg, Run(Swarm(Contents(rows), fits', best'), c, log, pop.fevals), dss, s) == goal
      {
        assert |dss[s]| == |rows| && DrawsFit(dss[s], |rows|);
        ghost var cur := Run(Swarm(Contents(rows), fits', best'), c, log, pop.fevals);
        EvolvedFromStep(pop.land, num, cfg, cur, dss, s);
        fits', best' := Generation(pop, num, rows, fits', best', dss[s], s + 1);
      }
    }

    /** `evolve` (lines 60-142): snapshot the population, run the sweeps,
        write every individual back. */
    method Evolve(pop: Population, num: Numerics, dss: seq<seq<BoaDraw>>)
      requires Valid() && pop.Valid()
      requires |dss| == iterations && DrawGrid(dss, |pop.xs|)
      requires UpdatesOk(num, CurrentConfig(), c, iterations)
      modifies this`c, this`log, pop
      ensures Valid() && pop.Valid()
      ensures var e := EvolvedFrom(pop.land, num, old(CurrentConfig()),
                                   Run(Swarm(old(pop.xs), old(pop.fs), old(pop.BestIdx())), old(c), old(log), old(pop.fevals)),
                                   dss, 0);
              && pop.xs == e.swarm.xs && pop.fs == e.swarm.fits
              && c == e.c && log == e.log && pop.fevals == e.fevals
              && (pop.championX, pop.championF) == ChampionAfter(old(pop.championX), old(pop.championF), e.swarm.xs, e.swarm.fits)
      // every gene of every individual is within bounds afterwards
      ensures AllWithin(pop.xs, pop.land)
      // no stored fitness increases, so neither does the champion
      ensures |pop.fs| == |old(pop.fs)| && forall t :: 0 <= t < |pop.fs| ==> pop.fs[t] <= old(pop.fs[t])
      ensures pop.championF <= old(pop.championF)
      // `c` has received one modality update per sweep
      ensures c == CAfter(variant == Adaptive, num, old(c), currentIteration, maxIterations, mu, iterations)
      // the log only grows, and every logged improvement is <= 0
      ensures |old(log)| <= |log| && log[..|old(log)|] == old(log)
      ensures forall k :: |old(log)| <= k < |log| ==> log[k].improvement <= 0.0
    {
      var rows := Snapshot(pop);
      var fits := pop.fs;
      var best: nat := pop.BestIdx();
      ghost var cfg := CurrentConfig();
      ghost var r0 := Run(Swarm(pop.xs, pop.fs, best), c, log, pop.fevals);
      ghost var e := EvolvedFrom(pop.land, num, cfg, r0, dss, 0);
      EvolvedImproves(pop.land, num, cfg, r0, dss, 0);
      EvolvedLog(pop.land, num, cfg, r0, dss, 0);
      fits, best := Generations(pop, num, rows, fits, best, dss);
      assert Contents(rows) == e.swarm.xs && fits == e.swarm.fits && c == e.c && log == e.log && pop.fevals == e.fevals;
      WriteBack(pop, rows, fits);
    }
  }
}
