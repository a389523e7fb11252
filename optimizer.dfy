/** The driver of optimizer.py: it picks a strategy by name, builds it for
    one generation per `evolve` call, and calls `evolve` once per outer
    generation until the generations run out or the champion fitness has
    not changed for `early_stopping_counter` generations in a row. */
module Driver {
  import opened Vectors
  import opened Bounds
  import opened Populations
  import opened Strategy
  import Boa
  import Saboa
  import Xboa
  import M = MinimizationProblem

  /** The solver families `method.lower()` selects. */
  datatype Family = BoaFamily | SaboaFamily | XboaFamily | RandomFamily

  /** Lines 37-48: the lower-cased method name selects the family; anything
      unknown runs the random baseline. */
  function FamilyOf(name: string): (f: Family)
    ensures f == BoaFamily <==> Lower(name) in {"boa", "mboa", "aboa"}
    ensures f == SaboaFamily <==> Lower(name) == "saboa"
    ensures f == XboaFamily <==> Lower(name) in {"xboa", "xaboa"}
    ensures f == RandomFamily <==> Lower(name) !in {"boa", "mboa", "aboa", "saboa", "xboa", "xaboa"}
  {
    var m := Lower(name);
    if m in {"boa", "mboa", "aboa"} then BoaFamily
    else if m == "saboa" then SaboaFamily
    else if m in {"xboa", "xaboa"} then XboaFamily
    else RandomFamily
  }

  /** The variant each family then runs: the name is passed on unchanged and
      the strategy lower-cases it itself, so the three BOA names and the two
      xBOA names each reach their own variant. */
  lemma FamilyVariants(name: string)
    ensures FamilyOf(name) == BoaFamily ==> Boa.VariantName(Boa.VariantOf(name)) == Lower(name)
    ensures FamilyOf(name) == XboaFamily ==> Xboa.XVariantName(Xboa.XVariantOf(name)) == Lower(name)
  {
    var m := Lower(name);
    if m == "mboa" {
      assert Boa.VariantOf(name) == Boa.Modified;
    }
  }

  /** Lines 51-58: the verbosity level is the given one when it is positive,
      0 when it is missing or not positive. */
  function VerbosityOf(v: M.Option<int>): (l: int)
    ensures l >= 0
    ensures l > 0 <==> v.Some? && v.value > 0
    ensures l > 0 ==> l == v.value
  {
    if v.Some? && v.value > 0 then v.value else 0
  }

  /** The optional keyword arguments the factories read. */
  datatype Tuning = Tuning(sensoryModality: M.Option<real>, powerExponent: M.Option<real>,
                           switchProbability: M.Option<real>, mu: M.Option<real>)

  /** A keyword argument's value, or its default when it was not given. */
  function Given(o: M.Option<real>, default: real): (v: real)
    ensures o.Some? ==> v == o.value
    ensures o.None? ==> v == default
  {
    match o
    case Some(x) => x
    case None => default
  }

  /** The strategy object the driver owns. */
  datatype Solver = BoaSolver(boa: Boa.BOA) | SaboaSolver(saboa: Saboa.SABOA) | XboaSolver(xboa: Xboa.XBOA) | RandomSolver

  /** The random values one `evolve` call consumes, for the family that
      makes it. */
  datatype GenerationDraws =
    | BoaDraws(boa: seq<seq<Boa.BoaDraw>>)
    | SaboaDraws(saboa: seq<seq<Saboa.SaboaDraw>>)
    | XboaDraws(xboa: seq<seq<Xboa.XDraw>>)

  /** `boa_solver` (lines 111-130): one generation per call, the defaults
      0.01, 0.1, 0.8 and 2 for the missing keyword arguments. */
  method BoaSolverOf(t: Tuning, variant: string, maxGen: int) returns (b: Boa.BOA)
    ensures fresh(b) && b.Valid() && b.iterations == 1 && b.maxIterations == maxGen
    ensures b.c == Given(t.sensoryModality, 0.01) && b.a == Given(t.powerExponent, 0.1)
    ensures b.p == NormalisedP(Given(t.switchProbability, 0.8)) && b.mu == Given(t.mu, 2.0)
    ensures b.variant == Boa.VariantOf(variant)
    ensures b.verbosityLevel == 0 && b.log == [] && b.currentIteration == 1
  {
    b := new Boa.BOA(1, Given(t.sensoryModality, 0.01), Given(t.powerExponent, 0.1),
                     Given(t.switchProbability, 0.8), Given(t.mu, 2.0), maxGen, variant);
  }

  /** `saboa_solver` (lines 132-143). */
  method SaboaSolverOf(t: Tuning, maxGen: int) returns (s: Saboa.SABOA)
    ensures fresh(s) && s.Valid() && s.iterations == 1 && s.maxIterations == maxGen
    ensures s.p == NormalisedP(Given(t.switchProbability, 0.8))
    ensures s.verbosityLevel == 0 && s.log == [] && s.currentIteration == 1
  {
    s := new Saboa.SABOA(1, Given(t.switchProbability, 0.8), maxGen);
  }

  /** `xboa_solver` (lines 145-163). */
  method XboaSolverOf(t: Tuning, variant: string, maxGen: int) returns (x: Xboa.XBOA)
    ensures fresh(x) && x.Valid() && x.iterations == 1 && x.maxIterations == maxGen
    ensures x.c == Given(t.sensoryModality, 0.01) && x.a == Given(t.powerExponent, 0.1)
    ensures x.p == NormalisedP(Given(t.switchProbability, 0.8)) && x.mu == Given(t.mu, 2.0)
    ensures x.variant == Xboa.XVariantOf(variant)
    ensures x.verbosityLevel == 0 && x.log == [] && x.currentIteration == 1
  {
    x := new Xboa.XBOA(1, Given(t.sensoryModality, 0.01), Given(t.powerExponent, 0.1),
                       Given(t.switchProbability, 0.8), Given(t.mu, 2.0), maxGen, variant);
  }

  /** The champion fitness before the next generation: the last one
      observed, or `f0` before the first generation. */
  function Last(f0: real, bests: seq<real>): real
  {
    if bests == [] then f0 else bests[|bests| - 1]
  }

  /** The stagnation counter after the generations whose champion fitness
      values are `bests`, starting from `f0` with the configured value `k0`:
      one less after a generation with zero improvement, `k0` again after
      any other (lines 86-91). */
  function CounterAfter(k0: int, f0: real, bests: seq<real>): int
  {
    if bests == [] then k0
    else
      var n := |bests| - 1;
      if bests[n] - Last(f0, bests[..n]) == 0.0 then CounterAfter(k0, f0, bests[..n]) - 1 else k0
  }

  /** The number of generations at the end of `bests` whose champion fitness
      equals the one before. */
  function Stagnant(f0: real, bests: seq<real>): (n: nat)
    ensures n <= |bests|
  {
    if bests == [] then 0
    else
      var n := |bests| - 1;
      if bests[n] == Last(f0, bests[..n]) then Stagnant(f0, bests[..n]) + 1 else 0
  }

  /** The counter is the configured value minus the current run of
      generations without improvement. */
  lemma {:induction false} CounterIsK0MinusStagnant(k0: int, f0: real, bests: seq<real>)
    ensures CounterAfter(k0, f0, bests) == k0 - Stagnant(f0, bests)
    decreases |bests|
  {
    if bests != [] {
      CounterIsK0MinusStagnant(k0, f0, bests[..|bests| - 1]);
    }
  }

  /** The counter never exceeds its configured value. */
  lemma {:induction false} CounterAtMostK0(k0: int, f0: real, bests: seq<real>)
    ensures CounterAfter(k0, f0, bests) <= k0
  {
    CounterIsK0MinusStagnant(k0, f0, bests);
  }

  /** The counter was positive after every generation in `bests`, so the
      loop did not break after any of them. */
  ghost predicate NeverStopped(k0: int, f0: real, bests: seq<real>)
  {
    forall t :: 1 <= t <= |bests| ==> CounterAfter(k0, f0, bests[..t]) > 0
  }

  /** No generation made the champion fitness worse. */
  ghost predicate Descending(f0: real, bests: seq<real>)
  {
    forall t :: 0 <= t < |bests| ==> bests[t] <= Last(f0, bests[..t])
  }

  /** How the generation loop of lines 72-103 ends, given the champion
      fitness after each generation it ran: it runs at most `iterations`
      generations and at least one when there is one to run, it does not
      stop while the counter is positive, and it stops early only once the
      counter is no longer positive. */
  ghost predicate LoopRan(k0: int, iterations: int, f0: real, bests: seq<real>)
  {
    && |bests| <= (if iterations > 0 then iterations else 0)
    && (iterations > 0 ==> |bests| >= 1)
    && (forall t :: 1 <= t < |bests| ==> CounterAfter(k0, f0, bests[..t]) > 0)
    && (|bests| < iterations ==> CounterAfter(k0, f0, bests) <= 0)
  }

  /** A prefix of `prev + [x]` no longer than `prev` is a prefix of `prev`. */
  lemma PrefixOfSnoc(prev: seq<real>, x: real, t: nat)
    requires t <= |prev|
    ensures (prev + [x])[..t] == prev[..t]
  {
  }

  /** The counter after one more generation, from the counter before it. */
  lemma CounterStep(k0: int, f0: real, prev: seq<real>, best: real)
    ensures CounterAfter(k0, f0, prev + [best]) ==
            (if best - Last(f0, prev) == 0.0 then CounterAfter(k0, f0, prev) - 1 else k0)
  {
    PrefixOfSnoc(prev, best, |prev|);
    assert prev[..|prev|] == prev;
  }

  /** One more generation observed: the counter steps as `get_solution`
      steps it, and the facts the loop keeps carry over. */
  lemma Observed(k0: int, f0: real, prev: seq<real>, best: real)
    requires NeverStopped(k0, f0, prev) && Descending(f0, prev) && best <= Last(f0, prev)
    ensures var b := prev + [best];
      && CounterAfter(k0, f0, b) == (if best - Last(f0, prev) == 0.0 then CounterAfter(k0, f0, prev) - 1 else k0)
      && Descending(f0, b) && Last(f0, b) == best
      && (forall t :: 1 <= t < |b| ==> CounterAfter(k0, f0, b[..t]) > 0)
      && (CounterAfter(k0, f0, b) > 0 ==> NeverStopped(k0, f0, b))
  {
    var b := prev + [best];
    CounterStep(k0, f0, prev, best);
    forall t | 1 <= t < |b| ensures CounterAfter(k0, f0, b[..t]) > 0 {
      PrefixOfSnoc(prev, best, t);
    }
    forall t | 0 <= t < |b| ensures b[t] <= Last(f0, b[..t]) {
      PrefixOfSnoc(prev, best, t);
      assert prev[..|prev|] == prev;
    }
    assert b[..|b|] == b;
  }

  /** When the champion never changes, `evolve` is called `min(K, iterations)`
      times for a configured counter `K >= 1`, and once for `K <= 0`. */
  lemma StagnationRuns(k0: int, iterations: int, f0: real, bests: seq<real>)
    requires LoopRan(k0, iterations, f0, bests)
    requires forall t :: 0 <= t < |bests| ==> bests[t] == f0
    ensures iterations <= 0 ==> |bests| == 0
    ensures iterations > 0 && k0 <= 0 ==> |bests| == 1
    ensures iterations > 0 && k0 > 0 ==> |bests| == (if k0 < iterations then k0 else iterations)
  {
    forall t | 0 <= t <= |bests|
      ensures CounterAfter(k0, f0, bests[..t]) == k0 - t
    {
      StagnantCount(f0, bests, t);
      CounterIsK0MinusStagnant(k0, f0, bests[..t]);
    }
    if 1 < |bests| {
      assert CounterAfter(k0, f0, bests[..1]) == k0 - 1;
    }
    if 0 < k0 <= |bests| {
      assert CounterAfter(k0, f0, bests[..k0]) == 0;
    }
    assert bests[..|bests|] == bests;
  }

  /** With the champion constant, every generation so far was stagnant. */
  lemma {:induction false} StagnantCount(f0: real, bests: seq<real>, t: nat)
    requires t <= |bests| && forall u :: 0 <= u < |bests| ==> bests[u] == f0
    ensures Stagnant(f0, bests[..t]) == t
    decreases t
  {
    if t > 0 {
      assert bests[..t][..t - 1] == bests[..t - 1];
      StagnantCount(f0, bests, t - 1);
    }
  }

  /** A generation with a changed champion resets the counter to `k0`. */
  lemma ImprovementResets(k0: int, f0: real, bests: seq<real>, best: real)
    requires best != (if bests == [] then f0 else bests[|bests| - 1])
    ensures CounterAfter(k0, f0, bests + [best]) == k0
  {
    var b := bests + [best];
    assert b[..|b| - 1] == bests;
  }

  /** `set_iter(i)` and one single-generation `evolve` of a BOA strategy
      (lines 77-78): the population, `c`, the log and the evaluation count
      are what `Boa.EvolvedFrom` gives at iteration `i`. */
  method EvolveBoa(b: Boa.BOA, pop: Population, num: Numerics, i: int, dss: seq<seq<Boa.BoaDraw>>)
    requires b.Valid() && b.iterations == 1 && b.maxIterations >= 1 && pop.Valid()
    requires if b.variant == Boa.Adaptive then b.mu != 0.0 else b.c != 0.0
    requires |dss| == 1 && Boa.DrawGrid(dss, |pop.xs|)
    modifies b`currentIteration, b`c, b`log, pop
    ensures b.Valid() && pop.Valid() && b.currentIteration == i
    ensures var e := Boa.EvolvedFrom(pop.land, num, b.CurrentConfig(),
                                     Boa.Run(Boa.Swarm(old(pop.xs), old(pop.fs), old(pop.BestIdx())), old(b.c), old(b.log),
                                             old(pop.fevals)),
                                     dss, 0);
            && pop.xs == e.swarm.xs && pop.fs == e.swarm.fits
            && b.c == e.c && b.log == e.log && pop.fevals == e.fevals
            && (pop.championX, pop.championF) == ChampionAfter(old(pop.championX), old(pop.championF), e.swarm.xs, e.swarm.fits)
    ensures b.c == NextC(b.variant == Boa.Adaptive, num, old(b.c), i, b.maxIterations, b.mu)
    ensures if b.variant == Boa.Adaptive then b.mu != 0.0 else b.c != 0.0
    ensures b.a == old(b.a) && b.p == old(b.p) && b.mu == old(b.mu) && b.variant == old(b.variant)
    ensures b.verbosityLevel == old(b.verbosityLevel) && (b.verbosityLevel <= 0 ==> b.log == old(b.log))
    ensures |pop.xs| == old(|pop.xs|) && pop.championF <= old(pop.championF)
    ensures AllWithin(pop.xs, pop.land)
  {
    ghost var r0 := Boa.Run(Boa.Swarm(pop.xs, pop.fs, pop.BestIdx()), b.c, b.log, pop.fevals);
    b.SetIter(i);
    Boa.EvolvedQuiet(pop.land, num, b.CurrentConfig(), r0, dss, 0);
    b.Evolve(pop, num, dss);
    assert b.c == NextC(b.variant == Boa.Adaptive, num, old(b.c), b.currentIteration, b.maxIterations, b.mu);
  }

  /** `set_iter(i)` and one single-generation `evolve` of an SABOA strategy
      (lines 77-78): the population, the log and the evaluation count are what
      `Saboa.EvolvedFrom` gives at iteration `i`. */
  method EvolveSaboa(s: Saboa.SABOA, pop: Population, i: int, dss: seq<seq<Saboa.SaboaDraw>>)
    requires s.Valid() && s.iterations == 1 && s.maxIterations >= 1 && pop.Valid()
    requires |dss| == 1 && Saboa.DrawGrid(dss, |pop.xs|) && AllWithin(pop.xs, pop.land)
    modifies s`currentIteration, s`log, pop
    ensures s.Valid() && pop.Valid() && s.currentIteration == i
    ensures var e := Saboa.EvolvedFrom(pop.land, s.CurrentTunables(),
                                       Saboa.Run(Saboa.Flock(old(pop.xs), old(pop.fs), old(pop.BestIdx()), old(pop.WorstIdx())),
                                                 old(s.log), old(pop.fevals)),
                                       dss, 0);
            && pop.xs == e.flock.xs && pop.fs == e.flock.fits && s.log == e.log && pop.fevals == e.fevals
            && (pop.championX, pop.championF) == ChampionAfter(old(pop.championX), old(pop.championF), e.flock.xs, e.flock.fits)
    ensures pop.fevals == old(pop.fevals) + |pop.xs|
    ensures s.p == old(s.p) && s.verbosityLevel == old(s.verbosityLevel) && (s.verbosityLevel <= 0 ==> s.log == old(s.log))
    ensures |pop.xs| == old(|pop.xs|) && pop.championF <= old(pop.championF)
    ensures AllWithin(pop.xs, pop.land)
  {
    ghost var r0 := Saboa.Run(Saboa.Flock(pop.xs, pop.fs, pop.BestIdx(), pop.WorstIdx()), s.log, pop.fevals);
    s.SetIter(i);
    Saboa.EvolvedQuiet(pop.land, s.CurrentTunables(), r0, dss, 0);
    s.Evolve(pop, dss);
  }

  /** `set_iter(i)` and one single-generation `evolve` of an xBOA strategy
      (lines 77-78): the population, `c`, the log and the evaluation count
      are what `Xboa.EvolvedFrom` gives at iteration `i`. */
  method EvolveXboa(x: Xboa.XBOA, pop: Population, num: Numerics, i: int, dss: seq<seq<Xboa.XDraw>>)
    requires x.Valid() && x.iterations == 1 && x.maxIterations >= 1 && pop.Valid()
    requires if x.variant == Xboa.CrossoverAdaptive then x.mu != 0.0 else x.c != 0.0
    requires |dss| == 1 && Xboa.DrawGrid(dss, |pop.xs|, |pop.land.lower|, x.p) && AllWithin(pop.xs, pop.land)
    modifies x`currentIteration, x`c, x`log, pop
    ensures x.Valid() && pop.Valid() && x.currentIteration == i
    ensures var base := Xboa.Store(old(pop.xs), old(pop.fs));
            var e := Xboa.EvolvedFrom(pop.land, num, x.CurrentConfig(), base, old(pop.championF),
                                      Xboa.Run(base, old(x.c), old(x.log), old(pop.fevals)), dss, 0);
            && pop.xs == e.store.xs && pop.fs == e.store.fits
            && x.c == e.c && x.log == e.log && pop.fevals == e.fevals
            && (pop.championX, pop.championF) == ChampionAfter(old(pop.championX), old(pop.championF), e.store.xs, e.store.fits)
    ensures x.c == NextC(x.variant == Xboa.CrossoverAdaptive, num, old(x.c), i, x.maxIterations, x.mu)
    ensures if x.variant == Xboa.CrossoverAdaptive then x.mu != 0.0 else x.c != 0.0
    ensures x.a == old(x.a) && x.p == old(x.p) && x.mu == old(x.mu) && x.variant == old(x.variant)
    ensures x.verbosityLevel == old(x.verbosityLevel) && (x.verbosityLevel <= 0 ==> x.log == old(x.log))
    ensures |pop.xs| == old(|pop.xs|) && pop.championF <= old(pop.championF)
    ensures AllWithin(pop.xs, pop.land)
  {
    ghost var base := Xboa.Store(pop.xs, pop.fs);
    ghost var r0 := Xboa.Run(base, x.c, x.log, pop.fevals);
    x.SetIter(i);
    Xboa.EvolvedQuiet(pop.land, num, x.CurrentConfig(), base, pop.championF, r0, dss, 0);
    x.Evolve(pop, num, dss);
    assert x.c == NextC(x.variant == Xboa.CrossoverAdaptive, num, old(x.c), x.currentIteration, x.maxIterations, x.mu);
  }

  /** The draws of one generation suit a strategy of family `f` with switch
      probability `p`, over `n` individuals of dimension `dim`. */
  ghost predicate Suits(f: Family, n: nat, dim: nat, p: real, g: GenerationDraws)
  {
    match f
    case BoaFamily => g.BoaDraws? && |g.boa| == 1 && Boa.DrawGrid(g.boa, n)
    case SaboaFamily => g.SaboaDraws? && |g.saboa| == 1 && Saboa.DrawGrid(g.saboa, n)
    case XboaFamily => g.XboaDraws? && |g.xboa| == 1 && Xboa.DrawGrid(g.xboa, n, dim, p)
    case RandomFamily => true
  }

  class Optimizer {
    var iterations: int
    var earlyStoppingCounter: int
    var population: Population
    var solver: Solver
    var customAlgorithm: bool
    var verbosityLevel: int

    ghost function SolverObjects(): set<object>
      reads this`solver
    {
      match solver
      case BoaSolver(b) => {b}
      case SaboaSolver(s) => {s}
      case XboaSolver(x) => {x}
      case RandomSolver => {}
    }

    /** The strategy was built for one generation per call with
        `max_gen = iterations`, and the population is well formed, every gene
        within its bounds. */
    ghost predicate Valid()
      reads this, population, SolverObjects()
    {
      && population.Valid() && AllWithin(population.xs, population.land)
      && customAlgorithm == !solver.RandomSolver?
      && match solver
         case BoaSolver(b) => b.Valid() && b.iterations == 1 && b.maxIterations == iterations
         case SaboaSolver(s) => s.Valid() && s.iterations == 1 && s.maxIterations == iterations
         case XboaSolver(x) => x.Valid() && x.iterations == 1 && x.maxIterations == iterations
         case RandomSolver => true
    }

    /** The modality update never divides by zero: the linear rule needs a
        non-zero `c` (with `max_iterations = iterations > 0` it stays so), the
        non-linear rule a non-zero `mu`. */
    ghost predicate UpdatesSafe()
      reads this, SolverObjects()
    {
      match solver
      case BoaSolver(b) => if b.variant == Boa.Adaptive then b.mu != 0.0 else b.c != 0.0
      case XboaSolver(x) => if x.variant == Xboa.CrossoverAdaptive then x.mu != 0.0 else x.c != 0.0
      case _ => true
    }

    /** `current_iteration` of the strategy, 0 for the random baseline. */
    ghost function SolverIteration(): int
      reads this, SolverObjects()
    {
      match solver
      case BoaSolver(b) => b.currentIteration
      case SaboaSolver(s) => s.currentIteration
      case XboaSolver(x) => x.currentIteration
      case RandomSolver => 0
    }

    /** The switch probability of the strategy, 0 for the random baseline. */
    ghost function SwitchP(): real
      reads this, SolverObjects()
    {
      match solver
      case BoaSolver(b) => b.p
      case SaboaSolver(s) => s.p
      case XboaSolver(x) => x.p
      case RandomSolver => 0.0
    }

    /** `verbosity_level` of the strategy, 0 for the random baseline. */
    ghost function SolverVerbosity(): int
      reads this, SolverObjects()
    {
      match solver
      case BoaSolver(b) => b.verbosityLevel
      case SaboaSolver(s) => s.verbosityLevel
      case XboaSolver(x) => x.verbosityLevel
      case RandomSolver => 0
    }

    /** `log` of the strategy, empty for the random baseline. */
    ghost function SolverLog(): seq<LogRecord>
      reads this, SolverObjects()
    {
      match solver
      case BoaSolver(b) => b.log
      case SaboaSolver(s) => s.log
      case XboaSolver(x) => x.log
      case RandomSolver => []
    }

    /** The strategy logs nothing: its verbosity is at most 0 and its log is
        empty. */
    ghost predicate Quiet()
      reads this, SolverObjects()
    {
      SolverVerbosity() <= 0 && |SolverLog()| == 0
    }

    ghost function FamilyNow(): Family
      reads this`solver
    {
      match solver
      case BoaSolver(_) => BoaFamily
      case SaboaSolver(_) => SaboaFamily
      case XboaSolver(_) => XboaFamily
      case RandomSolver => RandomFamily
    }

    /** `Optimizer.__init__` (lines 15-58), with the population's positions
        already drawn. */
    constructor (land: Landscape, sample: seq<Vector>, methodName: string, iterations: int,
                 verbosity: M.Option<int>, earlyStoppingCounter: int, tuning: Tuning)
      requires Ordered(land.lower, land.upper) && |land.lower| > 0
      requires |sample| > 0 && Shaped(sample, |land.lower|) && AllWithin(sample, land)
      ensures Valid()
      ensures fresh(population) && population.xs == sample && population.land == land
      ensures this.iterations == iterations && this.earlyStoppingCounter == earlyStoppingCounter
      ensures verbosityLevel == VerbosityOf(verbosity)
      // the strategy is built quiet: `set_verbosity` is never called on it
      ensures SolverVerbosity() == 0 && Quiet()
      ensures FamilyOf(methodName) == BoaFamily <==> solver.BoaSolver?
      ensures FamilyOf(methodName) == SaboaFamily <==> solver.SaboaSolver?
      ensures FamilyOf(methodName) == XboaFamily <==> solver.XboaSolver?
      ensures FamilyOf(methodName) == RandomFamily <==> solver.RandomSolver?
      ensures solver.BoaSolver? ==> fresh(solver.boa) && solver.boa.variant == Boa.VariantOf(methodName)
                                    && solver.boa.c == Given(tuning.sensoryModality, 0.01)
                                    && solver.boa.a == Given(tuning.powerExponent, 0.1)
                                    && solver.boa.p == NormalisedP(Given(tuning.switchProbability, 0.8))
                                    && solver.boa.mu == Given(tuning.mu, 2.0)
      ensures solver.SaboaSolver? ==> fresh(solver.saboa)
                                      && solver.saboa.p == NormalisedP(Given(tuning.switchProbability, 0.8))
      ensures solver.XboaSolver? ==> fresh(solver.xboa) && solver.xboa.variant == Xboa.XVariantOf(methodName)
                                     && solver.xboa.c == Given(tuning.sensoryModality, 0.01)
                                     && solver.xboa.a == Given(tuning.powerExponent, 0.1)
                                     && solver.xboa.p == NormalisedP(Given(tuning.switchProbability, 0.8))
                                     && solver.xboa.mu == Given(tuning.mu, 2.0)
    {
      this.iterations := iterations;
      this.earlyStoppingCounter := earlyStoppingCounter;
      population := new Population.Sampled(land, sample);
      var family := FamilyOf(methodName);
      if family == BoaFamily {
        var b := BoaSolverOf(tuning, methodName, iterations);
        solver := BoaSolver(b);
        customAlgorithm := true;
      } else if family == SaboaFamily {
        var s := SaboaSolverOf(tuning, iterations);
        solver := SaboaSolver(s);
        customAlgorithm := true;
      } else if family == XboaFamily {
        var x := XboaSolverOf(tuning, methodName, iterations);
        solver := XboaSolver(x);
        customAlgorithm := true;
      } else {
        solver := RandomSolver;
        customAlgorithm := false;
      }
      verbosityLevel := VerbosityOf(verbosity);
    }

    /** One outer generation at iteration `i` did what the strategy's
        `evolve` specification says: the population, `c`, the log and the
        evaluation count are those of `EvolvedFrom` from the state before. */
    twostate predicate EvolvedOnce(num: Numerics, i: int, g: GenerationDraws)
      requires old(Valid()) && old(UpdatesSafe()) && old(iterations) >= 1
      requires old(Suits(FamilyNow(), |population.xs|, |population.land.lower|, SwitchP(), g))
      requires solver == old(solver) && population == old(population)
      reads this, population, SolverObjects()
    {
      match solver
      case BoaSolver(b) =>
        && b.a == old(b.a) && b.mu == old(b.mu) && b.variant == old(b.variant)
        && b.c == NextC(old(b.variant) == Boa.Adaptive, num, old(b.c), i, old(b.maxIterations), old(b.mu))
        && var e := Boa.EvolvedFrom(population.land, num, old(b.CurrentConfig()).(currentIteration := i),
                                    Boa.Run(Boa.Swarm(old(population.xs), old(population.fs), old(population.BestIdx())),
                                            old(b.c), old(b.log), old(population.fevals)),
                                    g.boa, 0);
           population.xs == e.swarm.xs && population.fs == e.swarm.fits && b.c == e.c && b.log == e.log
           && population.fevals == e.fevals
      case SaboaSolver(s) =>
        var e := Saboa.EvolvedFrom(population.land, old(s.CurrentTunables()).(currentIteration := i),
                                   Saboa.Run(Saboa.Flock(old(population.xs), old(population.fs),
                                                         old(population.BestIdx()), old(population.WorstIdx())),
                                             old(s.log), old(population.fevals)),
                                   g.saboa, 0);
        population.xs == e.flock.xs && population.fs == e.flock.fits && s.log == e.log
        && population.fevals == e.fevals
      case XboaSolver(x) =>
        && x.a == old(x.a) && x.mu == old(x.mu) && x.variant == old(x.variant)
        && x.c == NextC(old(x.variant) == Xboa.CrossoverAdaptive, num, old(x.c), i, old(x.maxIterations), old(x.mu))
        && var base := Xboa.Store(old(population.xs), old(population.fs));
           var e := Xboa.EvolvedFrom(population.land, num, old(x.CurrentConfig()).(currentIteration := i), base,
                                     old(population.championF), Xboa.Run(base, old(x.c), old(x.log), old(population.fevals)),
                                     g.xboa, 0);
           population.xs == e.store.xs && population.fs == e.store.fits && x.c == e.c && x.log == e.log
           && population.fevals == e.fevals
      case RandomSolver => true
    }

    /** Lines 75-78: `set_iter(i)`, then one `evolve` call. */
    method Generation(num: Numerics, i: int, g: GenerationDraws)
      requires Valid() && UpdatesSafe() && !solver.RandomSolver? && iterations >= 1
      requires Suits(FamilyNow(), |population.xs|, |population.land.lower|, SwitchP(), g)
      modifies population, SolverObjects()
      ensures Valid() && UpdatesSafe()
      ensures |population.xs| == old(|population.xs|)
      ensures SolverIteration() == i && SwitchP() == old(SwitchP())
      ensures population.championF <= old(population.championF)
      ensures SolverVerbosity() == old(SolverVerbosity())
      ensures SolverVerbosity() <= 0 ==> SolverLog() == old(SolverLog())
      ensures old(Quiet()) ==> Quiet()
      // per family, the new population and `c` are those of one `evolve` at iteration `i`
      ensures EvolvedOnce(num, i, g)
    {
      match solver
      case BoaSolver(b) => EvolveBoa(b, population, num, i, g.boa);
      case SaboaSolver(s) => EvolveSaboa(s, population, i, g.saboa);
      case XboaSolver(x) => EvolveXboa(x, population, num, i, g.xboa);
    }

    /** One pass of the generation loop (lines 73-91): `set_iter(i)` and
        `evolve`, then the early-stopping counter drops by one when the
        champion fitness did not change and is reset otherwise. */
    method Round(num: Numerics, i: int, g: GenerationDraws, counter: int) returns (bestFitness: real, next: int)
      requires Valid() && UpdatesSafe() && !solver.RandomSolver? && iterations >= 1
      requires Suits(FamilyNow(), |population.xs|, |population.land.lower|, SwitchP(), g)
      modifies population, SolverObjects()
      ensures Valid() && UpdatesSafe()
      ensures |population.xs| == old(|population.xs|)
      ensures SolverIteration() == i && SwitchP() == old(SwitchP())
      ensures SolverVerbosity() == old(SolverVerbosity())
      ensures SolverVerbosity() <= 0 ==> SolverLog() == old(SolverLog())
      ensures old(Quiet()) ==> Quiet()
      ensures EvolvedOnce(num, i, g)
      ensures bestFitness == population.championF <= old(population.championF)
      ensures next == if bestFitness - old(population.championF) == 0.0 then counter - 1 else earlyStoppingCounter
    {
      var oldBestFitness := population.championF;
      Generation(num, i, g);
      bestFitness := population.championF;
      var improvement := bestFitness - oldBestFitness;
      if improvement == 0.0 {
        next := counter - 1;
      } else {
        next := earlyStoppingCounter;
      }
    }

    /** `get_solution` (lines 60-109): the random baseline returns the first
        individual without evolving; otherwise the generation loop runs with
        early stopping and the champion is returned. `bests` is the champion
        fitness after each generation run. */
    method GetSolution(num: Numerics, gens: seq<GenerationDraws>) returns (best: Vector, ghost bests: seq<real>)
      requires Valid() && UpdatesSafe()
      requires |gens| >= iterations
      requires forall g :: 0 <= g < |gens| ==> Suits(FamilyNow(), |population.xs|, |population.land.lower|, SwitchP(), gens[g])
      modifies population, SolverObjects()
      ensures Valid() && AllWithin(population.xs, population.land)
      ensures solver.RandomSolver? ==> best == population.xs[0] && bests == [] && population.xs == old(population.xs)
      ensures !solver.RandomSolver? ==>
                && best == population.championX
                && LoopRan(earlyStoppingCounter, iterations, old(population.championF), bests)
                && Last(old(population.championF), bests) == population.championF
                && (|bests| > 0 ==> SolverIteration() == |bests|)
                && Descending(old(population.championF), bests)
    {
      bests := [];
      if solver.RandomSolver? {
        best := population.xs[0];
        return;
      }
      var counter := earlyStoppingCounter;
      var oldBestFitness := population.championF;
      ghost var f0 := oldBestFitness;
      ghost var p := SwitchP();
      ghost var fam, n, dim := FamilyNow(), |population.xs|, |population.land.lower|;
      assert forall g :: 0 <= g < |gens| ==> Suits(fam, n, dim, p, gens[g]);
      var i := 1;
      while i <= iterations
        invariant Valid() && UpdatesSafe()
        invariant |population.xs| == old(|population.xs|) && SwitchP() == p
        invariant 1 <= i <= (if iterations >= 1 then iterations + 1 else 1) && |bests| == i - 1
        invariant counter == CounterAfter(earlyStoppingCounter, f0, bests) && NeverStopped(earlyStoppingCounter, f0, bests)
        invariant oldBestFitness == population.championF == Last(f0, bests) && Descending(f0, bests)
        invariant |bests| > 0 ==> SolverIteration() == |bests|
      {
        assert Suits(fam, n, dim, p, gens[i - 1]);
        var bestFitness;
        bestFitness, counter := Round(num, i, gens[i - 1], counter);
        Observed(earlyStoppingCounter, f0, bests, bestFitness);
        oldBestFitness := bestFitness;
        bests := bests + [bestFitness];
        if counter <= 0 {
          break;
        }
        i := i + 1;
      }
      best := population.championX;
    }
  }
}
