/** The self-adaptive variant of optimizers/saboa.py. It has no modality
    `c`: the intensity is `u * (1 - current_iteration / max_iterations)` for a
    fresh draw `u`. Besides `best_id` a sweep tracks `worst_id`. A position
    moves towards the best individual (global move, in place) or to a point
    set by the best and the worst individuals (local move, into a new array).
    A candidate is kept only if it is strictly better. `best_id` and
    `worst_id` are updated after every individual, so later individuals of
    the same sweep see the new values. */
module Saboa {
  import opened Vectors
  import opened Bounds
  import opened Populations
  import opened Strategy

  /** The two `random.random()` values one individual consumes in one sweep:
      `u` for the intensity and the switch draw. */
  datatype SaboaDraw = SaboaDraw(u: real, switch: real)

  /** The sweep-local dictionary `pop`, with `best_id` and `worst_id`. */
  datatype Flock = Flock(xs: seq<Vector>, fits: seq<real>, best: nat, worst: nat)

  /** The strategy fields one `evolve` reads. */
  datatype Tunables = Tunables(p: real, currentIteration: int, maxIterations: int, verbosity: int)

  /** The state carried from sweep to sweep. */
  datatype Run = Run(flock: Flock, log: seq<LogRecord>, fevals: nat)

  ghost predicate WellFormed(land: Landscape, s: Flock, n: nat)
  {
    |land.upper| == |land.lower| && |s.xs| == n && |s.fits| == n && s.best < n && s.worst < n &&
    Shaped(s.xs, |land.lower|)
  }

  /** The intensity `u * (1 - current_iteration / max_iterations)` of line 53;
      a zero `max_iterations` raises ZeroDivisionError there. */
  function Intensity(u: real, currentIteration: int, maxIterations: int): real
    requires maxIterations != 0
  {
    u * (1.0 - currentIteration as real / maxIterations as real)
  }

  /** With `u` in [0, 1) and `1 <= current_iteration <= max_iterations` the
      intensity lies in [0, 1). */
  lemma IntensityRange(u: real, currentIteration: int, maxIterations: int)
    requires 0.0 <= u < 1.0 && 1 <= currentIteration <= maxIterations
    ensures 0.0 <= Intensity(u, currentIteration, maxIterations) < 1.0
  {
    var ratio := currentIteration as real / maxIterations as real;
    assert 0.0 < ratio <= 1.0 by {
      assert ratio * maxIterations as real == currentIteration as real;
    }
    var rest := 1.0 - ratio;
    assert 0.0 <= rest < 1.0;
    assert u * rest <= u * 1.0 by {
      assert u * (1.0 - rest) >= 0.0;
    }
  }

  /** The global move of line 58, `x += best + (x - best) * f`; the right-hand
      side is computed before `x` is updated. */
  function GlobalMove(x: Vector, best: Vector, f: real): (r: Vector)
    requires |x| == |best|
    ensures |r| == |x|
  {
    seq(|x|, k requires 0 <= k < |x| => x[k] + (best[k] + (x[k] - best[k]) * f))
  }

  /** The local move of line 61, `0.5 * (best + worst) * f`. */
  function LocalMove(best: Vector, worst: Vector, f: real): (r: Vector)
    requires |best| == |worst|
    ensures |r| == |best|
  {
    seq(|best|, k requires 0 <= k < |best| => 0.5 * (best[k] + worst[k]) * f)
  }

  /** The clamped candidate for individual `i` (lines 52-64). */
  function Candidate(land: Landscape, tun: Tunables, s: Flock, i: nat, d: SaboaDraw): (m: Vector)
    requires WellFormed(land, s, |s.xs|) && i < |s.xs| && tun.maxIterations != 0
    ensures |m| == |land.lower|
  {
    var f := Intensity(d.u, tun.currentIteration, tun.maxIterations);
    var m := if d.switch > tun.p then GlobalMove(s.xs[i], s.xs[s.best], f) else LocalMove(s.xs[s.best], s.xs[s.worst], f);
    Clamped(m, land.lower, land.upper)
  }

  /** One pass of the loop body at lines 48-73 for individual `i`. The global
      move works on the stored array itself, so it is written even when the
      candidate is rejected; the local move builds a new array, which is
      stored only when accepted. */
  function Visited(land: Landscape, tun: Tunables, s: Flock, i: nat, d: SaboaDraw): (r: Flock)
    requires WellFormed(land, s, |s.xs|) && i < |s.xs| && tun.maxIterations != 0
    ensures WellFormed(land, r, |s.xs|)
  {
    var cand := Candidate(land, tun, s, i, d);
    var nf := land.objective(cand);
    var kept := nf < s.fits[i];
    var xs' := if kept || d.switch > tun.p then s.xs[i := cand] else s.xs;
    var fits' := if kept then s.fits[i := nf] else s.fits;
    Flock(xs', fits', if nf < fits'[s.best] then i else s.best, if nf > fits'[s.worst] then i else s.worst)
  }

  /** What one visit does to the flock. */
  lemma VisitedEffect(land: Landscape, tun: Tunables, s: Flock, i: nat, d: SaboaDraw)
    requires WellFormed(land, s, |s.xs|) && i < |s.xs| && tun.maxIterations != 0
    ensures var r := Visited(land, tun, s, i, d);
      var nf := land.objective(Candidate(land, tun, s, i, d));
      // only individual i changes
      && (forall t :: 0 <= t < |s.xs| && t != i ==> r.xs[t] == s.xs[t] && r.fits[t] == s.fits[t])
      // the candidate is kept exactly when it is strictly better, and then
      // carries its own fitness
      && (r.fits[i] < s.fits[i] <==> nf < s.fits[i])
      && r.fits[i] <= s.fits[i]
      && (r.fits[i] < s.fits[i] ==> r.fits[i] == nf && r.xs[i] == Candidate(land, tun, s, i, d))
      // a rejected global move still overwrites the stored position; a
      // rejected local move leaves it alone
      && (r.fits[i] == s.fits[i] && d.switch > tun.p ==> r.xs[i] == Candidate(land, tun, s, i, d))
      && (r.fits[i] == s.fits[i] && d.switch <= tun.p ==> r.xs[i] == s.xs[i])
      && (Ordered(land.lower, land.upper) && Within(s.xs[i], land.lower, land.upper) ==>
            Within(r.xs[i], land.lower, land.upper))
      // best_id moves only to i, for an accepted candidate that beat the
      // best, and keeps indexing a minimum
      && (r.best != s.best ==> r.best == i)
      && (IsMin(s.fits, s.best) ==> IsMin(r.fits, r.best))
      && (IsMin(s.fits, s.best) && r.best != s.best ==> nf < s.fits[s.best] && r.fits[i] < s.fits[i])
      // worst_id becomes i exactly when the candidate exceeds the stored
      // fitness of worst_id, whether or not the candidate was kept
      && (r.worst == i || r.worst == s.worst)
      && (nf > r.fits[s.worst] ==> r.worst == i)
      && (r.worst != s.worst ==> nf > r.fits[s.worst])
  {
    if Ordered(land.lower, land.upper) {
      var f := Intensity(d.u, tun.currentIteration, tun.maxIterations);
      if d.switch > tun.p {
        ClampedWithin(GlobalMove(s.xs[i], s.xs[s.best], f), land.lower, land.upper);
      } else {
        ClampedWithin(LocalMove(s.xs[s.best], s.xs[s.worst], f), land.lower, land.upper);
      }
    }
  }

  /** The local candidate does not depend on the individual's own position. */
  lemma LocalIgnoresPosition(land: Landscape, tun: Tunables, s: Flock, i: nat, d: SaboaDraw, y: Vector)
    requires WellFormed(land, s, |s.xs|) && i < |s.xs| && tun.maxIterations != 0
    requires d.switch <= tun.p && i != s.best && i != s.worst && |y| == |land.lower|
    ensures Candidate(land, tun, s.(xs := s.xs[i := y]), i, d) == Candidate(land, tun, s, i, d)
  {
  }

  /** `worst_id` need not index a maximum stored fitness: a rejected candidate
      that is worse than the worst one still moves `worst_id` to an
      individual whose stored fitness is not the largest. */
  lemma StaleWorst()
    ensures var land := Landscape(x => 9.0, [0.0], [10.0]);
            var s := Flock([[1.0], [2.0]], [3.0, 4.0], 0, 1);
            var r := Visited(land, Tunables(0.5, 1, 2, 0), s, 0, SaboaDraw(0.5, 0.0));
            IsMax(s.fits, s.worst) && r.fits == s.fits && r.worst == 0 && !IsMax(r.fits, r.worst)
  {
    var land := Landscape(x => 9.0, [0.0], [10.0]);
    var s := Flock([[1.0], [2.0]], [3.0, 4.0], 0, 1);
    var r := Visited(land, Tunables(0.5, 1, 2, 0), s, 0, SaboaDraw(0.5, 0.0));
    assert land.objective(Candidate(land, Tunables(0.5, 1, 2, 0), s, 0, SaboaDraw(0.5, 0.0))) == 9.0;
    assert r.fits[1] > r.fits[0];
  }

  /** The sweep from individual `i` on, in population order. */
  function SweptFrom(land: Landscape, tun: Tunables, s: Flock, ds: seq<SaboaDraw>, i: nat): (r: Flock)
    requires WellFormed(land, s, |s.xs|) && |ds| == |s.xs| && i <= |ds| && tun.maxIterations != 0
    ensures WellFormed(land, r, |s.xs|)
    decreases |ds| - i, 2
  {
    if i == |ds| then s else VisitNext(land, tun, s, ds, i)
  }

  /** Individual `i` is still to be visited. The sweep is spread over three
      mutually recursive functions so that the verifier unfolds a visit only
      where a proof asks for it (see SweptFromStep). */
  function VisitNext(land: Landscape, tun: Tunables, s: Flock, ds: seq<SaboaDraw>, i: nat): (r: Flock)
    requires WellFormed(land, s, |s.xs|) && |ds| == |s.xs| && i < |ds| && tun.maxIterations != 0
    ensures WellFormed(land, r, |s.xs|)
    decreases |ds| - i, 1
  {
    VisitedThen(land, tun, s, ds, i)
  }

  function VisitedThen(land: Landscape, tun: Tunables, s: Flock, ds: seq<SaboaDraw>, i: nat): (r: Flock)
    requires WellFormed(land, s, |s.xs|) && |ds| == |s.xs| && i < |ds| && tun.maxIterations != 0
    ensures WellFormed(land, r, |s.xs|)
    decreases |ds| - i, 0
  {
    SweptFrom(land, tun, Visited(land, tun, s, i, ds[i]), ds, i + 1)
  }

  /** Visiting individual `i` is the first step of the sweep from `i`. */
  lemma SweptFromStep(land: Landscape, tun: Tunables, s: Flock, ds: seq<SaboaDraw>, i: nat)
    requires WellFormed(land, s, |s.xs|) && |ds| == |s.xs| && i < |ds| && tun.maxIterations != 0
    ensures SweptFrom(land, tun, s, ds, i) == SweptFrom(land, tun, Visited(land, tun, s, i, ds[i]), ds, i + 1)
  {
    assert SweptFrom(land, tun, s, ds, i) == VisitNext(land, tun, s, ds, i);
    assert VisitNext(land, tun, s, ds, i) == VisitedThen(land, tun, s, ds, i);
  }

  /** The sweep from individual `i` on: no stored fitness increases, those
      before `i` are untouched, positions within the bounds stay so, and
      `best_id` still indexes a minimum. */
  lemma {:induction false} SweptEffect(land: Landscape, tun: Tunables, s: Flock, ds: seq<SaboaDraw>, i: nat)
    requires WellFormed(land, s, |s.xs|) && |ds| == |s.xs| && i <= |ds| && tun.maxIterations != 0
    ensures var r := SweptFrom(land, tun, s, ds, i);
      && (forall t :: 0 <= t < |s.xs| ==> r.fits[t] <= s.fits[t])
      && (forall t :: 0 <= t < i ==> r.xs[t] == s.xs[t] && r.fits[t] == s.fits[t])
      && (Ordered(land.lower, land.upper) && AllWithin(s.xs, land) ==> AllWithin(r.xs, land))
      && (IsMin(s.fits, s.best) ==> IsMin(r.fits, r.best))
    decreases |ds| - i
  {
    if i < |ds| {
      var v := Visited(land, tun, s, i, ds[i]);
      VisitedEffect(land, tun, s, i, ds[i]);
      SweptEffect(land, tun, v, ds, i + 1);
      var r := SweptFrom(land, tun, v, ds, i + 1);
      SweptFromStep(land, tun, s, ds, i);
      forall t | 0 <= t < i ensures r.xs[t] == s.xs[t] && r.fits[t] == s.fits[t] {
        assert v.xs[t] == s.xs[t] && v.fits[t] == s.fits[t];
      }
      if Ordered(land.lower, land.upper) && AllWithin(s.xs, land) {
        forall t | 0 <= t < |v.xs| ensures Within(v.xs[t], land.lower, land.upper) {
          if t != i {
            assert v.xs[t] == s.xs[t];
          }
        }
        assert AllWithin(v.xs, land);
      }
    }
  }

  /** One full sweep followed by `save_log` (lines 46-78); `iteration` is the
      sweep's number `i + 1`. Every individual costs one evaluation. */
  function SweptOnce(land: Landscape, tun: Tunables, r: Run, ds: seq<SaboaDraw>, iteration: int): (e: Run)
    requires WellFormed(land, r.flock, |r.flock.xs|) && |ds| == |r.flock.xs| && tun.maxIterations != 0
    ensures WellFormed(land, e.flock, |r.flock.xs|)
    ensures e.fevals == r.fevals + |ds|
  {
    var s := SweptFrom(land, tun, r.flock, ds, 0);
    var ev := r.fevals + |ds|;
    var improvement := s.fits[s.best] - r.flock.fits[r.flock.best];
    Run(s, Logged(r.log, tun.verbosity, LogRecord(iteration, ev, s.fits[s.best], improvement)), ev)
  }

  /** One sweep: fitness only improves, `best_id` keeps indexing a minimum,
      positions stay within the bounds, and the log grows by at most one
      record whose improvement is at most zero. */
  lemma SweptOnceEffect(land: Landscape, tun: Tunables, r: Run, ds: seq<SaboaDraw>, iteration: int)
    requires WellFormed(land, r.flock, |r.flock.xs|) && |ds| == |r.flock.xs| && tun.maxIterations != 0
    ensures var e := SweptOnce(land, tun, r, ds, iteration);
      && (forall t :: 0 <= t < |r.flock.xs| ==> e.flock.fits[t] <= r.flock.fits[t])
      && (IsMin(r.flock.fits, r.flock.best) ==> IsMin(e.flock.fits, e.flock.best))
      && (Ordered(land.lower, land.upper) && AllWithin(r.flock.xs, land) ==> AllWithin(e.flock.xs, land))
      && |r.log| <= |e.log| <= |r.log| + 1 && e.log[..|r.log|] == r.log
      && (IsMin(r.flock.fits, r.flock.best) && |e.log| > |r.log| ==> e.log[|r.log|].improvement <= 0.0)
  {
    SweptEffect(land, tun, r.flock, ds, 0);
  }

  /** The pieces a sweep produces, assembled. */
  lemma SweptOnceIs(land: Landscape, tun: Tunables, r: Run, ds: seq<SaboaDraw>, iteration: int,
                    s: Flock, log: seq<LogRecord>, ev: nat, improvement: real)
    requires WellFormed(land, r.flock, |r.flock.xs|) && |ds| == |r.flock.xs| && tun.maxIterations != 0
    requires s == SweptFrom(land, tun, r.flock, ds, 0)
    requires ev == r.fevals + |ds|
    requires improvement == s.fits[s.best] - r.flock.fits[r.flock.best]
    requires log == Logged(r.log, tun.verbosity, LogRecord(iteration, ev, s.fits[s.best], improvement))
    ensures Run(s, log, ev) == SweptOnce(land, tun, r, ds, iteration)
  {
  }

  ghost predicate DrawGrid(dss: seq<seq<SaboaDraw>>, n: nat)
  {
    forall s :: 0 <= s < |dss| ==> |dss[s]| == n
  }

  /** The sweeps of one `evolve` from sweep `s` (counted from 0) on. */
  function EvolvedFrom(land: Landscape, tun: Tunables, r: Run, dss: seq<seq<SaboaDraw>>, s: nat): (e: Run)
    requires WellFormed(land, r.flock, |r.flock.xs|) && DrawGrid(dss, |r.flock.xs|) && s <= |dss|
    requires tun.maxIterations != 0
    ensures WellFormed(land, e.flock, |r.flock.xs|)
    // one evaluation per individual and sweep
    ensures e.fevals == r.fevals + (|dss| - s) * |r.flock.xs|
    decreases |dss| - s, 2
  {
    if s == |dss| then r else SweepNext(land, tun, r, dss, s)
  }

  /** Sweep `s` is still to be run; a layer like VisitNext. */
  function SweepNext(land: Landscape, tun: Tunables, r: Run, dss: seq<seq<SaboaDraw>>, s: nat): (e: Run)
    requires WellFormed(land, r.flock, |r.flock.xs|) && DrawGrid(dss, |r.flock.xs|) && s < |dss|
    requires tun.maxIterations != 0
    ensures WellFormed(land, e.flock, |r.flock.xs|)
    ensures e.fevals == r.fevals + (|dss| - s) * |r.flock.xs|
    decreases |dss| - s, 1
  {
    SweptThen(land, tun, r, dss, s)
  }

  function SweptThen(land: Landscape, tun: Tunables, r: Run, dss: seq<seq<SaboaDraw>>, s: nat): (e: Run)
    requires WellFormed(land, r.flock, |r.flock.xs|) && DrawGrid(dss, |r.flock.xs|) && s < |dss|
    requires tun.maxIterations != 0
    ensures WellFormed(land, e.flock, |r.flock.xs|)
    ensures e.fevals == r.fevals + (|dss| - s) * |r.flock.xs|
    decreases |dss| - s, 0
  {
    EvolvedFrom(land, tun, SweptOnce(land, tun, r, dss[s], s + 1), dss, s + 1)
  }

  /** Running sweep `s` is the first step of the sweeps from `s`. */
  lemma EvolvedFromStep(land: Landscape, tun: Tunables, r: Run, dss: seq<seq<SaboaDraw>>, s: nat)
    requires WellFormed(land, r.flock, |r.flock.xs|) && DrawGrid(dss, |r.flock.xs|) && s < |dss|
    requires tun.maxIterations != 0
    ensures EvolvedFrom(land, tun, r, dss, s) ==
            EvolvedFrom(land, tun, SweptOnce(land, tun, r, dss[s], s + 1), dss, s + 1)
  {
    assert EvolvedFrom(land, tun, r, dss, s) == SweepNext(land, tun, r, dss, s);
    assert SweepNext(land, tun, r, dss, s) == SweptThen(land, tun, r, dss, s);
  }

  /** Over the remaining sweeps no stored fitness increases, `best_id` keeps
      indexing a minimum and positions within the bounds stay so. */
  lemma {:induction false} EvolvedImproves(land: Landscape, tun: Tunables, r: Run, dss: seq<seq<SaboaDraw>>, s: nat)
    requires WellFormed(land, r.flock, |r.flock.xs|) && DrawGrid(dss, |r.flock.xs|) && s <= |dss|
    requires tun.maxIterations != 0
    ensures var e := EvolvedFrom(land, tun, r, dss, s);
            && (forall t :: 0 <= t < |r.flock.xs| ==> e.flock.fits[t] <= r.flock.fits[t])
            && (IsMin(r.flock.fits, r.flock.best) ==> IsMin(e.flock.fits, e.flock.best))
            && (Ordered(land.lower, land.upper) && AllWithin(r.flock.xs, land) ==> AllWithin(e.flock.xs, land))
    decreases |dss| - s
  {
    if s < |dss| {
      var next := SweptOnce(land, tun, r, dss[s], s + 1);
      SweptOnceEffect(land, tun, r, dss[s], s + 1);
      EvolvedImproves(land, tun, next, dss, s + 1);
      EvolvedFromStep(land, tun, r, dss, s);
    }
  }

  /** The log only grows, by at most one record per sweep, and while
      `best_id` indexes a minimum every logged improvement is at most zero. */
  lemma {:induction false} EvolvedLog(land: Landscape, tun: Tunables, r: Run, dss: seq<seq<SaboaDraw>>, s: nat)
    requires WellFormed(land, r.flock, |r.flock.xs|) && DrawGrid(dss, |r.flock.xs|) && s <= |dss|
    requires tun.maxIterations != 0
    ensures var e := EvolvedFrom(land, tun, r, dss, s);
            && |r.log| <= |e.log| <= |r.log| + (|dss| - s) && e.log[..|r.log|] == r.log
            && (IsMin(r.flock.fits, r.flock.best) ==>
                  forall k :: |r.log| <= k < |e.log| ==> e.log[k].improvement <= 0.0)
    decreases |dss| - s
  {
    if s < |dss| {
      var next := SweptOnce(land, tun, r, dss[s], s + 1);
      SweptOnceEffect(land, tun, r, dss[s], s + 1);
      EvolvedLog(land, tun, next, dss, s + 1);
      var e := EvolvedFrom(land, tun, r, dss, s);
      EvolvedFromStep(land, tun, r, dss, s);
      assert e == EvolvedFrom(land, tun, next, dss, s + 1);
      assert e.log[..|r.log|] == e.log[..|next.log|][..|r.log|];
      if IsMin(r.flock.fits, r.flock.best) {
        forall k | |r.log| <= k < |e.log| ensures e.log[k].improvement <= 0.0 {
          if k < |next.log| {
            assert e.log[k] == e.log[..|next.log|][k];
          }
        }
      }
    }
  }

  /** With a verbosity of at most 0 no sweep is due for `save_log`, so the log
      after the sweeps is the log before them. */
  lemma {:induction false} EvolvedQuiet(land: Landscape, tun: Tunables, r: Run, dss: seq<seq<SaboaDraw>>, s: nat)
    requires WellFormed(land, r.flock, |r.flock.xs|) && DrawGrid(dss, |r.flock.xs|) && s <= |dss|
    requires tun.maxIterations != 0
    ensures tun.verbosity <= 0 ==> EvolvedFrom(land, tun, r, dss, s).log == r.log
    decreases |dss| - s
  {
    if s < |dss| {
      var next := SweptOnce(land, tun, r, dss[s], s + 1);
      EvolvedQuiet(land, tun, next, dss, s + 1);
      EvolvedFromStep(land, tun, r, dss, s);
    }
  }

  /** The move, clamp and evaluation of individual `i` (lines 52-65). The
      global move updates the individual's own array and returns it; the
      local move returns a new array. */
  method Move(pop: Population, tun: Tunables, rows: seq<array<real>>, fits: seq<real>,
              best: nat, worst: nat, i: nat, d: SaboaDraw)
    returns (x: array<real>, newFitness: real)
    requires pop.Valid() && RowsShaped(rows, |pop.land.lower|) && tun.maxIterations != 0
    requires |rows| == |fits| && best < |rows| && worst < |rows| && i < |rows|
    modifies rows[i], pop`fevals
    ensures x[..] == Candidate(pop.land, tun, Flock(old(Contents(rows)), fits, best, worst), i, d)
    ensures d.switch > tun.p ==> x == rows[i] && Contents(rows) == old(Contents(rows))[i := x[..]]
    ensures d.switch <= tun.p ==> fresh(x) && Contents(rows) == old(Contents(rows))
    ensures newFitness == pop.land.objective(x[..])
    ensures pop.fevals == old(pop.fevals) + 1
  {
    ghost var s := Flock(Contents(rows), fits, best, worst);
    var f := d.u * (1.0 - tun.currentIteration as real / tun.maxIterations as real);
    assert f == Intensity(d.u, tun.currentIteration, tun.maxIterations);
    assert rows[best][..] == s.xs[best] && rows[worst][..] == s.xs[worst] && rows[i][..] == s.xs[i];
    if d.switch > tun.p {
      x := rows[i];
      var bx, xv := rows[best][..], x[..];
      AddInPlace(x, seq(|xv|, k requires 0 <= k < |xv| => bx[k] + (xv[k] - bx[k]) * f));
      assert x[..] == GlobalMove(xv, bx, f);
      ForceBounds(x, pop.land.lower, pop.land.upper);
      assert Contents(rows) == s.xs[i := x[..]] by {
        forall t | 0 <= t < |rows| && t != i ensures rows[t][..] == s.xs[t] {
          assert rows[t] != x;
        }
      }
    } else {
      x := NewArray(LocalMove(rows[best][..], rows[worst][..], f));
      ForceBounds(x, pop.land.lower, pop.land.upper);
    }
    newFitness := pop.Evaluate(x[..]);
  }

  /** The visit of individual `i` on the store (lines 48-73). */
  method Visit(pop: Population, tun: Tunables, rows: seq<array<real>>, fits: seq<real>,
               best: nat, worst: nat, i: nat, d: SaboaDraw)
    returns (fits': seq<real>, best': nat, worst': nat)
    requires pop.Valid() && RowsShaped(rows, |pop.land.lower|) && tun.maxIterations != 0
    requires |rows| == |fits| && best < |rows| && worst < |rows| && i < |rows|
    modifies rows[i], pop`fevals
    ensures |fits'| == |rows|
    ensures Flock(Contents(rows), fits', best', worst') ==
            Visited(pop.land, tun, Flock(old(Contents(rows)), fits, best, worst), i, d)
    ensures pop.fevals == old(pop.fevals) + 1
  {
    var x, newFitness := Move(pop, tun, rows, fits, best, worst, i, d);
    fits', best', worst' := fits, best, worst;
    if newFitness < fits[i] {
      if x != rows[i] {
        Assign(rows[i], x[..]);
      }
      fits' := fits[i := newFitness];
    }
    if newFitness < fits'[best] {
      best' := i;
    }
    if newFitness > fits'[worst] {
      worst' := i;
    }
  }

  /** One pass of the sweep loop: visiting individual `i` leaves the rest of
      the sweep to do from `i + 1`. */
  method SweepStep(pop: Population, tun: Tunables, rows: seq<array<real>>, fits: seq<real>,
                   best: nat, worst: nat, ds: seq<SaboaDraw>, i: nat)
    returns (fits': seq<real>, best': nat, worst': nat)
    requires pop.Valid() && RowsShaped(rows, |pop.land.lower|) && tun.maxIterations != 0
    requires |rows| == |fits| == |ds| && best < |rows| && worst < |rows| && i < |rows|
    modifies rows[i], pop`fevals
    ensures |fits'| == |rows| && best' < |rows| && worst' < |rows|
    ensures SweptFrom(pop.land, tun, Flock(Contents(rows), fits', best', worst'), ds, i + 1) ==
            SweptFrom(pop.land, tun, Flock(old(Contents(rows)), fits, best, worst), ds, i)
    ensures pop.fevals == old(pop.fevals) + 1
  {
    ghost var before := Flock(Contents(rows), fits, best, worst);
    SweptFromStep(pop.land, tun, before, ds, i);
    fits', best', worst' := Visit(pop, tun, rows, fits, best, worst, i, ds[i]);
  }

  /** One sweep over every individual in population order (lines 48-73). */
  method Sweep(pop: Population, tun: Tunables, rows: seq<array<real>>, fits: seq<real>,
               best: nat, worst: nat, ds: seq<SaboaDraw>)
    returns (fits': seq<real>, best': nat, worst': nat)
    requires pop.Valid() && RowsShaped(rows, |pop.land.lower|) && tun.maxIterations != 0
    requires |rows| == |fits| == |ds| && best < |rows| && worst < |rows|
    modifies rows, pop`fevals
    ensures |fits'| == |rows|
    ensures Flock(Contents(rows), fits', best', worst') ==
            SweptFrom(pop.land, tun, Flock(old(Contents(rows)), fits, best, worst), ds, 0)
    ensures pop.fevals == old(pop.fevals) + |ds|
  {
    ghost var s0 := Flock(Contents(rows), fits, best, worst);
    fits', best', worst' := fits, best, worst;
    for i := 0 to |rows|
      invariant |fits'| == |rows| && best' < |rows| && worst' < |rows|
      invariant SweptFrom(pop.land, tun, Flock(Contents(rows), fits', best', worst'), ds, i) ==
                SweptFrom(pop.land, tun, s0, ds, 0)
      invariant pop.fevals == old(pop.fevals) + i
    {
      fits', best', worst' := SweepStep(pop, tun, rows, fits', best', worst', ds, i);
    }
  }

  class SABOA {
    var iterations: int
    var p: real
    var maxIterations: int
    var verbosityLevel: int
    var log: seq<LogRecord>
    var currentIteration: int

    /** What the constructor establishes and nothing changes afterwards. */
    ghost predicate Valid()
      reads this`iterations, this`p
    {
      iterations >= 1 && 0.0 <= p <= 1.0
    }

    ghost function CurrentTunables(): Tunables
      reads this`p, this`currentIteration, this`maxIterations, this`verbosityLevel
    {
      Tunables(p, currentIteration, maxIterations, verbosityLevel)
    }

    /** `SABOA.__init__` (lines 23-28): at least one generation, an
        out-of-range switch probability becomes 0.8. */
    constructor (gen: int, p: real, maxGen: int)
      ensures Valid()
      ensures iterations == NormalisedIterations(gen) && this.p == NormalisedP(p)
      ensures maxIterations == maxGen
      ensures verbosityLevel == 0 && log == [] && currentIteration == 1
    {
      iterations := if gen > 1 then gen else 1;
      this.p := if p >= 0.0 && p <= 1.0 then p else 0.8;
      maxIterations := maxGen;
      verbosityLevel := 0;
      log := [];
      currentIteration := 1;
    }

    /** `set_verbosity`, without the header it prints. */
    method SetVerbosity(l: int)
      modifies this`verbosityLevel
      ensures verbosityLevel == if l > 0 then l else old(verbosityLevel)
    {
      if l > 0 {
        verbosityLevel := l;
      }
    }

    method SetIter(i: int)
      modifies this`currentIteration
      ensures currentIteration == i
    {
      currentIteration := i;
    }

    /** `save_log`, without the line it prints. */
    method SaveLog(iteration: int, fevals: int, fbest: real, improvement: real)
      modifies this`log
      ensures log == Logged(old(log), verbosityLevel, LogRecord(iteration, fevals, fbest, improvement))
    {
      if verbosityLevel > 0 && iteration % verbosityLevel == 0 {
        log := log + [LogRecord(iteration, fevals, fbest, improvement)];
      }
    }

    /** One pass of the generation loop of `evolve` (lines 46-78). */
    method Generation(pop: Population, rows: seq<array<real>>, fits: seq<real>, best: nat, worst: nat,
                      ds: seq<SaboaDraw>, iteration: int)
      returns (fits': seq<real>, best': nat, worst': nat)
      requires pop.Valid() && RowsShaped(rows, |pop.land.lower|) && maxIterations != 0
      requires |rows| == |fits| == |ds| && best < |rows| && worst < |rows|
      modifies this`log, rows, pop`fevals
      ensures |fits'| == |rows| && best' < |rows| && worst' < |rows|
      ensures Run(Flock(Contents(rows), fits', best', worst'), log, pop.fevals) ==
              SweptOnce(pop.land, CurrentTunables(), old(Run(Flock(Contents(rows), fits, best, worst), log, pop.fevals)),
                        ds, iteration)
    {
      ghost var tun := CurrentTunables();
      ghost var cur := Run(Flock(Contents(rows), fits, best, worst), log, pop.fevals);
      var oldBestFit := fits[best];
      fits', best', worst' := Sweep(pop, Tunables(p, currentIteration, maxIterations, verbosityLevel),
                                    rows, fits, best, worst, ds);
      ghost var after := Flock(Contents(rows), fits', best', worst');
      var improvement := fits'[best'] - oldBestFit;
      SaveLog(iteration, pop.fevals, fits'[best'], improvement);
      SweptOnceIs(pop.land, tun, cur, ds, iteration, after, log, pop.fevals, improvement);
    }

    /** The generation loop of `evolve` (lines 46-78) on the snapshot. */
    method Generations(pop: Population, rows: seq<array<real>>, fits: seq<real>, best: nat, worst: nat,
                       dss: seq<seq<SaboaDraw>>)
      returns (fits': seq<real>, best': nat, worst': nat)
      requires Valid() && pop.Valid() && RowsShaped(rows, |pop.land.lower|) && maxIterations != 0
      requires |rows| == |fits| && best < |rows| && worst < |rows|
      requires |dss| == iterations && DrawGrid(dss, |rows|)
      modifies this`log, rows, pop`fevals
      ensures |fits'| == |rows|
      ensures Run(Flock(Contents(rows), fits', best', worst'), log, pop.fevals) ==
              EvolvedFrom(pop.land, CurrentTunables(), old(Run(Flock(Contents(rows), fits, best, worst), log, pop.fevals)),
                          dss, 0)
    {
      ghost var tun := CurrentTunables();
      ghost var goal := EvolvedFrom(pop.land, tun, Run(Flock(Contents(rows), fits, best, worst), log, pop.fevals), dss, 0);
      fits', best', worst' := fits, best, worst;
      for s := 0 to iterations
        invariant CurrentTunables() == tun
        invariant |fits'| == |rows| && best' < |rows| && worst' < |rows|
        invariant EvolvedFrom(pop.land, tun, Run(Flock(Contents(rows), fits', best', worst'), log, pop.fevals), dss, s) == goal
      {
        ghost var cur := Run(Flock(Contents(rows), fits', best', worst'), log, pop.fevals);
        EvolvedFromStep(pop.land, tun, cur, dss, s);
        fits', best', worst' := Generation(pop, rows, fits', best', worst', dss[s], s + 1);
      }
    }

    /** `evolve` (lines 30-85): snapshot the population, run the sweeps,
        write every individual back. */
    method Evolve(pop: Population, dss: seq<seq<SaboaDraw>>)
      requires Valid() && pop.Valid() && maxIterations != 0
      requires |dss| == iterations && DrawGrid(dss, |pop.xs|)
      modifies this`log, pop
      ensures Valid() && pop.Valid()
      ensures var e := EvolvedFrom(pop.land, old(CurrentTunables()),
                                   Run(Flock(old(pop.xs), old(pop.fs), old(pop.BestIdx()), old(pop.WorstIdx())),
                                       old(log), old(pop.fevals)),
                                   dss, 0);
              && pop.xs == e.flock.xs && pop.fs == e.flock.fits && log == e.log && pop.fevals == e.fevals
              && (pop.championX, pop.championF) == ChampionAfter(old(pop.championX), old(pop.championF), e.flock.xs, e.flock.fits)
      // one evaluation per individual and sweep
      ensures pop.fevals == old(pop.fevals) + iterations * |pop.xs|
      // positions within the bounds stay so
      ensures AllWithin(old(pop.xs), pop.land) ==> AllWithin(pop.xs, pop.land)
      // no stored fitness increases, so neither does the champion
      ensures |pop.fs| == |old(pop.fs)| && forall t :: 0 <= t < |pop.fs| ==> pop.fs[t] <= old(pop.fs[t])
      ensures pop.championF <= old(pop.championF)
      // the log only grows, and every logged improvement is <= 0
      ensures |old(log)| <= |log| && log[..|old(log)|] == old(log)
      ensures forall k :: |old(log)| <= k < |log| ==> log[k].improvement <= 0.0
    {
      var rows := Snapshot(pop);
      var fits := pop.fs;
      var best: nat := pop.BestIdx();
      var worst: nat := pop.WorstIdx();
      ghost var tun := CurrentTunables();
      ghost var r0 := Run(Flock(pop.xs, pop.fs, best, worst), log, pop.fevals);
      ghost var e := EvolvedFrom(pop.land, tun, r0, dss, 0);
      EvolvedImproves(pop.land, tun, r0, dss, 0);
      EvolvedLog(pop.land, tun, r0, dss, 0);
      fits, best, worst := Generations(pop, rows, fits, best, worst, dss);
      assert Contents(rows) == e.flock.xs && fits == e.flock.fits && log == e.log && pop.fevals == e.fevals;
      WriteBack(pop, rows, fits);
    }
  }
}
