/** What the three strategy classes (optimizers/boa.py, optimizers/saboa.py,
    optimizers/xboa.py) share: constructor normalisation, the log gate of
    `save_log`, the fragrance and the two update rules of the sensory
    modality `c`. */
module Strategy {
  import opened Vectors

  /** One entry of the convergence log: `[iteration, fevals, fbest, improvement]`. */
  datatype LogRecord = LogRecord(iteration: int, fevals: int, fbest: real, improvement: real)

  /** The transcendental functions the strategies call, left uninterpreted:
      `power(b, e)` is Python's `b ** e`, `sinPi(y)` is `math.sin(math.pi * y)`. */
  datatype Numerics = Numerics(power: (real, real) -> real, sinPi: real -> real)

  /** `save_log` appends exactly when logging is on and the iteration is a
      multiple of the verbosity level. */
  predicate LogDue(verbosity: int, iteration: int)
  {
    verbosity > 0 && iteration % verbosity == 0
  }

  function Logged(log: seq<LogRecord>, verbosity: int, r: LogRecord): (l: seq<LogRecord>)
    ensures l == log || l == log + [r]
  {
    if LogDue(verbosity, r.iteration) then log + [r] else log
  }

  lemma LoggedGrowsByOneIffDue(log: seq<LogRecord>, verbosity: int, r: LogRecord)
    ensures Logged(log, verbosity, r)[..|log|] == log
    ensures |Logged(log, verbosity, r)| == |log| + 1 <==> LogDue(verbosity, r.iteration)
    ensures |Logged(log, verbosity, r)| != |log| + 1 ==> Logged(log, verbosity, r) == log
    ensures LogDue(verbosity, r.iteration) ==> Logged(log, verbosity, r)[|log|] == r
  {
  }

  /** `gen if gen > 1 else 1`. */
  function NormalisedIterations(gen: int): (n: int)
    ensures n >= 1
    ensures gen >= 1 ==> n == gen
    ensures gen < 1 ==> n == 1
  {
    if gen > 1 then gen else 1
  }

  /** `p if p >= 0 and p <= 1 else 0.8`. */
  function NormalisedP(p: real): (q: real)
    ensures 0.0 <= q <= 1.0
    ensures 0.0 <= p <= 1.0 ==> q == p
    ensures !(0.0 <= p <= 1.0) ==> q == 0.8
  {
    if p >= 0.0 && p <= 1.0 then p else 0.8
  }

  /** `str.lower()` on the ASCII letters. */
  function Lower(s: string): (r: string)
    ensures |r| == |s|
    ensures forall k :: 0 <= k < |r| ==> !('A' <= r[k] <= 'Z')
  {
    seq(|s|, k requires 0 <= k < |s| => if 'A' <= s[k] <= 'Z' then (s[k] as int + 32) as char else s[k])
  }

  /** A string without upper-case ASCII letters is its own lower case. */
  lemma LowerKeepsLowerCase(s: string)
    requires forall k :: 0 <= k < |s| ==> !('A' <= s[k] <= 'Z')
    ensures Lower(s) == s
  {
  }

  /** Lower-casing is idempotent. */
  lemma LowerIdempotent(s: string)
    ensures Lower(Lower(s)) == Lower(s)
  {
  }

  /** Fragrance `c * |fitness| ** a`; the source negates a non-positive
      fitness before raising it to the power. */
  function Fragrance(num: Numerics, c: real, a: real, fitness: real): real
  {
    c * num.power(Abs(fitness), a)
  }

  /** The fragrance is the source's two-branch form: `c * fitness ** a` for a
      positive fitness, `c * (-fitness) ** a` otherwise. */
  lemma FragranceFollowsSign(num: Numerics, c: real, a: real, fitness: real)
    ensures Fragrance(num, c, a, fitness) ==
            if fitness > 0.0 then c * num.power(fitness, a) else c * num.power(-fitness, a)
  {
  }

  /** The linear rule `c += 0.025 / (c * max_iterations)`. A zero product
      raises ZeroDivisionError in the source, hence the requirement. */
  function LinearC(c: real, maxIterations: int): (r: real)
    requires c * maxIterations as real != 0.0
    ensures maxIterations > 0 && c > 0.0 ==> r > c
    ensures maxIterations > 0 && c < 0.0 ==> r < c
  {
    c + 0.025 / (c * maxIterations as real)
  }

  /** The non-linear ABOA rule `c = a0 - (a0 - a1) * sin(pi / mu * (t / max) ** 2)`
      with `(a0, a1) = (0.1, 0.3)`; it does not depend on the previous `c`. */
  function AboaC(num: Numerics, t: int, maxIterations: int, mu: real): real
    requires maxIterations != 0 && mu != 0.0
  {
    var ratio := t as real / maxIterations as real;
    0.1 - (0.1 - 0.3) * num.sinPi(1.0 / mu * (ratio * ratio))
  }

  /** With the sine in [-1, 1] the ABOA modality stays in [-0.1, 0.3]. */
  lemma AboaCRange(num: Numerics, t: int, maxIterations: int, mu: real)
    requires maxIterations != 0 && mu != 0.0
    requires var ratio := t as real / maxIterations as real;
      -1.0 <= num.sinPi(1.0 / mu * (ratio * ratio)) <= 1.0
    ensures -0.1 <= AboaC(num, t, maxIterations, mu) <= 0.3
  {
  }

  /** The update applied after every sweep: ABOA's rule when `aboa`, the
      linear rule otherwise. */
  ghost predicate UpdateDefined(aboa: bool, c: real, maxIterations: int, mu: real)
  {
    if aboa then maxIterations != 0 && mu != 0.0 else c * maxIterations as real != 0.0
  }

  function NextC(aboa: bool, num: Numerics, c: real, t: int, maxIterations: int, mu: real): real
    requires UpdateDefined(aboa, c, maxIterations, mu)
  {
    if aboa then AboaC(num, t, maxIterations, mu) else LinearC(c, maxIterations)
  }

  /** The update can be applied `n` times in a row without a division by zero. */
  ghost predicate UpdatesDefined(aboa: bool, num: Numerics, c: real, t: int, maxIterations: int, mu: real, n: nat)
    decreases n
  {
    n == 0 ||
    (UpdateDefined(aboa, c, maxIterations, mu) &&
     UpdatesDefined(aboa, num, NextC(aboa, num, c, t, maxIterations, mu), t, maxIterations, mu, n - 1))
  }

  /** With a positive `max_iterations` the linear rule keeps the sign of a
      non-zero `c`, so no division by zero ever happens. */
  lemma {:induction false} LinearUpdatesDefined(num: Numerics, c: real, t: int, maxIterations: int, mu: real, n: nat)
    requires c != 0.0 && maxIterations > 0
    ensures UpdatesDefined(false, num, c, t, maxIterations, mu, n)
    decreases n
  {
    if n > 0 {
      var c' := NextC(false, num, c, t, maxIterations, mu);
      assert c' != 0.0;
      LinearUpdatesDefined(num, c', t, maxIterations, mu, n - 1);
    }
  }

  /** The modality after `n` updates. */
  function CAfter(aboa: bool, num: Numerics, c: real, t: int, maxIterations: int, mu: real, n: nat): real
    requires UpdatesDefined(aboa, num, c, t, maxIterations, mu, n)
    decreases n
  {
    if n == 0 then c else CAfter(aboa, num, NextC(aboa, num, c, t, maxIterations, mu), t, maxIterations, mu, n - 1)
  }

  /** ABOA's modality after one or more updates is the closed form of the
      current iteration, whatever the starting `c`. */
  lemma {:induction false} AboaCAfterIsClosedForm(num: Numerics, c: real, t: int, maxIterations: int, mu: real, n: nat)
    requires n >= 1 && UpdatesDefined(true, num, c, t, maxIterations, mu, n)
    ensures maxIterations != 0 && mu != 0.0
    ensures CAfter(true, num, c, t, maxIterations, mu, n) == AboaC(num, t, maxIterations, mu)
    decreases n
  {
    if n > 1 {
      AboaCAfterIsClosedForm(num, NextC(true, num, c, t, maxIterations, mu), t, maxIterations, mu, n - 1);
    }
  }

  /** With `c > 0` and `max_iterations > 0` the linear rule strictly increases
      `c` with every update. */
  lemma {:induction false} LinearCAfterIncreases(num: Numerics, c: real, t: int, maxIterations: int, mu: real, n: nat)
    requires c > 0.0 && maxIterations > 0 && n >= 1
    ensures UpdatesDefined(false, num, c, t, maxIterations, mu, n)
    ensures CAfter(false, num, c, t, maxIterations, mu, n) > c
    decreases n
  {
    LinearUpdatesDefined(num, c, t, maxIterations, mu, n);
    if n > 1 {
      LinearCAfterIncreases(num, NextC(false, num, c, t, maxIterations, mu), t, maxIterations, mu, n - 1);
    }
  }
}
