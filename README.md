# Butterfly optimisation strategies, modelled in Dafny

This project models the core of a small Python optimisation engine built on
pygmo. The engine has six Butterfly Optimisation Algorithm strategies:
BOA, mBOA and ABOA (`optimizers/boa.py`), SABOA (`optimizers/saboa.py`), and
xBOA and xABOA (`optimizers/xboa.py`). A driver (`optimizer.py`) picks a
strategy by name. It then calls the strategy's `evolve` once per generation
until the generations run out or the champion fitness has not changed for
`early_stopping_counter` generations in a row. The example objective
(`minimization_problem.py`) is the sum of the genes.

The model follows the source's own form:

- **The population** (pygmo's `population`) is a class, `Populations.Population`.
  Its fields are positions, fitnesses, champion and evaluation counter.
  `set_xf` updates the champion only on a strictly better fitness.
- **Each strategy is a class with the source's fields**: `Boa.BOA`,
  `Saboa.SABOA`, `Xboa.XBOA`. `evolve`, `save_log`, `set_iter`,
  `set_verbosity` and the modality update are methods over those fields.
- **`evolve`'s working dictionary** becomes a sequence of mutable arrays, one
  per individual, plus a sequence of fitnesses. Positions are updated in
  place, exactly where the source writes through an alias:
  - BOA's `x += …` (boa.py:93 and 98);
  - SABOA's global branch (saboa.py:58);
  - xBOA's neighbour move (xboa.py:112).

  So a rejected move still changes the stored position while the stored
  fitness stays.
- **Each method is proved against a pure specification function** of the old
  state: `Visited` for one individual, `SweptFrom` for one sweep,
  `SweptOnce` for one generation, `EvolvedFrom` for a whole `evolve`. The
  properties the source promises are lemmas about those functions.
- **`force_bounds`** is an in-place loop over the array (`Bounds.ForceBounds`).
  `Bounds.Clamped` is its value-level counterpart.
- **The driver is a class, `Driver.Optimizer`.** `GetSolution` models the
  generation loop and ties the early-stopping counter to the sequence of
  champion fitnesses (`CounterAfter`, `Stagnant`).

Every `random.random()` and `random.choice` result is an input to the model:

| record | what it holds |
|---|---|
| `Boa.BoaDraw` | one individual's draws for BOA |
| `Saboa.SaboaDraw` | one individual's draws for SABOA |
| `Xboa.XDraw` | one individual's draws for xBOA |
| `Driver.GenerationDraws` | the draws of one driver generation |

Individuals are identified by their index, not by pygmo's random IDs. The
objective, `x ** a` and `sin(pi * x)` are function-typed inputs
(`Populations.Landscape.objective`, `Strategy.Numerics`). Numbers are
modelled as reals.

The model keeps three behaviours of the code that a reader may not expect:

- **SABOA `worst_id`.** It is reassigned whenever the *candidate* fitness
  exceeds the stored fitness of `worst_id`, whether or not the candidate was
  accepted (saboa.py:72-73). It can then index an individual that is not the
  worst (`Saboa.StaleWorst`).
- **xBOA logged improvement.** The source reads `population.champion_f`
  before and after each sweep, but the population object is written only
  after the last sweep (xboa.py:56, 131, 136-138). So every logged
  improvement is exactly `0.0` and every logged best fitness is the champion
  from before the call (`Xboa.EvolvedEffect`). Each sweep starts again from
  the population object, so only the last sweep's store is written back
  (`Xboa.LastSweepSurvives`).
- **xBOA with a population of one.** The crossover is not skipped: the
  individual is mated with itself and both offspring are evaluated. The
  individual is kept unchanged only because the offspring equal it
  (`Xboa.LoneCrossoverKeeps`).

## Model

| member | source | states |
|---|---|---|
| Vectors.AddInPlace | optimizers/boa.py:93 | the in-place `x += delta` leaves the array equal to the old contents plus `delta`, gene by gene |
| Bounds.ForceBounds | optimizers/boa.py:181-190 | the array afterwards is the clamp of its old contents; when every lower bound is at most its upper bound, every gene is within its bounds |
| Bounds.Clamped | optimizers/boa.py:181-190 | the value `force_bounds` leaves: same length, each gene kept or set to its lower or upper bound by the `if`/`elif` of lines 186-189 |
| Bounds.ClampedWithin | optimizers/boa.py:181-190 | with ordered bounds, the clamp keeps the length and puts every gene within its bounds |
| Bounds.ClampedKeepsInRange | optimizers/saboa.py:122-127 | a gene already within its bounds is left untouched |
| Bounds.ClampedWithinIsIdentity | optimizers/boa.py:185-190 | an in-range vector is returned unchanged |
| Bounds.ClampedIdempotent | optimizers/boa.py:185-190 | clamping twice is clamping once, when the bounds are ordered |
| Bounds.CrossedBoundsNotIdempotent | optimizers/boa.py:186-189 | with a lower bound above the upper bound, the `if`/`elif` clamp is not idempotent (two concrete vectors) |
| MinimizationProblem.Sum | minimization_problem.py:37 | Python's left-to-right `sum`, 0 for the empty vector; a vector of non-negative genes has a non-negative sum |
| MinimizationProblem.Fitness | minimization_problem.py:30-38 | the fitness is a one-element list |
| MinimizationProblem.SumEmpty | minimization_problem.py:37-38 | the fitness of the empty vector is `[0]` |
| MinimizationProblem.SumAppend | minimization_problem.py:37 | the sum of a concatenation is the sum of the sums |
| MinimizationProblem.FitnessAdditive | minimization_problem.py:37-38 | the fitness is additive over concatenation |
| MinimizationProblem.Replicate | minimization_problem.py:46-47 | `[v] * n` has length `max(n, 0)` and every entry is `v` |
| MinimizationProblem.GetBounds | minimization_problem.py:22-47 | no bounds exactly when either scalar bound was never set; otherwise two lists of length `dim` made of `min_x` and `max_x` |
| MinimizationProblem.GetNix | minimization_problem.py:49-54 | the number of integer variables is 0 |
| MinimizationProblem.Objective | minimization_problem.py:30-38 | the objective value of a vector is the sum of its genes |
| MinimizationProblem.LandscapeOf | minimization_problem.py:30-47 | the problem as the strategies see it: None exactly when `get_bounds` fails; otherwise the objective is the sum of the genes, the bounds are `get_bounds`' two lists of length `dim`, and they are ordered when `min_x <= max_x` |
| Strategy.Logged | optimizers/boa.py:172-177 | the log after `save_log`: the old log, or the old log with the record appended |
| Strategy.LoggedGrowsByOneIffDue | optimizers/boa.py:172-177 | `save_log` keeps the old log as a prefix and appends exactly one record, the given one, iff verbosity > 0 and the iteration is a multiple of it; otherwise the log is unchanged |
| Strategy.NormalisedIterations | optimizers/boa.py:47 | the generation count is at least 1: `gen` when `gen >= 1`, else 1 |
| Strategy.NormalisedP | optimizers/boa.py:50 | the switch probability lies in [0, 1]: `p` when `p` is in range, else 0.8 |
| Strategy.Lower | optimizers/boa.py:52 | `str.lower()` on ASCII: same length, and no capital letter left |
| Strategy.LowerKeepsLowerCase | optimizers/boa.py:52 | `lower()` leaves a name without capitals unchanged |
| Strategy.LowerIdempotent | optimizers/boa.py:52 | `lower()` applied twice equals `lower()` once |
| Strategy.FragranceFollowsSign | optimizers/boa.py:81-86 | the fragrance `c * abs(fitness) ** a` is the source's two branches: `c * fitness ** a` for a positive fitness, `c * (-fitness) ** a` otherwise |
| Strategy.LinearC | optimizers/boa.py:128-130 | the linear update `c + 0.025/(c*max_iterations)` strictly increases a positive `c` and strictly decreases a negative one when `max_iterations > 0` |
| Strategy.AboaCRange | optimizers/boa.py:123-127 | the non-linear rule gives a `c` within [-0.1, 0.3] whenever the sine lies in [-1, 1] |
| Strategy.LinearUpdatesDefined | optimizers/boa.py:130 | from a non-zero `c` with `max_iterations > 0`, any number of linear updates never divides by zero |
| Strategy.AboaCAfterIsClosedForm | optimizers/boa.py:122-127 | after one or more ABOA updates, `c` equals the closed form for `(current_iteration, max_iterations, mu)`, whatever it was before |
| Strategy.LinearCAfterIncreases | optimizers/boa.py:128-130 | one or more linear updates of a positive `c` leave it strictly larger |
| Strategy.Fragrance | optimizers/boa.py:81-86 | the fragrance, `c` times the power of the absolute fitness (its branch form is `FragranceFollowsSign`) |
| Strategy.AboaC | optimizers/boa.py:123-127 | the non-linear rule `0.1 - (0.1 - 0.3) * sin(pi / mu * (t / max) ** 2)`, independent of the old `c` (range in `AboaCRange`) |
| Strategy.NextC | optimizers/boa.py:122-130 | the modality after one sweep: the non-linear rule for ABOA and xABOA, the linear rule otherwise |
| Populations.FirstMin | optimizers/boa.py:70 | `best_idx` indexes a minimum fitness; the model picks the first minimum |
| Populations.FirstMax | optimizers/saboa.py:41 | `worst_idx` indexes a maximum fitness; the model picks the first maximum |
| Populations.ChampionAfter | optimizers/boa.py:137-140 | the champion after a series of `set_xf` calls is never worse than before or than any written fitness; it changes only to a written individual |
| Populations.Population.Sampled | optimizer.py:34 | a new population, from positions drawn within the bounds, holds those positions, their fitnesses and the first best as champion, after one evaluation each |
| Populations.Population.BestIdx | optimizers/boa.py:70 | `best_idx()` indexes a minimum fitness |
| Populations.Population.WorstIdx | optimizers/saboa.py:41 | `worst_idx()` indexes a maximum fitness |
| Populations.Population.Evaluate | optimizers/boa.py:102 | `problem.fitness` returns the objective and counts one evaluation |
| Populations.Population.SetXF | optimizers/boa.py:140 | `set_xf(i, x, f)` overwrites individual `i` and takes it as champion iff `f` is strictly better |
| Populations.Overwrite | optimizers/xboa.py:103-105 | replacing one individual's position leaves every other row's contents unchanged |
| Populations.Snapshot | optimizers/xboa.py:59-64 | `get_x()` gives one fresh array per individual holding its position |
| Populations.WriteBack | optimizers/boa.py:137-140 | the closing loop writes every position and fitness back; the champion is `ChampionAfter` of the old one; no evaluations are spent |
| Boa.VariantOf | optimizers/boa.py:52-54 | the variant is the lower-cased name when it is one of `boa`, `mboa`, `aboa`, else `boa` |
| Boa.VariantOfName | optimizers/boa.py:52-54 | each variant name selects its own variant |
| Boa.Pick | optimizers/boa.py:112-114 | mBOA keeps the candidate with the smaller fitness, the first one on a tie |
| Boa.Step | optimizers/boa.py:91-98 | the move `f * (r1 * r2 * x_best - x)` or `f * (r1 * r2 * x_j - x_k)`, by the switch draw; same length as `x` |
| Boa.Delta | optimizers/boa.py:81-98 | the move of individual `i` with its fragrance from its stored fitness; same length as its position |
| Boa.MovedPosition | optimizers/boa.py:88-101 | the position after `x += delta` and `force_bounds`, of the problem's dimension |
| Boa.ExtraSearch | optimizers/boa.py:109 | mBOA's `x_best + (r1 - r2) * x_best`, same length as the best position |
| Boa.Visited | optimizers/boa.py:78-120 | one pass of the loop body for individual `i`; keeps the store well formed (its effect is `VisitedEffect`) |
| Boa.VisitedEffect | optimizers/boa.py:78-120 | one visit changes only individual `i`; its stored fitness never increases; an accepted candidate carries its own fitness; a rejected move still stores the moved position; the position ends within the bounds; `best_id` moves only to `i`, for an accepted candidate that beat the best, and keeps indexing a minimum |
| Boa.SweptFromStep | optimizers/boa.py:77-120 | a sweep from individual `i` is the visit of `i` followed by the sweep from `i + 1` |
| Boa.SweptEffect | optimizers/boa.py:77-120 | over a sweep, no stored fitness increases, the individuals not yet visited are unchanged, the visited ones are within the bounds, and `best_id` keeps indexing a minimum |
| Boa.SweptOnce | optimizers/boa.py:75-135 | one generation applies exactly one modality update to `c` |
| Boa.SweptOnceEffect | optimizers/boa.py:75-135 | one generation does not raise any stored fitness, keeps `best_id` a minimum, leaves every position within bounds, logs at most one record after the old log, and logs an improvement of at most 0 |
| Boa.EvolvedFrom | optimizers/boa.py:75-135 | `c` has received one modality update per sweep |
| Boa.EvolvedFromStep | optimizers/boa.py:75-135 | the sweeps from `s` are sweep `s` followed by the sweeps from `s + 1` |
| Boa.EvolvedImproves | optimizers/boa.py:75-135 | over all sweeps, no stored fitness increases, `best_id` keeps indexing a minimum, positions end within the bounds, and the evaluation count does not fall |
| Boa.EvolvedLog | optimizers/boa.py:132-135 | the log keeps its prefix, grows by at most one record per sweep, and every logged improvement is at most 0 |
| Boa.EvolvedQuiet | optimizers/boa.py:132-135 | with a verbosity of at most 0, `evolve` leaves the log as it was |
| Boa.MoveAndEvaluate | optimizers/boa.py:88-102 | the move, done in place on the individual's own array, then clamped and evaluated, stores `MovedPosition` and returns its fitness after one evaluation |
| Boa.Exploit | optimizers/boa.py:104-114 | the extra search builds a fresh clamped `x2` from the best, evaluates it once, and reports whether it beat the candidate together with the kept fitness |
| Boa.Visit | optimizers/boa.py:78-120 | the visit on the arrays yields exactly `Visited` and spends one or two evaluations |
| Boa.SweepStep | optimizers/boa.py:77-120 | one loop pass advances the sweep by one individual |
| Boa.Sweep | optimizers/boa.py:77-120 | the sweep loop over the arrays yields exactly `SweptFrom` and spends `SweepEvals` evaluations |
| Boa.BOA.constructor | optimizers/boa.py:47-58 | at least one generation, `p` in [0, 1] (else 0.8), the variant from the whitelist (else `boa`), verbosity 0, empty log, current iteration 1 |
| Boa.BOA.SetVerbosity | optimizers/boa.py:144-150 | the verbosity changes only for a positive level |
| Boa.BOA.SetIter | optimizers/boa.py:192-193 | `current_iteration` becomes `i` |
| Boa.BOA.SaveLog | optimizers/boa.py:172-177 | the log becomes `Logged` of the old log |
| Boa.BOA.Generation | optimizers/boa.py:75-135 | one generation on the fields is exactly `SweptOnce` |
| Boa.BOA.Generations | optimizers/boa.py:75-135 | the generation loop is exactly `EvolvedFrom` |
| Boa.BOA.Evolve | optimizers/boa.py:60-142 | `evolve` leaves the population, `c`, the log and the evaluation count as `EvolvedFrom` says; every position is within bounds; no stored fitness increases and neither does the champion; `c` has had `iterations` updates; the log only grows and logs improvements of at most 0 |
| Saboa.IntensityRange | optimizers/saboa.py:52-53 | with `u` in [0, 1) and `1 <= current_iteration <= max_iterations`, the intensity lies in [0, 1) |
| Saboa.GlobalMove | optimizers/saboa.py:58 | `x + (x_best + (x - x_best) * f)`, the in-place global move; same length as `x` |
| Saboa.LocalMove | optimizers/saboa.py:61 | `0.5 * (x_best + x_worst) * f`, the fresh local candidate; same length as the best position |
| Saboa.Candidate | optimizers/saboa.py:52-64 | the clamped global or local candidate, by the switch draw, with the intensity from `u`; of the problem's dimension |
| Saboa.Visited | optimizers/saboa.py:48-73 | one pass of the loop body for individual `i`; keeps the store well formed (its effect is `VisitedEffect`) |
| Saboa.VisitedEffect | optimizers/saboa.py:48-73 | one visit changes only `i`; the candidate is kept iff strictly better; a rejected global move still stores the moved position and a rejected local move does not; positions stay within bounds; `best_id` moves only to `i`, for an accepted candidate that beat it, and keeps indexing a minimum; `worst_id` becomes `i` exactly when the candidate exceeds the fitness stored for `worst_id` after the acceptance step, and is otherwise kept |
| Saboa.LocalIgnoresPosition | optimizers/saboa.py:61 | the local move does not depend on the individual's own position |
| Saboa.StaleWorst | optimizers/saboa.py:68-73 | a rejected candidate can move `worst_id` to an individual that is not the worst (concrete instance) |
| Saboa.SweptFromStep | optimizers/saboa.py:48-73 | a sweep from `i` is the visit of `i` followed by the sweep from `i + 1` |
| Saboa.SweptEffect | optimizers/saboa.py:48-73 | over a sweep, no stored fitness increases, unvisited individuals are unchanged, positions within bounds stay so, and `best_id` keeps indexing a minimum |
| Saboa.SweptOnce | optimizers/saboa.py:46-78 | one generation spends one evaluation per individual |
| Saboa.SweptOnceEffect | optimizers/saboa.py:46-78 | one generation does not raise any stored fitness, keeps `best_id` a minimum, keeps positions within bounds, logs at most one record after the old log, and logs an improvement of at most 0 |
| Saboa.EvolvedFrom | optimizers/saboa.py:46-78 | the sweeps spend one evaluation per individual and sweep |
| Saboa.EvolvedFromStep | optimizers/saboa.py:46-78 | the sweeps from `s` are sweep `s` followed by the sweeps from `s + 1` |
| Saboa.EvolvedImproves | optimizers/saboa.py:46-78 | over all sweeps, no stored fitness increases, `best_id` keeps indexing a minimum, and positions within bounds stay so |
| Saboa.EvolvedLog | optimizers/saboa.py:75-78 | the log keeps its prefix, grows by at most one record per sweep, and every logged improvement is at most 0 |
| Saboa.EvolvedQuiet | optimizers/saboa.py:75-78 | with a verbosity of at most 0, `evolve` leaves the log as it was |
| Saboa.Move | optimizers/saboa.py:55-65 | the global move is done in place on the individual's array, and the local move builds a fresh array; either way the result is the clamped `Candidate`, evaluated once |
| Saboa.Visit | optimizers/saboa.py:48-73 | the visit on the arrays yields exactly `Visited` and spends one evaluation |
| Saboa.SweepStep | optimizers/saboa.py:48-73 | one loop pass advances the sweep by one individual |
| Saboa.Sweep | optimizers/saboa.py:48-73 | the sweep loop over the arrays yields exactly `SweptFrom` and spends one evaluation per individual |
| Saboa.SABOA.constructor | optimizers/saboa.py:23-28 | at least one generation, `p` in [0, 1] (else 0.8), verbosity 0, empty log, current iteration 1 |
| Saboa.SABOA.SetVerbosity | optimizers/saboa.py:87-93 | the verbosity changes only for a positive level |
| Saboa.SABOA.SetIter | optimizers/saboa.py:129-130 | `current_iteration` becomes `i` |
| Saboa.SABOA.SaveLog | optimizers/saboa.py:109-116 | the log becomes `Logged` of the old log |
| Saboa.SABOA.Generation | optimizers/saboa.py:46-78 | one generation on the fields is exactly `SweptOnce` |
| Saboa.SABOA.Generations | optimizers/saboa.py:46-78 | the generation loop is exactly `EvolvedFrom` |
| Saboa.SABOA.Evolve | optimizers/saboa.py:30-85 | `evolve` leaves the population, the log and the evaluation count as `EvolvedFrom` says; one evaluation per individual and generation; positions within bounds stay so; no stored fitness increases and neither does the champion; the log only grows and logs improvements of at most 0 |
| Xboa.XVariantOf | optimizers/xboa.py:37-39 | the variant is the lower-cased name when it is `xboa` or `xaboa`, else `xboa` |
| Xboa.XVariantOfName | optimizers/xboa.py:37-39 | each variant name selects its own variant |
| Xboa.FirstOther | optimizers/xboa.py:81-83 | the mate drawn is not the individual, and it is the first such draw |
| Xboa.MateOf | optimizers/xboa.py:81-83 | the mate: the individual itself exactly when the population has one individual, else the first other draw |
| Xboa.MateOfIsOther | optimizers/xboa.py:81-84 | the mate differs from the individual when there are two or more, and is the individual itself in a population of one |
| Xboa.ChooseMate | optimizers/xboa.py:81-83 | the mate loop returns the first draw different from `id`, or `id` in a population of one |
| Xboa.FirstOtherIsFirst | optimizers/xboa.py:81-83 | a draw preceded only by `id` draws is the mate |
| Xboa.Splice | optimizers/xboa.py:84-92 | the two offspring `x[:cp] + mate[cp:]` and `mate[:cp] + x[cp:]`, both of the parents' length |
| Xboa.SpliceGenes | optimizers/xboa.py:84-92 | offspring 1 takes the parent's genes before the cut and the mate's from it on; offspring 2 the other way round; both keep the length |
| Xboa.SpliceInvolution | optimizers/xboa.py:84-92 | splicing the two offspring again at the same cut gives back the parents, so no gene is lost |
| Xboa.SpliceSelf | optimizers/xboa.py:84-92 | an individual spliced with itself gives two copies of itself |
| Xboa.Offspring | optimizers/xboa.py:81-96 | the clamped splice of individual `i` with its mate at the drawn cut, both of the problem's dimension |
| Xboa.Replacement | optimizers/xboa.py:100-105 | the parent or one of the offspring, with their fitness, never a worse fitness than the parent's |
| Xboa.ReplacementIsMin | optimizers/xboa.py:100-105 | the parent is replaced iff the smaller offspring fitness is below its own; the new fitness is then that minimum; a tie goes to offspring 2; the fitness never rises |
| Xboa.NeighbourPosition | optimizers/xboa.py:106-115 | the position after `x += f * (r1 * r2 * x_j - x_k)` and `force_bounds`, of the problem's dimension |
| Xboa.Visited | optimizers/xboa.py:67-118 | one pass of the loop body for individual `i`; keeps the store well formed (its effect is `VisitedEffect`) |
| Xboa.VisitedEffect | optimizers/xboa.py:67-118 | one visit changes only `i` and never raises its fitness. Crossover: the parent is replaced iff an offspring beats it, and then by an offspring with the smaller fitness. Neighbour move: the moved position is stored even when it is rejected, and it is accepted iff strictly better. Positions within bounds stay so |
| Xboa.LoneCrossoverKeeps | optimizers/xboa.py:81-105 | in a population of one, the crossover of an in-range individual that carries its own fitness leaves the store unchanged and still spends two evaluations |
| Xboa.SweptFromStep | optimizers/xboa.py:67-118 | a sweep from `i` is the visit of `i` followed by the sweep from `i + 1` |
| Xboa.SweptEffect | optimizers/xboa.py:67-118 | over a sweep, no stored fitness increases, unvisited individuals are unchanged, and positions within bounds stay so |
| Xboa.SweptOnce | optimizers/xboa.py:55-133 | one generation applies exactly one modality update to `c` |
| Xboa.EvolvedFrom | optimizers/xboa.py:55-133 | `c` has received one modality update per sweep |
| Xboa.EvolvedFromStep | optimizers/xboa.py:55-133 | the sweeps from `s` are sweep `s` followed by the sweeps from `s + 1` |
| Xboa.LastSweepSurvives | optimizers/xboa.py:55-138 | the store written back is the last sweep over the population as it was before `evolve` |
| Xboa.EvolvedEffect | optimizers/xboa.py:55-133 | after one or more sweeps no stored fitness is above that of the population; bounds are kept; the log keeps its prefix and grows by at most one record per sweep; every logged improvement is exactly 0 and every logged best is the champion from before the call; the evaluation count does not fall |
| Xboa.EvolvedQuiet | optimizers/xboa.py:130-133 | with a verbosity of at most 0, `evolve` leaves the log as it was |
| Xboa.Cross | optimizers/xboa.py:84-98 | both offspring are fresh arrays holding the clamped splices of copies of the parents, each evaluated once |
| Xboa.Neighbour | optimizers/xboa.py:106-116 | the neighbour move, done in place on the individual's array, stores `NeighbourPosition` and returns its fitness after one evaluation |
| Xboa.Breed | optimizers/xboa.py:79-105 | the crossover branch stores the `Replacement` of the parent by the offspring and spends two evaluations |
| Xboa.Visit | optimizers/xboa.py:67-118 | the visit on the arrays yields exactly `Visited` and spends `VisitEvals` evaluations |
| Xboa.SweepStep | optimizers/xboa.py:67-118 | one loop pass advances the sweep by one individual |
| Xboa.Sweep | optimizers/xboa.py:67-118 | the sweep loop over the arrays yields exactly `SweptFrom` and spends `SweepEvals` evaluations |
| Xboa.XBOA.constructor | optimizers/xboa.py:32-44 | at least one generation, `p` in [0, 1] (else 0.8), the variant from the whitelist (else `xboa`), verbosity 0, empty log, current iteration 1 |
| Xboa.XBOA.SetVerbosity | optimizers/xboa.py:142-148 | the verbosity changes only for a positive level |
| Xboa.XBOA.SetIter | optimizers/xboa.py:188-189 | `current_iteration` becomes `i` |
| Xboa.XBOA.UpdateC | optimizers/xboa.py:120-128 | `c` becomes `NextC`: the non-linear rule for xABOA, the linear one otherwise |
| Xboa.XBOA.SaveLog | optimizers/xboa.py:168-175 | the log becomes `Logged` of the old log |
| Xboa.XBOA.Generation | optimizers/xboa.py:55-133 | one generation, a fresh snapshot of the population swept, is exactly `SweptOnce` |
| Xboa.XBOA.Advance | optimizers/xboa.py:55-133 | one pass of the generation loop advances `EvolvedFrom` by one sweep |
| Xboa.XBOA.Generations | optimizers/xboa.py:55-133 | the generation loop is exactly `EvolvedFrom` |
| Xboa.XBOA.Evolve | optimizers/xboa.py:46-140 | `evolve` leaves the population, `c`, the log and the evaluation count as `EvolvedFrom` says; no stored fitness increases and neither does the champion; positions within bounds stay so; `c` has had `iterations` updates; every new log record reports the unchanged champion and a zero improvement |
| Driver.FamilyOf | optimizer.py:37-48 | lower-cased `boa`/`mboa`/`aboa` select BOA, `saboa` SABOA, `xboa`/`xaboa` xBOA, and anything else the random baseline, each iff |
| Driver.FamilyVariants | optimizer.py:37-45 | the original name handed to the strategy reaches the variant it names |
| Driver.VerbosityOf | optimizer.py:51-58 | the verbosity level is the given value when present and positive, else 0 |
| Driver.Given | optimizer.py:111-112 | a keyword argument takes its given value, else its default |
| Driver.BoaSolverOf | optimizer.py:111-130 | `boa_solver` builds a BOA for one generation per call with `max_gen = iterations` and the defaults 0.01, 0.1, 0.8 and 2 |
| Driver.SaboaSolverOf | optimizer.py:132-143 | `saboa_solver` builds a SABOA for one generation per call with `max_gen = iterations` and default `p` 0.8 |
| Driver.XboaSolverOf | optimizer.py:145-163 | `xboa_solver` builds an xBOA for one generation per call with `max_gen = iterations` and the defaults 0.01, 0.1, 0.8 and 2 |
| Driver.CounterAfter | optimizer.py:86-91 | the early-stopping counter after the given champion fitnesses: one less after a zero improvement, the configured value after any other |
| Driver.CounterAtMostK0 | optimizer.py:86-91 | the counter is never above its configured value |
| Driver.Stagnant | optimizer.py:86-90 | the number of trailing generations whose champion equals the one before, at most the number of generations |
| Driver.CounterIsK0MinusStagnant | optimizer.py:86-91 | the counter is the configured value minus the number of zero-improvement generations since the last change of the champion |
| Driver.CounterStep | optimizer.py:86-91 | the counter after one more generation is one less on a zero improvement and the configured value otherwise |
| Driver.Observed | optimizer.py:86-91 | one more generation decrements the counter on zero improvement and resets it otherwise; the champion sequence stays non-increasing |
| Driver.StagnationRuns | optimizer.py:86-103 | when the champion never changes, `evolve` runs exactly `min(K, iterations)` times for `K >= 1`, once for `K <= 0`, and never for `iterations <= 0` |
| Driver.StagnantCount | optimizer.py:86-90 | with no change at all, `t` generations leave `t` stagnant ones |
| Driver.ImprovementResets | optimizer.py:89-90 | any change of the champion resets the counter to its configured value |
| Driver.EvolveBoa | optimizer.py:75-78 | `set_iter(i)` then one BOA `evolve` call: the population, `c`, the log and the evaluation count are `Boa.EvolvedFrom` at iteration `i` from the old state; `c` is `NextC` of the old `c`; only `current_iteration`, `c` and the log change on the strategy, so `a`, `p`, `mu`, the variant and the verbosity are kept; a strategy with verbosity at most 0 logs nothing; the champion does not get worse; every position is within the bounds |
| Driver.EvolveSaboa | optimizer.py:75-78 | `set_iter(i)` then one SABOA `evolve` call: the population, the log and the evaluation count are `Saboa.EvolvedFrom` at iteration `i` from the old state; one evaluation per individual; only `current_iteration` and the log change on the strategy; a strategy with verbosity at most 0 logs nothing; the champion does not get worse; every position is within the bounds |
| Driver.EvolveXboa | optimizer.py:75-78 | `set_iter(i)` then one xBOA `evolve` call: the population, `c`, the log and the evaluation count are `Xboa.EvolvedFrom` at iteration `i` from the old state; `c` is `NextC` of the old `c`; only `current_iteration`, `c` and the log change on the strategy; a strategy with verbosity at most 0 logs nothing; the champion does not get worse; every position is within the bounds |
| Driver.Optimizer.constructor | optimizer.py:15-58 | the family is chosen by `FamilyOf`; the strategy is built with `gen = 1`, `max_gen = iterations`, the variant named by the method, and `c`, `a`, `p` and `mu` from the tuning values or their defaults (`p` for SABOA); the verbosity is normalised; the strategy is built with verbosity 0 and an empty log (`Quiet`); every sampled position is within the bounds |
| Driver.Optimizer.Generation | optimizer.py:72-78 | one outer generation sets the strategy's iteration to `i`; per family the population, `c` and the log are those of one `evolve` from the old state (`EvolvedOnce`), `c` is `NextC` of the old `c`, and `a`, `mu` and the variant are kept; the strategy's verbosity is kept and a quiet strategy stays quiet; the champion never gets worse |
| Driver.Optimizer.Round | optimizer.py:72-91 | one pass of the generation loop: after the generation the counter is one less when the champion fitness did not change and the configured value otherwise; the returned fitness is the new champion's, never worse; per family the population, `c`, the log and the evaluation count are those of one `evolve` at iteration `i` (`EvolvedOnce`); the strategy's verbosity is kept and a quiet strategy stays quiet |
| Driver.Optimizer.GetSolution | optimizer.py:60-109 | the random baseline returns the first individual untouched. Otherwise the loop runs until the generations run out or the counter reaches 0; the strategy's iteration equals the number of generations run; the champion fitnesses are non-increasing; every position stays within the bounds; the champion is returned |

## Left out

- Random draws are inputs, one record per individual and sweep. The order
  in which the Python random stream yields them is not modelled, and neither
  is any distribution.
- Floating point is modelled as exact real arithmetic. Fragrance
  (`c * |fitness| ** a`) and the sine of the non-linear `c` rule are
  function-typed inputs (`Strategy.Numerics`), not computed values.
- pygmo is replaced by `Populations.Population`:
  - Individuals are identified by index, not by random 64-bit IDs.
  - Sampling the initial positions is an input. pygmo draws every gene
    within its bounds; `Populations.Population.Sampled` and
    `Driver.Optimizer.constructor` require this of the sample.
  - `best_idx` and `worst_idx`, the champion upkeep and the evaluation
    count are stated by contracts, not taken from pygmo's code.
  - Among tied fitnesses, pygmo's choice of `best_idx` or `worst_idx` is not
    part of this model. `Populations.FirstMin` and `Populations.FirstMax`
    take the first index; the lemmas rely only on it indexing a minimum or
    a maximum.
- `Populations.Population.Sampled` requires a non-empty sample. pygmo's
  `best_idx` and the driver's `get_x()[0]` fail on an empty population.
- The xBOA mate loop (xboa.py:82-83) repeats draws until one differs from
  `id`, which may never happen. The draw record carries a finite list of
  tries that contains such a draw (`Xboa.MateFound`).
- A crossover needs a dimension of at least 2, because `range(len(x)-1)` is
  empty for dimension 1 and `random.choice` fails on it. `Xboa.DrawFits`
  requires it.
- `Boa.BOA.Evolve` requires the modality update to be defined: a non-zero
  `c` for the linear rule, and `mu` and `max_iterations` non-zero for the
  non-linear rule. The source raises `ZeroDivisionError` there.
- `Xboa.XBOA.Evolve` has the same requirement as `Boa.BOA.Evolve`.
- `Saboa.SABOA.Evolve` requires `max_iterations` to be non-zero, because
  saboa.py:53 divides by it.
- `Driver.Optimizer.GetSolution` carries the same division requirements
  (`UpdatesSafe`).
- mBOA's accepted `x2` lives in a new array in the source. The model copies
  its values into the individual's own array (`Vectors.Assign`). No other
  reference to either array exists, so only the array's identity differs.
- xBOA's accepted offspring likewise replaces the individual's array in the
  source. The model copies it in (`Populations.Overwrite`).
- SABOA's accepted local-move candidate is also a new array in the source
  (saboa.py:61). The model copies its values into the individual's own array
  (`Vectors.Assign` in `Saboa.Visit`).
- Driver.Optimizer.constructor: the tuning options are four optional numbers
  (`Driver.Tuning`). A keyword dictionary that also holds `max_gen` (all
  three calls, optimizer.py:38, 41 and 44) or, for BOA and xBOA, `variant`
  (lines 38 and 44) makes Python raise `TypeError` for the repeated
  keyword. SABOA's factory takes no `variant` and swallows an extra one in
  `**unused_args`. The model cannot pass either key, so this
  error path is not modelled.
- Printing, formatting and timing are not modelled: `print`,
  `time.time()`, `round`, `get_name`, `get_extra_info`, `get_log`. The
  unassigned `self.c` and `self.a` read by SABOA's `get_extra_info` affect
  only that string.
- When `iterations <= 0` and verbosity is on, the driver's closing message
  reads the loop variable `i`, which was never bound (optimizer.py:107).
  Python then raises `UnboundLocalError` instead of returning the champion.
  The model has no printing, so it returns the champion on this path.
- The driver never calls `set_verbosity` on the strategy, so strategy logs
  stay empty in a driver run. The model makes no such call: the
  constructor builds the strategy `Quiet` (verbosity 0, empty log), and
  `Driver.Optimizer.Generation` and `Driver.Optimizer.Round` keep it quiet.
- Driver.Optimizer.GetSolution: does not restate across the whole loop that a
  quiet strategy stays quiet. Each pass's `Round` states it, but carrying it
  as a loop invariant makes the loop's proof too costly.
- Driver.Optimizer.GetSolution: gives the population after the loop only
  through its champion (and positions within bounds). It does not chain the
  strategy's `EvolvedFrom` across the generations. Each pass's `Round` gives
  that pass's new population, `c`, log and evaluation count (`EvolvedOnce`),
  but a loop invariant composing them is not stated.
- `Strategy.Lower` folds only the ASCII capitals `A`-`Z`. Python's
  `str.lower` also folds other Unicode letters.
- `main.py` is not part of this model. It reads a YAML file and prints.
- `MinimizationProblem.get_name` and `get_extra_info` are not modelled: they
  return text only.
