# Wolf Search Algorithm (NiaPy) in Dafny

This project models NiaPy's `WolfSearchAlgorithm` (`NiaPy/algorithms/basic/wsa.py`),
a population metaheuristic. Each wolf is a real vector and has a stored fitness.
In one iteration every wolf, in index order, does three things:

1. It makes a *visual search*: a Gaussian perturbation scaled by the velocity
   `alpha` and the visual radius `r`.
2. Then one of two moves:
   - If some other wolf lies strictly inside the visual radius, it makes a
     *pack move* toward the best such neighbour.
   - Otherwise it makes a second visual search.
3. When a uniform draw exceeds the enemy threshold `pa`, it also makes an
   *escape*.

Each proposal is kept only if it strictly improves the wolf's own slot
(`updateIfBetter`). At the end, the population's best replaces the global best
`(xb, fxb)` if it is strictly better.

How the model is built:

- Numbers are exact reals.
- The objective (`task.eval`), the norm, the square root and the exponential
  are oracle functions passed in as parameters (`Task`, `Numerics`).
- The random draws are parameters too. Each wolf gets a `Draws` record holding
  the Gaussian vectors, the single Gaussian and the uniform draw it may use.
- Python parameter values are tagged values (`PyValue`), so the
  `isinstance(x, float)` tests of the validators can be stated.

The modules follow the source:

- `WsaParameters` (`parameters.dfy`): the validators and the defaults.
- `WsaPopulation` (`population.dfy`): the population as a value and
  `updateIfBetter` as a function.
- `WsaMoves` (`moves.dfy`): the candidate positions.
- `WsaSelection` (`selection.dfy`):
  - the distance filter;
  - the first-occurrence `argmin`;
  - the global-best update.
- `WsaIteration` (`iteration.dfy`): one wolf's turn (`Step`), the sweep over all
  wolves (`Sweep`) and the whole iteration (`Iteration`), all as functions.
- `WolfSearch` (`algorithm.dfy`): the class `WolfSearchAlgorithm`. It has the
  parameter fields, plus methods that change the `Wolves` and `Evaluations`
  arrays in place step by step, as the source does. Each method that changes
  or reads the arrays is proved equal to a function on values: `UpdateIfBetter`
  to `WsaPopulation.Update`, `SearchWithinVisual` to `WsaMoves.Perturb`,
  `AccumulateGap` to `WsaMoves.AccumulateUpTo`, `BestOf` to
  `WsaSelection.GlobalBest`, and `PullMove`, `PackMove`, `WolfTurn` and
  `RunIteration` to `PullStep`, `PackStep`, `Step` and `Iteration` of
  `WsaIteration`. The constructor, `SetParameters` and `GetParameters` state the
  stored fields directly, and `CopyRow` states the contents of the fresh array.

Some things the code does that are easy to miss, and that the model follows:

- The pack accumulator `r` is set to 0 once per iteration (line 160), not once
  per wolf. Every pack move folds more into it, and the escape of every later
  wolf uses it.
- The accumulator is not a Euclidean distance. Each coordinate takes a square
  root of the squared gap plus the accumulator so far (lines 178-179);
  `WsaMoves.AccumulateIsNotTheNorm` gives an example where the two differ.
- `wolf` is a row view of `Wolves`. As soon as `updateIfBetter` writes the
  wolf's slot, the distances, the pack move and the escape see the new position.
  None of the later proposals starts from the wolf as it was at the start of its
  turn.
- No candidate is clipped to the search bounds, and no draw is repeated until
  it is feasible. The code does neither.
- A wolf is never its own neighbour, and neither is an exact duplicate of it:
  the filter requires `0 < dist`.

## Model

| member | source | states |
|---|---|---|
| WsaParameters.TypeParameters | NiaPy/algorithms/basic/wsa.py:73-80 | the validator dictionary has the base keys plus r, s, alpha and pa; the base entries under other names are kept; r, s and alpha accept exactly the floats > 0 and pa exactly the floats in [0, 1] |
| WsaParameters.TypeParametersAgreeWithTests | NiaPy/tests/test_wsa.py:11-37 | each validator gives the outcome the tests expect: NP accepts 1 and rejects 0, -1 and 1.0; r, s and alpha accept 1.0 and reject 0.0, -1.0 and the int 1; pa accepts 0.0, 0.5 and 1.0 and rejects -1.0, 1.1 and the int 1 |
| WsaParameters.DefaultsAgainstValidators | NiaPy/algorithms/basic/wsa.py:82 | the defaults for NP, s and pa pass their validators; the int defaults for r and alpha fail theirs, yet compute as 1.0 |
| WsaPopulation.Update | NiaPy/algorithms/basic/wsa.py:131-135 | the candidate and its fitness are written to slot `index` exactly when its fitness is strictly below the stored one; otherwise nothing changes; that slot's fitness never rises; every other slot is unchanged |
| WsaPopulation.UpdateKeepsShape | NiaPy/algorithms/basic/wsa.py:131-135 | an update keeps both collections the same length and every wolf the same dimension, and worsens no slot |
| WsaPopulation.UpdateKeepsConsistency | NiaPy/algorithms/basic/wsa.py:131-135 | if every stored fitness was the objective at its stored wolf, that still holds after an update |
| WsaMoves.PerturbMovesOnlyWithDraws | NiaPy/algorithms/basic/wsa.py:137-139 | for `alpha * r != 0`, a coordinate stays put exactly when its draw is 0; all-zero draws leave the wolf unchanged |
| WsaSelection.SatisfiedUpToIsFilter | NiaPy/algorithms/basic/wsa.py:170 | the filter over a prefix holds exactly the indices whose distance is strictly between 0 and the radius, strictly increasing |
| WsaSelection.SatisfiedIsFilter | NiaPy/algorithms/basic/wsa.py:170 | the satisfied indices are exactly those with distance strictly between 0 and the radius, each once, in increasing order |
| WsaSelection.SatisfiedExcludesDuplicates | NiaPy/algorithms/basic/wsa.py:168-170 | if the norm of the zero vector is 0, no slot holding the wolf's own position is a neighbour, the wolf's own slot included |
| WsaSelection.LoneWolfHasNoNeighbour | NiaPy/algorithms/basic/wsa.py:168-172 | with one wolf the satisfied list is empty, so the else-branch always runs |
| WsaSelection.ArgMinUpToIsFirstMinimum | NiaPy/algorithms/basic/wsa.py:174 | the prefix argmin is at most every value of the prefix and strictly below every value before it |
| WsaSelection.ArgMinIsFirstMinimum | NiaPy/algorithms/basic/wsa.py:174 | `argmin` returns an index of a least value, the first one on ties |
| WsaSelection.BestNeighbourIsFirstMinimum | NiaPy/algorithms/basic/wsa.py:172-175 | the chosen neighbour is a satisfied index whose fresh evaluation is at most that of every satisfied wolf, and strictly below that of every satisfied index before it |
| WsaSelection.BestNeighbourByStoredFitness | NiaPy/algorithms/basic/wsa.py:172-175 | if stored fitness values are consistent, the same holds with the stored fitness in place of fresh evaluations |
| WsaSelection.GlobalBestSpec | NiaPy/algorithms/basic/wsa.py:196-198 | the global best fitness never rises and ends at most every fitness; it is replaced exactly when some slot is strictly better; then its vector is the wolf of the first slot holding the least fitness; otherwise xb is kept |
| WsaMoves.AccumulateNonNegative | NiaPy/algorithms/basic/wsa.py:178-179 | if the square root is non-negative on non-negative arguments, a non-negative accumulator stays non-negative |
| WsaMoves.AccumulateIsNotTheNorm | NiaPy/algorithms/basic/wsa.py:178-179 | with an exact square root, the wolf (0, 0) and the neighbour (2, 0) give an accumulator whose square is 2, not the squared distance 4 |
| WsaMoves.PullBlendsTowardBest | NiaPy/algorithms/basic/wsa.py:181-182 | for a weight in [0, 1], each coordinate of the pack move lies between the wolf's and the neighbour's coordinate, shifted by the one common random step; weight 1 with no step gives the neighbour, weight 0 with no step gives the wolf |
| WsaMoves.EscapeDisplacement | NiaPy/algorithms/basic/wsa.py:191-193 | for `alpha > 0`, coordinate k of the escape stays put exactly when its draw is 0 or the accumulator is half the range; past half the range a positive draw moves the coordinate down |
| WsaIteration.Step | NiaPy/algorithms/basic/wsa.py:161-194 | one wolf's turn keeps the shape, changes no slot but its own, never worsens its own slot, and keeps stored fitness consistent |
| WsaIteration.Sweep | NiaPy/algorithms/basic/wsa.py:160-194 | after the first n turns no fitness is above its starting value, the slots not yet visited are unchanged, the shape is kept, and consistency is kept |
| WsaIteration.Trace | NiaPy/algorithms/basic/wsa.py:160-194 | the recorded rounds of the first n turns start at the given round, and each next round is the turn of the next wolf on the round before |
| WsaIteration.TraceEndsAtSweep | NiaPy/algorithms/basic/wsa.py:160-194 | the last recorded round after n turns is the sweep over those n wolves |
| WsaIteration.IterationSpec | NiaPy/algorithms/basic/wsa.py:141-200 | after an iteration: the population keeps its shape; no fitness is above its old value; the global best fitness is at most its old value and at most every new fitness; the global best is replaced exactly when some new fitness is strictly below it, and then it is the least new fitness and its vector the wolf of the first slot holding it; an unreplaced one keeps xb |
| WolfSearch.WolfSearchAlgorithm.constructor | NiaPy/algorithms/basic/wsa.py:82-96 | the object holds the given NP, r, s, alpha and pa, with the same defaults as `setParameters` |
| WolfSearch.WolfSearchAlgorithm.SetParameters | NiaPy/algorithms/basic/wsa.py:82-96 | stores NP, r, s, alpha and pa as given, unvalidated |
| WolfSearch.WolfSearchAlgorithm.GetParameters | NiaPy/algorithms/basic/wsa.py:98-111 | the base dictionary plus r, s, alpha and pa mapped to the stored values; other base entries are kept |
| WolfSearch.WolfSearchAlgorithm.UpdateIfBetter | NiaPy/algorithms/basic/wsa.py:131-135 | the arrays end as `Update` of their old contents: slot `index` never worsens and no other slot changes |
| WolfSearch.WolfSearchAlgorithm.SearchWithinVisual | NiaPy/algorithms/basic/wsa.py:137-139 | the array, changed in place coordinate by coordinate, ends as `Perturb` of its old contents |
| WolfSearch.WolfSearchAlgorithm.PackMove | NiaPy/algorithms/basic/wsa.py:168-189 | the arrays and the accumulator end as `PackStep` of the old population and accumulator |
| WolfSearch.WolfSearchAlgorithm.PullMove | NiaPy/algorithms/basic/wsa.py:175-184 | the arrays and the accumulator end as `PullStep` toward the neighbour in slot j |
| WolfSearch.WolfSearchAlgorithm.WolfTurn | NiaPy/algorithms/basic/wsa.py:161-194 | the arrays and the accumulator end as `Step` of the old population and accumulator, with the wolf re-read from its slot after each update |
| WolfSearch.WolfSearchAlgorithm.NextTurn | NiaPy/algorithms/basic/wsa.py:161-194 | one pass of the loop takes the arrays from one recorded round to the next |
| WolfSearch.WolfSearchAlgorithm.TurnAll | NiaPy/algorithms/basic/wsa.py:160-194 | from an accumulator of 0, the loop over all wolves leaves the arrays as the last recorded round |
| WolfSearch.WolfSearchAlgorithm.RunIteration | NiaPy/algorithms/basic/wsa.py:141-200 | the arrays and the returned global best end as `Iteration` of the old population and global best |
| WolfSearch.BestOf | NiaPy/algorithms/basic/wsa.py:196-198 | the returned global best is `GlobalBest` of the arrays' contents |
| WolfSearch.AccumulateGap | NiaPy/algorithms/basic/wsa.py:178-179 | the loop's accumulator equals `AccumulateUpTo` over every coordinate |
| WolfSearch.CopyRow | NiaPy/algorithms/basic/wsa.py:162 | a fresh array holding exactly the wolf's coordinates |

## Left out

- Floating point: numbers are exact reals. Overflow, NaN and infinities are not
  modelled. `linalg.norm`, `sqrt` and `exp` are uninterpreted oracles, and only
  the properties a lemma names are assumed of them.
- Randomness: `randn` and `rand` are not modelled. They become the per-wolf
  `Draws` parameters instead of one shared random stream. The model does not
  capture that the number of draws a wolf consumes depends on its branch.
- The objective: `task.eval` is an oracle of the vector. The evaluation counter
  and the stopping budget of NiaPy's `Task` are not modelled.
- The base class `Algorithm`:
  - `Algorithm.typeParameters` is a parameter of the model. Its NP validator is
    assumed to be the one the tests pin down.
  - `Algorithm.setParameters` and `Algorithm.getParameters` are not modelled.
  - `initPopulation` (lines 113-129) is not modelled; it only delegates to the
    base class.
  - The run loop and the seeding are not modelled.
- Logging (`logging`, `logger`) and the `algorithmInfo` text are left out. They
  do not affect the computation.
- The example script `run_wsa.py` runs the algorithm on a benchmark with printing. It is
  not part of this model.
- The run tests (`NiaPy/tests/test_wsa.py:39-47`) compare whole runs under a
  seed. Without the random generator and the benchmark they are not modelled.
- numpy shapes: every wolf, every draw vector and `task.bRange` are assumed to
  have one common dimension. Broadcasting between other shapes is not modelled.
- RunIteration: requires a non-empty population. With no wolves, line 196
  calls `argmin` on an empty array, which raises `ValueError`; `setParameters`
  does not validate `NP`, so `NP=0` can reach that line. The raised exception
  is not modelled (the same holds for `Iteration` and `GlobalBest`).
- RunIteration: requires `r`, `alpha` and `pa` to be Python numbers
  (`Numeric`). A non-numeric value makes Python raise `TypeError` at line 139,
  170, 182 or 191; that exception is not modelled.
- SearchWithinVisual: requires `alpha` and `r` to be Python numbers. A
  non-numeric value makes line 139 raise `TypeError`, which is not modelled.
- RunIteration: requires `NP` to be the array length, since line 168 iterates
  over `range(self.NP)`.
- RunIteration: its own contract is only the equality with
  `WsaIteration.Iteration`. The per-slot improvement and global-best properties
  are stated once, about `Iteration`, in `WsaIteration.IterationSpec`.
- Aliasing: a wolf is a sequence value stored in an array slot, so `Wolves`
  rows never alias each other or a copy. The row view `wolf` is modelled by
  re-reading the slot after every update.
