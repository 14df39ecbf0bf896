# Regression ensembles over an opaque decision tree

This project models the two regression ensembles of
`project2/python/src/ensembples.py`, `RandomForestMSE` and
`GradientBoostingMSE`, and proves properties of the model in Dafny.

Both classes wrap scikit-learn's `DecisionTreeRegressor`. Both store
parallel lists: the column indices each tree was trained on, the trees,
and for boosting one stage weight per tree.

- **Random forest.** `fit` runs `n_estimators` rounds. Each round makes
  two sampler calls, trains a tree on the sampled rows restricted to the
  sampled columns, and appends the result. `predict` sums the trees'
  predictions and divides by `n_estimators`.
- **Gradient boosting.** `fit` empties its lists and starts from the
  all-zero running prediction `a_y`. Each stage does four things:
  - trains a tree on the gradient `2 * (a_y[obj] - y[obj]) / len(obj)`;
  - predicts all training rows with it;
  - picks the weight that minimises `mean((y - a_y - x * pred) ** 2)`;
  - moves `a_y` by `learning_rate * weight * pred`.

  `predict` sums `learning_rate * weight * tree.predict(X[:, feat])`.

How the model is built:

- **Values.** Numbers are `real`. Matrices are row sequences with a column
  count (`Linalg`).
- **Trees.** A trained tree is a deterministic function from a row to a
  prediction. Tree induction is an oracle `induce` that `fit` receives
  (`Learners`).
- **Randomness.** numpy's seeded global state is a `RandomSource` object
  (`Sampling`). It holds an index stream and counts the sampler calls
  made since seeding. The `call`-th `_sample_indices` call returns
  `Draws(choose, call, maximum, size)`.
- **Classes.** Each Python class is a Dafny class with the same
  attributes, plus one field `rng`. `rng` stands for numpy's global
  random state, which the source reaches through `np.random` and does not
  store.
  Its `fit` is split along the source's structure:
  - `Fit` clears the lists (boosting only) and resolves the subsample
    sizes;
  - `Grow` runs the loop;
  - the loop body is `TrainRound` for the forest and `RunStage` for
    boosting;
  - `Predict` is the prediction loop.

  Every method's result and new state is tied to a function:
  `ForestRounds`, `BoostRounds`, `ForestPredict`, `BoostSum`. The
  properties are proved about those functions.
- **Errors.** Each way a call can end without a prediction or a fit
  that the model includes becomes a `Failure` value (`Outcomes`). The
  names are the model's own. Each stands for one exception the source
  raises:
  - `ZeroDivision`: Python's `ZeroDivisionError` from
    `1.5 * n // n_estimators` with no estimators (line 53);
  - `EmptyPopulation`: numpy's `ValueError` from `np.random.choice(0, k)`
    with `k > 0` (lines 34 and 120);
  - `EmptyInput`: scikit-learn's `ValueError` when a tree is asked to fit
    or predict a matrix with no rows or no columns (lines 66, 86, 155, 160
    and 183);
  - `ColumnOutOfRange`: numpy's `IndexError` when a stored column index is
    past the last column of the matrix being predicted (lines 86 and 183).

  Neither class catches anything, so the first raise ends the call.
  `NonFinite` is not an exception. It stands for the vector of NaN
  entries that the forest's `predict` returns when it divides by
  `n_estimators == 0` (line 88). numpy only warns there. The errors a
  tree raises for its own configuration are not among these; "Left out"
  says why.

The model keeps the code's behaviour, including what a cleaner design
would do differently:

- Both ensembles draw the "object" (row) indices from `[0, X.shape[1])`,
  with size `feature_subsample_size` (lines 62 and 150). A round's two
  sampler calls therefore have the same population and the same size.
  Indexing rows with them is in bounds only when there are at least as
  many rows as columns, so `X.cols <= |X.rows|` is a precondition of
  `fit`.
- `object_subsample_size` is resolved and stored but never used.
- `RandomForestMSE.fit` never clears its lists. A second fit appends
  another `n_estimators` slots, and `predict` still divides by
  `n_estimators`.
- A non-positive `n_estimators` runs no rounds. The forest's `predict`
  then divides by `n_estimators`. With zero the entries are NaN. With a
  negative count no fit ever stores a slot, so the result is all zeros
  (`RandomForest.NoRoundsPredictsZeros`).
- On the failed first round, boosting's lists are already empty.
  Sizes resolved before a failure stay resolved.
- Boosting trains on the gradient, not on the negative gradient. The line
  search absorbs the sign, and the proofs about training error need
  nothing else.

## Model

| member | source | states |
|---|---|---|
| Linalg.Columns | project2/python/src/ensembples.py:86 | `X[:, feat]` keeps every row and has one column per selected index |
| Linalg.Rows | project2/python/src/ensembples.py:63 | `X[obj]` has one row per sampled index, repetitions included, and keeps every column |
| Linalg.Gather | project2/python/src/ensembples.py:63 | `y[obj]`: defined entry by entry as `v[idx[j]]`, one entry per index; no contract of its own |
| Linalg.Zeros | project2/python/src/ensembples.py:83 | `np.zeros(n)`: defined as `n` zeros; no contract of its own |
| Linalg.Add | project2/python/src/ensembples.py:86 | `u + v`, elementwise; no contract of its own |
| Linalg.AddScaled | project2/python/src/ensembples.py:164 | `u + c * v`, elementwise; its use in `fit` is characterised by `LineSearch.Shifted` and `GradientBoosting.RunningIsStagedSum` |
| Linalg.DivideBy | project2/python/src/ensembples.py:88 | `v / c` for `c != 0`, elementwise; no contract of its own |
| Sampling.Draws | project2/python/src/ensembples.py:33-34 | a sampler call returns exactly `size` indices, each below `maximum` |
| Sampling.RandomSource.constructor | project2/python/src/ensembples.py:30 | a fresh random state holds the seeded stream and no call has been made |
| Sampling.RandomSource.Reseed | project2/python/src/ensembples.py:30 | seeding selects the stream and restarts the call count |
| Sampling.RandomSource.Choice | project2/python/src/ensembples.py:34 | `choice(0, k)` with `k > 0` raises and consumes nothing; otherwise the result is the next call's draws, and the call count goes up by one |
| Learners.Train | project2/python/src/ensembples.py:66 | the tree is the oracle `induce` applied to the configuration, the `len(obj)`-by-`len(feat)` matrix `X[obj][:, feat]` and the targets; no contract of its own |
| Learners.PredictRows | project2/python/src/ensembples.py:86 | `est.predict(M)` has one entry per row of `M`; the value of each row is stated by `Learners.SlotPredictionAt` |
| Learners.SlotPredictionAt | project2/python/src/ensembples.py:86 | `est.predict(X[:, feat])` has one entry per row, and row `r`'s entry is the tree applied to row `r` restricted to `feat` |
| Learners.RoundFailure | project2/python/src/ensembples.py:62-66 | a training round goes through exactly when there is a column and the size is positive; it fails with `EmptyPopulation` exactly when the first sampler call is refused |
| Learners.SlotFailure | project2/python/src/ensembples.py:86 | a slot predicts exactly when its indices are inside the matrix and the matrix and the selection are both non-empty |
| Defaults.ResolveFeatureSize | project2/python/src/ensembples.py:48-49 | a set size is kept; an unset one becomes `d // 3`, pinned as `3k <= d < 3k + 3` |
| Defaults.ResolveObjectSize | project2/python/src/ensembples.py:51-55 | a set size is kept; an unset one becomes `n` for one estimator, raises for zero, and is otherwise the floor of `1.5 n / T`, between 0 and `n` when `T >= 2` |
| Defaults.Rounds | project2/python/src/ensembples.py:57 | `range(n_estimators)` runs `n_estimators` times when it is positive and not at all otherwise |
| LineSearch.Sse | project2/python/src/ensembples.py:161 | the squared error is never negative |
| LineSearch.Energy | project2/python/src/ensembples.py:161 | the sum of squared predictions is never negative |
| LineSearch.Objective | project2/python/src/ensembples.py:161 | the mean `np.mean((y - a - x * pred) ** 2)` that `minimize_scalar` is given is never negative |
| LineSearch.StepWeight | project2/python/src/ensembples.py:161 | the stage weight is `0` when every prediction is zero, and otherwise solves `w * sum(p^2) == sum((y - a) p)`, the condition for the minimum of the line error |
| LineSearch.Expansion | project2/python/src/ensembples.py:161 | the error along the line is the quadratic `sse - 2x cross + x^2 energy` |
| LineSearch.FlatLine | project2/python/src/ensembples.py:161 | all-zero predictions leave nothing to correlate with the residual |
| LineSearch.Shifted | project2/python/src/ensembples.py:161-164 | the error along the line at `x` is the error after moving `a` by `x * pred` |
| LineSearch.StepWeightMinimises | project2/python/src/ensembples.py:161 | the stage weight gives an error no greater than any real `x` does |
| LineSearch.StepWeightMinimisesMean | project2/python/src/ensembples.py:161 | the same for the mean that `minimize_scalar` is given |
| LineSearch.StageDoesNotIncreaseError | project2/python/src/ensembples.py:161-164 | a step of `lr * weight` with `0 <= lr <= 2` does not raise the squared training error |
| RandomForest.ForestRounds | project2/python/src/ensembples.py:57-68 | `T` rounds append exactly `T` slots; slot `t` holds the feature draws of call `first + 2t + 1` and the tree that `Learners.Train` gives on the rows of call `first + 2t`, those columns and the targets `y[obj]`; every stored vector has the feature size and lies in `[0, d)` |
| RandomForest.RoundLearner | project2/python/src/ensembples.py:58-66 | the tree of a round: `Learners.Train` on the first call's rows, the second call's columns and `y` at the sampled rows; no contract of its own, stated through `ForestRounds` |
| RandomForest.Appended | project2/python/src/ensembples.py:67-68 | one more round appends its slot behind whatever the lists held |
| RandomForest.ForestSum | project2/python/src/ensembples.py:83-86 | the slot sum succeeds exactly when every slot predicts, and then row `i` is the sum of the trees' predictions on row `i`; otherwise it fails with the first failing slot's error |
| RandomForest.ForestPredict | project2/python/src/ensembples.py:83-88 | `predict` fails as the sum does, gives NaN for zero estimators and some rows, and otherwise returns each row's sum divided by `n_estimators` |
| RandomForest.FittedForestPredicts | project2/python/src/ensembples.py:57-88 | a forest fitted once with `T > 0` predicts any non-empty matrix at least as wide as the training one, and row `i` is the mean of the trees' predictions |
| RandomForest.NoRoundsPredictsZeros | project2/python/src/ensembples.py:57-88 | with `n_estimators < 0` a fit stores no slot, and `predict` then returns the all-zero vector |
| RandomForest.SlotDecides | project2/python/src/ensembples.py:85-86 | the first slot that fails decides the error of `predict` |
| RandomForest.RandomForestMSE.constructor | project2/python/src/ensembples.py:9-30 | every argument is stored, the lists start empty and the random state is seeded |
| RandomForest.RandomForestMSE.SampleIndices | project2/python/src/ensembples.py:33-34 | as `Sampling.RandomSource.Choice` |
| RandomForest.RandomForestMSE.Fit | project2/python/src/ensembples.py:36-70 | the sizes are resolved and stick. A division error, or a failure of the first round, leaves the lists as they were. Otherwise `T` rounds' slots are appended to the old lists and `2T` sampler calls are consumed |
| RandomForest.RandomForestMSE.Grow | project2/python/src/ensembples.py:57-68 | the loop appends the slots of `ForestRounds` or fails in its first round, and keeps the lists parallel |
| RandomForest.RandomForestMSE.TrainRound | project2/python/src/ensembples.py:58-66 | one round consumes two sampler calls and yields the feature draws and the tree of `ForestRounds`; a failing round reports `RoundFailure` |
| RandomForest.RandomForestMSE.Predict | project2/python/src/ensembples.py:73-88 | the prediction loop computes `ForestPredict` of the stored lists |
| GradientBoosting.Targets | project2/python/src/ensembples.py:155 | one target per sampled row; times `len(obj)` it is `2 (a - y)` there; positive exactly where the prediction is too high, zero exactly where it is exact |
| GradientBoosting.BoostStage | project2/python/src/ensembples.py:146-161 | a stage's columns are the second call's draws; its tree is `Learners.Train` on the first call's rows `obj`, those columns and the targets `Targets(a_y, y, obj)`; its predictions are the tree's on every restricted training row; its weight is the line-search minimiser at the running prediction |
| GradientBoosting.StagedSum | project2/python/src/ensembples.py:182-183 | the weighted sum of the slots' predictions has one entry per row |
| GradientBoosting.BoostRounds | project2/python/src/ensembples.py:143-164 | `T` stages store exactly `T` aligned entries in each list; stage `t` stores what `StageAt` trains; every stored vector has the feature size and lies in `[0, d)` |
| GradientBoosting.StageAt | project2/python/src/ensembples.py:145-164 | stage `t` draws its columns from call `first + 2t + 1`, trains `Learners.Train` on the rows of call `first + 2t` against `Targets` at the running prediction the first `t` stages leave, and its weight is `StepWeight` at that prediction |
| GradientBoosting.RunningIsStagedSum | project2/python/src/ensembples.py:143-164 | the running prediction `a_y` always equals `sum_t lr * w_t * p_t` over the stored stages |
| GradientBoosting.Truncated | project2/python/src/ensembples.py:157-163 | one more stage appends one entry to each list and leaves the earlier entries alone |
| GradientBoosting.StageAppended | project2/python/src/ensembples.py:157-164 | one more stage appends its entries and moves `a_y` by `lr * w * pred` |
| GradientBoosting.StoredWeightMinimises | project2/python/src/ensembples.py:160-163 | every stored weight minimises `mean((y - a_y - x * pred) ** 2)` over all reals `x`, `x = 0` included, at that stage's running prediction |
| GradientBoosting.StageKeepsErrorDown | project2/python/src/ensembples.py:160-164 | with `0 <= lr <= 2` no stage raises the squared training error |
| GradientBoosting.FitKeepsErrorDown | project2/python/src/ensembples.py:143-164 | with `0 <= lr <= 2` the fitted training error is at most that of the all-zero start |
| GradientBoosting.BoostSum | project2/python/src/ensembples.py:180-183 | `predict` succeeds exactly when every slot predicts, and then it is `StagedSum`; otherwise it fails with the first failing slot's error |
| GradientBoosting.PredictRecoversRunning | project2/python/src/ensembples.py:143-185 | predicting the training matrix after `fit` returns the final `a_y` |
| GradientBoosting.StageDecides | project2/python/src/ensembples.py:182-183 | the first slot that fails decides the error of `predict` |
| GradientBoosting.GradientBoostingMSE.constructor | project2/python/src/ensembples.py:92-117 | every argument is stored, with defaults `learning_rate = 0.1` and `max_depth = 5`; the lists start empty and the random state is seeded |
| GradientBoosting.GradientBoostingMSE.SampleIndices | project2/python/src/ensembples.py:119-120 | as `Sampling.RandomSource.Choice` |
| GradientBoosting.GradientBoostingMSE.Fit | project2/python/src/ensembples.py:122-167 | the lists are emptied first, and the sizes are resolved and stick. A division error or a failing first stage leaves the lists empty. Otherwise the lists are exactly those of `T` stages of `BoostRounds`, and `2T` sampler calls are consumed |
| GradientBoosting.GradientBoostingMSE.Grow | project2/python/src/ensembples.py:143-164 | the loop, started from `a_y = 0`, fills the lists with `BoostRounds` or fails in its first stage |
| GradientBoosting.GradientBoostingMSE.RunStage | project2/python/src/ensembples.py:146-164 | one stage consumes two sampler calls, appends the columns, tree and weight of `BoostStage`, and returns `a_y + lr * w * pred`; a failing stage reports `RoundFailure` and changes no list |
| GradientBoosting.GradientBoostingMSE.Predict | project2/python/src/ensembples.py:170-185 | the prediction loop computes `BoostSum` of the stored lists |

## Left out

- Tree induction inside `DecisionTreeRegressor` (lines 4, 58-60, 146-148)
  is the oracle `induce`. `max_depth` and `**trees_parameters` are passed
  to it unread.
- Errors from the tree's own configuration are not modelled, because
  `induce` accepts every configuration. `DecisionTreeRegressor(...)`
  raises `TypeError` for a keyword in `**trees_parameters` that it does
  not know (lines 58-60 and 146-148). scikit-learn raises `ValueError` at
  `est.fit` for `max_depth < 1` or a parameter value it rejects (lines 66
  and 155). In the model such a `fit` passes and stores trees.
- Sampling.Draws: only the length and the bound of the drawn indices are
  modelled, not their uniform distribution.
- Sampling.RandomSource.Choice: the stream is indexed by sampler call.
  Whatever else draws from numpy's global state between two calls, the
  tree fit included, is folded into what the next call yields. With
  `random_seed=None`, the seed is also just the stream it selects.
- The trees' own randomness is not modelled.
  `DecisionTreeRegressor(random_state=None)` (lines 58 and 146) seeds its
  splitter from numpy's global state, and the splitter breaks ties
  between equally good splits with it. `induce` sees only the
  configuration, the training matrix and the targets. The model therefore
  gives identical trees for identical training data. No proved property
  rests on this.
- LineSearch.StepWeight: `minimize_scalar`'s Brent search and its
  tolerance are replaced by the exact minimiser `sum((y - a) p) / sum(p^2)`.
  When every prediction is zero, every `x` is a minimiser and the model
  picks `0`. The contracts do not state that the minimiser is unique.
- Floating point: rounding, overflow and infinities are not modelled.
  NaN appears only as the `NonFinite` outcome of the forest's `predict`
  with `n_estimators == 0`.
- `**trees_parameters` is a map from strings to strings, where Python
  allows any values.
- `feature_subsample_size` is a natural number or unset. A negative or
  fractional value given by the user is not modelled.
- The precondition `X.cols <= |X.rows|` rules out the `IndexError` that
  `X[obj_ind]` raises when more columns than rows let a drawn index
  exceed the last row. The precondition `|y| == |X.rows|` rules out
  mismatched targets.
- scikit-learn's other input validation (non-finite inputs, dtype
  checks) and its fitted-state checks are not modelled. `predict` on a
  matrix wider than the training one is accepted, as in the code.
- The ignored `X_val` and `y_val` parameters (lines 36, 122) and the
  unused imports (lines 3, 5) have no behaviour. `fit` returns an
  `Outcome` in place of `self`.
