/** The weak learner, scikit-learn's `DecisionTreeRegressor`, seen from the
    ensembles: how a tree is induced is an oracle, and a trained tree
    predicts each row on its own, deterministically. */
module Learners {
  import opened Outcomes
  import opened Linalg
  import opened Sampling

  /** A trained tree: the prediction it makes for one row of its columns. */
  type Learner = seq<real> -> real

  /** `max_depth` and the `**trees_parameters` passed through, unread. */
  datatype TreeConfig = TreeConfig(maxDepth: Option<int>, parameters: map<string, string>)

  /** `DecisionTreeRegressor(max_depth=..., **params).fit(X, y)`. */
  type Induce = (TreeConfig, Matrix, seq<real>) -> Learner

  /** `est.fit(X[obj][:, feat], targets)`: a tree trained on the rows `obj`
      of `X`, restricted to the columns `feat`. */
  function Train(X: Matrix, obj: seq<nat>, feat: seq<nat>, targets: seq<real>,
                 config: TreeConfig, induce: Induce): Learner
    requires InRange(obj, |X.rows|) && InRange(feat, X.cols)
  {
    induce(config, Columns(Rows(X, obj), feat), targets)
  }

  /** `est.predict(X)`: one prediction per row. */
  function PredictRows(learner: Learner, X: Matrix): (p: seq<real>)
    ensures |p| == |X.rows|
  {
    seq(|X.rows|, r requires 0 <= r < |X.rows| => learner(X.rows[r]))
  }

  /** `est.predict(X[:, feat])` for a slot trained on the columns `feat`:
      row `r` of the result depends on row `r` of `X` alone. */
  lemma SlotPredictionAt(learner: Learner, feat: seq<nat>, X: Matrix, r: nat)
    requires InRange(feat, X.cols) && r < |X.rows|
    ensures |PredictRows(learner, Columns(X, feat))| == |X.rows|
    ensures PredictRows(learner, Columns(X, feat))[r] == learner(Restrict(X.rows[r], feat))
  {
  }

  /** scikit-learn refuses to fit or to predict a matrix with no rows or no
      columns. */
  predicate Degenerate(rows: nat, cols: nat)
  {
    rows == 0 || cols == 0
  }

  /** Why a training round of either ensemble raises, if it does. The first
      sampler call is refused when there is no column to draw from; if it is
      not, the tree is handed a `size`-by-`size` sample, which is empty when
      `size == 0`. Neither depends on the round, so if any round raises, the
      first one does. */
  function RoundFailure(d: nat, size: nat): (f: Option<Failure>)
    ensures f.None? <==> 0 < d && 0 < size
    ensures f == Some(EmptyPopulation) <==> Refused(d, size)
  {
    if Refused(d, size) then Some(EmptyPopulation)
    else if Degenerate(size, size) then Some(EmptyInput)
    else None
  }

  /** Why `est.predict(X[:, feat])` raises, if it does: a stored column index
      past the last column of `X`, or an empty matrix for the tree. */
  function SlotFailure(feat: seq<nat>, X: Matrix): (f: Option<Failure>)
    ensures f.None? <==> InRange(feat, X.cols) && 0 < |X.rows| && 0 < |feat|
  {
    if !InRange(feat, X.cols) then Some(ColumnOutOfRange)
    else if Degenerate(|X.rows|, |feat|) then Some(EmptyInput)
    else None
  }
}
