/** `GradientBoostingMSE`: trees fitted one after another, each to the
    gradient of the mean squared error of the ensemble built so far, and
    added with the weight a line search picks, scaled by `learning_rate`. */
module GradientBoosting {
  import opened Outcomes
  import opened Linalg
  import opened Sampling
  import opened Learners
  import opened Defaults
  import opened LineSearch

  /** `2 * (a_y[obj] - y[obj]) / len(obj)`: the gradient of the mean
      squared error over the sampled rows with respect to the current
      predictions there. It points away from `y`: positive where the current
      prediction is too high, zero where it is exact. */
  function Targets(a: seq<real>, y: seq<real>, obj: seq<nat>): (g: seq<real>)
    requires |a| == |y| && InRange(obj, |y|)
    ensures |g| == |obj|
    ensures forall j :: 0 <= j < |obj| ==>
              g[j] * (|obj| as real) == 2.0 * (a[obj[j]] - y[obj[j]]) &&
              (g[j] > 0.0 <==> a[obj[j]] > y[obj[j]]) &&
              (g[j] == 0.0 <==> a[obj[j]] == y[obj[j]])
  {
    var m := |obj|;
    var g := seq(m, j requires 0 <= j < m => 2.0 * (a[obj[j]] - y[obj[j]]) / (m as real));
    assert forall j :: 0 <= j < m ==>
             g[j] * (m as real) == 2.0 * (a[obj[j]] - y[obj[j]]) &&
             (g[j] > 0.0 <==> a[obj[j]] > y[obj[j]]) &&
             (g[j] == 0.0 <==> a[obj[j]] == y[obj[j]]) by {
      forall j | 0 <= j < m {
        GradientEntry(a[obj[j]] - y[obj[j]], m as real);
      }
    }
    g
  }

  /** One entry of the gradient, `2d / m` for `m > 0` rows. */
  lemma GradientEntry(d: real, m: real)
    requires m > 0.0
    ensures (2.0 * d / m) * m == 2.0 * d
    ensures 2.0 * d / m > 0.0 <==> d > 0.0
    ensures 2.0 * d / m == 0.0 <==> d == 0.0
  {
    var g := 2.0 * d / m;
    assert g * m == 2.0 * d;
    if d > 0.0 {
      assert g > 0.0;
    }
    if g > 0.0 {
      assert d > 0.0;
    }
  }

  /** What one stage stores and computes: its column indices, its tree, the
      tree's predictions on every training row and the stage weight. */
  datatype Stage = Stage(feat: seq<nat>, learner: Learner, pred: seq<real>, weight: real)

  /** The stage trained when the running prediction is `a` and its two
      sampler calls are `call` and `call + 1`, both drawing from
      `[0, X.shape[1])`, the first for rows. */
  function BoostStage(choose: Chooser, call: nat, X: Matrix, y: seq<real>, k: nat,
                      config: TreeConfig, induce: Induce, a: seq<real>): (s: Stage)
    requires |y| == |X.rows| && |a| == |y| && X.cols <= |X.rows| && RoundFailure(X.cols, k).None?
    ensures s.feat == Draws(choose, call + 1, X.cols, k)
    ensures var obj := Draws(choose, call, X.cols, k);
            s.learner == Train(X, obj, s.feat, Targets(a, y, obj), config, induce)
    ensures s.pred == PredictRows(s.learner, Columns(X, s.feat))
    ensures |s.pred| == |X.rows| &&
            forall i :: 0 <= i < |X.rows| ==> s.pred[i] == s.learner(Restrict(X.rows[i], s.feat))
    ensures s.weight == StepWeight(y, a, s.pred)
  {
    var obj := Draws(choose, call, X.cols, k);
    var feat := Draws(choose, call + 1, X.cols, k);
    var learner := Train(X, obj, feat, Targets(a, y, obj), config, induce);
    var pred := PredictRows(learner, Columns(X, feat));
    assert forall i :: 0 <= i < |X.rows| ==> pred[i] == learner(Restrict(X.rows[i], feat)) by {
      forall i | 0 <= i < |X.rows| {
        SlotPredictionAt(learner, feat, X, i);
      }
    }
    Stage(feat, learner, pred, StepWeight(y, a, pred))
  }

  /** The three parallel lists and the running prediction `a_y`. */
  datatype Boost = Boost(indices: seq<seq<nat>>, estimators: seq<Learner>, weights: seq<real>,
                         running: seq<real>)

  /** `sum_t lr * w_t * est_t.predict(X[:, feat_t])` over the stored
      slots, from the all-zero vector. */
  function StagedSum(lr: real, indices: seq<seq<nat>>, estimators: seq<Learner>, weights: seq<real>,
                     X: Matrix): (v: seq<real>)
    requires |indices| == |estimators| == |weights| && AllInRange(indices, X.cols)
    ensures |v| == |X.rows|
    decreases |indices|
  {
    if |indices| == 0 then Zeros(|X.rows|)
    else
      var last := |indices| - 1;
      AddScaled(StagedSum(lr, indices[..last], estimators[..last], weights[..last], X),
                Step(lr, weights[last]), PredictRows(estimators[last], Columns(X, indices[last])))
  }

  /** What `rounds` stages of `fit` leave behind, starting at sampler call
      `first` with `a_y = 0`: stage `t` stores what `StageAt` says. */
  function BoostRounds(choose: Chooser, first: nat, X: Matrix, y: seq<real>, k: nat, lr: real,
                       config: TreeConfig, induce: Induce, rounds: nat): (b: Boost)
    requires |y| == |X.rows| && X.cols <= |X.rows|
    requires rounds == 0 || RoundFailure(X.cols, k).None?
    ensures |b.indices| == rounds && |b.estimators| == rounds && |b.weights| == rounds
    ensures |b.running| == |X.rows|
    ensures forall t :: 0 <= t < rounds ==>
              |b.indices[t]| == k && InRange(b.indices[t], X.cols)
    ensures forall t :: 0 <= t < rounds ==>
              var s := StageAt(choose, first, X, y, k, lr, config, induce, t);
              b.indices[t] == s.feat && b.estimators[t] == s.learner && b.weights[t] == s.weight
    decreases rounds, 0
  {
    if rounds == 0 then Boost([], [], [], Zeros(|X.rows|))
    else
      var b := BoostRounds(choose, first, X, y, k, lr, config, induce, rounds - 1);
      var s := BoostStage(choose, first + 2 * (rounds - 1), X, y, k, config, induce, b.running);
      assert s == StageAt(choose, first, X, y, k, lr, config, induce, rounds - 1);
      Boost(b.indices + [s.feat], b.estimators + [s.learner], b.weights + [s.weight],
            AddScaled(b.running, Step(lr, s.weight), s.pred))
  }

  /** Stage `t` of `fit`: sampler calls `first + 2t` and `first + 2t + 1`,
      trained at the running prediction the earlier stages left. */
  function StageAt(choose: Chooser, first: nat, X: Matrix, y: seq<real>, k: nat, lr: real,
                   config: TreeConfig, induce: Induce, t: nat): (s: Stage)
    requires |y| == |X.rows| && X.cols <= |X.rows| && RoundFailure(X.cols, k).None?
    ensures var obj := Draws(choose, first + 2 * t, X.cols, k);
            var a := BoostRounds(choose, first, X, y, k, lr, config, induce, t).running;
            s.feat == Draws(choose, first + 2 * t + 1, X.cols, k) &&
            s.learner == Train(X, obj, s.feat, Targets(a, y, obj), config, induce) &&
            |s.pred| == |X.rows| && s.weight == StepWeight(y, a, s.pred)
    decreases t, 1
  {
    BoostStage(choose, first + 2 * t, X, y, k, config, induce,
               BoostRounds(choose, first, X, y, k, lr, config, induce, t).running)
  }

  /** The loop invariant of `fit`: the running prediction `a_y` is the
      weighted sum of the stored trees' predictions on the training rows. */
  lemma {:induction false} RunningIsStagedSum(choose: Chooser, first: nat, X: Matrix, y: seq<real>, k: nat,
                                              lr: real, config: TreeConfig, induce: Induce, rounds: nat)
    requires |y| == |X.rows| && X.cols <= |X.rows| && (rounds == 0 || RoundFailure(X.cols, k).None?)
    ensures var b := BoostRounds(choose, first, X, y, k, lr, config, induce, rounds);
            b.running == StagedSum(lr, b.indices, b.estimators, b.weights, X)
  {
    if rounds > 0 {
      var last := rounds - 1;
      RunningIsStagedSum(choose, first, X, y, k, lr, config, induce, last);
      var c := BoostRounds(choose, first, X, y, k, lr, config, induce, last);
      var s := BoostStage(choose, first + 2 * last, X, y, k, config, induce, c.running);
      Truncated(choose, first, X, y, k, lr, config, induce, last, s);
      var b := BoostRounds(choose, first, X, y, k, lr, config, induce, rounds);
      assert b.indices[last] == s.feat && b.estimators[last] == s.learner && b.weights[last] == s.weight;
    }
  }

  /** The stage after the first `rounds`: dropping it gives those back. */
  lemma Truncated(choose: Chooser, first: nat, X: Matrix, y: seq<real>, k: nat, lr: real,
                  config: TreeConfig, induce: Induce, rounds: nat, s: Stage)
    requires |y| == |X.rows| && X.cols <= |X.rows| && RoundFailure(X.cols, k).None?
    requires s == BoostStage(choose, first + 2 * rounds, X, y, k, config, induce,
                             BoostRounds(choose, first, X, y, k, lr, config, induce, rounds).running)
    ensures var b := BoostRounds(choose, first, X, y, k, lr, config, induce, rounds + 1);
            var c := BoostRounds(choose, first, X, y, k, lr, config, induce, rounds);
            b.indices == c.indices + [s.feat] && b.estimators == c.estimators + [s.learner] &&
            b.weights == c.weights + [s.weight] &&
            b.indices[..rounds] == c.indices && b.estimators[..rounds] == c.estimators &&
            b.weights[..rounds] == c.weights
  {
    StageAppended(choose, first, X, y, k, lr, config, induce, rounds, first + 2 * rounds, s);
    var c := BoostRounds(choose, first, X, y, k, lr, config, induce, rounds);
    assert (c.indices + [s.feat])[..rounds] == c.indices;
    assert (c.estimators + [s.learner])[..rounds] == c.estimators;
    assert (c.weights + [s.weight])[..rounds] == c.weights;
  }

  /** One more stage is the stage trained on the running prediction so far. */
  lemma StageAppended(choose: Chooser, first: nat, X: Matrix, y: seq<real>, k: nat, lr: real,
                      config: TreeConfig, induce: Induce, rounds: nat, call: nat, s: Stage)
    requires |y| == |X.rows| && X.cols <= |X.rows| && RoundFailure(X.cols, k).None?
    requires call == first + 2 * rounds
    requires s == BoostStage(choose, call, X, y, k, config, induce,
                             BoostRounds(choose, first, X, y, k, lr, config, induce, rounds).running)
    ensures var b := BoostRounds(choose, first, X, y, k, lr, config, induce, rounds);
            BoostRounds(choose, first, X, y, k, lr, config, induce, rounds + 1) ==
            Boost(b.indices + [s.feat], b.estimators + [s.learner], b.weights + [s.weight],
                  AddScaled(b.running, Step(lr, s.weight), s.pred))
  {
  }

  /** Every stored weight minimises the mean squared error along its
      stage's line over all reals `x`, `x = 0` (leaving `a_y` as it was)
      included: `a` is the running prediction before stage `t`, `p` the
      stage's predictions. */
  lemma StoredWeightMinimises(choose: Chooser, first: nat, X: Matrix, y: seq<real>, k: nat, lr: real,
                              config: TreeConfig, induce: Induce, rounds: nat, t: nat, x: real)
    requires |y| == |X.rows| && X.cols <= |X.rows| && RoundFailure(X.cols, k).None?
    requires t < rounds
    ensures var b := BoostRounds(choose, first, X, y, k, lr, config, induce, rounds);
            var a := BoostRounds(choose, first, X, y, k, lr, config, induce, t).running;
            var p := PredictRows(b.estimators[t], Columns(X, b.indices[t]));
            |y| > 0 && Objective(y, a, p, b.weights[t]) <= Objective(y, a, p, x)
  {
    var b := BoostRounds(choose, first, X, y, k, lr, config, induce, rounds);
    var a := BoostRounds(choose, first, X, y, k, lr, config, induce, t).running;
    var s := StageAt(choose, first, X, y, k, lr, config, induce, t);
    assert b.indices[t] == s.feat && b.estimators[t] == s.learner && b.weights[t] == s.weight;
    StepWeightMinimisesMean(y, a, s.pred, x);
  }

  /** With `0 <= learning_rate <= 2` no stage raises the squared training
      error of the running prediction. */
  lemma StageKeepsErrorDown(choose: Chooser, first: nat, X: Matrix, y: seq<real>, k: nat, lr: real,
                            config: TreeConfig, induce: Induce, t: nat)
    requires |y| == |X.rows| && X.cols <= |X.rows| && RoundFailure(X.cols, k).None?
    requires 0.0 <= lr <= 2.0
    ensures Sse(y, BoostRounds(choose, first, X, y, k, lr, config, induce, t + 1).running) <=
            Sse(y, BoostRounds(choose, first, X, y, k, lr, config, induce, t).running)
  {
    var a := BoostRounds(choose, first, X, y, k, lr, config, induce, t).running;
    var s := BoostStage(choose, first + 2 * t, X, y, k, config, induce, a);
    StageDoesNotIncreaseError(y, a, s.pred, lr);
  }

  /** Hence the fitted ensemble's training error is at most that of the
      all-zero prediction `fit` starts from. */
  lemma {:induction false} FitKeepsErrorDown(choose: Chooser, first: nat, X: Matrix, y: seq<real>, k: nat, lr: real,
                                             config: TreeConfig, induce: Induce, rounds: nat)
    requires |y| == |X.rows| && X.cols <= |X.rows| && (rounds == 0 || RoundFailure(X.cols, k).None?)
    requires 0.0 <= lr <= 2.0
    ensures Sse(y, BoostRounds(choose, first, X, y, k, lr, config, induce, rounds).running) <=
            Sse(y, Zeros(|y|))
  {
    if rounds > 0 {
      FitKeepsErrorDown(choose, first, X, y, k, lr, config, induce, rounds - 1);
      StageKeepsErrorDown(choose, first, X, y, k, lr, config, induce, rounds - 1);
    }
  }

  /** The `predictions` vector `predict` returns: it raises at the first
      slot whose indexing or prediction raises, and otherwise holds, row by
      row, the weighted sum of the trees' predictions. */
  function BoostSum(lr: real, indices: seq<seq<nat>>, estimators: seq<Learner>, weights: seq<real>,
                    X: Matrix): (r: Result<seq<real>>)
    requires |indices| == |estimators| == |weights|
    ensures r.Ok? <==> forall t :: 0 <= t < |indices| ==> SlotFailure(indices[t], X).None?
    ensures r.Ok? ==> AllInRange(indices, X.cols) && r.value == StagedSum(lr, indices, estimators, weights, X)
    ensures r.Err? ==> exists t :: 0 <= t < |indices| && SlotFailure(indices[t], X) == Some(r.failure) &&
                                   forall u :: 0 <= u < t ==> SlotFailure(indices[u], X).None?
    decreases |indices|
  {
    if |indices| == 0 then Ok(Zeros(|X.rows|))
    else
      var last := |indices| - 1;
      var prev := BoostSum(lr, indices[..last], estimators[..last], weights[..last], X);
      assert forall t :: 0 <= t < last ==> indices[..last][t] == indices[t];
      if prev.Err? then prev
      else match SlotFailure(indices[last], X)
        case Some(f) =>
          assert forall u :: 0 <= u < last ==> SlotFailure(indices[u], X).None?;
          Err(f)
        case None =>
          Ok(AddScaled(prev.value, Step(lr, weights[last]),
                       PredictRows(estimators[last], Columns(X, indices[last]))))
  }

  /** Predicting the training matrix after `fit` gives back the final
      running prediction `a_y`. */
  lemma PredictRecoversRunning(choose: Chooser, first: nat, X: Matrix, y: seq<real>, k: nat, lr: real,
                               config: TreeConfig, induce: Induce, rounds: nat)
    requires |y| == |X.rows| && X.cols <= |X.rows| && (rounds == 0 || RoundFailure(X.cols, k).None?)
    ensures var b := BoostRounds(choose, first, X, y, k, lr, config, induce, rounds);
            BoostSum(lr, b.indices, b.estimators, b.weights, X) == Ok(b.running)
  {
    var b := BoostRounds(choose, first, X, y, k, lr, config, induce, rounds);
    forall t | 0 <= t < rounds
      ensures SlotFailure(b.indices[t], X).None?
    {
    }
    RunningIsStagedSum(choose, first, X, y, k, lr, config, induce, rounds);
  }

  /** scikit-learn-style gradient boosting for regression. */
  class GradientBoostingMSE {
    const nEstimators: int
    const learningRate: real
    const maxDepth: Option<int>
    const treeParameters: map<string, string>
    /** numpy's global random state, shared with whatever else uses it. */
    const rng: RandomSource
    var featureSubsampleSize: Option<nat>
    var objectSubsampleSize: Option<int>
    var indices: seq<seq<nat>>
    var estimators: seq<Learner>
    var weights: seq<real>

    /** The three lists are parallel, and every stored column-index vector
        has the resolved feature subsample size. */
    ghost predicate Valid()
      reads this
    {
      |indices| == |estimators| == |weights| &&
      (featureSubsampleSize.None? ==> indices == []) &&
      (featureSubsampleSize.Some? ==>
         forall t :: 0 <= t < |indices| ==> |indices[t]| == featureSubsampleSize.value)
    }

    /** `GradientBoostingMSE(n_estimators, learning_rate=0.1, max_depth=5,
        feature_subsample_size, object_subsample_size, random_seed,
        **trees_parameters)`; the seed is given by the stream it selects. */
    constructor (nEstimators: int, rng: RandomSource, seeded: Chooser,
                 learningRate: real := 0.1, maxDepth: Option<int> := Some(5),
                 featureSubsampleSize: Option<nat> := None, objectSubsampleSize: Option<int> := None,
                 treeParameters: map<string, string> := map[])
      modifies rng
      ensures Valid()
      ensures this.nEstimators == nEstimators && this.learningRate == learningRate &&
              this.maxDepth == maxDepth && this.treeParameters == treeParameters && this.rng == rng
      ensures this.featureSubsampleSize == featureSubsampleSize &&
              this.objectSubsampleSize == objectSubsampleSize
      ensures indices == [] && estimators == [] && weights == []
      ensures rng.choose == seeded && rng.calls == 0
    {
      this.nEstimators := nEstimators;
      this.learningRate := learningRate;
      this.maxDepth := maxDepth;
      this.featureSubsampleSize := featureSubsampleSize;
      this.objectSubsampleSize := objectSubsampleSize;
      this.treeParameters := treeParameters;
      this.rng := rng;
      indices := [];
      estimators := [];
      weights := [];
      new;
      rng.Reseed(seeded);
    }

    /** `_sample_indices(maximum, size)`. */
    method SampleIndices(maximum: nat, size: nat) returns (r: Result<seq<nat>>)
      modifies rng
      ensures rng.choose == old(rng.choose)
      ensures Refused(maximum, size) ==> r == Err(EmptyPopulation) && rng.calls == old(rng.calls)
      ensures !Refused(maximum, size) ==>
                r == Ok(Draws(rng.choose, old(rng.calls), maximum, size)) && rng.calls == old(rng.calls) + 1
    {
      r := rng.Choice(maximum, size);
    }

    /** `fit(X, y)`: empties the three lists, resolves the subsample sizes,
        then runs the stages from `a_y = 0`. */
    method Fit(X: Matrix, y: seq<real>, induce: Induce) returns (outcome: Outcome)
      requires Valid() && |y| == |X.rows| && X.cols <= |X.rows|
      modifies this, rng
      ensures Valid()
      ensures rng.choose == old(rng.choose)
      ensures featureSubsampleSize == Some(ResolveFeatureSize(old(featureSubsampleSize), X.cols))
      ensures var o := ResolveObjectSize(old(objectSubsampleSize), |X.rows|, nEstimators);
              o.Err? ==>
                outcome == Fail(o.failure) && objectSubsampleSize == old(objectSubsampleSize) &&
                indices == [] && estimators == [] && weights == [] && rng.calls == old(rng.calls)
      ensures var k := ResolveFeatureSize(old(featureSubsampleSize), X.cols);
              var o := ResolveObjectSize(old(objectSubsampleSize), |X.rows|, nEstimators);
              o.Ok? && 0 < Rounds(nEstimators) && RoundFailure(X.cols, k).Some? ==>
                outcome == Fail(RoundFailure(X.cols, k).value) && objectSubsampleSize == Some(o.value) &&
                indices == [] && estimators == [] && weights == [] &&
                rng.calls == old(rng.calls) + (if Refused(X.cols, k) then 0 else 2)
      ensures var k := ResolveFeatureSize(old(featureSubsampleSize), X.cols);
              var o := ResolveObjectSize(old(objectSubsampleSize), |X.rows|, nEstimators);
              var rounds := Rounds(nEstimators);
              o.Ok? && (rounds == 0 || RoundFailure(X.cols, k).None?) ==>
                var b := BoostRounds(rng.choose, old(rng.calls), X, y, k, learningRate,
                                     TreeConfig(maxDepth, treeParameters), induce, rounds);
                outcome == Pass && objectSubsampleSize == Some(o.value) &&
                indices == b.indices && estimators == b.estimators && weights == b.weights &&
                rng.calls == old(rng.calls) + 2 * rounds
    {
      estimators := [];
      indices := [];
      weights := [];
      featureSubsampleSize := Some(ResolveFeatureSize(featureSubsampleSize, X.cols));
      var o := ResolveObjectSize(objectSubsampleSize, |X.rows|, nEstimators);
      if o.Err? {
        return Fail(o.failure);
      }
      objectSubsampleSize := Some(o.value);
      outcome := Grow(X, y, induce);
    }

    /** The loop of `fit`: one stage per round, each fitted to the gradient
        at the running prediction `a_y`, which the stage then moves along
        its predictions. A stage that raises raises in the first round. */
    method Grow(X: Matrix, y: seq<real>, induce: Induce) returns (outcome: Outcome)
      requires featureSubsampleSize.Some? && |y| == |X.rows| && X.cols <= |X.rows|
      requires indices == [] && estimators == [] && weights == []
      modifies this`indices, this`estimators, this`weights, rng
      ensures Valid()
      ensures rng.choose == old(rng.choose)
      ensures var k := featureSubsampleSize.value;
              0 < Rounds(nEstimators) && RoundFailure(X.cols, k).Some? ==>
                outcome == Fail(RoundFailure(X.cols, k).value) &&
                indices == [] && estimators == [] && weights == [] &&
                rng.calls == old(rng.calls) + (if Refused(X.cols, k) then 0 else 2)
      ensures var k := featureSubsampleSize.value;
              var rounds := Rounds(nEstimators);
              rounds == 0 || RoundFailure(X.cols, k).None? ==>
                var b := BoostRounds(rng.choose, old(rng.calls), X, y, k, learningRate,
                                     TreeConfig(maxDepth, treeParameters), induce, rounds);
                outcome == Pass &&
                indices == b.indices && estimators == b.estimators && weights == b.weights &&
                rng.calls == old(rng.calls) + 2 * rounds
    {
      var k := featureSubsampleSize.value;
      var config := TreeConfig(maxDepth, treeParameters);
      var rounds := Rounds(nEstimators);
      ghost var choose, first := rng.choose, rng.calls;
      var running := Zeros(|y|);
      var t := 0;
      while t < rounds
        invariant 0 <= t <= rounds
        invariant rng.choose == choose && rng.calls == first + 2 * t
        invariant t == 0 || RoundFailure(X.cols, k).None?
        invariant Boost(indices, estimators, weights, running) ==
                  BoostRounds(choose, first, X, y, k, learningRate, config, induce, t)
      {
        ghost var call := rng.calls;
        ghost var before := running;
        var next := RunStage(X, y, induce, k, config, running);
        if next.Err? {
          assert t == 0;
          assert indices == [] && estimators == [] && weights == [];
          return Fail(next.failure);
        }
        StageAppended(choose, first, X, y, k, learningRate, config, induce, t, call,
                      BoostStage(choose, call, X, y, k, config, induce, before));
        running := next.value;
        t := t + 1;
      }
      assert t == rounds;
      return Pass;
    }

    /** The body of the loop of `fit`: two sampler calls, the tree fitted
        to the gradient targets on the sampled rows and columns, its
        predictions on every row, the line search, the appends, and the
        running prediction moved along the predictions. */
    method RunStage(X: Matrix, y: seq<real>, induce: Induce, k: nat, config: TreeConfig, running: seq<real>)
      returns (r: Result<seq<real>>)
      requires |y| == |X.rows| && |running| == |y| && X.cols <= |X.rows|
      modifies this`indices, this`estimators, this`weights, rng
      ensures rng.choose == old(rng.choose)
      ensures RoundFailure(X.cols, k).Some? ==>
                r == Err(RoundFailure(X.cols, k).value) &&
                indices == old(indices) && estimators == old(estimators) && weights == old(weights) &&
                rng.calls == old(rng.calls) + (if Refused(X.cols, k) then 0 else 2)
      ensures RoundFailure(X.cols, k).None? ==>
                var s := BoostStage(rng.choose, old(rng.calls), X, y, k, config, induce, running);
                r == Ok(AddScaled(running, Step(learningRate, s.weight), s.pred)) &&
                indices == old(indices) + [s.feat] && estimators == old(estimators) + [s.learner] &&
                weights == old(weights) + [s.weight] &&
                rng.calls == old(rng.calls) + 2
    {
      var obj := SampleIndices(X.cols, k);
      if obj.Err? {
        return Err(obj.failure);
      }
      var feat := SampleIndices(X.cols, k);
      if Degenerate(|obj.value|, |feat.value|) {
        return Err(EmptyInput);
      }
      var est := Train(X, obj.value, feat.value, Targets(running, y, obj.value), config, induce);
      indices := indices + [feat.value];
      estimators := estimators + [est];
      var pred := PredictRows(est, Columns(X, feat.value));
      var weight := StepWeight(y, running, pred);
      weights := weights + [weight];
      r := Ok(AddScaled(running, Step(learningRate, weight), pred));
    }

    /** `predict(X)`. */
    method Predict(X: Matrix) returns (r: Result<seq<real>>)
      requires Valid()
      ensures r == BoostSum(learningRate, indices, estimators, weights, X)
    {
      var predictions := Zeros(|X.rows|);
      var t := 0;
      while t < |indices|
        invariant 0 <= t <= |indices|
        invariant BoostSum(learningRate, indices[..t], estimators[..t], weights[..t], X) == Ok(predictions)
      {
        var feat := indices[t];
        if !InRange(feat, X.cols) {
          StageDecides(learningRate, indices, estimators, weights, X, t);
          return Err(ColumnOutOfRange);
        }
        if Degenerate(|X.rows|, |feat|) {
          StageDecides(learningRate, indices, estimators, weights, X, t);
          return Err(EmptyInput);
        }
        predictions := AddScaled(predictions, Step(learningRate, weights[t]), PredictRows(estimators[t], Columns(X, feat)));
        t := t + 1;
        assert indices[..t][..t - 1] == indices[..t - 1];
        assert estimators[..t][..t - 1] == estimators[..t - 1];
        assert weights[..t][..t - 1] == weights[..t - 1];
      }
      assert indices[..t] == indices && estimators[..t] == estimators && weights[..t] == weights;
      return Ok(predictions);
    }
  }

  /** The first stage that raises decides the error of the whole sum. */
  lemma StageDecides(lr: real, indices: seq<seq<nat>>, estimators: seq<Learner>, weights: seq<real>,
                     X: Matrix, t: nat)
    requires |indices| == |estimators| == |weights| && t < |indices|
    requires BoostSum(lr, indices[..t], estimators[..t], weights[..t], X).Ok?
    requires SlotFailure(indices[t], X).Some?
    ensures BoostSum(lr, indices, estimators, weights, X) == Err(SlotFailure(indices[t], X).value)
  {
    assert forall u :: 0 <= u < t ==> indices[..t][u] == indices[u];
    var r := BoostSum(lr, indices, estimators, weights, X);
    var w :| 0 <= w < |indices| && SlotFailure(indices[w], X) == Some(r.failure) &&
             forall u :: 0 <= u < w ==> SlotFailure(indices[u], X).None?;
    assert w == t;
  }
}
