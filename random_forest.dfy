/** `RandomForestMSE`: trees trained on random row and column samples,
    whose predictions are summed and divided by `n_estimators`. */
module RandomForest {
  import opened Outcomes
  import opened Linalg
  import opened Sampling
  import opened Learners
  import opened Defaults

  /** The two parallel lists a forest keeps: the column indices each tree
      was trained on, and the trees. */
  datatype Forest = Forest(indices: seq<seq<nat>>, estimators: seq<Learner>)

  /** One round's contribution: the column indices and the tree. */
  datatype Slot = Slot(feat: seq<nat>, learner: Learner)

  /** The tree a round trains when its two sampler calls are `call` and
      `call + 1`; both draw from `[0, X.shape[1])`, the first for rows. */
  function RoundLearner(choose: Chooser, call: nat, X: Matrix, y: seq<real>, k: nat,
                        config: TreeConfig, induce: Induce): Learner
    requires |y| == |X.rows| && X.cols <= |X.rows| && RoundFailure(X.cols, k).None?
  {
    var obj := Draws(choose, call, X.cols, k);
    Train(X, obj, Draws(choose, call + 1, X.cols, k), Gather(y, obj), config, induce)
  }

  /** What `rounds` rounds of `fit` append, starting at sampler call `first`.
      Round `t` is made of sampler calls `first + 2t` and `first + 2t + 1`
      and of nothing else. */
  function ForestRounds(choose: Chooser, first: nat, X: Matrix, y: seq<real>, k: nat,
                        config: TreeConfig, induce: Induce, rounds: nat): (f: Forest)
    requires |y| == |X.rows| && X.cols <= |X.rows|
    requires rounds == 0 || RoundFailure(X.cols, k).None?
    ensures |f.indices| == rounds && |f.estimators| == rounds
    ensures forall t :: 0 <= t < rounds ==>
              f.indices[t] == Draws(choose, first + 2 * t + 1, X.cols, k) &&
              f.estimators[t] == RoundLearner(choose, first + 2 * t, X, y, k, config, induce)
    ensures forall t :: 0 <= t < rounds ==> |f.indices[t]| == k && InRange(f.indices[t], X.cols)
    ensures forall t :: 0 <= t < rounds ==>
              var obj := Draws(choose, first + 2 * t, X.cols, k);
              f.estimators[t] == Train(X, obj, f.indices[t], Gather(y, obj), config, induce)
  {
    if rounds == 0 then Forest([], [])
    else
      var f := ForestRounds(choose, first, X, y, k, config, induce, rounds - 1);
      var call := first + 2 * (rounds - 1);
      Forest(f.indices + [Draws(choose, call + 1, X.cols, k)],
             f.estimators + [RoundLearner(choose, call, X, y, k, config, induce)])
  }

  /** One more round appends the slot made of the next two sampler calls
      to whatever the lists held before. */
  lemma Appended(indices: seq<seq<nat>>, estimators: seq<Learner>, choose: Chooser, first: nat,
                 X: Matrix, y: seq<real>, k: nat, config: TreeConfig, induce: Induce,
                 rounds: nat, call: nat, slot: Slot)
    requires |y| == |X.rows| && X.cols <= |X.rows| && RoundFailure(X.cols, k).None?
    requires call == first + 2 * rounds
    requires slot == Slot(Draws(choose, call + 1, X.cols, k), RoundLearner(choose, call, X, y, k, config, induce))
    ensures var f := ForestRounds(choose, first, X, y, k, config, induce, rounds);
            var g := ForestRounds(choose, first, X, y, k, config, induce, rounds + 1);
            indices + f.indices + [slot.feat] == indices + g.indices &&
            estimators + f.estimators + [slot.learner] == estimators + g.estimators
  {
    var f := ForestRounds(choose, first, X, y, k, config, induce, rounds);
    assert ForestRounds(choose, first, X, y, k, config, induce, rounds + 1) ==
           Forest(f.indices + [slot.feat], f.estimators + [slot.learner]);
    assert indices + f.indices + [slot.feat] == indices + (f.indices + [slot.feat]);
    assert estimators + f.estimators + [slot.learner] == estimators + (f.estimators + [slot.learner]);
  }

  /** The sum over the slots of what each tree predicts for row `i` of `X`,
      restricted to that tree's columns. */
  function RowSum(indices: seq<seq<nat>>, estimators: seq<Learner>, X: Matrix, i: nat): real
    requires |indices| == |estimators| && AllInRange(indices, X.cols) && i < |X.rows|
    decreases |indices|
  {
    if |indices| == 0 then 0.0
    else
      var last := |indices| - 1;
      RowSum(indices[..last], estimators[..last], X, i) + estimators[last](Restrict(X.rows[i], indices[last]))
  }

  /** The `predictions` vector of `predict` after its loop: it raises at the
      first slot whose indexing or prediction raises, and otherwise holds,
      row by row, the sum of the trees' predictions. */
  function ForestSum(indices: seq<seq<nat>>, estimators: seq<Learner>, X: Matrix): (r: Result<seq<real>>)
    requires |indices| == |estimators|
    ensures r.Ok? <==> forall t :: 0 <= t < |indices| ==> SlotFailure(indices[t], X).None?
    ensures r.Ok? ==> AllInRange(indices, X.cols) && |r.value| == |X.rows| &&
                      forall i :: 0 <= i < |X.rows| ==> r.value[i] == RowSum(indices, estimators, X, i)
    ensures r.Err? ==> exists t :: 0 <= t < |indices| && SlotFailure(indices[t], X) == Some(r.failure) &&
                                   forall u :: 0 <= u < t ==> SlotFailure(indices[u], X).None?
    decreases |indices|
  {
    if |indices| == 0 then Ok(Zeros(|X.rows|))
    else
      var last := |indices| - 1;
      var prev := ForestSum(indices[..last], estimators[..last], X);
      assert forall t :: 0 <= t < last ==> indices[..last][t] == indices[t];
      if prev.Err? then prev
      else match SlotFailure(indices[last], X)
        case Some(f) => Err(f)
        case None =>
          var p := PredictRows(estimators[last], Columns(X, indices[last]));
          var s := Add(prev.value, p);
          assert forall i :: 0 <= i < |X.rows| ==> s[i] == RowSum(indices, estimators, X, i) by {
            forall i | 0 <= i < |X.rows| {
              SlotPredictionAt(estimators[last], indices[last], X, i);
            }
          }
          Ok(s)
  }

  /** `predict`: the slot sums divided by `n_estimators`, however many slots
      repeated fits have stored. With `n_estimators == 0` and at least one
      row the division yields NaN entries. */
  function ForestPredict(nEstimators: int, indices: seq<seq<nat>>, estimators: seq<Learner>, X: Matrix): (r: Result<seq<real>>)
    requires |indices| == |estimators|
    ensures ForestSum(indices, estimators, X).Err? ==> r == ForestSum(indices, estimators, X)
    ensures ForestSum(indices, estimators, X).Ok? && nEstimators == 0 && |X.rows| > 0 ==> r == Err(NonFinite)
    ensures r.Ok? <==> ForestSum(indices, estimators, X).Ok? && (nEstimators != 0 || |X.rows| == 0)
    ensures r.Ok? ==> |r.value| == |X.rows| &&
                      forall i :: 0 <= i < |X.rows| ==>
                        nEstimators != 0 && r.value[i] == RowSum(indices, estimators, X, i) / (nEstimators as real)
  {
    var s := ForestSum(indices, estimators, X);
    if s.Err? then s
    else if nEstimators == 0 then
      if |X.rows| == 0 then Ok([]) else Err(NonFinite)
    else Ok(DivideBy(s.value, nEstimators as real))
  }

  /** A forest fitted by `rounds > 0` rounds predicts any matrix with at
      least the training columns and at least one row, and the prediction
      for a row is the mean over the trees' predictions when no earlier fit
      left slots behind. */
  lemma FittedForestPredicts(choose: Chooser, first: nat, X: Matrix, y: seq<real>, k: nat,
                             config: TreeConfig, induce: Induce, rounds: nat, Z: Matrix)
    requires |y| == |X.rows| && X.cols <= |X.rows| && RoundFailure(X.cols, k).None?
    requires 0 < rounds && X.cols <= Z.cols && 0 < |Z.rows|
    ensures var f := ForestRounds(choose, first, X, y, k, config, induce, rounds);
            var r := ForestPredict(rounds, f.indices, f.estimators, Z);
            r.Ok? && |r.value| == |Z.rows| &&
            forall i :: 0 <= i < |Z.rows| ==>
              r.value[i] == RowSum(f.indices, f.estimators, Z, i) / (rounds as real)
  {
    var f := ForestRounds(choose, first, X, y, k, config, induce, rounds);
    forall t | 0 <= t < rounds
      ensures SlotFailure(f.indices[t], Z).None?
    {
      assert InRange(f.indices[t], Z.cols);
    }
  }

  /** With a negative `n_estimators` a fit runs no rounds and stores no
      slot, so `predict` divides the all-zero vector and returns zeros. */
  lemma NoRoundsPredictsZeros(nEstimators: int, choose: Chooser, first: nat, X: Matrix, y: seq<real>,
                              k: nat, config: TreeConfig, induce: Induce, Z: Matrix)
    requires nEstimators < 0 && |y| == |X.rows| && X.cols <= |X.rows|
    ensures var f := ForestRounds(choose, first, X, y, k, config, induce, Rounds(nEstimators));
            f == Forest([], []) && ForestPredict(nEstimators, f.indices, f.estimators, Z) == Ok(Zeros(|Z.rows|))
  {
    var z := Zeros(|Z.rows|);
    assert DivideBy(z, nEstimators as real) == z;
  }

  /** scikit-learn-style random forest for regression. */
  class RandomForestMSE {
    const nEstimators: int
    const maxDepth: Option<int>
    const treeParameters: map<string, string>
    /** numpy's global random state, shared with whatever else uses it. */
    const rng: RandomSource
    var featureSubsampleSize: Option<nat>
    var objectSubsampleSize: Option<int>
    var indices: seq<seq<nat>>
    var estimators: seq<Learner>

    /** The lists are parallel, and every stored column-index vector has the
        resolved feature subsample size. */
    ghost predicate Valid()
      reads this
    {
      |indices| == |estimators| &&
      (featureSubsampleSize.None? ==> indices == []) &&
      (featureSubsampleSize.Some? ==>
         forall t :: 0 <= t < |indices| ==> |indices[t]| == featureSubsampleSize.value)
    }

    /** `RandomForestMSE(n_estimators, max_depth, feature_subsample_size,
        object_subsample_size, random_seed, **trees_parameters)`; the seed
        is given by the stream it selects. */
    constructor (nEstimators: int, rng: RandomSource, seeded: Chooser,
                 maxDepth: Option<int> := None, featureSubsampleSize: Option<nat> := None,
                 objectSubsampleSize: Option<int> := None,
                 treeParameters: map<string, string> := map[])
      modifies rng
      ensures Valid()
      ensures this.nEstimators == nEstimators && this.maxDepth == maxDepth &&
              this.treeParameters == treeParameters && this.rng == rng
      ensures this.featureSubsampleSize == featureSubsampleSize &&
              this.objectSubsampleSize == objectSubsampleSize
      ensures indices == [] && estimators == []
      ensures rng.choose == seeded && rng.calls == 0
    {
      this.nEstimators := nEstimators;
      this.maxDepth := maxDepth;
      this.treeParameters := treeParameters;
      this.rng := rng;
      this.featureSubsampleSize := featureSubsampleSize;
      this.objectSubsampleSize := objectSubsampleSize;
      estimators := [];
      indices := [];
      new;
      rng.Reseed(seeded);
    }

    /** `_sample_indices(maximum, size)`. */
    method SampleIndices(maximum: nat, size: nat) returns (r: Result<seq<nat>>)
      modifies rng
      ensures rng.choose == old(rng.choose)
      ensures Refused(maximum, size) ==> r == Err(EmptyPopulation) && rng.calls == old(rng.calls)
      ensures !Refused(maximum, size) ==>
                r == Ok(Draws(rng.choose, old(rng.calls), maximum, size)) && rng.calls == old(rng.calls) + 1
    {
      r := rng.Choice(maximum, size);
    }

    /** `fit(X, y)`: resolves the subsample sizes, then appends one slot per
        round to the lists, which are never cleared. */
    method Fit(X: Matrix, y: seq<real>, induce: Induce) returns (outcome: Outcome)
      requires Valid() && |y| == |X.rows| && X.cols <= |X.rows|
      modifies this, rng
      ensures Valid()
      ensures rng.choose == old(rng.choose)
      ensures featureSubsampleSize == Some(ResolveFeatureSize(old(featureSubsampleSize), X.cols))
      ensures var o := ResolveObjectSize(old(objectSubsampleSize), |X.rows|, nEstimators);
              o.Err? ==>
                outcome == Fail(o.failure) && objectSubsampleSize == old(objectSubsampleSize) &&
                indices == old(indices) && estimators == old(estimators) && rng.calls == old(rng.calls)
      ensures var k := ResolveFeatureSize(old(featureSubsampleSize), X.cols);
              var o := ResolveObjectSize(old(objectSubsampleSize), |X.rows|, nEstimators);
              var rounds := Rounds(nEstimators);
              o.Ok? && 0 < rounds && RoundFailure(X.cols, k).Some? ==>
                outcome == Fail(RoundFailure(X.cols, k).value) && objectSubsampleSize == Some(o.value) &&
                indices == old(indices) && estimators == old(estimators) &&
                rng.calls == old(rng.calls) + (if Refused(X.cols, k) then 0 else 2)
      ensures var k := ResolveFeatureSize(old(featureSubsampleSize), X.cols);
              var o := ResolveObjectSize(old(objectSubsampleSize), |X.rows|, nEstimators);
              var rounds := Rounds(nEstimators);
              o.Ok? && (rounds == 0 || RoundFailure(X.cols, k).None?) ==>
                var f := ForestRounds(rng.choose, old(rng.calls), X, y, k,
                                      TreeConfig(maxDepth, treeParameters), induce, rounds);
                outcome == Pass && objectSubsampleSize == Some(o.value) &&
                indices == old(indices) + f.indices && estimators == old(estimators) + f.estimators &&
                rng.calls == old(rng.calls) + 2 * rounds
    {
      featureSubsampleSize := Some(ResolveFeatureSize(featureSubsampleSize, X.cols));
      var o := ResolveObjectSize(objectSubsampleSize, |X.rows|, nEstimators);
      if o.Err? {
        return Fail(o.failure);
      }
      objectSubsampleSize := Some(o.value);
      outcome := Grow(X, y, induce);
    }

    /** The loop of `fit`: one slot per round, each trained on the row and
        column indices of two fresh sampler calls. A round that raises
        raises in the first round, before anything is appended. */
    method Grow(X: Matrix, y: seq<real>, induce: Induce) returns (outcome: Outcome)
      requires Valid() && featureSubsampleSize.Some? && |y| == |X.rows| && X.cols <= |X.rows|
      modifies this`indices, this`estimators, rng
      ensures Valid()
      ensures rng.choose == old(rng.choose)
      ensures var k := featureSubsampleSize.value;
              0 < Rounds(nEstimators) && RoundFailure(X.cols, k).Some? ==>
                outcome == Fail(RoundFailure(X.cols, k).value) &&
                indices == old(indices) && estimators == old(estimators) &&
                rng.calls == old(rng.calls) + (if Refused(X.cols, k) then 0 else 2)
      ensures var k := featureSubsampleSize.value;
              var rounds := Rounds(nEstimators);
              rounds == 0 || RoundFailure(X.cols, k).None? ==>
                var f := ForestRounds(rng.choose, old(rng.calls), X, y, k,
                                      TreeConfig(maxDepth, treeParameters), induce, rounds);
                outcome == Pass &&
                indices == old(indices) + f.indices && estimators == old(estimators) + f.estimators &&
                rng.calls == old(rng.calls) + 2 * rounds
    {
      var k := featureSubsampleSize.value;
      var config := TreeConfig(maxDepth, treeParameters);
      var rounds := Rounds(nEstimators);
      ghost var choose, first := rng.choose, rng.calls;
      var t := 0;
      while t < rounds
        invariant 0 <= t <= rounds
        invariant rng.choose == choose && rng.calls == first + 2 * t
        invariant t == 0 || RoundFailure(X.cols, k).None?
        invariant var f := ForestRounds(choose, first, X, y, k, config, induce, t);
                  indices == old(indices) + f.indices && estimators == old(estimators) + f.estimators
        invariant Valid()
      {
        ghost var call := rng.calls;
        var slot := TrainRound(X, y, induce, k, config);
        if slot.Err? {
          return Fail(slot.failure);
        }
        Appended(old(indices), old(estimators), choose, first, X, y, k, config, induce, t, call, slot.value);
        indices := indices + [slot.value.feat];
        estimators := estimators + [slot.value.learner];
        t := t + 1;
      }
      return Pass;
    }

    /** The body of the loop of `fit` up to the appends: two sampler calls,
        then the tree trained on the sampled rows and columns. */
    method TrainRound(X: Matrix, y: seq<real>, induce: Induce, k: nat, config: TreeConfig)
      returns (r: Result<Slot>)
      requires |y| == |X.rows| && X.cols <= |X.rows|
      modifies rng
      ensures rng.choose == old(rng.choose)
      ensures RoundFailure(X.cols, k).Some? ==>
                r == Err(RoundFailure(X.cols, k).value) &&
                rng.calls == old(rng.calls) + (if Refused(X.cols, k) then 0 else 2)
      ensures RoundFailure(X.cols, k).None? ==>
                r == Ok(Slot(Draws(rng.choose, old(rng.calls) + 1, X.cols, k),
                             RoundLearner(rng.choose, old(rng.calls), X, y, k, config, induce))) &&
                rng.calls == old(rng.calls) + 2
    {
      var obj := SampleIndices(X.cols, k);
      if obj.Err? {
        return Err(obj.failure);
      }
      var feat := SampleIndices(X.cols, k);
      if Degenerate(|obj.value|, |feat.value|) {
        return Err(EmptyInput);
      }
      r := Ok(Slot(feat.value, Train(X, obj.value, feat.value, Gather(y, obj.value), config, induce)));
    }

    /** `predict(X)`. */
    method Predict(X: Matrix) returns (r: Result<seq<real>>)
      requires Valid()
      ensures r == ForestPredict(nEstimators, indices, estimators, X)
    {
      var predictions := Zeros(|X.rows|);
      var t := 0;
      while t < |indices|
        invariant 0 <= t <= |indices|
        invariant ForestSum(indices[..t], estimators[..t], X) == Ok(predictions)
      {
        var feat := indices[t];
        if !InRange(feat, X.cols) {
          SlotDecides(indices, estimators, X, t);
          return Err(ColumnOutOfRange);
        }
        if Degenerate(|X.rows|, |feat|) {
          SlotDecides(indices, estimators, X, t);
          return Err(EmptyInput);
        }
        predictions := Add(predictions, PredictRows(estimators[t], Columns(X, feat)));
        t := t + 1;
        assert indices[..t][..t - 1] == indices[..t - 1];
        assert estimators[..t][..t - 1] == estimators[..t - 1];
      }
      assert indices[..t] == indices && estimators[..t] == estimators;
      if nEstimators == 0 {
        if |X.rows| == 0 {
          return Ok([]);
        }
        return Err(NonFinite);
      }
      return Ok(DivideBy(predictions, nEstimators as real));
    }
  }

  /** The first slot that raises decides the error of the whole sum. */
  lemma SlotDecides(indices: seq<seq<nat>>, estimators: seq<Learner>, X: Matrix, t: nat)
    requires |indices| == |estimators| && t < |indices|
    requires ForestSum(indices[..t], estimators[..t], X).Ok? && SlotFailure(indices[t], X).Some?
    ensures ForestSum(indices, estimators, X) == Err(SlotFailure(indices[t], X).value)
  {
    assert forall u :: 0 <= u < t ==> indices[..t][u] == indices[u];
    var r := ForestSum(indices, estimators, X);
    var w :| 0 <= w < |indices| && SlotFailure(indices[w], X) == Some(r.failure) &&
             forall u :: 0 <= u < w ==> SlotFailure(indices[u], X).None?;
    assert w == t;
  }
}
