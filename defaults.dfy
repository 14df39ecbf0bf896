/** How `fit` fills in the subsample sizes left unset in the constructor.
    The resolved value is stored back, so it sticks for later fits. */
module Defaults {
  import opened Outcomes

  /** `feature_subsample_size`, defaulting to `d // 3`. */
  function ResolveFeatureSize(current: Option<nat>, d: nat): (k: nat)
    ensures current.Some? ==> k == current.value
    ensures current.None? ==> 3 * k <= d < 3 * k + 3
  {
    if current.None? then d / 3 else current.value
  }

  /** `object_subsample_size`, defaulting to `n` for a single estimator and
      to `int(1.5 * n // n_estimators)` otherwise, which raises when
      `n_estimators` is zero. */
  function ResolveObjectSize(current: Option<int>, n: nat, nEstimators: int): (r: Result<int>)
    ensures current.Some? ==> r == Ok(current.value)
    ensures current.None? && nEstimators == 1 ==> r == Ok(n)
    ensures current.None? && nEstimators == 0 ==> r == Err(ZeroDivision)
    ensures current.None? && nEstimators != 0 && nEstimators != 1 ==>
              r.Ok? &&
              r.value as real <= 1.5 * (n as real) / (nEstimators as real) < r.value as real + 1.0
    ensures current.None? && nEstimators >= 2 ==> r.Ok? && 0 <= r.value <= n
  {
    if current.Some? then Ok(current.value)
    else if nEstimators != 1 then
      if nEstimators == 0 then Err(ZeroDivision)
      else
        var q := 1.5 * (n as real) / (nEstimators as real);
        assert nEstimators >= 2 ==> 0.0 <= q <= n as real by {
          if nEstimators >= 2 {
            assert q * (nEstimators as real) == 1.5 * (n as real);
          }
        }
        Ok(q.Floor)
    else Ok(n)
  }

  /** `len(range(n_estimators))`: the number of rounds `fit` runs. */
  function Rounds(nEstimators: int): (r: nat)
    ensures nEstimators > 0 ==> r == nEstimators
    ensures nEstimators <= 0 ==> r == 0
  {
    if nEstimators > 0 then nEstimators else 0
  }
}
