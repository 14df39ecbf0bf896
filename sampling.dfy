/** `_sample_indices(maximum, size)`, that is
    `np.random.choice(maximum, size, replace=True)` on numpy's global,
    seeded random state.

    The random state is modelled as an index stream: `choose(call, j, m)`
    is the `j`-th index of the `call`-th sampler call since seeding, for a
    population of size `m`. Of the distribution only the bound is kept.
    Draws that other code makes from the same global state between two
    sampler calls are part of what the stream yields, so the stream is
    indexed by sampler call and not by scalar draw. */
module Sampling {
  import opened Outcomes

  /** An index stream: every index it yields lies in the population. */
  type Chooser = f: (nat, nat, nat) -> nat
    | forall call: nat, j: nat, m: nat :: 0 < m ==> f(call, j, m) < m
    witness (call: nat, j: nat, m: nat) => 0

  /** Whether numpy refuses `choice(maximum, size)`: the population is empty
      and at least one index is asked for. */
  predicate Refused(maximum: nat, size: nat)
  {
    maximum == 0 && size > 0
  }

  /** The indices the `call`-th sampler call returns: exactly `size` of
      them, each in `[0, maximum)`, duplicates allowed. */
  function Draws(choose: Chooser, call: nat, maximum: nat, size: nat): (r: seq<nat>)
    requires !Refused(maximum, size)
    ensures |r| == size
    ensures forall j :: 0 <= j < size ==> r[j] < maximum
  {
    seq(size, j requires 0 <= j < size => choose(call, j, maximum))
  }

  /** numpy's global random state: the stream `np.random.seed` selected and
      how many sampler calls have consumed it since. */
  class RandomSource {
    var choose: Chooser
    var calls: nat

    constructor (seeded: Chooser)
      ensures choose == seeded && calls == 0
    {
      choose, calls := seeded, 0;
    }

    /** `np.random.seed(random_seed)`, for the stream that seed selects. */
    method Reseed(seeded: Chooser)
      modifies this
      ensures choose == seeded && calls == 0
    {
      choose, calls := seeded, 0;
    }

    /** `np.random.choice(maximum, size, replace=True)`. */
    method Choice(maximum: nat, size: nat) returns (r: Result<seq<nat>>)
      modifies this
      ensures choose == old(choose)
      ensures Refused(maximum, size) ==> r == Err(EmptyPopulation) && calls == old(calls)
      ensures !Refused(maximum, size) ==>
                r == Ok(Draws(choose, old(calls), maximum, size)) && calls == old(calls) + 1
    {
      if Refused(maximum, size) {
        return Err(EmptyPopulation);
      }
      r := Ok(Draws(choose, calls, maximum, size));
      calls := calls + 1;
    }
  }
}
