/** What both generations of the vectorised environment share: stepping
    every environment once, stacking the per-environment results, choosing
    the rows fed to the observation statistics, the return accumulator fed
    to the reward statistics, and the gating of both updates on `training`.
    The newer class is torchrl/src/envs/VectorizedEnv.cpp, the older pair is
    src/envs/VectorizedEnv.cpp with src/envs/NormalizedVectorizedEnv.cpp. */
module Vectorized {
  import opened Common
  import opened Env
  import opened Statistics
  import opened Normalization

  /** `VectorizedStepResult`: row `i` of every field belongs to env `i`. */
  datatype VectorizedStepResult = VectorizedStepResult(
    obs: seq<Vector>,
    rewards: seq<real>,
    terminalStates: seq<TerminalState>,
    newEpisodeObs: seq<Vector>,
    totReward: seq<real>,
    totSteps: seq<nat>)

  /** All six fields have one row per environment. */
  predicate Sized(r: VectorizedStepResult, n: nat)
  {
    && |r.obs| == n && |r.rewards| == n && |r.terminalStates| == n
    && |r.newEpisodeObs| == n && |r.totReward| == n && |r.totSteps| == n
  }

  /** The documented contract of a `VectorizedStepResult`: for a NotTerminal
      env, `new_episode_obs` is empty and both episode totals are 0. */
  predicate DocumentedRows(r: VectorizedStepResult)
    requires Sized(r, |r.obs|)
  {
    forall i :: 0 <= i < |r.obs| && r.terminalStates[i] == NotTerminal ==>
      r.newEpisodeObs[i] == [] && r.totReward[i] == 0.0 && r.totSteps[i] == 0
  }

  /** The per-environment results stacked field by field. */
  function Stack(results: seq<StepResult>): (r: VectorizedStepResult)
    ensures Sized(r, |results|)
    ensures forall i :: 0 <= i < |results| ==>
              && r.obs[i] == results[i].obs && r.rewards[i] == results[i].reward
              && r.terminalStates[i] == results[i].terminalState
              && r.newEpisodeObs[i] == results[i].newEpisodeObs
              && r.totReward[i] == results[i].totReward && r.totSteps[i] == results[i].totSteps
  {
    var n := |results|;
    VectorizedStepResult(
      seq(n, i requires 0 <= i < n => results[i].obs),
      seq(n, i requires 0 <= i < n => results[i].reward),
      seq(n, i requires 0 <= i < n => results[i].terminalState),
      seq(n, i requires 0 <= i < n => results[i].newEpisodeObs),
      seq(n, i requires 0 <= i < n => results[i].totReward),
      seq(n, i requires 0 <= i < n => results[i].totSteps))
  }

  /** Stacking keeps the documented contract of every row. */
  lemma StackDocumented(results: seq<StepResult>)
    requires forall i :: 0 <= i < |results| ==> Documented(results[i])
    ensures DocumentedRows(Stack(results))
  {
    var r := Stack(results);
    forall i | 0 <= i < |r.obs| && r.terminalStates[i] == NotTerminal
      ensures r.newEpisodeObs[i] == [] && r.totReward[i] == 0.0 && r.totSteps[i] == 0
    {
      assert Documented(results[i]);
    }
  }

  /** Every post-step observation and every reset observation has `width`
      entries. */
  predicate ResultsShaped(results: seq<StepResult>, width: nat)
  {
    forall i :: 0 <= i < |results| ==>
      |results[i].obs| == width && (Ended(results[i].terminalState) ==> |results[i].newEpisodeObs| == width)
  }

  /** The row an env contributes to the observation statistics: its
      post-step observation when it goes on, its reset observation when the
      step ended its episode. */
  function NormalizerRow(r: StepResult): Vector
  {
    if r.terminalState == NotTerminal then r.obs else r.newEpisodeObs
  }

  function NormalizerRows(results: seq<StepResult>): (rows: seq<Vector>)
    ensures |rows| == |results|
    ensures forall i :: 0 <= i < |results| ==> rows[i] == NormalizerRow(results[i])
  {
    seq(|results|, i requires 0 <= i < |results| => NormalizerRow(results[i]))
  }

  /** The statistics see, for every env, the observation it will start the
      next step from, and every such row has `width` entries. */
  lemma NormalizerRowsShaped(results: seq<StepResult>, width: nat)
    requires ResultsShaped(results, width)
    ensures Rows(NormalizerRows(results), width)
    ensures forall i :: 0 <= i < |results| ==>
              NormalizerRows(results)[i] == (if Ended(results[i].terminalState) then results[i].newEpisodeObs else results[i].obs)
  {
    var rows := NormalizerRows(results);
    forall i | 0 <= i < |rows|
      ensures |rows[i]| == width
    {
      assert rows[i] == NormalizerRow(results[i]);
    }
  }

  /** A batch of scalars as the rows `Update` of a scalar estimator reads. */
  function ScalarRows(xs: seq<real>): (rows: seq<Vector>)
    ensures |rows| == |xs| && Rows(rows, 1)
    ensures forall i :: 0 <= i < |xs| ==> rows[i] == [xs[i]]
  {
    seq(|xs|, i requires 0 <= i < |xs| => [xs[i]])
  }

  /** The accumulator update exactly as written: `returns + discount * reward`. */
  function Accumulate(acc: seq<real>, rewards: seq<real>, discount: real): (r: seq<real>)
    requires |acc| == |rewards|
    ensures |r| == |acc|
  {
    seq(|acc|, i requires 0 <= i < |acc| => acc[i] + discount * rewards[i])
  }

  /** The accumulator after a run of steps, one reward vector per step. */
  function AccumulateAll(acc: seq<real>, steps: seq<seq<real>>, discount: real): (r: seq<real>)
    requires forall t :: 0 <= t < |steps| ==> |steps[t]| == |acc|
    ensures |r| == |acc|
    decreases |steps|
  {
    if |steps| == 0 then acc
    else Accumulate(AccumulateAll(acc, steps[..|steps| - 1], discount), steps[|steps| - 1], discount)
  }

  /** The rewards env `i` received over a run of steps. */
  function RewardsOf(steps: seq<seq<real>>, i: nat): (c: seq<real>)
    requires forall t :: 0 <= t < |steps| ==> i < |steps[t]|
    ensures |c| == |steps|
  {
    seq(|steps|, t requires 0 <= t < |steps| => steps[t][i])
  }

  /** As written, the accumulator is the starting value plus `discount` times
      the plain sum of the rewards: every reward has the same weight,
      whatever its age. It is not the discounted return
      `returns * discount + reward`. */
  lemma {:induction false} AccumulatorIsScaledSum(acc: seq<real>, steps: seq<seq<real>>, discount: real, i: nat)
    requires forall t :: 0 <= t < |steps| ==> |steps[t]| == |acc|
    requires i < |acc|
    ensures AccumulateAll(acc, steps, discount)[i] == acc[i] + discount * Sum(RewardsOf(steps, i))
    decreases |steps|
  {
    if |steps| > 0 {
      var init := steps[..|steps| - 1];
      AccumulatorIsScaledSum(acc, init, discount, i);
      assert RewardsOf(steps, i)[..|steps| - 1] == RewardsOf(init, i);
    }
  }

  /** `UpdateObs`: the observation statistics after a batch, updated only when
      both `training` and `norm_obs` are on. */
  function UpdateObsStats(training: bool, normObs: bool, s: RmsState, rows: seq<Vector>): (r: RmsState)
    requires training && normObs ==> Batchable(s, rows)
    ensures !(training && normObs) ==> r == s
    ensures training && normObs ==> r == UpdateState(s, rows)
    ensures ValidState(s) ==> ValidState(r) && |r.mean| == |s.mean|
  {
    if training && normObs then
      if ValidState(s) then UpdateKeepsValid(s, rows); UpdateState(s, rows) else UpdateState(s, rows)
    else s
  }

  /** `UpdateReward`: the accumulator and the reward statistics, changed only
      when both `training` and `norm_reward` are on; the statistics then see
      the new accumulator. */
  function UpdateRewardStats(training: bool, normReward: bool, discount: real, acc: seq<real>, rewards: seq<real>,
                             s: RmsState): (r: (seq<real>, RmsState))
    requires training && normReward ==> |acc| == |rewards| && Batchable(s, ScalarRows(rewards))
    ensures !(training && normReward) ==> r == (acc, s)
    ensures training && normReward ==>
              && r.0 == Accumulate(acc, rewards, discount)
              && r.1 == UpdateState(s, ScalarRows(r.0))
    ensures ValidState(s) ==> ValidState(r.1) && |r.1.mean| == |s.mean|
    ensures training && normReward ==> |r.0| == |acc|
  {
    if training && normReward then
      var next := Accumulate(acc, rewards, discount);
      ScalarBatchable(s, rewards, next);
      if ValidState(s) then
        UpdateKeepsValid(s, ScalarRows(next));
        (next, UpdateState(s, ScalarRows(next)))
      else (next, UpdateState(s, ScalarRows(next)))
    else (acc, s)
  }

  /** Whether a batch of scalars can be merged depends only on its length. */
  lemma ScalarBatchable(s: RmsState, xs: seq<real>, ys: seq<real>)
    requires Batchable(s, ScalarRows(xs)) && |ys| == |xs|
    ensures Batchable(s, ScalarRows(ys))
  {
    assert |s.mean| == 1 by {
      assert |ScalarRows(xs)[0]| == |s.mean|;
    }
  }

  /** Bringing the environment objects to every step: env `i` takes action row
      `i`, in order; the objects are distinct, so each step changes only its
      own environment. */
  function StepResults(envs: seq<AbstractEnv>, action: seq<Vector>): (rs: seq<StepResult>)
    requires |action| == |envs|
    reads envs
    ensures |rs| == |envs|
  {
    seq(|envs|, i requires 0 <= i < |envs| reads envs => StepEnv(envs[i].dynamics, envs[i].State(), action[i]).1)
  }

  /** The observations each env's `Reset` returns. */
  function ResetRows(envs: seq<AbstractEnv>): (rows: seq<Vector>)
    reads envs
    ensures |rows| == |envs|
  {
    seq(|envs|, i requires 0 <= i < |envs| reads envs => ResetEnv(envs[i].dynamics, envs[i].State()).1)
  }

  /** The observations each env's `GetObs` returns. */
  function CurrentObs(envs: seq<AbstractEnv>): (rows: seq<Vector>)
    reads envs
    ensures |rows| == |envs|
  {
    seq(|envs|, i requires 0 <= i < |envs| reads envs => envs[i].GetObs())
  }

  /** The current observations of environments of one width have that
      width. */
  lemma CurrentObsShaped(envs: seq<AbstractEnv>, width: nat)
    requires SameWidth(envs, width)
    ensures Rows(CurrentObs(envs), width)
  {
    forall i | 0 <= i < |envs| ensures |CurrentObs(envs)[i]| == width {
      assert CurrentObs(envs)[i] == envs[i].GetObs();
    }
  }

  /** The states of the environment objects. */
  function States(envs: seq<AbstractEnv>): (ss: seq<EnvState>)
    reads envs
    ensures |ss| == |envs|
  {
    seq(|envs|, i requires 0 <= i < |envs| reads envs => envs[i].State())
  }

  /** The dynamics of the environment objects, fixed at construction. */
  function DynamicsOf(envs: seq<AbstractEnv>): (ds: seq<Dynamics>)
    ensures |ds| == |envs|
  {
    seq(|envs|, i requires 0 <= i < |envs| => envs[i].dynamics)
  }

  /** Environments whose observations all have `width` entries. */
  predicate Widths(ds: seq<Dynamics>, width: nat)
  {
    forall i :: 0 <= i < |ds| ==> ds[i].obsSize == width
  }

  /** The observations of environments in the states `ss`, on values. */
  function ObsOf(ds: seq<Dynamics>, ss: seq<EnvState>): (rows: seq<Vector>)
    requires |ss| == |ds|
    ensures |rows| == |ds|
    ensures forall i :: 0 <= i < |ds| ==> rows[i] == ds[i].getObs(ss[i].physics) && |rows[i]| == ds[i].obsSize
  {
    seq(|ds|, i requires 0 <= i < |ds| => ds[i].getObs(ss[i].physics))
  }

  /** What the objects' `GetObs` return is the observation of their
      states. */
  lemma CurrentObsOf(envs: seq<AbstractEnv>)
    ensures CurrentObs(envs) == ObsOf(DynamicsOf(envs), States(envs))
  {
    var rows := ObsOf(DynamicsOf(envs), States(envs));
    forall i | 0 <= i < |envs| ensures CurrentObs(envs)[i] == rows[i] {
      assert envs[i].State() == States(envs)[i];
    }
  }

  /** One step of every environment, on values: env `i` with dynamics
      `ds[i]` in state `ss[i]` takes action row `i`. */
  function StepAll(ds: seq<Dynamics>, ss: seq<EnvState>, action: seq<Vector>): (r: (seq<EnvState>, seq<StepResult>))
    requires |ss| == |ds| && |action| == |ds|
    ensures |r.0| == |ds| && |r.1| == |ds|
    ensures forall i :: 0 <= i < |ds| ==> (r.0[i], r.1[i]) == StepEnv(ds[i], ss[i], action[i])
  {
    (seq(|ds|, i requires 0 <= i < |ds| => StepEnv(ds[i], ss[i], action[i]).0),
     seq(|ds|, i requires 0 <= i < |ds| => StepEnv(ds[i], ss[i], action[i]).1))
  }

  /** A reset of every environment, on values. */
  function ResetAll(ds: seq<Dynamics>, ss: seq<EnvState>): (r: (seq<EnvState>, seq<Vector>))
    requires |ss| == |ds|
    ensures |r.0| == |ds| && |r.1| == |ds|
    ensures forall i :: 0 <= i < |ds| ==> (r.0[i], r.1[i]) == ResetEnv(ds[i], ss[i])
  {
    (seq(|ds|, i requires 0 <= i < |ds| => ResetEnv(ds[i], ss[i]).0),
     seq(|ds|, i requires 0 <= i < |ds| => ResetEnv(ds[i], ss[i]).1))
  }

  /** The reset observations of the objects are those of their states. */
  lemma ResetRowsAll(envs: seq<AbstractEnv>)
    ensures ResetRows(envs) == ResetAll(DynamicsOf(envs), States(envs)).1
  {
    var r := ResetAll(DynamicsOf(envs), States(envs));
    forall i | 0 <= i < |envs| ensures ResetRows(envs)[i] == r.1[i] {
      assert (r.0[i], r.1[i]) == ResetEnv(envs[i].dynamics, envs[i].State());
    }
  }

  /** Environments just reset from `before` observe the reset
      observations. */
  lemma ObserveAfterReset(envs: seq<AbstractEnv>, before: seq<EnvState>)
    requires |before| == |envs| && States(envs) == ResetAll(DynamicsOf(envs), before).0
    ensures CurrentObs(envs) == ResetAll(DynamicsOf(envs), before).1
  {
    var r := ResetAll(DynamicsOf(envs), before);
    forall i | 0 <= i < |envs| ensures CurrentObs(envs)[i] == r.1[i] {
      assert envs[i].State() == States(envs)[i];
      assert (r.0[i], r.1[i]) == ResetEnv(envs[i].dynamics, before[i]);
    }
  }

  /** Stepping on values keeps every row of the documented contract and
      the observation width. */
  lemma StepAllShaped(ds: seq<Dynamics>, ss: seq<EnvState>, action: seq<Vector>, width: nat)
    requires |ss| == |ds| && |action| == |ds| && Widths(ds, width)
    ensures ResultsShaped(StepAll(ds, ss, action).1, width)
    ensures forall i :: 0 <= i < |ds| ==> Documented(StepAll(ds, ss, action).1[i])
  {
    var rs := StepAll(ds, ss, action).1;
    forall i | 0 <= i < |ds|
      ensures |rs[i].obs| == width && (Ended(rs[i].terminalState) ==> |rs[i].newEpisodeObs| == width)
      ensures Documented(rs[i])
    {
      assert rs[i] == StepEnv(ds[i], ss[i], action[i]).1;
    }
  }

  /** Objects of one observation width have dynamics of that width. */
  lemma SameWidthDynamics(envs: seq<AbstractEnv>, width: nat)
    requires SameWidth(envs, width)
    ensures Widths(DynamicsOf(envs), width)
  {
  }

  predicate Distinct(envs: seq<AbstractEnv>)
  {
    forall i, j :: 0 <= i < j < |envs| ==> envs[i] != envs[j]
  }

  /** All environments of one vectorised env have observations of `width`. */
  predicate SameWidth(envs: seq<AbstractEnv>, width: nat)
  {
    forall i :: 0 <= i < |envs| ==> envs[i].dynamics.obsSize == width
  }

  /** Results of one step of environments with observations of `width`. */
  lemma StepResultsShaped(envs: seq<AbstractEnv>, action: seq<Vector>, width: nat)
    requires |action| == |envs| && SameWidth(envs, width)
    ensures ResultsShaped(StepResults(envs, action), width)
    ensures forall i :: 0 <= i < |envs| ==> Documented(StepResults(envs, action)[i])
  {
  }

  /** The loop every `Step` starts with: each env is stepped with its own
      action row, in order. */
  method StepEach(envs: seq<AbstractEnv>, action: seq<Vector>) returns (results: seq<StepResult>)
    requires Distinct(envs) && |action| == |envs|
    modifies envs
    ensures results == old(StepResults(envs, action))
    ensures forall i :: 0 <= i < |envs| ==>
              envs[i].State() == old(StepEnv(envs[i].dynamics, envs[i].State(), action[i]).0)
    ensures (States(envs), results) == old(StepAll(DynamicsOf(envs), States(envs), action))
    ensures forall i :: 0 <= i < |envs| ==>
              && Documented(results[i]) && |results[i].obs| == envs[i].dynamics.obsSize
              && (Ended(results[i].terminalState) ==> |results[i].newEpisodeObs| == envs[i].dynamics.obsSize)
  {
    results := [];
    var i := 0;
    while i < |envs|
      invariant 0 <= i <= |envs| && |results| == i
      invariant forall k :: 0 <= k < i ==>
                  (envs[k].State(), results[k]) == old(StepEnv(envs[k].dynamics, envs[k].State(), action[k]))
      invariant forall k :: i <= k < |envs| ==> envs[k].State() == old(envs[k].State())
    {
      var res := envs[i].Step(action[i]);
      results := results + [res];
      i := i + 1;
    }
    ghost var r := old(StepAll(DynamicsOf(envs), States(envs), action));
    assert States(envs) == r.0 by {
      forall k | 0 <= k < |envs| ensures States(envs)[k] == r.0[k] {
        assert (r.0[k], r.1[k]) == old(StepEnv(envs[k].dynamics, envs[k].State(), action[k]));
      }
    }
    assert results == r.1 by {
      forall k | 0 <= k < |envs| ensures results[k] == r.1[k] {
        assert (r.0[k], r.1[k]) == old(StepEnv(envs[k].dynamics, envs[k].State(), action[k]));
      }
    }
  }

  /** The loop every `Reset` starts with: row `i` is env `i`'s `Reset()`. */
  method ResetEach(envs: seq<AbstractEnv>) returns (rows: seq<Vector>)
    requires Distinct(envs)
    modifies envs
    ensures rows == old(ResetRows(envs))
    ensures forall i :: 0 <= i < |envs| ==>
              envs[i].State() == old(ResetEnv(envs[i].dynamics, envs[i].State()).0) && |rows[i]| == envs[i].dynamics.obsSize
    ensures (States(envs), rows) == old(ResetAll(DynamicsOf(envs), States(envs)))
  {
    rows := [];
    var i := 0;
    while i < |envs|
      invariant 0 <= i <= |envs| && |rows| == i
      invariant forall k :: 0 <= k < i ==>
                  (envs[k].State(), rows[k]) == old(ResetEnv(envs[k].dynamics, envs[k].State()))
      invariant forall k :: i <= k < |envs| ==> envs[k].State() == old(envs[k].State())
    {
      var obs := envs[i].Reset();
      rows := rows + [obs];
      i := i + 1;
    }
    ghost var r := old(ResetAll(DynamicsOf(envs), States(envs)));
    assert States(envs) == r.0 && rows == r.1 by {
      forall k | 0 <= k < |envs| ensures States(envs)[k] == r.0[k] && rows[k] == r.1[k] {
        assert (r.0[k], r.1[k]) == old(ResetEnv(envs[k].dynamics, envs[k].State()));
      }
    }
  }

  /** The loop of every `GetObs`: row `i` is env `i`'s observation. */
  method ObserveEach(envs: seq<AbstractEnv>) returns (rows: seq<Vector>)
    ensures rows == CurrentObs(envs)
  {
    rows := [];
    var i := 0;
    while i < |envs|
      invariant 0 <= i <= |envs| && rows == CurrentObs(envs)[..i]
    {
      rows := rows + [envs[i].GetObs()];
      i := i + 1;
    }
  }

  /** Seeds are 32-bit unsigned integers. */
  const SeedRange: nat := 0x1_0000_0000
  type U32 = x: nat | x < SeedRange

  /** The seed of env `i`: the base seed, or the random one drawn when the base
      seed is 0, plus `i` in unsigned 32-bit arithmetic. */
  function SeedOf(seed: U32, randomSeed: U32, i: nat): (r: U32)
    ensures seed != 0 && seed + i < SeedRange ==> r == seed + i
  {
    ((if seed == 0 then randomSeed else seed) + i) % SeedRange
  }

  /** Fewer than 2^32 envs get pairwise different seeds. */
  lemma SeedsDistinct(seed: U32, randomSeed: U32, i: nat, j: nat)
    requires i < j < SeedRange
    ensures SeedOf(seed, randomSeed, i) != SeedOf(seed, randomSeed, j)
  {
    var b := if seed == 0 then randomSeed else seed;
    WrapOnce(b + i);
    WrapOnce(b + j);
  }

  /** A sum of two seeds wraps around at most once. */
  lemma WrapOnce(x: nat)
    requires x < 2 * SeedRange
    ensures x % SeedRange == if x < SeedRange then x else x - SeedRange
  {
  }

  /** The environments `CreateEnvs` builds: env `i` of type `d` constructed
      with `SeedOf(seed, randomSeed, i)`; `make` gives the physical state a
      concrete env's constructor builds from its seed. */
  ghost predicate Built(envs: seq<AbstractEnv>, seed: U32, randomSeed: U32, d: Dynamics, make: U32 -> Physics)
    reads envs
  {
    && Distinct(envs) && SameWidth(envs, d.obsSize)
    && forall i :: 0 <= i < |envs| ==>
         envs[i].dynamics == d && envs[i].State() == EnvState(make(SeedOf(seed, randomSeed, i)), 0, 0.0)
  }

  /** The loop of `CreateEnvs`: `n` fresh environments. */
  method MakeEnvs(n: nat, seed: U32, randomSeed: U32, d: Dynamics, make: U32 -> Physics) returns (envs: seq<AbstractEnv>)
    ensures |envs| == n && Built(envs, seed, randomSeed, d, make)
    ensures forall i :: 0 <= i < n ==> fresh(envs[i])
  {
    envs := [];
    var i := 0;
    while i < n
      invariant 0 <= i <= n && |envs| == i && Distinct(envs)
      invariant forall k :: 0 <= k < i ==>
                  && fresh(envs[k]) && envs[k].dynamics == d
                  && envs[k].State() == EnvState(make(SeedOf(seed, randomSeed, k)), 0, 0.0)
    {
      var e := new AbstractEnv(d, make(SeedOf(seed, randomSeed, i)));
      envs := envs + [e];
      i := i + 1;
    }
  }
}
