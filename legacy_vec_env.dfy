/** The older vectorised environment (src/envs/VectorizedEnv.cpp,
    include/torchrl/envs/VectorizedEnv.hpp) and its normalising subclass
    (src/envs/NormalizedVectorizedEnv.cpp,
    include/torchrl/envs/NormalizedVectorizedEnv.hpp). The subclass is
    modelled by composition: it holds the plain vectorised environment as
    `base` and calls it where the C++ calls the base-class member. */
module LegacyVecEnv {
  import opened Common
  import opened Env
  import opened Statistics
  import opened Normalization
  import opened Vectorized
  import opened VecEnv

  /** `Reset` of the subclass after the environments were reset to `rows`:
      like the newer generation, except that the accumulator is zeroed
      whether or not reward normalisation is on. */
  function LegacyResetSpec(c: Settings, s: NormState, rows: seq<Vector>, width: nat): (r: (NormState, seq<Vector>))
    requires Fits(c, s, |rows|, width) && Rows(rows, width) && CanUpdate(c, s, |rows|)
    ensures Fits(c, r.0, |rows|, width) && |r.1| == |rows|
    ensures r.0.acc == Zeros(|rows|) && r.0.training == s.training && r.0.retStats == s.retStats
    ensures !(s.training && c.normObs) ==> r.0.obsStats == s.obsStats
    ensures !c.normObs ==> r.1 == rows
  {
    var obsStats := UpdateObsStats(s.training, c.normObs, s.obsStats, rows);
    (s.(obsStats := obsStats, acc := Zeros(|rows|)), NormalizeObs(c.normObs, rows, obsStats, c.epsilon, c.maxObs, c.root))
  }

  /** The normalisation state after `Step` of the subclass: the statistics
      take the normaliser rows and the accumulator, which is never zeroed. */
  function LegacyStepState(c: Settings, s: NormState, results: seq<StepResult>, width: nat): (r: NormState)
    requires Fits(c, s, |results|, width) && ResultsShaped(results, width) && CanUpdate(c, s, |results|)
    ensures Fits(c, r, |results|, width) && r.training == s.training
  {
    var obsStats := UpdateObsStats(s.training, c.normObs, s.obsStats, StepRows(c, results, width));
    var (acc, retStats) := UpdateRewardStats(s.training, c.normReward, c.discount, s.acc, Stack(results).rewards, s.retStats);
    NormState(s.training, obsStats, retStats, acc)
  }

  /** The `new_episode_obs` rows after the second loop of `Step`: every
      non-empty row normalised with `s`. */
  function NonEmptyNormalized(c: Settings, s: RmsState, rows: seq<Vector>): (r: seq<Vector>)
    requires ValidState(s) && c.epsilon > 0.0
    requires c.normObs ==> forall i :: 0 <= i < |rows| && |rows[i]| != 0 ==> |rows[i]| == |s.mean|
    ensures |r| == |rows|
    ensures forall i :: 0 <= i < |rows| ==> |r[i]| == |rows[i]|
    ensures !c.normObs ==> r == rows
  {
    seq(|rows|, i requires 0 <= i < |rows| =>
      if |rows[i]| != 0 then NormalizeObs(c.normObs, [rows[i]], s, c.epsilon, c.maxObs, c.root)[0] else rows[i])
  }

  /** The result of `Step` of the subclass given the state after the
      update. */
  function LegacyStepOutput(c: Settings, s: NormState, results: seq<StepResult>, width: nat): (out: VectorizedStepResult)
    requires Fits(c, s, |results|, width) && ResultsShaped(results, width)
    requires forall i :: 0 <= i < |results| ==> Documented(results[i])
    ensures Sized(out, |results|)
  {
    var raw := Stack(results);
    NonEmptyRowsShaped(results, width);
    raw.(obs := NormalizeObs(c.normObs, raw.obs, s.obsStats, c.epsilon, c.maxObs, c.root),
         rewards := NormalizeReward(c.normReward, raw.rewards, s.retStats, c.epsilon, c.maxReward, c.root),
         newEpisodeObs := NonEmptyNormalized(c, s.obsStats, raw.newEpisodeObs))
  }

  /** A non-empty `new_episode_obs` row is a reset observation, and with
      observations of positive width exactly the ended envs have one. */
  lemma NonEmptyRowsShaped(results: seq<StepResult>, width: nat)
    requires ResultsShaped(results, width)
    requires forall i :: 0 <= i < |results| ==> Documented(results[i])
    ensures forall i :: 0 <= i < |results| && |Stack(results).newEpisodeObs[i]| != 0 ==>
              |Stack(results).newEpisodeObs[i]| == width
    ensures width > 0 ==> forall i :: 0 <= i < |results| ==>
              (|Stack(results).newEpisodeObs[i]| != 0 <==> Ended(results[i].terminalState))
  {
    forall i | 0 <= i < |results|
      ensures |Stack(results).newEpisodeObs[i]| != 0 ==> |Stack(results).newEpisodeObs[i]| == width
      ensures width > 0 ==> (|Stack(results).newEpisodeObs[i]| != 0 <==> Ended(results[i].terminalState))
    {
      assert Documented(results[i]);
    }
  }

  /** The older test `numel() != 0` picks the same rows as the newer test on
      the terminal state, because a NotTerminal result carries an empty
      `new_episode_obs`: both generations return the same step result from
      the same statistics. */
  lemma StepOutputsAgree(c: Settings, s: NormState, results: seq<StepResult>, width: nat)
    requires Fits(c, s, |results|, width) && ResultsShaped(results, width)
    requires forall i :: 0 <= i < |results| ==> Documented(results[i])
    ensures LegacyStepOutput(c, s, results, width) == StepOutput(c, s, results, width)
  {
    var older := LegacyStepOutput(c, s, results, width);
    var newer := StepOutput(c, s, results, width);
    forall i | 0 <= i < |results|
      ensures older.newEpisodeObs[i] == newer.newEpisodeObs[i]
    {
      assert Documented(results[i]);
      var row := results[i].newEpisodeObs;
      if Ended(results[i].terminalState) && c.normObs && |row| == 0 {
        assert NormalizeRow(row, s.obsStats, c.epsilon, c.maxObs, c.root) == row;
      }
    }
  }

  /** The two generations keep the same statistics after a step; their
      accumulators differ only at the ended envs, which the newer one zeroes
      when reward normalisation is on. */
  lemma StepStatesAgree(c: Settings, s: NormState, results: seq<StepResult>, width: nat, i: nat)
    requires Fits(c, s, |results|, width) && ResultsShaped(results, width) && CanUpdate(c, s, |results|)
    requires i < |s.acc| == |results|
    ensures var (older, newer) := (LegacyStepState(c, s, results, width), StepState(c, s, results, width));
            && older.training == newer.training
            && older.obsStats == newer.obsStats && older.retStats == newer.retStats
            && |older.acc| == |newer.acc|
            && (!(c.normReward && Ended(results[i].terminalState)) ==> older.acc[i] == newer.acc[i])
  {
  }

  /** With reward normalisation on, every entry of the older accumulator
      gains `discount * reward` in training, the ended envs' entries
      included, and nothing moves outside training. */
  lemma LegacyStepAccumulator(c: Settings, s: NormState, results: seq<StepResult>, width: nat)
    requires Fits(c, s, |results|, width) && ResultsShaped(results, width) && CanUpdate(c, s, |results|)
    requires c.normReward
    ensures var acc := LegacyStepState(c, s, results, width).acc;
            && (s.training ==> acc == Accumulate(s.acc, Stack(results).rewards, c.discount))
            && (!s.training ==> acc == s.acc)
  {
  }

  /** The older `Reset` agrees with the newer one except for the
      accumulator, which it zeroes even with reward normalisation off. */
  lemma ResetsAgree(c: Settings, s: NormState, rows: seq<Vector>, width: nat)
    requires Fits(c, s, |rows|, width) && Rows(rows, width) && CanUpdate(c, s, |rows|)
    ensures var (older, newer) := (LegacyResetSpec(c, s, rows, width), ResetSpec(c, s, rows, width));
            && older.1 == newer.1
            && older.0.(acc := newer.0.acc) == newer.0
            && older.0.acc == Zeros(|rows|)
            && (c.normReward ==> older == newer)
  {
  }

  /** The base class: plain stacking of its environments' results. */
  class VectorizedEnv {
    var envs: seq<AbstractEnv>
    var obsSize: nat
    var actSize: nat

    ghost predicate Valid()
      reads this
    {
      Distinct(envs) && SameWidth(envs, obsSize)
    }

    constructor ()
      ensures Valid() && envs == [] && obsSize == 0 && actSize == 0
    {
      envs := [];
      obsSize := 0;
      actSize := 0;
    }

    function GetNumEnvs(): nat
      reads this
    {
      |envs|
    }

    function GetObservationSize(): nat
      reads this
    {
      obsSize
    }

    function GetActionSize(): nat
      reads this
    {
      actSize
    }

    /** `Reset`: row `i` is env `i`'s reset observation. */
    method Reset() returns (obs: seq<Vector>)
      requires Valid()
      modifies envs
      ensures Valid()
      ensures obs == old(ResetRows(envs)) && Rows(obs, obsSize)
      ensures forall i :: 0 <= i < |envs| ==> envs[i].State() == old(ResetEnv(envs[i].dynamics, envs[i].State()).0)
    {
      obs := ResetEach(envs);
    }

    /** `Step`: every environment takes its action row and row `i` of every
        field is env `i`'s result, unnormalised. */
    method Step(action: seq<Vector>) returns (r: VectorizedStepResult)
      requires Valid() && |action| == |envs|
      modifies envs
      ensures Valid()
      ensures r == Stack(old(StepResults(envs, action))) && DocumentedRows(r)
      ensures forall i :: 0 <= i < |envs| ==>
                envs[i].State() == old(StepEnv(envs[i].dynamics, envs[i].State(), action[i]).0)
      ensures (States(envs), old(StepResults(envs, action))) == old(StepAll(DynamicsOf(envs), States(envs), action))
    {
      var results := StepEach(envs, action);
      StackDocumented(results);
      r := Stack(results);
    }

    /** `GetObs`: row `i` is env `i`'s current observation. */
    method GetObs() returns (obs: seq<Vector>)
      requires Valid()
      ensures obs == CurrentObs(envs) && Rows(obs, obsSize)
    {
      obs := ObserveEach(envs);
      assert Rows(obs, obsSize) by {
        forall i | 0 <= i < |obs| ensures |obs[i]| == obsSize {
          assert obs[i] == envs[i].GetObs();
        }
      }
    }

    /** `CreateEnvs(N, seed)`: fails before any change when `N == 0`;
        otherwise replaces the environments by `N` fresh ones of type `d`,
        env `i` seeded with `seed + i`, and takes the sizes from env 0. */
    method CreateEnvs(n: nat, seed: U32, randomSeed: U32, d: Dynamics, make: U32 -> Physics) returns (outcome: Outcome)
      requires Valid()
      modifies this
      ensures Valid()
      ensures n == 0 ==> outcome.Fail? && unchanged(this)
      ensures n > 0 ==>
                && outcome == Pass && |envs| == n && obsSize == d.obsSize && actSize == d.actSize
                && Built(envs, seed, randomSeed, d, make) && (forall i :: 0 <= i < n ==> fresh(envs[i]))
    {
      if n == 0 {
        return Fail("Cannot create 0 env in VectorizedEnv");
      }
      envs := MakeEnvs(n, seed, randomSeed, d, make);
      obsSize := envs[0].GetObservationSize();
      actSize := envs[0].GetActionSize();
      PostCreateEnvs(n);
      outcome := Pass;
    }

    /** The base class's hook after `CreateEnvs`: it does nothing. */
    method PostCreateEnvs(n: nat)
    {
    }
  }

  /** The normalising subclass. */
  class NormalizedVectorizedEnv {
    const base: VectorizedEnv
    var training: bool
    const normObs: bool
    const normReward: bool
    const maxObs: real
    const maxReward: real
    const discount: real
    const epsilon: real
    const root: Root
    /** `obs_rms` and `ret_rms`, members held by value. */
    const obsRms: RunningMeanStd
    const retRms: RunningMeanStd
    /** The field `returns`. */
    var runningReturns: seq<real>

    function Config(): Settings
    {
      Settings(normObs, normReward, maxObs, maxReward, discount, epsilon, root)
    }

    function Norm(): NormState
      reads this, obsRms, retRms
    {
      NormState(training, obsRms.State(), retRms.State(), runningReturns)
    }

    ghost predicate Valid()
      reads this, base, obsRms, retRms
    {
      && base.Valid() && obsRms != retRms
      && |runningReturns| == |base.envs|
      && Fits(Config(), Norm(), |base.envs|, base.obsSize)
    }

    /** No environments yet; both estimators hold the default scalar shape
        and `returns` is empty. */
    constructor (training: bool, normObs: bool, normReward: bool, maxObs: real, maxReward: real,
                 discount: real, epsilon: real, root: Root)
      requires epsilon > 0.0
      ensures obsRms.State() == Fresh(1, DefaultEpsilon) && retRms.State() == Fresh(1, DefaultEpsilon)
      ensures Valid() && base.envs == [] && this.training == training && runningReturns == []
      ensures fresh(base) && base.obsSize == 0 && base.actSize == 0
      ensures Config() == Settings(normObs, normReward, maxObs, maxReward, discount, epsilon, root)
    {
      this.training := training;
      this.normObs := normObs;
      this.normReward := normReward;
      this.maxObs := maxObs;
      this.maxReward := maxReward;
      this.discount := discount;
      this.epsilon := epsilon;
      this.root := root;
      base := new VectorizedEnv();
      obsRms := new RunningMeanStd(1, DefaultEpsilon);
      retRms := new RunningMeanStd(1, DefaultEpsilon);
      runningReturns := [];
    }

    method SetTraining(b: bool)
      requires Valid()
      modifies this
      ensures Valid() && training == b && runningReturns == old(runningReturns)
    {
      training := b;
    }

    /** `CreateEnvs` of the base class followed by this class's
        `PostCreateEnvs`, once all environments exist. */
    method CreateEnvs(n: nat, seed: U32, randomSeed: U32, d: Dynamics, make: U32 -> Physics) returns (outcome: Outcome)
      requires Valid()
      modifies this, base, obsRms, retRms
      ensures Valid() && training == old(training)
      ensures n == 0 ==> outcome.Fail? && unchanged(this, base, obsRms, retRms)
      ensures n > 0 ==>
                && outcome == Pass && |base.envs| == n
                && base.obsSize == d.obsSize && base.actSize == d.actSize
                && Built(base.envs, seed, randomSeed, d, make) && (forall i :: 0 <= i < n ==> fresh(base.envs[i]))
                && obsRms.State() == Fresh(d.obsSize, DefaultEpsilon) && retRms.State() == Fresh(1, DefaultEpsilon)
                && runningReturns == Zeros(n)
    {
      outcome := base.CreateEnvs(n, seed, randomSeed, d, make);
      if outcome.Fail? {
        return;
      }
      PostCreateEnvs(n);
    }

    /** `PostCreateEnvs(N)`: `returns` becomes `N` zeros, `obs_rms` a fresh
        estimator of the observation shape and `ret_rms` a fresh scalar one,
        whatever the normalisation flags. */
    method PostCreateEnvs(n: nat)
      requires obsRms != retRms
      modifies this`runningReturns, obsRms, retRms
      ensures obsRms.State() == Fresh(base.obsSize, DefaultEpsilon) && retRms.State() == Fresh(1, DefaultEpsilon)
      ensures runningReturns == Zeros(n)
    {
      runningReturns := Zeros(n);
      var initialObs := new RunningMeanStd(base.obsSize, DefaultEpsilon);
      obsRms.Load(initialObs.Save());
      var initialRet := new RunningMeanStd(1, DefaultEpsilon);
      retRms.Load(initialRet.Save());
    }

    /** `UpdateObs`. */
    method UpdateObs(rows: seq<Vector>)
      requires Valid() && (training && normObs ==> Batchable(obsRms.State(), rows))
      modifies obsRms
      ensures Valid()
      ensures obsRms.State() == UpdateObsStats(training, normObs, old(obsRms.State()), rows)
    {
      if training && normObs {
        obsRms.Update(rows);
      }
    }

    /** `UpdateReward`. */
    method UpdateReward(rewards: seq<real>)
      requires Valid() && |rewards| == |base.envs| && (training && normReward ==> |base.envs| > 0)
      modifies this`runningReturns, retRms
      ensures Valid()
      ensures (runningReturns, retRms.State())
              == UpdateRewardStats(training, normReward, discount, old(runningReturns), rewards, old(retRms.State()))
    {
      if training && normReward {
        runningReturns := Accumulate(runningReturns, rewards, discount);
        retRms.Update(ScalarRows(runningReturns));
      }
    }

    /** `Reset`: the base class's `Reset`, the gated update of the
        observation statistics, `returns` zeroed, and the batch normalised. */
    method Reset() returns (obs: seq<Vector>)
      requires Valid() && CanUpdate(Config(), Norm(), |base.envs|)
      modifies this`runningReturns, obsRms, base.envs
      ensures Valid()
      ensures forall i :: 0 <= i < |base.envs| ==>
                base.envs[i].State() == old(ResetEnv(base.envs[i].dynamics, base.envs[i].State()).0)
      ensures (Norm(), obs) == LegacyResetSpec(Config(), old(Norm()), old(ResetRows(base.envs)), base.obsSize)
    {
      var rows := base.Reset();
      UpdateObs(rows);
      runningReturns := Zeros(|base.envs|);
      obs := NormalizeObs(normObs, rows, obsRms.State(), epsilon, maxObs, root);
    }

    /** `Step`: the base class's `Step`, then the normalisation. */
    method Step(action: seq<Vector>) returns (r: VectorizedStepResult)
      requires Valid() && |action| == |base.envs| && CanUpdate(Config(), Norm(), |base.envs|)
      modifies this`runningReturns, obsRms, retRms, base.envs
      ensures Valid()
      ensures forall i :: 0 <= i < |base.envs| ==>
                base.envs[i].State() == old(StepEnv(base.envs[i].dynamics, base.envs[i].State(), action[i]).0)
      ensures Norm() == LegacyStepState(Config(), old(Norm()), old(StepResults(base.envs, action)), base.obsSize)
      ensures r == LegacyStepOutput(Config(), Norm(), old(StepResults(base.envs, action)), base.obsSize)
    {
      ghost var results := StepResults(base.envs, action);
      StepResultsShaped(base.envs, action, base.obsSize);
      var raw := base.Step(action);
      r := Normalize(raw, results);
    }

    /** The rows of the first loop of `Step`: the post-step observation of
        an env that goes on, the reset observation of one that ended. */
    static function NormalizerBatch(raw: VectorizedStepResult): (rows: seq<Vector>)
      requires Sized(raw, |raw.obs|)
      ensures |rows| == |raw.obs|
    {
      seq(|raw.obs|, i requires 0 <= i < |raw.obs| =>
        if raw.terminalStates[i] == NotTerminal then raw.obs[i] else raw.newEpisodeObs[i])
    }

    /** `Step` after the base class has stepped to `raw`, the stacking of
        `results`. */
    method Normalize(raw: VectorizedStepResult, ghost results: seq<StepResult>) returns (r: VectorizedStepResult)
      requires Valid() && raw == Stack(results) && |results| == |base.envs|
      requires ResultsShaped(results, base.obsSize) && forall i :: 0 <= i < |results| ==> Documented(results[i])
      requires CanUpdate(Config(), Norm(), |base.envs|)
      modifies this`runningReturns, obsRms, retRms
      ensures Valid()
      ensures Norm() == LegacyStepState(Config(), old(Norm()), results, base.obsSize)
      ensures r == LegacyStepOutput(Config(), Norm(), results, base.obsSize)
    {
      assert NormalizerBatch(raw) == NormalizerRows(results);
      NormalizerRowsShaped(results, base.obsSize);
      UpdateObs(NormalizerBatch(raw));
      UpdateReward(raw.rewards);
      NonEmptyRowsShaped(results, base.obsSize);
      var newEpisodeObs := NormalizeNonEmpty(raw.newEpisodeObs);
      r := raw.(obs := NormalizeObs(normObs, raw.obs, obsRms.State(), epsilon, maxObs, root),
                rewards := NormalizeReward(normReward, raw.rewards, retRms.State(), epsilon, maxReward, root),
                newEpisodeObs := newEpisodeObs);
    }

    /** The second loop of `Step`: every non-empty `new_episode_obs` row is
        normalised. */
    method NormalizeNonEmpty(rows: seq<Vector>) returns (out: seq<Vector>)
      requires Valid()
      requires normObs ==> forall i :: 0 <= i < |rows| && |rows[i]| != 0 ==> |rows[i]| == |obsRms.mean|
      ensures out == NonEmptyNormalized(Config(), obsRms.State(), rows)
    {
      out := rows;
      var i := 0;
      while i < |rows|
        invariant 0 <= i <= |rows| && |out| == |rows|
        invariant forall k :: 0 <= k < i ==> out[k] == NonEmptyNormalized(Config(), obsRms.State(), rows)[k]
        invariant forall k :: i <= k < |rows| ==> out[k] == rows[k]
      {
        if |out[i]| != 0 {
          out := out[i := NormalizeObs(normObs, [out[i]], obsRms.State(), epsilon, maxObs, root)[0]];
        }
        i := i + 1;
      }
    }

    /** The observations `GetObs` returns: the base class's, normalised with
        the current statistics. */
    function Observation(): (obs: seq<Vector>)
      requires Valid()
      reads this, base, obsRms, retRms, base.envs
      ensures |obs| == |base.envs| && (normObs ==> Rows(obs, |obsRms.mean|))
    {
      CurrentObsShaped(base.envs, base.obsSize);
      NormalizeObs(normObs, CurrentObs(base.envs), obsRms.State(), epsilon, maxObs, root)
    }

    /** `GetObs`: the base class's observations, normalised. */
    method GetObs() returns (obs: seq<Vector>)
      requires Valid()
      ensures obs == Observation()
    {
      var rows := base.GetObs();
      obs := NormalizeObs(normObs, rows, obsRms.State(), epsilon, maxObs, root);
    }
  }
}
