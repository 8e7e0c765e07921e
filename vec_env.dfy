/** The newer vectorised environment (torchrl/src/envs/VectorizedEnv.cpp,
    torchrl/include/torchrl/envs/VectorizedEnv.hpp): it owns its
    environments, normalises observations and rewards with two running
    estimators, and keeps a per-environment return accumulator that it zeroes
    when an episode ends. */
module VecEnv {
  import opened Common
  import opened Env
  import opened Statistics
  import opened Normalization
  import opened Vectorized

  /** The constructor's parameters, fixed for the object's lifetime; `root`
      is the square root used by the normalisation. */
  datatype Settings = Settings(normObs: bool, normReward: bool, maxObs: real, maxReward: real,
                               discount: real, epsilon: real, root: Root)

  /** The constructor defaults: both normalisations on, bounds 10, discount
      0.99 and epsilon 1e-8. */
  function DefaultSettings(root: Root): (c: Settings)
    ensures c.normObs && c.normReward && c.maxObs == 10.0 && c.maxReward == 10.0
    ensures c.discount == 0.99 && c.epsilon == 0.00000001
  {
    Settings(true, true, DefaultMaxObs, DefaultMaxReward, DefaultDiscount, DefaultNormEpsilon, root)
  }

  /** What the normalisation keeps between calls: the training switch, the
      states of `obs_rms` and `ret_rms`, and the accumulator `returns`. */
  datatype NormState = NormState(training: bool, obsStats: RmsState, retStats: RmsState, acc: seq<real>)

  /** The invariant for `n` environments of observation width `width`; the
      shapes are only fixed once `CreateEnvs` has run. */
  predicate Fits(c: Settings, s: NormState, n: nat, width: nat)
  {
    && c.epsilon > 0.0
    && ValidState(s.obsStats) && ValidState(s.retStats) && |s.retStats.mean| == 1
    && (c.normObs && n > 0 ==> |s.obsStats.mean| == width)
    && (c.normReward ==> |s.acc| == n)
  }

  /** An update of the statistics needs at least one environment. */
  predicate CanUpdate(c: Settings, s: NormState, n: nat)
  {
    s.training && (c.normObs || c.normReward) ==> n > 0
  }

  /** The accumulator with the entries of ended episodes set to 0. */
  function ZeroEnded(acc: seq<real>, states: seq<TerminalState>): (r: seq<real>)
    requires |acc| == |states|
    ensures |r| == |acc|
    ensures forall i :: 0 <= i < |acc| ==> r[i] == (if Ended(states[i]) then 0.0 else acc[i])
  {
    seq(|acc|, i requires 0 <= i < |acc| => if Ended(states[i]) then 0.0 else acc[i])
  }

  /** The `new_episode_obs` row of env `i`, normalised with `s` when its
      episode ended and observation normalisation is on. */
  function NewEpisodeRow(c: Settings, s: RmsState, raw: VectorizedStepResult, i: nat): (row: Vector)
    requires Sized(raw, |raw.obs|) && i < |raw.obs| && ValidState(s) && c.epsilon > 0.0
    requires c.normObs && Ended(raw.terminalStates[i]) ==> |raw.newEpisodeObs[i]| == |s.mean|
    ensures |row| == |raw.newEpisodeObs[i]|
    ensures !(c.normObs && Ended(raw.terminalStates[i])) ==> row == raw.newEpisodeObs[i]
  {
    if Ended(raw.terminalStates[i]) && c.normObs then NormalizeRow(raw.newEpisodeObs[i], s, c.epsilon, c.maxObs, c.root)
    else raw.newEpisodeObs[i]
  }

  /** The `new_episode_obs` of the ended envs normalised with `s`, when
      observation normalisation is on; the other rows as they were. */
  function NewEpisodeRows(c: Settings, s: RmsState, raw: VectorizedStepResult, width: nat): (rows: seq<Vector>)
    requires Sized(raw, |raw.obs|) && ValidState(s) && c.epsilon > 0.0
    requires c.normObs ==> forall i :: 0 <= i < |raw.obs| && Ended(raw.terminalStates[i]) ==> |raw.newEpisodeObs[i]| == |s.mean|
    ensures |rows| == |raw.obs| && forall i :: 0 <= i < |raw.obs| ==> rows[i] == NewEpisodeRow(c, s, raw, i)
  {
    seq(|raw.obs|, i requires 0 <= i < |raw.obs| => NewEpisodeRow(c, s, raw, i))
  }

  /** `Reset` after the environments were reset to `rows`: the observation
      statistics take the batch, the accumulator is zeroed when reward
      normalisation is on, and the batch is returned normalised. */
  function ResetSpec(c: Settings, s: NormState, rows: seq<Vector>, width: nat): (r: (NormState, seq<Vector>))
    requires Fits(c, s, |rows|, width) && Rows(rows, width) && CanUpdate(c, s, |rows|)
    ensures Fits(c, r.0, |rows|, width) && |r.1| == |rows|
  {
    var obsStats := UpdateObsStats(s.training, c.normObs, s.obsStats, rows);
    var acc := if c.normReward then Zeros(|rows|) else s.acc;
    (s.(obsStats := obsStats, acc := acc), NormalizeObs(c.normObs, rows, obsStats, c.epsilon, c.maxObs, c.root))
  }

  /** The rows `Step` feeds to the observation statistics; zeros when
      observation normalisation is off. */
  function StepRows(c: Settings, results: seq<StepResult>, width: nat): (rows: seq<Vector>)
    requires ResultsShaped(results, width)
    ensures |rows| == |results| && Rows(rows, width)
    ensures c.normObs ==> rows == NormalizerRows(results)
  {
    NormalizerRowsShaped(results, width);
    if c.normObs then NormalizerRows(results) else ZeroRows(|results|, width)
  }

  /** The normalisation state after `Step`: the statistics take the
      normaliser rows and the new accumulator, then the accumulator of the
      ended episodes is zeroed. */
  function StepState(c: Settings, s: NormState, results: seq<StepResult>, width: nat): (r: NormState)
    requires Fits(c, s, |results|, width) && ResultsShaped(results, width) && CanUpdate(c, s, |results|)
    ensures Fits(c, r, |results|, width) && r.training == s.training
  {
    var raw := Stack(results);
    var obsStats := UpdateObsStats(s.training, c.normObs, s.obsStats, StepRows(c, results, width));
    var (acc, retStats) := UpdateRewardStats(s.training, c.normReward, c.discount, s.acc, raw.rewards, s.retStats);
    NormState(s.training, obsStats, retStats, if c.normReward then ZeroEnded(acc, raw.terminalStates) else acc)
  }

  /** The result of `Step` given the state after the update: observations,
      rewards and the ended envs' reset observations normalised with that
      state. */
  function StepOutput(c: Settings, s: NormState, results: seq<StepResult>, width: nat): (out: VectorizedStepResult)
    requires Fits(c, s, |results|, width) && ResultsShaped(results, width)
    ensures Sized(out, |results|)
  {
    var raw := Stack(results);
    raw.(obs := NormalizeObs(c.normObs, raw.obs, s.obsStats, c.epsilon, c.maxObs, c.root),
         rewards := NormalizeReward(c.normReward, raw.rewards, s.retStats, c.epsilon, c.maxReward, c.root),
         newEpisodeObs := NewEpisodeRows(c, s.obsStats, raw, width))
  }

  /** Row `i` of the terminal states and of both episode totals is env `i`'s
      own, and the result keeps the documented contract. */
  lemma StepPassesThrough(c: Settings, s: NormState, results: seq<StepResult>, width: nat)
    requires Fits(c, s, |results|, width) && ResultsShaped(results, width)
    requires forall i :: 0 <= i < |results| ==> Documented(results[i])
    ensures var out := StepOutput(c, s, results, width);
            && DocumentedRows(out)
            && forall i :: 0 <= i < |results| ==>
                 && out.terminalStates[i] == results[i].terminalState
                 && out.totReward[i] == results[i].totReward && out.totSteps[i] == results[i].totSteps
  {
    var out := StepOutput(c, s, results, width);
    forall i | 0 <= i < |results| && out.terminalStates[i] == NotTerminal
      ensures out.newEpisodeObs[i] == [] && out.totReward[i] == 0.0 && out.totSteps[i] == 0
    {
      assert Documented(results[i]);
    }
  }

  /** The statistics move only in training, and then the observation
      statistics take, for every env, its post-step observation if the
      episode goes on and its reset observation if it ended, while the
      reward statistics take the accumulator `returns + discount * reward`. */
  lemma StepStatistics(c: Settings, s: NormState, results: seq<StepResult>, width: nat)
    requires Fits(c, s, |results|, width) && ResultsShaped(results, width) && CanUpdate(c, s, |results|)
    ensures var r := StepState(c, s, results, width);
            && (!(s.training && c.normObs) ==> r.obsStats == s.obsStats)
            && (s.training && c.normObs ==>
                  && Batchable(s.obsStats, NormalizerRows(results))
                  && r.obsStats == UpdateState(s.obsStats, NormalizerRows(results)))
            && (!(s.training && c.normReward) ==> r.retStats == s.retStats)
            && (s.training && c.normReward ==>
                  && |s.acc| == |results|
                  && r.retStats == UpdateState(s.retStats, ScalarRows(Accumulate(s.acc, Stack(results).rewards, c.discount))))
  {
    NormalizerRowsShaped(results, width);
  }

  /** With reward normalisation on, `Step` leaves the accumulator advanced
      by the rewards in training, then zeroed at the ended envs. */
  lemma StepStateAcc(c: Settings, s: NormState, results: seq<StepResult>, width: nat)
    requires Fits(c, s, |results|, width) && ResultsShaped(results, width) && CanUpdate(c, s, |results|)
    requires c.normReward
    ensures |s.acc| == |results|
    ensures StepState(c, s, results, width).acc
              == ZeroEnded(if s.training then Accumulate(s.acc, Stack(results).rewards, c.discount) else s.acc,
                           Stack(results).terminalStates)
  {
  }

  /** With reward normalisation on, the accumulator of every env whose
      episode ended is 0 afterwards, in training or not; every other entry
      takes its `Accumulate` update (`+ discount * reward`) in training and
      is untouched otherwise. */
  lemma StepAccumulator(c: Settings, s: NormState, results: seq<StepResult>, width: nat, i: nat)
    requires Fits(c, s, |results|, width) && ResultsShaped(results, width) && CanUpdate(c, s, |results|)
    requires c.normReward && i < |results|
    ensures |StepState(c, s, results, width).acc| == |results| == |s.acc|
    ensures Ended(results[i].terminalState) ==> StepState(c, s, results, width).acc[i] == 0.0
    ensures !Ended(results[i].terminalState) && s.training ==>
              StepState(c, s, results, width).acc[i] == Accumulate(s.acc, Stack(results).rewards, c.discount)[i]
    ensures !Ended(results[i].terminalState) && !s.training ==> StepState(c, s, results, width).acc[i] == s.acc[i]
  {
    StepStateAcc(c, s, results, width);
    var raw := Stack(results);
    assert raw.terminalStates[i] == results[i].terminalState;
  }

  /** With normalisation on, every observation, every reset observation of
      an ended episode and every reward lies within its bound. */
  lemma StepBounded(c: Settings, s: NormState, results: seq<StepResult>, width: nat)
    requires Fits(c, s, |results|, width) && ResultsShaped(results, width)
    ensures var out := StepOutput(c, s, results, width);
            && (c.normObs && c.maxObs >= 0.0 ==>
                  forall i, j :: 0 <= i < |results| && 0 <= j < |out.obs[i]| ==> -c.maxObs <= out.obs[i][j] <= c.maxObs)
            && (c.normObs && c.maxObs >= 0.0 ==>
                  forall i, j :: 0 <= i < |results| && Ended(results[i].terminalState) && 0 <= j < |out.newEpisodeObs[i]| ==>
                    -c.maxObs <= out.newEpisodeObs[i][j] <= c.maxObs)
            && (c.normReward && c.maxReward >= 0.0 ==>
                  forall i :: 0 <= i < |results| ==> -c.maxReward <= out.rewards[i] <= c.maxReward)
  {
  }

  /** The observations and the reset observations of the ended envs are
      normalised with one and the same state, the one `Step` leaves behind. */
  lemma StepSameStatistics(c: Settings, s: NormState, results: seq<StepResult>, width: nat, i: nat)
    requires Fits(c, s, |results|, width) && ResultsShaped(results, width)
    requires c.normObs && i < |results|
    ensures var out := StepOutput(c, s, results, width);
            && out.obs[i] == NormalizeRow(results[i].obs, s.obsStats, c.epsilon, c.maxObs, c.root)
            && (Ended(results[i].terminalState) ==>
                  out.newEpisodeObs[i] == NormalizeRow(results[i].newEpisodeObs, s.obsStats, c.epsilon, c.maxObs, c.root))
  {
  }

  /** With both normalisations off a step is the plain stacking of the
      environments' results and the state does not move. */
  lemma StepTransparent(c: Settings, s: NormState, results: seq<StepResult>, width: nat)
    requires Fits(c, s, |results|, width) && ResultsShaped(results, width) && CanUpdate(c, s, |results|)
    requires !c.normObs && !c.normReward
    ensures StepState(c, s, results, width) == s
    ensures StepOutput(c, s, results, width) == Stack(results)
  {
    var out := StepOutput(c, s, results, width);
    assert out.newEpisodeObs == Stack(results).newEpisodeObs;
  }

  /** `Reset` zeroes the accumulator exactly when reward normalisation is on,
      moves the observation statistics only in training and returns rows
      within the bound. */
  lemma ResetProperties(c: Settings, s: NormState, rows: seq<Vector>, width: nat)
    requires Fits(c, s, |rows|, width) && Rows(rows, width) && CanUpdate(c, s, |rows|)
    ensures var (r, out) := ResetSpec(c, s, rows, width);
            && r.training == s.training && r.retStats == s.retStats
            && (c.normReward ==> r.acc == Zeros(|rows|))
            && (!c.normReward ==> r.acc == s.acc)
            && (!(s.training && c.normObs) ==> r.obsStats == s.obsStats)
            && (s.training && c.normObs ==> r.obsStats == UpdateState(s.obsStats, rows))
            && (!c.normObs ==> out == rows)
            && (c.normObs && c.maxObs >= 0.0 ==>
                  forall i, j :: 0 <= i < |out| && 0 <= j < |out[i]| ==> -c.maxObs <= out[i][j] <= c.maxObs)
  {
  }

  /** The vectorised environment; its environments are distinct objects it
      owns, and `obs_rms`, `ret_rms` two distinct estimators. */
  class VectorizedEnv {
    var envs: seq<AbstractEnv>
    var numEnvs: nat
    var obsSize: nat
    var actSize: nat
    var training: bool
    const normObs: bool
    const normReward: bool
    const maxObs: real
    const maxReward: real
    const discount: real
    const epsilon: real
    const root: Root
    /** `obs_rms` and `ret_rms` are members held by value: assigning one
        overwrites the object's fields, it never becomes another object. */
    const obsRms: RunningMeanStd
    const retRms: RunningMeanStd
    /** The field `returns`. */
    var runningReturns: seq<real>

    function Config(): Settings
    {
      Settings(normObs, normReward, maxObs, maxReward, discount, epsilon, root)
    }

    function Norm(): NormState
      reads this, obsRms, retRms
    {
      NormState(training, obsRms.State(), retRms.State(), runningReturns)
    }

    ghost predicate Valid()
      reads this, obsRms, retRms
    {
      && numEnvs == |envs| && Distinct(envs) && SameWidth(envs, obsSize)
      && obsRms != retRms
      && Fits(Config(), Norm(), numEnvs, obsSize)
    }

    /** What only `CreateEnvs` and the constructor change. */
    twostate predicate Kept()
      reads this
    {
      && envs == old(envs) && numEnvs == old(numEnvs) && obsSize == old(obsSize) && actSize == old(actSize)
    }

    /** No environments yet; both estimators hold the default scalar shape. */
    constructor (normObs: bool, normReward: bool, maxObs: real, maxReward: real, discount: real, epsilon: real, root: Root)
      requires epsilon > 0.0
      ensures obsRms.State() == Fresh(1, DefaultEpsilon) && retRms.State() == Fresh(1, DefaultEpsilon)
      ensures Valid() && envs == [] && training && runningReturns == []
      ensures numEnvs == 0 && obsSize == 0 && actSize == 0
      ensures Config() == Settings(normObs, normReward, maxObs, maxReward, discount, epsilon, root)
    {
      this.normObs := normObs;
      this.normReward := normReward;
      this.maxObs := maxObs;
      this.maxReward := maxReward;
      this.discount := discount;
      this.epsilon := epsilon;
      this.root := root;
      envs := [];
      numEnvs := 0;
      obsSize := 0;
      actSize := 0;
      training := true;
      obsRms := new RunningMeanStd(1, DefaultEpsilon);
      retRms := new RunningMeanStd(1, DefaultEpsilon);
      runningReturns := [];
    }

    method SetTraining(b: bool)
      requires Valid()
      modifies this
      ensures Valid() && Kept() && training == b && runningReturns == old(runningReturns)
    {
      training := b;
    }

    function GetNumEnvs(): (n: nat)
      reads this, obsRms, retRms
      ensures Valid() ==> n == |envs|
    {
      numEnvs
    }

    function GetObservationSize(): nat
      reads this
    {
      obsSize
    }

    function GetActionSize(): nat
      reads this
    {
      actSize
    }

    /** `CreateEnvs(N, seed)`: fails before any change when `N == 0`;
        otherwise replaces the environments by `N` fresh ones of type `d`,
        env `i` seeded with `seed + i`, takes the sizes from env 0 and
        replaces the estimators and the accumulator whose normalisation is
        on. */
    method CreateEnvs(n: nat, seed: U32, randomSeed: U32, d: Dynamics, make: U32 -> Physics) returns (outcome: Outcome)
      requires Valid()
      modifies this, obsRms, retRms
      ensures Valid() && training == old(training)
      ensures n == 0 ==> outcome.Fail? && unchanged(this, obsRms, retRms)
      ensures n > 0 ==>
                && outcome == Pass && |envs| == n && numEnvs == n
                && obsSize == d.obsSize && actSize == d.actSize
                && Built(envs, seed, randomSeed, d, make) && (forall i :: 0 <= i < n ==> fresh(envs[i]))
                && obsRms.State() == (if normObs then Fresh(d.obsSize, DefaultEpsilon) else old(obsRms.State()))
                && retRms.State() == (if normReward then Fresh(1, DefaultEpsilon) else old(retRms.State()))
                && runningReturns == (if normReward then Zeros(n) else old(runningReturns))
    {
      if n == 0 {
        return Fail("Cannot create 0 env in VectorizedEnv");
      }
      var created := MakeEnvs(n, seed, randomSeed, d, make);
      envs, numEnvs := created, |created|;
      obsSize := envs[0].GetObservationSize();
      actSize := envs[0].GetActionSize();
      Reinitialize(n, obsSize);
      outcome := Pass;
    }

    /** The last step of `CreateEnvs`: each estimator whose normalisation is
        on is overwritten by a fresh one of the right shape, and the
        accumulator by `n` zeros when reward normalisation is on. */
    method Reinitialize(n: nat, width: nat)
      requires obsRms != retRms
      modifies this`runningReturns, obsRms, retRms
      ensures obsRms.State() == (if normObs then Fresh(width, DefaultEpsilon) else old(obsRms.State()))
      ensures retRms.State() == (if normReward then Fresh(1, DefaultEpsilon) else old(retRms.State()))
      ensures runningReturns == (if normReward then Zeros(n) else old(runningReturns))
    {
      if normObs {
        var initial := new RunningMeanStd(width, DefaultEpsilon);
        obsRms.Load(initial.Save());
      }
      if normReward {
        runningReturns := Zeros(n);
        var initial := new RunningMeanStd(1, DefaultEpsilon);
        retRms.Load(initial.Save());
      }
    }

    /** `UpdateObs`. */
    method UpdateObs(rows: seq<Vector>)
      requires Valid() && (training && normObs ==> Batchable(obsRms.State(), rows))
      modifies obsRms
      ensures Valid()
      ensures obsRms.State() == UpdateObsStats(training, normObs, old(obsRms.State()), rows)
    {
      if training && normObs {
        obsRms.Update(rows);
      }
    }

    /** `UpdateReward`. */
    method UpdateReward(rewards: seq<real>)
      requires Valid() && |rewards| == numEnvs && (training && normReward ==> numEnvs > 0)
      modifies this, retRms
      ensures Valid() && Kept() && training == old(training)
      ensures (runningReturns, retRms.State())
              == UpdateRewardStats(training, normReward, discount, old(runningReturns), rewards, old(retRms.State()))
    {
      if training && normReward {
        runningReturns := Accumulate(runningReturns, rewards, discount);
        retRms.Update(ScalarRows(runningReturns));
      }
    }

    /** The states `Reset` leaves the environments in. */
    ghost function ResetStates(): (ss: seq<EnvState>)
      reads this, envs
      ensures |ss| == |envs|
    {
      ResetAll(DynamicsOf(envs), States(envs)).0
    }

    /** The normalisation state `Reset` leaves once training is switched
        on: the statistics take the reset observations. */
    ghost function TrainingResetNorm(): (s: NormState)
      reads this, obsRms, retRms, envs
      requires Valid() && numEnvs > 0
      ensures s.training && Fits(Config(), s, numEnvs, obsSize)
    {
      ResetSpec(Config(), Norm().(training := true), ResetRows(envs), obsSize).0
    }

    /** `Reset`: env `i`'s reset observation is row `i`. */
    method Reset() returns (obs: seq<Vector>)
      requires Valid() && CanUpdate(Config(), Norm(), numEnvs)
      modifies this, obsRms, envs
      ensures Valid() && Kept() && training == old(training)
      ensures States(envs) == old(ResetStates())
      ensures (Norm(), obs) == ResetSpec(Config(), old(Norm()), old(ResetRows(envs)), obsSize)
    {
      var rows := ResetEach(envs);
      obs := TakeReset(rows);
    }

    /** The rest of `Reset` once the environments returned `rows`: the
        observation statistics take them, the accumulator is zeroed when
        reward normalisation is on, and they are returned normalised. */
    method TakeReset(rows: seq<Vector>) returns (obs: seq<Vector>)
      requires Valid() && |rows| == numEnvs && Rows(rows, obsSize) && CanUpdate(Config(), Norm(), numEnvs)
      modifies this`runningReturns, obsRms
      ensures Valid() && (Norm(), obs) == ResetSpec(Config(), old(Norm()), rows, obsSize)
    {
      UpdateObs(rows);
      if normReward {
        runningReturns := Zeros(numEnvs);
      }
      obs := NormalizeObs(normObs, rows, obsRms.State(), epsilon, maxObs, root);
    }

    /** `Step`: every environment takes its action row, the statistics are
        updated, and the ended envs get their accumulator zeroed and their
        reset observation normalised. */
    method Step(action: seq<Vector>) returns (r: VectorizedStepResult)
      requires Valid() && |action| == numEnvs && CanUpdate(Config(), Norm(), numEnvs)
      modifies this, obsRms, retRms, envs
      ensures Valid() && Kept() && training == old(training)
      ensures (States(envs), old(StepResults(envs, action))) == old(StepAll(DynamicsOf(envs), States(envs), action))
      ensures Norm() == StepState(Config(), old(Norm()), old(StepResults(envs, action)), obsSize)
      ensures r == StepOutput(Config(), Norm(), old(StepResults(envs, action)), obsSize)
    {
      StepResultsShaped(envs, action, obsSize);
      var results := StepEach(envs, action);
      r := Normalize(results);
    }

    /** `Step` after the environments have stepped to `results`. */
    method Normalize(results: seq<StepResult>) returns (r: VectorizedStepResult)
      requires Valid() && |results| == numEnvs && ResultsShaped(results, obsSize) && CanUpdate(Config(), Norm(), numEnvs)
      modifies this, obsRms, retRms
      ensures Valid() && Kept() && training == old(training)
      ensures Norm() == StepState(Config(), old(Norm()), results, obsSize)
      ensures r == StepOutput(Config(), Norm(), results, obsSize)
    {
      var raw := Stack(results);
      UpdateObs(StepRows(Config(), results, obsSize));
      UpdateReward(raw.rewards);
      var newEpisodeObs := FinishEnded(raw);
      r := raw.(obs := NormalizeObs(normObs, raw.obs, obsRms.State(), epsilon, maxObs, root),
                rewards := NormalizeReward(normReward, raw.rewards, retRms.State(), epsilon, maxReward, root),
                newEpisodeObs := newEpisodeObs);
    }

    /** The second loop of `Step`: every env whose episode ended gets its
        reset observation normalised and its accumulator zeroed, each when
        the matching normalisation is on. */
    method FinishEnded(raw: VectorizedStepResult) returns (newEpisodeObs: seq<Vector>)
      requires Valid() && Sized(raw, numEnvs)
      requires normObs ==> forall i :: 0 <= i < numEnvs && Ended(raw.terminalStates[i]) ==> |raw.newEpisodeObs[i]| == |obsRms.mean|
      modifies this`runningReturns
      ensures Valid()
      ensures newEpisodeObs == NewEpisodeRows(Config(), obsRms.State(), raw, obsSize)
      ensures runningReturns == if normReward then ZeroEnded(old(runningReturns), raw.terminalStates) else old(runningReturns)
    {
      var stats := obsRms.State();
      newEpisodeObs := raw.newEpisodeObs;
      var i := 0;
      while i < numEnvs
        invariant 0 <= i <= numEnvs && |newEpisodeObs| == numEnvs && |runningReturns| == |old(runningReturns)|
        invariant !normReward ==> runningReturns == old(runningReturns)
        invariant forall k :: 0 <= k < i ==> newEpisodeObs[k] == NewEpisodeRow(Config(), stats, raw, k)
        invariant forall k :: i <= k < numEnvs ==> newEpisodeObs[k] == raw.newEpisodeObs[k]
        invariant normReward ==> forall k :: 0 <= k < i ==> runningReturns[k] == if Ended(raw.terminalStates[k]) then 0.0 else old(runningReturns)[k]
        invariant normReward ==> forall k :: i <= k < numEnvs ==> runningReturns[k] == old(runningReturns)[k]
      {
        newEpisodeObs := FinishEnv(raw, i, newEpisodeObs, stats);
        i := i + 1;
      }
    }

    /** One iteration of the second loop of `Step`, for env `i`. */
    method FinishEnv(raw: VectorizedStepResult, i: nat, rows: seq<Vector>, stats: RmsState) returns (rows': seq<Vector>)
      requires Sized(raw, numEnvs) && i < numEnvs == |rows| && rows[i] == raw.newEpisodeObs[i]
      requires ValidState(stats) && epsilon > 0.0 && (normReward ==> |runningReturns| == numEnvs)
      requires normObs && Ended(raw.terminalStates[i]) ==> |raw.newEpisodeObs[i]| == |stats.mean|
      modifies this`runningReturns
      ensures rows' == rows[i := NewEpisodeRow(Config(), stats, raw, i)]
      ensures runningReturns == if normReward && Ended(raw.terminalStates[i]) then old(runningReturns)[i := 0.0] else old(runningReturns)
    {
      rows' := rows;
      if raw.terminalStates[i] != NotTerminal {
        if normObs {
          rows' := rows'[i := NormalizeRow(rows'[i], stats, epsilon, maxObs, root)];
        }
        if normReward {
          runningReturns := runningReturns[i := 0.0];
        }
      }
    }

    /** The observations `GetObs` returns: those of the environments,
        normalised with the current statistics. */
    function Observation(): (obs: seq<Vector>)
      requires Valid()
      reads this, obsRms, retRms, envs
      ensures |obs| == |envs| && (normObs ==> Rows(obs, |obsRms.mean|))
    {
      CurrentObsShaped(envs, obsSize);
      NormalizeObs(normObs, CurrentObs(envs), obsRms.State(), epsilon, maxObs, root)
    }

    /** `GetObs`: nothing is stepped. */
    method GetObs() returns (obs: seq<Vector>)
      requires Valid()
      ensures obs == Observation()
    {
      var rows := ObserveEach(envs);
      CurrentObsShaped(envs, obsSize);
      obs := NormalizeObs(normObs, rows, obsRms.State(), epsilon, maxObs, root);
    }

    /** `Save`: the state of each estimator whose normalisation is on. */
    function Save(): (blobs: (Option<RmsState>, Option<RmsState>))
      reads this, obsRms, retRms
      ensures blobs.0.Some? <==> normObs
      ensures blobs.1.Some? <==> normReward
      ensures blobs.0.Some? ==> blobs.0.value == obsRms.State()
      ensures blobs.1.Some? ==> blobs.1.value == retRms.State()
    {
      (if normObs then Some(obsRms.Save()) else None, if normReward then Some(retRms.Save()) else None)
    }

    /** `Load`: each estimator whose normalisation is on takes the saved
        state; the others are untouched. */
    method Load(obsBlob: Option<RmsState>, retBlob: Option<RmsState>)
      requires Valid()
      requires normObs ==> obsBlob.Some? && ValidState(obsBlob.value) && (numEnvs > 0 ==> |obsBlob.value.mean| == obsSize)
      requires normReward ==> retBlob.Some? && ValidState(retBlob.value) && |retBlob.value.mean| == 1
      modifies obsRms, retRms
      ensures Valid()
      ensures obsRms.State() == if normObs then obsBlob.value else old(obsRms.State())
      ensures retRms.State() == if normReward then retBlob.value else old(retRms.State())
    {
      if normObs {
        obsRms.Load(obsBlob.value);
      }
      if normReward {
        retRms.Load(retBlob.value);
      }
    }
  }
}
