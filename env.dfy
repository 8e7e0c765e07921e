/** Episode bookkeeping of `AbstractEnv` (src/envs/AbstractEnv.cpp,
    include/torchrl/envs/AbstractEnv.hpp). A concrete environment supplies
    `StepImpl`, `ResetImpl` and `GetObs`; here these are the functions of a
    `Dynamics` value acting on an opaque physical state. The base class keeps
    the length and the reward of the running episode and resets itself when
    a step ends the episode. */
module Env {
  import opened Common

  datatype TerminalState = NotTerminal | Terminal | Timeout

  /** Terminal or Timeout: the step ended the episode. */
  predicate Ended(t: TerminalState)
  {
    t != NotTerminal
  }

  /** The struct `StepResult`. A NotTerminal result carries an empty
      `new_episode_obs` and the totals 0. */
  datatype StepResult = StepResult(obs: Vector, reward: real, terminalState: TerminalState,
                                   newEpisodeObs: Vector, totReward: real, totSteps: nat)

  /** A `StepResult` with only its first three fields set and the declared
      defaults for the others. */
  function MakeStepResult(obs: Vector, reward: real, terminalState: TerminalState): (r: StepResult)
    ensures r.obs == obs && r.reward == reward && r.terminalState == terminalState
    ensures r.newEpisodeObs == [] && r.totReward == 0.0 && r.totSteps == 0
  {
    StepResult(obs, reward, terminalState, [], 0.0, 0)
  }

  /** The documented contract of a `StepResult`: when the state is
      NotTerminal, `new_episode_obs` is empty and both totals are 0. */
  predicate Documented(r: StepResult)
  {
    r.terminalState == NotTerminal ==> r.newEpisodeObs == [] && r.totReward == 0.0 && r.totSteps == 0
  }

  /** The internal state of a concrete environment (its physics and its random
      engine), opaque to the bookkeeping. */
  type Physics = seq<real>

  /** What `StepImpl` produces: the env's next physical state, the observation,
      the reward and the termination state. */
  datatype ImplResult = ImplResult(physics: Physics, obs: Vector, reward: real, terminalState: TerminalState)

  /** The pure virtual members of one concrete environment type.
      `stepImpl(physics, episodeLength, action)` sees the episode length
      counting the step being taken. */
  datatype DynamicsFns = DynamicsFns(
    obsSize: nat,
    actSize: nat,
    stepImpl: (Physics, nat, Vector) -> ImplResult,
    resetImpl: Physics -> Physics,
    getObs: Physics -> Vector)

  /** Every observation of the environment has `GetObservationSize()` entries. */
  ghost predicate Shaped(d: DynamicsFns)
  {
    && (forall p :: |d.getObs(p)| == d.obsSize)
    && (forall p, len, a :: |d.stepImpl(p, len, a).obs| == d.obsSize)
  }

  type Dynamics = d: DynamicsFns | Shaped(d)
    witness DynamicsFns(0, 0, (p, len, a) => ImplResult(p, [], 0.0, NotTerminal), p => p, p => [])

  /** The base-class fields together with the physical state. */
  datatype EnvState = EnvState(physics: Physics, length: nat, episodeReward: real)

  /** `Reset`: both counters are zeroed, `ResetImpl` runs, and the observation
      of the new state is returned. */
  function ResetEnv(d: Dynamics, s: EnvState): (r: (EnvState, Vector))
    ensures r.0.length == 0 && r.0.episodeReward == 0.0
    ensures r.0.physics == d.resetImpl(s.physics)
    ensures r.1 == d.getObs(r.0.physics) && |r.1| == d.obsSize
  {
    var p := d.resetImpl(s.physics);
    (EnvState(p, 0, 0.0), d.getObs(p))
  }

  /** `Step`: the episode length grows by one before `StepImpl` runs, the
      step's reward is added to the episode reward, and a step that ends the
      episode reports the episode's totals and resets the environment. */
  function StepEnv(d: Dynamics, s: EnvState, action: Vector): (r: (EnvState, StepResult))
    ensures var impl := d.stepImpl(s.physics, s.length + 1, action);
            && r.1.obs == impl.obs && r.1.reward == impl.reward && r.1.terminalState == impl.terminalState
            && (Ended(impl.terminalState) ==>
                  && r.1.totReward == s.episodeReward + impl.reward
                  && r.1.totSteps == s.length + 1
                  && (r.0, r.1.newEpisodeObs) == ResetEnv(d, EnvState(impl.physics, s.length + 1, s.episodeReward + impl.reward)))
            && (!Ended(impl.terminalState) ==>
                  r.0 == EnvState(impl.physics, s.length + 1, s.episodeReward + impl.reward))
    ensures Documented(r.1)
    ensures |r.1.obs| == d.obsSize
    ensures Ended(r.1.terminalState) ==> |r.1.newEpisodeObs| == d.obsSize && r.1.totSteps >= 1
  {
    var length := s.length + 1;
    var impl := d.stepImpl(s.physics, length, action);
    var reward := s.episodeReward + impl.reward;
    var result := MakeStepResult(impl.obs, impl.reward, impl.terminalState);
    if Ended(impl.terminalState) then
      var (next, obs) := ResetEnv(d, EnvState(impl.physics, length, reward));
      (next, result.(totReward := reward, totSteps := length, newEpisodeObs := obs))
    else
      (EnvState(impl.physics, length, reward), result)
  }

  /** Steps an environment through a sequence of actions. */
  function Run(d: Dynamics, s: EnvState, actions: seq<Vector>): (r: (EnvState, seq<StepResult>))
    ensures |r.1| == |actions|
    decreases |actions|
  {
    if |actions| == 0 then (s, [])
    else
      var (t, res) := StepEnv(d, s, actions[0]);
      var (u, rest) := Run(d, t, actions[1..]);
      (u, [res] + rest)
  }

  /** Sum of the rewards of a sequence of step results. */
  function RewardSum(rs: seq<StepResult>): real
  {
    if |rs| == 0 then 0.0 else rs[0].reward + RewardSum(rs[1..])
  }

  /** Along a run in which no step before the last ends the episode, the
      counters are the episode's length and reward so far; when the last step
      ends it, it reports exactly the totals of all steps taken since the
      starting state, and the counters are back to zero. */
  lemma {:induction false} EpisodeTotals(d: Dynamics, s: EnvState, actions: seq<Vector>)
    requires |actions| > 0
    requires forall k :: 0 <= k < |actions| - 1 ==> !Ended(Run(d, s, actions).1[k].terminalState)
    ensures var (u, rs) := Run(d, s, actions);
            var last := rs[|rs| - 1];
            && (Ended(last.terminalState) ==>
                  && last.totSteps == s.length + |actions|
                  && last.totReward == s.episodeReward + RewardSum(rs)
                  && u.length == 0 && u.episodeReward == 0.0)
            && (!Ended(last.terminalState) ==>
                  && u.length == s.length + |actions|
                  && u.episodeReward == s.episodeReward + RewardSum(rs))
    decreases |actions|
  {
    var (t, res) := StepEnv(d, s, actions[0]);
    var (u, rest) := Run(d, t, actions[1..]);
    assert Run(d, s, actions) == (u, [res] + rest);
    if |actions| > 1 {
      assert !Ended(res.terminalState) by {
        assert Run(d, s, actions).1[0] == res;
      }
      forall k | 0 <= k < |actions[1..]| - 1
        ensures !Ended(Run(d, t, actions[1..]).1[k].terminalState)
      {
        assert Run(d, s, actions).1[k + 1] == rest[k];
      }
      EpisodeTotals(d, t, actions[1..]);
      assert ([res] + rest)[|actions| - 1] == rest[|rest| - 1];
      assert RewardSum([res] + rest) == res.reward + RewardSum(rest) by {
        assert ([res] + rest)[1..] == rest;
      }
    } else {
      assert rest == [];
      assert RewardSum([res]) == res.reward by {
        assert [res][1..] == [];
      }
    }
  }

  /** The base class `AbstractEnv`: the two counters are fields the methods
      update in place, next to the concrete env's physical state. */
  class AbstractEnv {
    const dynamics: Dynamics
    var physics: Physics
    var currentEpisodeLength: nat
    var currentEpisodeReward: real

    function State(): EnvState
      reads this
    {
      EnvState(physics, currentEpisodeLength, currentEpisodeReward)
    }

    /** The constructor starts both counters at zero; seeding the random
        engine is part of `physics`. */
    constructor (d: Dynamics, initial: Physics)
      ensures dynamics == d && State() == EnvState(initial, 0, 0.0)
    {
      dynamics := d;
      physics := initial;
      currentEpisodeLength := 0;
      currentEpisodeReward := 0.0;
    }

    function GetObservationSize(): nat
    {
      dynamics.obsSize
    }

    function GetActionSize(): nat
    {
      dynamics.actSize
    }

    function GetObs(): (obs: Vector)
      reads this
      ensures |obs| == dynamics.obsSize
    {
      dynamics.getObs(physics)
    }

    method Reset() returns (obs: Vector)
      modifies this
      ensures (State(), obs) == ResetEnv(dynamics, old(State()))
    {
      currentEpisodeLength := 0;
      currentEpisodeReward := 0.0;
      physics := dynamics.resetImpl(physics);
      obs := GetObs();
    }

    method Step(action: Vector) returns (result: StepResult)
      modifies this
      ensures (State(), result) == StepEnv(dynamics, old(State()), action)
    {
      currentEpisodeLength := currentEpisodeLength + 1;
      var impl := dynamics.stepImpl(physics, currentEpisodeLength, action);
      physics := impl.physics;
      result := MakeStepResult(impl.obs, impl.reward, impl.terminalState);
      currentEpisodeReward := currentEpisodeReward + result.reward;
      if result.terminalState != NotTerminal {
        result := result.(totReward := currentEpisodeReward, totSteps := currentEpisodeLength);
        var obs := Reset();
        result := result.(newEpisodeObs := obs);
      }
    }
  }
}
