/** The older PPO trainer (src/algorithms/ppo/PPO.cpp) over the older
    vectorised environment. Its collection loop is the newer one's; its
    `Learn` neither switches training on nor guards the averages it prints,
    and it has no `Play`. */
module LegacyPpo {
  import opened Common
  import opened Env
  import opened Vectorized
  import opened Rollout
  import opened Ppo
  import LegacyVecEnv

  /** The averages the older `Learn` prints after every window, whether or
      not an episode ended in it. */
  function PrintedAverages(t: Totals): (a: Averages)
    ensures t.episodes == 0 ==> a.rewardPerEpisode.NonFinite? && a.episodeLength.NonFinite?
    ensures t.episodes > 0 ==> Some(a) == UpdateAverages(None, t)
  {
    AveragesOf(t)
  }

  /** A window of `n_steps = 100` in which no episode ends (an environment
      whose episodes run to a 200-step timeout) prints non-finite averages; the
      guarded update keeps the previous ones instead. */
  lemma UnguardedAveragesExample()
    ensures PrintedAverages(Totals(0.0, 0, 0)).rewardPerEpisode == NonFinite
    ensures PrintedAverages(Totals(0.0, 0, 0)).rewardPerStep == NonFinite
    ensures UpdateAverages(None, Totals(0.0, 0, 0)) == None
  {
  }

  /** Every step's result keeps the documented contract. */
  ghost predicate AllDocumented(h: seq<StepRecord>, n: nat)
    requires RecordsSized(h, n)
  {
    forall t :: 0 <= t < |h| ==> DocumentedRows(h[t].result)
  }

  lemma AllDocumentedStep(h: seq<StepRecord>, rec: StepRecord, n: nat)
    requires RecordsSized(h, n) && RecordSized(rec, n) && AllDocumented(h, n) && DocumentedRows(rec.result)
    ensures RecordsSized(h + [rec], n) && AllDocumented(h + [rec], n)
  {
    var h' := h + [rec];
    assert forall k :: 0 <= k < |h| ==> h'[k] == h[k];
  }

  // ---------------------------------------------------------------------
  // The collection loop on values

  /** Where the older collection loop stands before a step: the
      observation the policy acts on and the states of the environments;
      the plain vectorised env keeps nothing else. */
  datatype PlainPoint = PlainPoint(obs: seq<Vector>, states: seq<EnvState>)

  /** At least one environment, and one row and one state each. */
  predicate PlainReady(ds: seq<Dynamics>, pt: PlainPoint)
  {
    |ds| > 0 && |pt.obs| == |ds| && |pt.states| == |ds|
  }

  /** One iteration of the older collection loop on values: the policy
      samples an action with the draw `d`, every environment is stepped and
      the results are stacked unnormalised; the next point holds the
      spliced observation and the stepped states. */
  function PlainFrom(ds: seq<Dynamics>, p: Policy, d: Draw, pt: PlainPoint): (r: (StepRecord, PlainPoint))
    requires PlainReady(ds, pt)
    ensures PlainReady(ds, r.1)
    ensures r.0.obs == pt.obs && r.0.out == p.act(d, pt.obs) && RecordSized(r.0, |ds|)
    ensures r.1.obs == NextObs(r.0.result) && DocumentedRows(r.0.result) && LengthsCounted(r.0.result)
  {
    var out := p.act(d, pt.obs);
    var (states, results) := StepAll(ds, pt.states, out.action);
    assert forall i :: 0 <= i < |ds| ==> Documented(results[i]) && (Ended(results[i].terminalState) ==> results[i].totSteps >= 1);
    StackDocumented(results);
    var result := Stack(results);
    (StepRecord(pt.obs, out, result), PlainPoint(NextObs(result), states))
  }

  /** The first `k` iterations of window `iteration` from `pt`. */
  function PlainTrace(ds: seq<Dynamics>, p: Policy, iteration: nat, pt: PlainPoint, k: nat): (r: (seq<StepRecord>, PlainPoint))
    requires PlainReady(ds, pt)
    ensures |r.0| == k && PlainReady(ds, r.1)
  {
    if k == 0 then ([], pt)
    else
      var before := PlainTrace(ds, p, iteration, pt, k - 1);
      var step := PlainFrom(ds, p, Draw(iteration, k - 1), before.1);
      (before.0 + [step.0], step.1)
  }

  /** The step `PlainFrom` takes, built from what the plain env computes. */
  lemma PlainFromSteps(ds: seq<Dynamics>, p: Policy, d: Draw, pt: PlainPoint,
                       out: ActOut, results: seq<StepResult>, states: seq<EnvState>)
    requires PlainReady(ds, pt)
    requires out == p.act(d, pt.obs) && (states, results) == StepAll(ds, pt.states, out.action)
    ensures PlainFrom(ds, p, d, pt) == (StepRecord(pt.obs, out, Stack(results)), PlainPoint(NextObs(Stack(results)), states))
  {
  }

  /** The steps `h` of window `iteration` through the points `pts`: step
      `t` is the step `PlainFrom` takes from `pts[t]` with the draw of step
      `t`, and it reaches `pts[t + 1]`. */
  ghost predicate PlainStepped(ds: seq<Dynamics>, p: Policy, iteration: nat, h: seq<StepRecord>, pts: seq<PlainPoint>)
  {
    && |pts| == |h| + 1
    && forall t :: 0 <= t < |h| ==>
         PlainReady(ds, pts[t]) && (h[t], pts[t + 1]) == PlainFrom(ds, p, Draw(iteration, t), pts[t])
  }

  /** Steps through points extended by the step `PlainFrom` takes from the
      last point. */
  lemma PlainSteppedSnoc(ds: seq<Dynamics>, p: Policy, iteration: nat, h: seq<StepRecord>, pts: seq<PlainPoint>,
                         rec: StepRecord, next: PlainPoint)
    requires PlainStepped(ds, p, iteration, h, pts) && PlainReady(ds, pts[|h|])
    requires (rec, next) == PlainFrom(ds, p, Draw(iteration, |h|), pts[|h|])
    ensures PlainStepped(ds, p, iteration, h + [rec], pts + [next])
  {
    var h', pts' := h + [rec], pts + [next];
    forall t | 0 <= t < |h'|
      ensures PlainReady(ds, pts'[t]) && (h'[t], pts'[t + 1]) == PlainFrom(ds, p, Draw(iteration, t), pts'[t])
    {
      assert pts'[t] == pts[t];
      if t < |h| {
        assert h'[t] == h[t] && pts'[t + 1] == pts[t + 1];
      }
    }
  }

  /** A trace followed by the step from the point it reaches is the trace
      one step longer. */
  lemma PlainTraceSnoc(ds: seq<Dynamics>, p: Policy, iteration: nat, pt: PlainPoint, k: nat,
                       h: seq<StepRecord>, here: PlainPoint, rec: StepRecord, next: PlainPoint)
    requires PlainReady(ds, pt) && (h, here) == PlainTrace(ds, p, iteration, pt, k)
    requires (rec, next) == PlainFrom(ds, p, Draw(iteration, k), here)
    ensures (h + [rec], next) == PlainTrace(ds, p, iteration, pt, k + 1)
  {
  }

  /** The first `j` steps through points are the trace of `j` steps from
      the first point, and reach point `j`. */
  lemma {:induction false} PlainSteppedTraceUpTo(ds: seq<Dynamics>, p: Policy, iteration: nat, h: seq<StepRecord>,
                                                 pts: seq<PlainPoint>, j: nat)
    requires PlainStepped(ds, p, iteration, h, pts) && PlainReady(ds, pts[0]) && j <= |h|
    ensures (h[..j], pts[j]) == PlainTrace(ds, p, iteration, pts[0], j)
  {
    if j > 0 {
      PlainSteppedTraceUpTo(ds, p, iteration, h, pts, j - 1);
      PlainTraceSnoc(ds, p, iteration, pts[0], j - 1, h[..j - 1], pts[j - 1], h[j - 1], pts[j]);
      TakeSnoc(h, j);
    }
  }

  /** Steps through points from a point the loop can step from are the
      trace of the window from there, and the last point is the point it
      reaches. */
  lemma PlainSteppedTrace(ds: seq<Dynamics>, p: Policy, iteration: nat, h: seq<StepRecord>, pts: seq<PlainPoint>)
    requires PlainStepped(ds, p, iteration, h, pts) && PlainReady(ds, pts[0])
    ensures (h, pts[|h|]) == PlainTrace(ds, p, iteration, pts[0], |h|)
  {
    PlainSteppedTraceUpTo(ds, p, iteration, h, pts, |h|);
    assert h[..|h|] == h;
  }

  /** Conversely, the trace of a window passes through points it steps
      between. */
  lemma {:induction false} PlainTraceStepped(ds: seq<Dynamics>, p: Policy, iteration: nat, pt: PlainPoint, k: nat)
    returns (pts: seq<PlainPoint>)
    requires PlainReady(ds, pt)
    ensures var r := PlainTrace(ds, p, iteration, pt, k);
            PlainStepped(ds, p, iteration, r.0, pts) && pts[0] == pt && pts[k] == r.1
  {
    if k == 0 {
      pts := [pt];
    } else {
      var before := PlainTraceStepped(ds, p, iteration, pt, k - 1);
      var r := PlainTrace(ds, p, iteration, pt, k - 1);
      var step := PlainFrom(ds, p, Draw(iteration, k - 1), r.1);
      PlainSteppedSnoc(ds, p, iteration, r.0, before, step.0, step.1);
      pts := before + [step.1];
    }
  }

  /** Steps through points act on the first point's observation and then
      on each step's splice, with the draw of their step, keep the
      documented contract and count every ended episode as at least one
      step; the last point holds the splice of the last step. */
  lemma PlainSteppedChained(ds: seq<Dynamics>, p: Policy, iteration: nat, h: seq<StepRecord>, pts: seq<PlainPoint>)
    requires PlainStepped(ds, p, iteration, h, pts) && PlainReady(ds, pts[0])
    ensures RecordsSized(h, |ds|) && Chained(h, pts[0].obs, p, iteration) && AllDocumented(h, |ds|) && AllCounted(h)
    ensures |h| > 0 ==> pts[|h|].obs == NextObs(h[|h| - 1].result)
  {
    forall t | 0 <= t < |h|
      ensures RecordSized(h[t], |ds|) && DocumentedRows(h[t].result) && LengthsCounted(h[t].result)
      ensures h[t].obs == pts[t].obs && h[t].out == p.act(Draw(iteration, t), h[t].obs)
      ensures pts[t + 1].obs == NextObs(h[t].result)
    {
      assert (h[t], pts[t + 1]) == PlainFrom(ds, p, Draw(iteration, t), pts[t]);
    }
    forall t | 0 < t < |h|
      ensures h[t].obs == NextObs(h[t - 1].result)
    {
      assert pts[t].obs == NextObs(h[t - 1].result);
    }
  }

  /** The older collection loop after the steps `h` from `start` in window
      `iteration`: they pass through the points `pts` from `start` to
      `pt`, the lists `data`, `rewards` and `ends` hold their columns,
      `lastStates` are the last step's terminal states and `totals` their
      episode totals. */
  ghost predicate PlainCollecting(ds: seq<Dynamics>, p: Policy, gamma: real, start: PlainPoint, iteration: nat,
                                  h: seq<StepRecord>, pts: seq<PlainPoint>, pt: PlainPoint, data: seq<seq<Sample>>,
                                  rewards: seq<seq<real>>, ends: seq<seq<bool>>, lastStates: seq<TerminalState>,
                                  totals: Totals)
  {
    && PlainReady(ds, start) && PlainReady(ds, pt)
    && PlainStepped(ds, p, iteration, h, pts) && pts[0] == start && pts[|h|] == pt
    && RecordsSized(h, |ds|)
    && (|h| > 0 ==> lastStates == h[|h| - 1].result.terminalStates)
    && Recorded(data, rewards, ends, h, |ds|, p, gamma)
    && totals == WindowTotals(h, |ds|)
  }

  /** One iteration: the step `PlainFrom` takes from `pt`, every env's
      sample, reward and episode end appended to its lists, and the step's
      episode totals added. */
  lemma PlainCollectingStep(ds: seq<Dynamics>, p: Policy, gamma: real, start: PlainPoint, iteration: nat,
                            h: seq<StepRecord>, pts: seq<PlainPoint>, pt: PlainPoint, data: seq<seq<Sample>>,
                            rewards: seq<seq<real>>, ends: seq<seq<bool>>, lastStates: seq<TerminalState>,
                            totals: Totals, rec: StepRecord, pt': PlainPoint, data': seq<seq<Sample>>,
                            rewards': seq<seq<real>>, ends': seq<seq<bool>>, stepTotals: Totals)
    requires PlainCollecting(ds, p, gamma, start, iteration, h, pts, pt, data, rewards, ends, lastStates, totals)
    requires (rec, pt') == PlainFrom(ds, p, Draw(iteration, |h|), pt)
    requires |data'| == |ds| && |rewards'| == |ds| && |ends'| == |ds|
    requires forall e :: 0 <= e < |ds| ==>
               && data'[e] == data[e] + [NewSample(rec.obs[e], rec.out.action[e], rec.out.value[e], rec.out.logProb[e])]
               && rewards'[e] == rewards[e] + [StepRewards(rec.result, p, gamma)[e]]
               && ends'[e] == ends[e] + [Ended(rec.result.terminalStates[e])]
    requires stepTotals == EndedTotals(rec.result, |ds|)
    ensures PlainCollecting(ds, p, gamma, start, iteration, h + [rec], pts + [pt'], pt', data', rewards', ends',
                            rec.result.terminalStates, Plus(totals, stepTotals))
  {
    PlainSteppedSnoc(ds, p, iteration, h, pts, rec, pt');
    RecordedStep(data, rewards, ends, data', rewards', ends', h, rec, |ds|, p, gamma);
    assert (h + [rec])[..|h|] == h;
  }

  /** The windows of the older `Learn` as the plain env collected them:
      window `k` is iteration `k` stepped from its start, through its path,
      to its finish, with the draws of iteration `k`; it starts on the
      observations of the states there, and where the window before it
      stopped. */
  ghost predicate PlainCollected(ws: seq<LearnRecord<PlainPoint>>, ds: seq<Dynamics>)
  {
    PlainCollectedEach(ws, ds) && PlainLinked(ws)
  }

  /** Every window is its iteration stepped from its start. */
  ghost predicate PlainCollectedEach(ws: seq<LearnRecord<PlainPoint>>, ds: seq<Dynamics>)
  {
    forall k :: 0 <= k < |ws| ==> PlainWindowCollected(ws[k], k, ds)
  }

  /** Window `w` is iteration `k` stepped from its start, through its
      path, to its finish. */
  ghost predicate PlainWindowCollected(w: LearnRecord<PlainPoint>, k: nat, ds: seq<Dynamics>)
  {
    && PlainReady(ds, w.start) && w.start.obs == ObsOf(ds, w.start.states)
    && PlainStepped(ds, w.before, k, w.steps, w.path) && w.path[0] == w.start && w.path[|w.steps|] == w.finish
  }

  /** A collected window is the trace of its iteration from its start. */
  lemma PlainWindowTrace(w: LearnRecord<PlainPoint>, k: nat, ds: seq<Dynamics>)
    requires PlainWindowCollected(w, k, ds)
    ensures (w.steps, w.finish) == PlainTrace(ds, w.before, k, w.start, |w.steps|)
  {
    PlainSteppedTrace(ds, w.before, k, w.steps, w.path);
  }

  /** Every window starts where the one before it stopped. */
  ghost predicate PlainLinked(ws: seq<LearnRecord<PlainPoint>>)
  {
    forall j, k :: 0 <= j && k == j + 1 && k < |ws| ==> ws[k].start.states == ws[j].finish.states
  }

  /** The environments stand where the last window stopped. */
  ghost predicate PlainStandsAfter(ws: seq<LearnRecord<PlainPoint>>, states: seq<EnvState>)
  {
    |ws| > 0 ==> ws[|ws| - 1].finish.states == states
  }

  /** A window collected from where the last one stopped extends the
      collected history. */
  lemma PlainCollectedStep(ws: seq<LearnRecord<PlainPoint>>, ds: seq<Dynamics>, w: LearnRecord<PlainPoint>)
    requires PlainCollected(ws, ds) && PlainStandsAfter(ws, w.start.states) && PlainWindowCollected(w, |ws|, ds)
    ensures PlainCollected(ws + [w], ds) && PlainStandsAfter(ws + [w], w.finish.states)
  {
    PlainCollectedEachStep(ws, ds, w);
    PlainLinkedStep(ws, w);
  }

  lemma PlainCollectedEachStep(ws: seq<LearnRecord<PlainPoint>>, ds: seq<Dynamics>, w: LearnRecord<PlainPoint>)
    requires PlainCollectedEach(ws, ds) && PlainWindowCollected(w, |ws|, ds)
    ensures PlainCollectedEach(ws + [w], ds)
  {
    var ws' := ws + [w];
    forall k | 0 <= k < |ws'|
      ensures PlainWindowCollected(ws'[k], k, ds)
    {
      if k < |ws| {
        assert ws'[k] == ws[k];
      }
    }
  }

  lemma PlainLinkedStep(ws: seq<LearnRecord<PlainPoint>>, w: LearnRecord<PlainPoint>)
    requires PlainLinked(ws) && PlainStandsAfter(ws, w.start.states)
    ensures PlainLinked(ws + [w])
  {
    var ws' := ws + [w];
    forall j, k | 0 <= j && k == j + 1 && k < |ws'|
      ensures ws'[k].start.states == ws'[j].finish.states
    {
      assert ws'[j] == ws[j];
      if k < |ws| {
        assert ws'[k] == ws[k];
      }
    }
  }

  /** What the loop of the older `Learn` keeps: the windows `ws` so far
      are trained from `p` and collected, the first starts from the states
      `states`, and the environments stand at `here`, where the last window
      stopped (where the first starts, if there is none yet). */
  ghost predicate PlainLearned(ws: seq<LearnRecord<PlainPoint>>, windows: seq<Totals>, p: Policy, n: nat, args: Args,
                               train: (Policy, seq<Sample>) -> Policy, ds: seq<Dynamics>, states: seq<EnvState>,
                               here: PlainPoint)
  {
    && Trained(ws, windows, p, n, args, train)
    && PlainCollected(ws, ds) && PlainStandsAfter(ws, here.states)
    && (|ws| > 0 ==> ws[0].start.states == states)
    && (|ws| == 0 ==> here.states == states)
  }

  /** A window trained by the latest policy and collected from where the
      environments stand extends what the loop of the older `Learn` keeps. */
  lemma PlainLearnedStep(ws: seq<LearnRecord<PlainPoint>>, windows: seq<Totals>, p: Policy, n: nat, args: Args,
                         train: (Policy, seq<Sample>) -> Policy, ds: seq<Dynamics>, states: seq<EnvState>,
                         here: PlainPoint, w: LearnRecord<PlainPoint>)
    requires PlainLearned(ws, windows, p, n, args, train, ds, states, here)
    requires TrainedWindow(w, n, args, train) && w.before == PolicyAfter(ws, p) && PlainWindowCollected(w, |ws|, ds)
    requires w.start.states == here.states
    ensures PlainLearned(ws + [w], windows + [w.totals], p, n, args, train, ds, states, w.finish)
    ensures PolicyAfter(ws + [w], p) == w.after
  {
    TrainedStep(ws, windows, p, n, args, train, w);
    PlainCollectedStep(ws, ds, w);
  }

  /** The averages printed after every window, one per window. */
  ghost predicate PrintedEach(printed: seq<Averages>, windows: seq<Totals>)
  {
    |printed| == |windows| && forall k :: 0 <= k < |windows| ==> printed[k] == PrintedAverages(windows[k])
  }

  lemma PrintedEachStep(printed: seq<Averages>, windows: seq<Totals>, report: Averages, totals: Totals)
    requires PrintedEach(printed, windows) && report == PrintedAverages(totals)
    ensures PrintedEach(printed + [report], windows + [totals])
  {
    assert forall k :: 0 <= k < |windows| ==> (printed + [report])[k] == printed[k] && (windows + [totals])[k] == windows[k];
  }

  /** The PPO trainer over the older plain vectorised environment. */
  class Trainer {
    const env: LegacyVecEnv.VectorizedEnv
    const args: Args
    var policy: Policy

    constructor (env: LegacyVecEnv.VectorizedEnv, args: Args, initial: Policy)
      ensures this.env == env && this.args == args && policy == initial
    {
      this.env := env;
      this.args := args;
      policy := initial;
    }

    /** The frame every collection method works in. */
    ghost predicate Ready(buffer: RolloutBuffer)
      reads env, buffer
    {
      env.Valid() && buffer.Valid() && |buffer.data| == |env.envs| > 0
    }

    /** `ds` are the environments' dynamics; they never change while the
        trainer runs. */
    ghost predicate Holds(ds: seq<Dynamics>)
      reads env
    {
      ds == DynamicsOf(env.envs)
    }

    /** The environments stand at the states of `pt`, and `ds` are their
        dynamics. */
    ghost predicate Stands(ds: seq<Dynamics>, pt: PlainPoint)
      reads env, env.envs
    {
      Holds(ds) && pt.states == States(env.envs)
    }

    /** The policy acts on `obs` with the draw of step `t` and every env is
        stepped with its row of the action, the results stacked plainly:
        `rec` is the step `PlainFrom` takes from the point `pt` the
        environments stand at, to the point `reached`. */
    method StepEnvs(buffer: RolloutBuffer, obs: seq<Vector>, t: nat, iteration: nat, ghost ds: seq<Dynamics>,
                    ghost pt: PlainPoint)
      returns (rec: StepRecord, ghost reached: PlainPoint)
      requires Ready(buffer) && Stands(ds, pt) && pt.obs == obs && PlainReady(ds, pt)
      modifies env.envs
      ensures Ready(buffer) && unchanged(buffer) && Stands(ds, reached)
      ensures rec.obs == obs && RecordSized(rec, |env.envs|) && reached.obs == NextObs(rec.result)
      ensures (rec, reached) == PlainFrom(ds, policy, Draw(iteration, t), pt)
    {
      var out := policy.act(Draw(iteration, t), obs);
      ghost var results := StepResults(env.envs, out.action);
      var result := env.Step(out.action);
      reached := PlainPoint(NextObs(result), States(env.envs));
      PlainFromSteps(ds, policy, Draw(iteration, t), pt, out, results, reached.states);
      rec := StepRecord(obs, out, result);
    }

    /** The body of the older collection loop at step `t` up to the
        splice: `StepEnvs`, then the timed-out rewards are bumped, the
        step is `Add`ed to the buffer, the next observation is spliced and
        the ended episodes are counted; `next` is the observation of the
        point `reached`. */
    method CollectStep(buffer: RolloutBuffer, obs: seq<Vector>, t: nat, iteration: nat, ghost ds: seq<Dynamics>,
                       ghost pt: PlainPoint)
      returns (rec: StepRecord, next: seq<Vector>, totals: Totals, ghost reached: PlainPoint)
      requires Ready(buffer) && Stands(ds, pt) && pt.obs == obs && PlainReady(ds, pt)
      modifies buffer, env.envs
      ensures Ready(buffer) && Stands(ds, reached)
      ensures (rec, reached) == PlainFrom(ds, policy, Draw(iteration, t), pt)
      ensures next == reached.obs && totals == EndedTotals(rec.result, |env.envs|)
      ensures forall e :: 0 <= e < |env.envs| ==>
                && buffer.data[e] == old(buffer.data[e]) + [NewSample(obs[e], rec.out.action[e], rec.out.value[e], rec.out.logProb[e])]
                && buffer.rewards[e] == old(buffer.rewards[e]) + [StepRewards(rec.result, policy, args.gamma)[e]]
                && buffer.episodeEnds[e] == old(buffer.episodeEnds[e]) + [Ended(rec.result.terminalStates[e])]
    {
      rec, reached := StepEnvs(buffer, obs, t, iteration, ds, pt);
      next, totals := SpliceAndCount(rec.result);
      Record(buffer, rec, ds, reached);
    }

    /** `Store` with this trainer's policy and discount; the environments
        stay where they stand. */
    method Record(buffer: RolloutBuffer, rec: StepRecord, ghost ds: seq<Dynamics>, ghost pt: PlainPoint)
      requires Ready(buffer) && Stands(ds, pt) && RecordSized(rec, |env.envs|)
      modifies buffer
      ensures Ready(buffer) && Stands(ds, pt)
      ensures forall e :: 0 <= e < |env.envs| ==>
                && buffer.data[e] == old(buffer.data[e]) + [NewSample(rec.obs[e], rec.out.action[e], rec.out.value[e], rec.out.logProb[e])]
                && buffer.rewards[e] == old(buffer.rewards[e]) + [StepRewards(rec.result, policy, args.gamma)[e]]
                && buffer.episodeEnds[e] == old(buffer.episodeEnds[e]) + [Ended(rec.result.terminalStates[e])]
    {
      Store(buffer, rec, policy, args.gamma);
    }

    /** What the older collection loop keeps after the steps `h` from
        `start`: they step the window from there through the points `pts`
        to the point `pt` the environments stand at, `obs` is its
        observation, the buffer holds their columns, `lastStates` are the
        last step's terminal states and `totals` their episode totals. */
    ghost predicate Window(buffer: RolloutBuffer, ds: seq<Dynamics>, start: PlainPoint, iteration: nat, h: seq<StepRecord>,
                           pts: seq<PlainPoint>, pt: PlainPoint, obs: seq<Vector>, lastStates: seq<TerminalState>,
                           totals: Totals)
      reads this, env, env.envs, buffer
    {
      && Ready(buffer) && Stands(ds, pt) && obs == pt.obs
      && PlainCollecting(ds, policy, args.gamma, start, iteration, h, pts, pt, buffer.data, buffer.rewards,
                         buffer.episodeEnds, lastStates, totals)
    }

    /** One iteration of the older collection loop at step `t`; the window
        grows by the step `PlainFrom` takes. */
    method Advance(buffer: RolloutBuffer, ghost ds: seq<Dynamics>, ghost start: PlainPoint, iteration: nat, t: nat,
                   ghost h: seq<StepRecord>, ghost pts: seq<PlainPoint>, ghost pt: PlainPoint, obs: seq<Vector>,
                   lastStates: seq<TerminalState>, totals: Totals)
      returns (ghost h': seq<StepRecord>, ghost pts': seq<PlainPoint>, ghost pt': PlainPoint, obs': seq<Vector>,
               lastStates': seq<TerminalState>, totals': Totals)
      requires Window(buffer, ds, start, iteration, h, pts, pt, obs, lastStates, totals) && t == |h|
      modifies buffer, env.envs
      ensures |h'| == |h| + 1 && Window(buffer, ds, start, iteration, h', pts', pt', obs', lastStates', totals')
    {
      ghost var (data, rewards, ends) := (buffer.data, buffer.rewards, buffer.episodeEnds);
      var rec, next, stepTotals;
      rec, next, stepTotals, pt' := CollectStep(buffer, obs, t, iteration, ds, pt);
      PlainCollectingStep(ds, policy, args.gamma, start, iteration, h, pts, pt, data, rewards, ends, lastStates, totals,
                          rec, pt', buffer.data, buffer.rewards, buffer.episodeEnds, stepTotals);
      h', pts' := h + [rec], pts + [pt'];
      obs', lastStates', totals' := next, rec.result.terminalStates, Plus(totals, stepTotals);
    }

    /** The older collection loop: `n_steps` iterations starting from
        `first`, the observation at the point `start`. */
    method FillWindow(buffer: RolloutBuffer, first: seq<Vector>, iteration: nat, ghost ds: seq<Dynamics>,
                      ghost start: PlainPoint)
      returns (obs: seq<Vector>, lastStates: seq<TerminalState>, totals: Totals, ghost h: seq<StepRecord>,
               ghost pts: seq<PlainPoint>, ghost pt: PlainPoint)
      requires Ready(buffer) && args.nSteps >= 1
      requires Stands(ds, start) && start.obs == first && PlainReady(ds, start)
      requires Recorded(buffer.data, buffer.rewards, buffer.episodeEnds, [], |env.envs|, policy, args.gamma)
      modifies buffer, env.envs
      ensures |h| == args.nSteps && Window(buffer, ds, start, iteration, h, pts, pt, obs, lastStates, totals)
    {
      obs, lastStates, totals := first, [], Totals(0.0, 0, 0);
      h, pts, pt := [], [start], start;
      var t := 0;
      while t < args.nSteps
        invariant 0 <= t <= args.nSteps && |h| == t
        invariant Window(buffer, ds, start, iteration, h, pts, pt, obs, lastStates, totals)
      {
        h, pts, pt, obs, lastStates, totals := Advance(buffer, ds, start, iteration, t, h, pts, pt, obs, lastStates, totals);
        t := t + 1;
      }
    }

    /** The start of the older `CollectRollouts`: the buffer is emptied and
        `GetObs` shows the observation `first` at the point `start` the
        environments stand at. */
    method Restart(buffer: RolloutBuffer, ghost ds: seq<Dynamics>) returns (first: seq<Vector>, ghost start: PlainPoint)
      requires Ready(buffer) && Holds(ds)
      modifies buffer
      ensures Ready(buffer) && Stands(ds, start) && start.obs == first
      ensures start == PlainPoint(old(CurrentObs(env.envs)), old(States(env.envs)))
      ensures PlainReady(ds, start) && first == ObsOf(ds, start.states)
      ensures Recorded(buffer.data, buffer.rewards, buffer.episodeEnds, [], |env.envs|, policy, args.gamma)
    {
      buffer.Reset();
      first := env.GetObs();
      CurrentObsOf(env.envs);
      start := PlainPoint(first, States(env.envs));
    }

    /** `CollectRollouts`, as in the newer trainer, from the envs' current
        observations and stepping them as `PlainFrom` says; since the plain
        environment keeps the documented contract, every window's summed
        reward is the sum of the `tot_reward` columns. `pts` are the points
        the steps pass through (by `PlainSteppedTrace`, `h` and `finish` are
        the window's `PlainTrace` from `start`). */
    method CollectRollouts(buffer: RolloutBuffer, iteration: nat, ghost ds: seq<Dynamics>)
      returns (totals: Totals, ghost h: seq<StepRecord>, ghost start: PlainPoint, ghost finish: PlainPoint,
               ghost pts: seq<PlainPoint>)
      requires Ready(buffer) && args.nSteps >= 1 && Holds(ds)
      modifies buffer, env.envs
      ensures Ready(buffer) && Stands(ds, finish)
      ensures start == PlainPoint(old(CurrentObs(env.envs)), old(States(env.envs)))
      ensures && PlainReady(ds, start) && start.obs == ObsOf(ds, start.states)
              && PlainStepped(ds, policy, iteration, h, pts) && pts[0] == start && pts[|h|] == finish
      ensures |h| == args.nSteps && RecordsSized(h, |env.envs|) && Chained(h, start.obs, policy, iteration)
      ensures AllDocumented(h, |env.envs|)
      ensures forall e :: 0 <= e < |env.envs| ==>
                && buffer.rewards[e] == RewardColumn(h, |env.envs|, e, policy, args.gamma)
                && buffer.episodeEnds[e] == EndColumn(h, |env.envs|, e)
                && buffer.data[e] == WithAdvantages(SampleColumn(h, |env.envs|, e), buffer.rewards[e], buffer.episodeEnds[e],
                                                    BootstrapOf(Bootstrap(h, |env.envs|, policy), e), args.gamma, args.lambdaGae)
      ensures totals == WindowTotals(h, |env.envs|) && (totals.episodes > 0 ==> totals.steps > 0)
    {
      var first;
      first, start := Restart(buffer, ds);
      var obs, lastStates;
      obs, lastStates, totals, h, pts, finish := FillWindow(buffer, first, iteration, ds, start);
      PlainSteppedChained(ds, policy, iteration, h, pts);
      WindowTotalsCounted(h, |env.envs|);
      Conclude(buffer, ds, finish, obs, lastStates, h);
    }

    /** The end of `CollectRollouts`: `FinishWindow` on the buffer, which
        leaves the environments where they stand. */
    method Conclude(buffer: RolloutBuffer, ghost ds: seq<Dynamics>, ghost pt: PlainPoint, obs: seq<Vector>,
                    lastStates: seq<TerminalState>, ghost h: seq<StepRecord>)
      requires Ready(buffer) && Stands(ds, pt) && |h| > 0 && RecordsSized(h, |env.envs|)
      requires Recorded(buffer.data, buffer.rewards, buffer.episodeEnds, h, |env.envs|, policy, args.gamma)
      requires obs == NextObs(h[|h| - 1].result) && lastStates == h[|h| - 1].result.terminalStates
      modifies buffer
      ensures Ready(buffer) && Stands(ds, pt)
      ensures buffer.rewards == old(buffer.rewards) && buffer.episodeEnds == old(buffer.episodeEnds)
      ensures forall e :: 0 <= e < |env.envs| ==>
                buffer.data[e] == WithAdvantages(SampleColumn(h, |env.envs|, e), buffer.rewards[e], buffer.episodeEnds[e],
                                                 BootstrapOf(Bootstrap(h, |env.envs|, policy), e), args.gamma, args.lambdaGae)
    {
      FinishWindow(buffer, obs, lastStates, h, policy, args);
    }

    /** One window of the older `Learn`: collect from where the envs stand,
        count the samples and train on them; the averages printed are those
        of this window. `w` records the window: window `iteration` as the
        envs step it, and the training on its samples. */
    method LearnWindow(buffer: RolloutBuffer, iteration: nat, train: (Policy, seq<Sample>) -> Policy, ghost ds: seq<Dynamics>)
      returns (totals: Totals, size: nat, printed: Averages, ghost w: LearnRecord<PlainPoint>)
      requires Ready(buffer) && args.nSteps >= 1 && Holds(ds)
      modifies this, buffer, env.envs
      ensures Ready(buffer) && Stands(ds, w.finish) && w.start.states == old(States(env.envs))
      ensures w.before == old(policy) && w.after == policy && w.totals == totals
      ensures PlainWindowCollected(w, iteration, ds) && TrainedWindow(w, |env.envs|, args, train)
      ensures printed == PrintedAverages(totals) && (totals.episodes > 0 ==> totals.steps > 0)
      ensures size == |env.envs| * args.nSteps
    {
      ghost var h, start, finish, pts;
      totals, h, start, finish, pts := CollectRollouts(buffer, iteration, ds);
      printed := PrintedAverages(totals);
      ghost var (data, before) := (buffer.data, policy);
      size := Train(buffer, train, ds, finish);
      w := LearnRecord(start, h, finish, pts, data, before, policy, totals);
    }

    /** The end of a window of the older `Learn`: the samples are counted
        and the optimisation epochs, which `train` stands for, run over
        them; the environments stay where they stand. */
    method Train(buffer: RolloutBuffer, train: (Policy, seq<Sample>) -> Policy, ghost ds: seq<Dynamics>, ghost pt: PlainPoint)
      returns (size: nat)
      requires Ready(buffer) && Stands(ds, pt) && forall e :: 0 <= e < |buffer.data| ==> |buffer.data[e]| == args.nSteps
      modifies this
      ensures Ready(buffer) && Stands(ds, pt) && policy == train(old(policy), Flatten(buffer.data))
      ensures size == |env.envs| * args.nSteps
    {
      FlattenLength(buffer.data, args.nSteps);
      size := buffer.Size();
      policy := train(policy, Flatten(buffer.data));
    }

    /** The start of the older `Learn`: a buffer for `n_envs` lists and
        every env reset; the training switch is left as it is. */
    method BeginLearning() returns (buffer: RolloutBuffer)
      requires env.Valid() && |env.envs| > 0
      modifies env.envs
      ensures fresh(buffer) && Ready(buffer)
      ensures States(env.envs) == old(ResetAll(DynamicsOf(env.envs), States(env.envs)).0)
    {
      buffer := new RolloutBuffer(env.GetNumEnvs(), args.nSteps);
      var _ := env.Reset();
    }

    /** The older `Learn`: the envs are reset without touching the training
        switch; window `k` is collected by the policy the previous windows
        trained, stepping the envs from where the window before left them
        (the first from the reset), and is summed into `windows[k]`; after
        every window its own averages are printed. */
    method Learn(totalTimesteps: nat, train: (Policy, seq<Sample>) -> Policy)
      returns (timestep: nat, ghost windows: seq<Totals>, printed: seq<Averages>, ghost ws: seq<LearnRecord<PlainPoint>>)
      requires env.Valid() && |env.envs| > 0 && args.nSteps >= 1
      modifies this, env.envs
      ensures env.Valid()
      ensures timestep == |windows| * (|env.envs| * args.nSteps)
      ensures totalTimesteps <= timestep < totalTimesteps + |env.envs| * args.nSteps
      ensures Trained(ws, windows, old(policy), |env.envs|, args, train) && policy == PolicyAfter(ws, old(policy))
      ensures PlainCollected(ws, DynamicsOf(env.envs))
      ensures |ws| > 0 ==> ws[0].start.states == old(ResetAll(DynamicsOf(env.envs), States(env.envs)).0)
      ensures PrintedEach(printed, windows)
    {
      var buffer := BeginLearning();
      MulPositive(|env.envs|, args.nSteps);
      timestep, windows, printed, ws := LearnLoop(buffer, totalTimesteps, |env.envs| * args.nSteps, train, DynamicsOf(env.envs));
      TimesIsProduct(|windows|, |env.envs| * args.nSteps);
    }

    /** What the loop of the older `Learn` keeps: the windows so far are
        learned from `states` by policies starting at `initial`, the envs
        stand at `here`, and every window's averages were printed. */
    ghost predicate Learning(buffer: RolloutBuffer, train: (Policy, seq<Sample>) -> Policy, ds: seq<Dynamics>, initial: Policy,
                             states: seq<EnvState>, ws: seq<LearnRecord<PlainPoint>>, windows: seq<Totals>, here: PlainPoint,
                             printed: seq<Averages>)
      reads this, env, env.envs, buffer
    {
      && Ready(buffer) && Stands(ds, here)
      && PlainLearned(ws, windows, initial, |env.envs|, args, train, ds, states, here)
      && policy == PolicyAfter(ws, initial)
      && PrintedEach(printed, windows)
    }

    /** Before the first window nothing is learned or printed yet: the
        environments stand where the windows will start. */
    lemma LearningBegins(buffer: RolloutBuffer, train: (Policy, seq<Sample>) -> Policy, ds: seq<Dynamics>)
      requires Ready(buffer) && Holds(ds)
      ensures Learning(buffer, train, ds, policy, States(env.envs), [], [], PlainPoint([], States(env.envs)), [])
    {
    }

    /** One iteration of the loop of the older `Learn`: window `|windows|`
        is learned and its averages printed. */
    method LearnNext(buffer: RolloutBuffer, iteration: nat, window: nat, train: (Policy, seq<Sample>) -> Policy,
                     ghost ds: seq<Dynamics>, ghost initial: Policy, ghost states: seq<EnvState>,
                     ghost ws: seq<LearnRecord<PlainPoint>>, ghost windows: seq<Totals>, ghost here: PlainPoint, ghost printed: seq<Averages>)
      returns (totals: Totals, size: nat, report: Averages, ghost w: LearnRecord<PlainPoint>)
      requires Learning(buffer, train, ds, initial, states, ws, windows, here, printed)
      requires iteration == |windows| && window == |env.envs| * args.nSteps && args.nSteps >= 1
      modifies this, buffer, env.envs
      ensures w.totals == totals && size == window
      ensures Learning(buffer, train, ds, initial, states, ws + [w], windows + [totals], w.finish, printed + [report])
    {
      totals, size, report, w := LearnWindow(buffer, iteration, train, ds);
      PlainLearnedStep(ws, windows, initial, |env.envs|, args, train, ds, states, here, w);
      PrintedEachStep(printed, windows, report, totals);
    }

    /** The windows of the older `Learn`, from the envs just reset. */
    method LearnLoop(buffer: RolloutBuffer, totalTimesteps: nat, window: nat, train: (Policy, seq<Sample>) -> Policy, ghost ds: seq<Dynamics>)
      returns (timestep: nat, ghost windows: seq<Totals>, printed: seq<Averages>, ghost ws: seq<LearnRecord<PlainPoint>>)
      requires Ready(buffer) && args.nSteps >= 1 && window == |env.envs| * args.nSteps > 0 && Holds(ds)
      modifies this, buffer, env.envs
      ensures Ready(buffer)
      ensures timestep == Times(|windows|, window)
      ensures totalTimesteps <= timestep < totalTimesteps + window
      ensures Trained(ws, windows, old(policy), |env.envs|, args, train) && policy == PolicyAfter(ws, old(policy))
      ensures PlainCollected(ws, ds)
      ensures |ws| > 0 ==> ws[0].start.states == old(States(env.envs))
      ensures PrintedEach(printed, windows)
    {
      timestep, printed := 0, [];
      windows, ws := [], [];
      ghost var initial, states := policy, States(env.envs);
      ghost var here := PlainPoint([], states);
      LearningBegins(buffer, train, ds);
      var iteration: nat := 0;
      while timestep < totalTimesteps
        invariant iteration == |windows| && timestep == Times(iteration, window) && timestep < totalTimesteps + window
        invariant Learning(buffer, train, ds, initial, states, ws, windows, here, printed)
        decreases totalTimesteps - timestep
      {
        var totals, size, report;
        ghost var w;
        totals, size, report, w := LearnNext(buffer, iteration, window, train, ds, initial, states, ws, windows, here, printed);
        timestep := timestep + size;
        windows, printed, ws, here := windows + [totals], printed + [report], ws + [w], w.finish;
        iteration := iteration + 1;
      }
    }
  }
}
