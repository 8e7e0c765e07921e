/** The bookkeeping of the newer PPO trainer (torchrl/src/algorithms/ppo/PPO.cpp):
    collecting a rollout window into the buffer, the reward bump of timed-out
    episodes, the observation splice after an episode end, the episode
    totals, the masked bootstrap, the timestep accounting of `Learn`, the
    averages it reports, `Play`, and the clipped surrogate objective. The
    network is a set of functions; its training is a function the model
    does not look into. */
module Ppo {
  import opened Common
  import opened Env
  import opened Normalization
  import opened Vectorized
  import opened Rollout
  import opened Gae
  import opened Statistics
  import VecEnv

  /** The hyper-parameters the bookkeeping reads. */
  datatype Args = Args(nSteps: nat, gamma: real, lambdaGae: real, clipValue: real,
                       entropyLossWeight: real, valLossWeight: real)

  /** The random draw a stochastic action uses: the rollout window and the
      step within it. */
  datatype Draw = Draw(iteration: nat, step: nat)

  /** What `policy(obs)` returns: an action, a value and a log-probability
      per row. */
  datatype ActOut = ActOut(action: seq<Vector>, value: seq<real>, logProb: seq<real>)

  /** The network: `act` samples an action, `predict` is the deterministic
      action `policy(obs, true)`, `values` is `PredictValues`. */
  datatype PolicyFns = PolicyFns(act: (Draw, seq<Vector>) -> ActOut,
                                 predict: seq<Vector> -> seq<Vector>,
                                 values: seq<Vector> -> seq<real>)

  /** Every output has one row per observation row. */
  ghost predicate OneRowEach(p: PolicyFns)
  {
    && (forall d, obs :: |p.act(d, obs).action| == |obs| && |p.act(d, obs).value| == |obs| && |p.act(d, obs).logProb| == |obs|)
    && (forall obs :: |p.predict(obs)| == |obs|)
    && (forall obs :: |p.values(obs)| == |obs|)
  }

  type Policy = p: PolicyFns | OneRowEach(p)
    witness PolicyFns((d: Draw, obs: seq<Vector>) => ActOut(obs, Zeros(|obs|), Zeros(|obs|)),
                      (obs: seq<Vector>) => obs,
                      (obs: seq<Vector>) => Zeros(|obs|))

  // ---------------------------------------------------------------------
  // One step of collection

  predicate AnyTimeout(states: seq<TerminalState>)
  {
    exists i :: 0 <= i < |states| && states[i] == Timeout
  }

  /** The first loop after `Step`: whether some env timed out. */
  method HasTimeout(states: seq<TerminalState>) returns (b: bool)
    ensures b <==> AnyTimeout(states)
  {
    b := false;
    var i := 0;
    while i < |states|
      invariant 0 <= i <= |states|
      invariant b <==> exists k :: 0 <= k < i && states[k] == Timeout
    {
      b := b || states[i] == Timeout;
      i := i + 1;
    }
  }

  /** `reward + gamma * terminal_value` for every timed-out env. */
  function TimeoutBump(rewards: seq<real>, states: seq<TerminalState>, terminalValue: seq<real>, gamma: real): (r: seq<real>)
    requires |rewards| == |states| == |terminalValue|
    ensures |r| == |rewards|
  {
    seq(|rewards|, i requires 0 <= i < |rewards| =>
      if states[i] == Timeout then rewards[i] + gamma * terminalValue[i] else rewards[i])
  }

  /** The second loop after `Step`. */
  method AddTimeoutValues(rewards: seq<real>, states: seq<TerminalState>, terminalValue: seq<real>, gamma: real)
    returns (r: seq<real>)
    requires |rewards| == |states| == |terminalValue|
    ensures r == TimeoutBump(rewards, states, terminalValue, gamma)
  {
    r := rewards;
    var i := 0;
    while i < |states|
      invariant 0 <= i <= |states| && |r| == |rewards|
      invariant forall k :: 0 <= k < i ==> r[k] == TimeoutBump(rewards, states, terminalValue, gamma)[k]
      invariant forall k :: i <= k < |r| ==> r[k] == rewards[k]
    {
      if states[i] == Timeout {
        r := r[i := r[i] + gamma * terminalValue[i]];
      }
      i := i + 1;
    }
  }

  /** The rewards stored for one step: the values of the post-step
      observations are only asked for when some env timed out. */
  function StepRewards(res: VectorizedStepResult, p: Policy, gamma: real): (r: seq<real>)
    requires Sized(res, |res.obs|)
    ensures |r| == |res.obs|
  {
    if AnyTimeout(res.terminalStates) then TimeoutBump(res.rewards, res.terminalStates, p.values(res.obs), gamma)
    else res.rewards
  }

  /** A timed-out env's reward gains `gamma * V(post-step obs)`; a Terminal or
      NotTerminal env's reward is stored unchanged. */
  lemma StepRewardsBump(res: VectorizedStepResult, p: Policy, gamma: real, i: nat)
    requires Sized(res, |res.obs|) && i < |res.obs|
    ensures StepRewards(res, p, gamma)[i]
            == if res.terminalStates[i] == Timeout then res.rewards[i] + gamma * p.values(res.obs)[i] else res.rewards[i]
  {
  }

  /** The observation the next step acts on: the reset observation of an
      env whose episode ended, the post-step observation otherwise. */
  function NextObs(res: VectorizedStepResult): (next: seq<Vector>)
    requires Sized(res, |res.obs|)
    ensures |next| == |res.obs|
    ensures forall i :: 0 <= i < |res.obs| ==>
              next[i] == if res.terminalStates[i] != NotTerminal then res.newEpisodeObs[i] else res.obs[i]
  {
    seq(|res.obs|, i requires 0 <= i < |res.obs| =>
      if res.terminalStates[i] != NotTerminal then res.newEpisodeObs[i] else res.obs[i])
  }

  /** Episode totals of one step over its first `k` envs: the summed
      episode rewards, summed episode lengths and the number of episodes
      that ended. */
  datatype Totals = Totals(reward: real, steps: nat, episodes: nat)

  function Plus(a: Totals, b: Totals): Totals
  {
    Totals(a.reward + b.reward, a.steps + b.steps, a.episodes + b.episodes)
  }

  function EndedTotals(res: VectorizedStepResult, k: nat): (t: Totals)
    requires Sized(res, |res.obs|) && k <= |res.obs|
    ensures t.episodes <= k
  {
    if k == 0 then Totals(0.0, 0, 0)
    else
      var i := k - 1;
      var before := EndedTotals(res, i);
      if Ended(res.terminalStates[i]) then Plus(before, Totals(res.totReward[i], res.totSteps[i], 1))
      else before
  }

  /** The rewards of the envs whose episode ended at this step. */
  function EndedRewards(res: VectorizedStepResult, k: nat): seq<real>
    requires Sized(res, |res.obs|) && k <= |res.obs|
  {
    if k == 0 then []
    else if Ended(res.terminalStates[k - 1]) then EndedRewards(res, k - 1) + [res.totReward[k - 1]]
    else EndedRewards(res, k - 1)
  }

  /** The summed reward is the sum of the ended envs' episode rewards. */
  lemma {:induction false} EndedRewardIsSum(res: VectorizedStepResult, k: nat)
    requires Sized(res, |res.obs|) && k <= |res.obs|
    ensures EndedTotals(res, k).reward == Sum(EndedRewards(res, k))
  {
    if k > 0 {
      EndedRewardIsSum(res, k - 1);
      if Ended(res.terminalStates[k - 1]) {
        SumSnoc(EndedRewards(res, k - 1), res.totReward[k - 1]);
      }
    }
  }

  /** The counted episodes are exactly the ended envs. */
  lemma {:induction false} EndedCountIsLength(res: VectorizedStepResult, k: nat)
    requires Sized(res, |res.obs|) && k <= |res.obs|
    ensures EndedTotals(res, k).episodes == |EndedRewards(res, k)|
  {
    if k > 0 {
      EndedCountIsLength(res, k - 1);
    }
  }

  /** With the documented contract (zero totals for a NotTerminal env) the
      summed reward is the sum of the whole `tot_reward` column. */
  lemma {:induction false} EndedRewardsDocumented(res: VectorizedStepResult, k: nat)
    requires Sized(res, |res.obs|) && k <= |res.obs| && DocumentedRows(res)
    ensures Sum(EndedRewards(res, k)) == Sum(res.totReward[..k])
  {
    if k > 0 {
      EndedRewardsDocumented(res, k - 1);
      assert res.totReward[..k] == res.totReward[..k - 1] + [res.totReward[k - 1]];
      SumSnoc(res.totReward[..k - 1], res.totReward[k - 1]);
      if Ended(res.terminalStates[k - 1]) {
        SumSnoc(EndedRewards(res, k - 1), res.totReward[k - 1]);
      }
    }
  }

  /** The third loop after `Step`: the splice and the episode totals. */
  method SpliceAndCount(res: VectorizedStepResult) returns (next: seq<Vector>, totals: Totals)
    requires Sized(res, |res.obs|)
    ensures next == NextObs(res) && totals == EndedTotals(res, |res.obs|)
  {
    next := res.obs;
    totals := Totals(0.0, 0, 0);
    var i := 0;
    while i < |res.terminalStates|
      invariant 0 <= i <= |res.obs| && |next| == |res.obs| && totals == EndedTotals(res, i)
      invariant forall k :: 0 <= k < i ==> next[k] == NextObs(res)[k]
      invariant forall k :: i <= k < |next| ==> next[k] == res.obs[k]
    {
      if res.terminalStates[i] != NotTerminal {
        next := next[i := res.newEpisodeObs[i]];
        totals := Plus(totals, Totals(res.totReward[i], res.totSteps[i], 1));
      }
      i := i + 1;
    }
    assert next == NextObs(res);
  }

  /** The bootstrap with the entries of envs whose last step ended an
      episode set to 0. */
  function Masked(values: seq<real>, states: seq<TerminalState>): (m: seq<real>)
    requires |values| == |states|
    ensures |m| == |values|
  {
    seq(|values|, i requires 0 <= i < |values| => if states[i] != NotTerminal then 0.0 else values[i])
  }

  /** The loop over `future_value`. */
  method MaskBootstrap(values: seq<real>, states: seq<TerminalState>) returns (m: seq<real>)
    requires |values| == |states|
    ensures m == Masked(values, states)
  {
    m := values;
    var i := 0;
    while i < |m|
      invariant 0 <= i <= |m| && |m| == |values|
      invariant forall k :: 0 <= k < i ==> m[k] == Masked(values, states)[k]
      invariant forall k :: i <= k < |m| ==> m[k] == values[k]
    {
      if states[i] != NotTerminal {
        m := m[i := 0.0];
      }
      i := i + 1;
    }
  }

  /** The mask changes nothing the backward pass computes: an env whose
      last step ended an episode has its last flag set, and then the
      bootstrap is never read. */
  lemma MaskUnused(samples: seq<Sample>, r: seq<real>, d: seq<bool>, value: real, gamma: real, lambda: real)
    requires |samples| == |r| == |d| > 0 && d[|d| - 1]
    ensures WithAdvantages(samples, r, d, 0.0, gamma, lambda) == WithAdvantages(samples, r, d, value, gamma, lambda)
  {
    var masked := WithAdvantages(samples, r, d, 0.0, gamma, lambda);
    var unmasked := WithAdvantages(samples, r, d, value, gamma, lambda);
    forall k | 0 <= k < |samples|
      ensures masked[k] == unmasked[k]
    {
      BootstrapUnused(Values(samples), r, d, 0.0, value, gamma, lambda, k);
    }
  }

  // ---------------------------------------------------------------------
  // The rollout window

  /** What one iteration of the collection loop saw: the observation acted
      on, the policy's output and the environment's result. */
  datatype StepRecord = StepRecord(obs: seq<Vector>, out: ActOut, result: VectorizedStepResult)

  predicate RecordSized(rec: StepRecord, n: nat)
  {
    && |rec.obs| == n && |rec.out.action| == n && |rec.out.value| == n && |rec.out.logProb| == n
    && Sized(rec.result, n)
  }

  ghost predicate RecordsSized(h: seq<StepRecord>, n: nat)
  {
    forall t :: 0 <= t < |h| ==> RecordSized(h[t], n)
  }

  /** Step `t` acts on the previous step's spliced observation (on `first`
      at `t = 0`) with the draw of step `t`. */
  ghost predicate Chained(h: seq<StepRecord>, first: seq<Vector>, p: Policy, iteration: nat)
    requires RecordsSized(h, |first|)
  {
    forall t :: 0 <= t < |h| ==>
      && h[t].obs == (if t == 0 then first else NextObs(h[t - 1].result))
      && h[t].out == p.act(Draw(iteration, t), h[t].obs)
  }

  /** Appending a step that acts on the spliced observation with the next
      draw keeps the window chained. */
  lemma ChainedStep(h: seq<StepRecord>, rec: StepRecord, first: seq<Vector>, p: Policy, iteration: nat)
    requires RecordsSized(h, |first|) && RecordSized(rec, |first|) && Chained(h, first, p, iteration)
    requires rec.obs == (if |h| == 0 then first else NextObs(h[|h| - 1].result))
    requires rec.out == p.act(Draw(iteration, |h|), rec.obs)
    ensures RecordsSized(h + [rec], |first|) && Chained(h + [rec], first, p, iteration)
  {
    var h' := h + [rec];
    assert RecordsSized(h', |first|);
    forall t | 0 <= t < |h'|
      ensures h'[t].obs == (if t == 0 then first else NextObs(h'[t - 1].result))
      ensures h'[t].out == p.act(Draw(iteration, t), h'[t].obs)
    {
      if t > 0 {
        assert h'[t - 1] == h[t - 1];
      }
      if t < |h| {
        assert h'[t] == h[t];
      }
    }
    assert Chained(h', first, p, iteration);
  }

  /** Env `e`'s samples, rewards and flags over the window. */
  function SampleColumn(h: seq<StepRecord>, n: nat, e: nat): (c: seq<Sample>)
    requires RecordsSized(h, n) && e < n
    ensures |c| == |h|
  {
    seq(|h|, t requires 0 <= t < |h| => NewSample(h[t].obs[e], h[t].out.action[e], h[t].out.value[e], h[t].out.logProb[e]))
  }

  function RewardColumn(h: seq<StepRecord>, n: nat, e: nat, p: Policy, gamma: real): (c: seq<real>)
    requires RecordsSized(h, n) && e < n
    ensures |c| == |h|
  {
    seq(|h|, t requires 0 <= t < |h| => StepRewards(h[t].result, p, gamma)[e])
  }

  function EndColumn(h: seq<StepRecord>, n: nat, e: nat): (c: seq<bool>)
    requires RecordsSized(h, n) && e < n
    ensures |c| == |h|
  {
    seq(|h|, t requires 0 <= t < |h| => Ended(h[t].result.terminalStates[e]))
  }

  /** The buffer's lists are the columns of the window. */
  ghost predicate Recorded(data: seq<seq<Sample>>, rewards: seq<seq<real>>, ends: seq<seq<bool>>,
                           h: seq<StepRecord>, n: nat, p: Policy, gamma: real)
    requires RecordsSized(h, n)
  {
    && |data| == n && |rewards| == n && |ends| == n
    && forall e :: 0 <= e < n ==>
         data[e] == SampleColumn(h, n, e) && rewards[e] == RewardColumn(h, n, e, p, gamma) && ends[e] == EndColumn(h, n, e)
  }

  /** One `Add` of the step `rec` extends every column by one row. */
  lemma RecordedStep(data: seq<seq<Sample>>, rewards: seq<seq<real>>, ends: seq<seq<bool>>,
                     data': seq<seq<Sample>>, rewards': seq<seq<real>>, ends': seq<seq<bool>>,
                     h: seq<StepRecord>, rec: StepRecord, n: nat, p: Policy, gamma: real)
    requires RecordsSized(h, n) && RecordSized(rec, n) && Recorded(data, rewards, ends, h, n, p, gamma)
    requires |data'| == n && |rewards'| == n && |ends'| == n
    requires forall e :: 0 <= e < n ==>
               && data'[e] == data[e] + [NewSample(rec.obs[e], rec.out.action[e], rec.out.value[e], rec.out.logProb[e])]
               && rewards'[e] == rewards[e] + [StepRewards(rec.result, p, gamma)[e]]
               && ends'[e] == ends[e] + [Ended(rec.result.terminalStates[e])]
    ensures RecordsSized(h + [rec], n) && Recorded(data', rewards', ends', h + [rec], n, p, gamma)
  {
    var h' := h + [rec];
    assert RecordsSized(h', n);
    forall e | 0 <= e < n
      ensures data'[e] == SampleColumn(h', n, e) && rewards'[e] == RewardColumn(h', n, e, p, gamma) && ends'[e] == EndColumn(h', n, e)
    {
      assert data'[e] == SampleColumn(h', n, e);
      assert rewards'[e] == RewardColumn(h', n, e, p, gamma);
      assert ends'[e] == EndColumn(h', n, e);
    }
  }

  /** The totals returned by `CollectRollouts`: summed over the window. */
  function WindowTotals(h: seq<StepRecord>, n: nat): Totals
    requires RecordsSized(h, n)
  {
    if |h| == 0 then Totals(0.0, 0, 0)
    else Plus(WindowTotals(h[..|h| - 1], n), EndedTotals(h[|h| - 1].result, n))
  }

  /** No window reports more episodes than `n_steps * n_envs`. */
  lemma {:induction false} WindowEpisodesBounded(h: seq<StepRecord>, n: nat)
    requires RecordsSized(h, n)
    ensures WindowTotals(h, n).episodes <= |h| * n
  {
    if |h| > 0 {
      var init := h[..|h| - 1];
      WindowEpisodesBounded(init, n);
      MulSucc(|init|, n);
    }
  }

  lemma MulSucc(a: nat, n: nat)
    ensures (a + 1) * n == a * n + n
  {
  }

  /** The bootstrap passed to `ComputeReturnsAndAdvantage`. */
  function Bootstrap(h: seq<StepRecord>, n: nat, p: Policy): (b: seq<real>)
    requires RecordsSized(h, n) && |h| > 0
    ensures |b| == n
  {
    var last := h[|h| - 1].result;
    Masked(p.values(NextObs(last)), last.terminalStates)
  }

  /** Env `e`'s bootstrap is 0 when its last step ended an episode, and
      otherwise the value of the observation the next window starts from. */
  lemma BootstrapEntries(h: seq<StepRecord>, n: nat, p: Policy, e: nat)
    requires RecordsSized(h, n) && |h| > 0 && e < n
    ensures var last := h[|h| - 1].result;
            BootstrapOf(Bootstrap(h, n, p), e)
              == if last.terminalStates[e] != NotTerminal then 0.0 else p.values(NextObs(last))[e]
  {
  }

  /** Masking the bootstrap agrees with not masking it, for every env. */
  lemma BootstrapMaskUnused(h: seq<StepRecord>, n: nat, p: Policy, gamma: real, lambda: real, e: nat)
    requires RecordsSized(h, n) && |h| > 0 && e < n
    ensures var last := h[|h| - 1].result;
            WithAdvantages(SampleColumn(h, n, e), RewardColumn(h, n, e, p, gamma), EndColumn(h, n, e),
                           BootstrapOf(Bootstrap(h, n, p), e), gamma, lambda)
            == WithAdvantages(SampleColumn(h, n, e), RewardColumn(h, n, e, p, gamma), EndColumn(h, n, e),
                              p.values(NextObs(last))[e], gamma, lambda)
  {
    var last := h[|h| - 1].result;
    if last.terminalStates[e] != NotTerminal {
      MaskUnused(SampleColumn(h, n, e), RewardColumn(h, n, e, p, gamma), EndColumn(h, n, e),
                 p.values(NextObs(last))[e], gamma, lambda);
    }
  }

  /** The timed-out rewards are bumped and the step is added to the
      buffer. */
  method Store(buffer: RolloutBuffer, rec: StepRecord, policy: Policy, gamma: real)
    requires buffer.Valid() && RecordSized(rec, |buffer.data|)
    modifies buffer
    ensures buffer.Valid() && |buffer.data| == |old(buffer.data)|
    ensures forall e :: 0 <= e < |buffer.data| ==>
              && buffer.data[e] == old(buffer.data[e]) + [NewSample(rec.obs[e], rec.out.action[e], rec.out.value[e], rec.out.logProb[e])]
              && buffer.rewards[e] == old(buffer.rewards[e]) + [StepRewards(rec.result, policy, gamma)[e]]
              && buffer.episodeEnds[e] == old(buffer.episodeEnds[e]) + [Ended(rec.result.terminalStates[e])]
  {
    var result := rec.result;
    var rewards := result.rewards;
    var timeout := HasTimeout(result.terminalStates);
    if timeout {
      var terminalValue := policy.values(result.obs);
      rewards := AddTimeoutValues(rewards, result.terminalStates, terminalValue, gamma);
    }
    buffer.Add(rec.obs, rec.out.action, rec.out.value, rec.out.logProb, rewards, result.terminalStates);
  }

  /** After the loop: the masked bootstrap and the backward pass. */
  method FinishWindow(buffer: RolloutBuffer, obs: seq<Vector>, lastStates: seq<TerminalState>, ghost h: seq<StepRecord>,
                      policy: Policy, args: Args)
    requires buffer.Valid() && |h| > 0 && RecordsSized(h, |buffer.data|)
    requires Recorded(buffer.data, buffer.rewards, buffer.episodeEnds, h, |buffer.data|, policy, args.gamma)
    requires obs == NextObs(h[|h| - 1].result) && lastStates == h[|h| - 1].result.terminalStates
    modifies buffer
    ensures buffer.Valid() && |buffer.data| == |old(buffer.data)|
    ensures buffer.rewards == old(buffer.rewards) && buffer.episodeEnds == old(buffer.episodeEnds)
    ensures forall e :: 0 <= e < |buffer.data| ==>
              buffer.data[e] == WithAdvantages(SampleColumn(h, |buffer.data|, e), buffer.rewards[e], buffer.episodeEnds[e],
                                               BootstrapOf(Bootstrap(h, |buffer.data|, policy), e), args.gamma, args.lambdaGae)
  {
    var futureValue := policy.values(obs);
    var masked := MaskBootstrap(futureValue, lastStates);
    assert masked == Bootstrap(h, |buffer.data|, policy);
    buffer.ComputeReturnsAndAdvantage(masked, args.gamma, args.lambdaGae);
  }

  // ---------------------------------------------------------------------
  // The collection loop on values

  /** What the collection loop steps with: the env's settings, every
      env's dynamics and the width of an observation. */
  datatype Setup = Setup(c: VecEnv.Settings, ds: seq<Dynamics>, width: nat)

  /** A point the collection loop can step from: at least one environment,
      one row and one state per environment, and the normalisation
      invariant. */
  ghost predicate CollectReady(c: VecEnv.Settings, ds: seq<Dynamics>, width: nat, pt: Point)
  {
    && |ds| > 0 && |pt.obs| == |ds| && |pt.states| == |ds| && Widths(ds, width)
    && VecEnv.Fits(c, pt.norm, |ds|, width)
  }

  /** Every env whose episode ended reports an episode of at least one
      step. */
  predicate LengthsCounted(res: VectorizedStepResult)
  {
    forall i :: 0 <= i < |res.terminalStates| && i < |res.totSteps| && Ended(res.terminalStates[i]) ==> res.totSteps[i] >= 1
  }

  /** One iteration of the collection loop on values: the policy samples
      an action on the current observation with the draw `d`, every
      environment is stepped, the normalisation state advances and the
      result is normalised with it; the next point holds the spliced
      observation and the stepped states. */
  function CollectFrom(c: VecEnv.Settings, ds: seq<Dynamics>, width: nat, p: Policy, d: Draw, pt: Point)
    : (r: (StepRecord, Point))
    requires CollectReady(c, ds, width, pt)
    ensures CollectReady(c, ds, width, r.1) && r.1.norm.training == pt.norm.training
    ensures r.0.obs == pt.obs && r.0.out == p.act(d, pt.obs) && RecordSized(r.0, |ds|)
    ensures r.1.obs == NextObs(r.0.result) && LengthsCounted(r.0.result)
  {
    var out := p.act(d, pt.obs);
    StepAllShaped(ds, pt.states, out.action, width);
    var (states, results) := StepAll(ds, pt.states, out.action);
    var norm := VecEnv.StepState(c, pt.norm, results, width);
    var result := VecEnv.StepOutput(c, norm, results, width);
    VecEnv.StepPassesThrough(c, norm, results, width);
    (StepRecord(pt.obs, out, result), Point(NextObs(result), states, norm))
  }

  /** The first `k` iterations of window `iteration` from `pt`, step `t`
      with the draw of step `t`, and the point they reach. */
  function CollectTrace(c: VecEnv.Settings, ds: seq<Dynamics>, width: nat, p: Policy, iteration: nat, pt: Point, k: nat)
    : (r: (seq<StepRecord>, Point))
    requires CollectReady(c, ds, width, pt)
    ensures |r.0| == k && CollectReady(c, ds, width, r.1) && r.1.norm.training == pt.norm.training
  {
    if k == 0 then ([], pt)
    else
      var before := CollectTrace(c, ds, width, p, iteration, pt, k - 1);
      var step := CollectFrom(c, ds, width, p, Draw(iteration, k - 1), before.1);
      (before.0 + [step.0], step.1)
  }

  /** The step `CollectFrom` takes, built from what the vectorised env
      computes. */
  lemma CollectFromSteps(c: VecEnv.Settings, ds: seq<Dynamics>, width: nat, p: Policy, d: Draw, pt: Point,
                         out: ActOut, results: seq<StepResult>, states: seq<EnvState>, norm: VecEnv.NormState,
                         result: VectorizedStepResult)
    requires CollectReady(c, ds, width, pt)
    requires out == p.act(d, pt.obs) && (states, results) == StepAll(ds, pt.states, out.action)
    requires norm == VecEnv.StepState(c, pt.norm, results, width)
    requires result == VecEnv.StepOutput(c, norm, results, width)
    ensures CollectFrom(c, ds, width, p, d, pt) == (StepRecord(pt.obs, out, result), Point(NextObs(result), states, norm))
  {
  }

  /** The steps `h` of window `iteration` through the points `pts`: step
      `t` is the step `CollectFrom` takes from `pts[t]` with the draw of
      step `t`, and it reaches `pts[t + 1]`. */
  ghost predicate Stepped(c: VecEnv.Settings, ds: seq<Dynamics>, width: nat, p: Policy, iteration: nat,
                          h: seq<StepRecord>, pts: seq<Point>)
  {
    && |pts| == |h| + 1
    && forall t :: 0 <= t < |h| ==>
         && CollectReady(c, ds, width, pts[t])
         && (h[t], pts[t + 1]) == CollectFrom(c, ds, width, p, Draw(iteration, t), pts[t])
  }

  /** Steps through points extended by the step `CollectFrom` takes from
      the last point. */
  lemma SteppedSnoc(c: VecEnv.Settings, ds: seq<Dynamics>, width: nat, p: Policy, iteration: nat,
                    h: seq<StepRecord>, pts: seq<Point>, rec: StepRecord, next: Point)
    requires Stepped(c, ds, width, p, iteration, h, pts) && CollectReady(c, ds, width, pts[|h|])
    requires (rec, next) == CollectFrom(c, ds, width, p, Draw(iteration, |h|), pts[|h|])
    ensures Stepped(c, ds, width, p, iteration, h + [rec], pts + [next])
  {
    var h', pts' := h + [rec], pts + [next];
    forall t | 0 <= t < |h'|
      ensures && CollectReady(c, ds, width, pts'[t])
              && (h'[t], pts'[t + 1]) == CollectFrom(c, ds, width, p, Draw(iteration, t), pts'[t])
    {
      assert pts'[t] == pts[t];
      if t < |h| {
        assert h'[t] == h[t] && pts'[t + 1] == pts[t + 1];
      }
    }
  }

  /** The first `j` steps through points are the trace of `j` steps from
      the first point, and reach point `j`. */
  lemma {:induction false} SteppedTraceUpTo(c: VecEnv.Settings, ds: seq<Dynamics>, width: nat, p: Policy, iteration: nat,
                                            h: seq<StepRecord>, pts: seq<Point>, j: nat)
    requires Stepped(c, ds, width, p, iteration, h, pts) && CollectReady(c, ds, width, pts[0]) && j <= |h|
    ensures (h[..j], pts[j]) == CollectTrace(c, ds, width, p, iteration, pts[0], j)
  {
    if j > 0 {
      SteppedTraceUpTo(c, ds, width, p, iteration, h, pts, j - 1);
      TraceSnoc(c, ds, width, p, iteration, pts[0], j - 1, h[..j - 1], pts[j - 1], h[j - 1], pts[j]);
      TakeSnoc(h, j);
    }
  }

  /** A trace followed by the step from the point it reaches is the trace
      one step longer. */
  lemma TraceSnoc(c: VecEnv.Settings, ds: seq<Dynamics>, width: nat, p: Policy, iteration: nat, pt: Point, k: nat,
                  h: seq<StepRecord>, here: Point, rec: StepRecord, next: Point)
    requires CollectReady(c, ds, width, pt) && (h, here) == CollectTrace(c, ds, width, p, iteration, pt, k)
    requires (rec, next) == CollectFrom(c, ds, width, p, Draw(iteration, k), here)
    ensures (h + [rec], next) == CollectTrace(c, ds, width, p, iteration, pt, k + 1)
  {
  }

  /** Steps through points from a point the loop can step from are the
      trace of the window from there, and the last point is the point it
      reaches. */
  lemma SteppedTrace(c: VecEnv.Settings, ds: seq<Dynamics>, width: nat, p: Policy, iteration: nat,
                     h: seq<StepRecord>, pts: seq<Point>)
    requires Stepped(c, ds, width, p, iteration, h, pts) && CollectReady(c, ds, width, pts[0])
    ensures (h, pts[|h|]) == CollectTrace(c, ds, width, p, iteration, pts[0], |h|)
  {
    SteppedTraceUpTo(c, ds, width, p, iteration, h, pts, |h|);
    assert h[..|h|] == h;
  }

  /** Conversely, the trace of a window passes through points it steps
      between. */
  lemma {:induction false} TraceStepped(c: VecEnv.Settings, ds: seq<Dynamics>, width: nat, p: Policy, iteration: nat,
                                        pt: Point, k: nat)
    returns (pts: seq<Point>)
    requires CollectReady(c, ds, width, pt)
    ensures var r := CollectTrace(c, ds, width, p, iteration, pt, k);
            Stepped(c, ds, width, p, iteration, r.0, pts) && pts[0] == pt && pts[k] == r.1
  {
    if k == 0 {
      pts := [pt];
    } else {
      var before := TraceStepped(c, ds, width, p, iteration, pt, k - 1);
      var r := CollectTrace(c, ds, width, p, iteration, pt, k - 1);
      var step := CollectFrom(c, ds, width, p, Draw(iteration, k - 1), r.1);
      SteppedSnoc(c, ds, width, p, iteration, r.0, before, step.0, step.1);
      pts := before + [step.1];
    }
  }

  /** The collection loop after the steps `h` from `start` in window
      `iteration`: they pass through the points `pts` from `start` to
      `pt`, the lists `data`, `rewards` and `ends` hold their columns,
      `lastStates` are the last step's terminal states and `totals` their
      episode totals. */
  ghost predicate Collecting(s: Setup, p: Policy, gamma: real, start: Point, iteration: nat, h: seq<StepRecord>,
                             pts: seq<Point>, pt: Point, data: seq<seq<Sample>>, rewards: seq<seq<real>>,
                             ends: seq<seq<bool>>, lastStates: seq<TerminalState>, totals: Totals)
  {
    && CollectReady(s.c, s.ds, s.width, start) && CollectReady(s.c, s.ds, s.width, pt)
    && Stepped(s.c, s.ds, s.width, p, iteration, h, pts) && pts[0] == start && pts[|h|] == pt
    && RecordsSized(h, |s.ds|)
    && (|h| > 0 ==> lastStates == h[|h| - 1].result.terminalStates)
    && Recorded(data, rewards, ends, h, |s.ds|, p, gamma)
    && totals == WindowTotals(h, |s.ds|)
  }

  /** One iteration: the step `CollectFrom` takes from `pt`, every env's
      sample, reward and episode end appended to its lists, and the step's
      episode totals added. */
  lemma CollectingStep(s: Setup, p: Policy, gamma: real, start: Point, iteration: nat, h: seq<StepRecord>,
                       pts: seq<Point>, pt: Point, data: seq<seq<Sample>>, rewards: seq<seq<real>>, ends: seq<seq<bool>>,
                       lastStates: seq<TerminalState>, totals: Totals, rec: StepRecord, pt': Point,
                       data': seq<seq<Sample>>, rewards': seq<seq<real>>, ends': seq<seq<bool>>, stepTotals: Totals)
    requires Collecting(s, p, gamma, start, iteration, h, pts, pt, data, rewards, ends, lastStates, totals)
    requires (rec, pt') == CollectFrom(s.c, s.ds, s.width, p, Draw(iteration, |h|), pt)
    requires |data'| == |s.ds| && |rewards'| == |s.ds| && |ends'| == |s.ds|
    requires forall e :: 0 <= e < |s.ds| ==>
               && data'[e] == data[e] + [NewSample(rec.obs[e], rec.out.action[e], rec.out.value[e], rec.out.logProb[e])]
               && rewards'[e] == rewards[e] + [StepRewards(rec.result, p, gamma)[e]]
               && ends'[e] == ends[e] + [Ended(rec.result.terminalStates[e])]
    requires stepTotals == EndedTotals(rec.result, |s.ds|)
    ensures Collecting(s, p, gamma, start, iteration, h + [rec], pts + [pt'], pt', data', rewards', ends',
                       rec.result.terminalStates, Plus(totals, stepTotals))
  {
    SteppedSnoc(s.c, s.ds, s.width, p, iteration, h, pts, rec, pt');
    RecordedStep(data, rewards, ends, data', rewards', ends', h, rec, |s.ds|, p, gamma);
    assert (h + [rec])[..|h|] == h;
  }

  /** Steps through points act on the first point's observation and then
      on each step's splice, with the draw of their step, and count every
      ended episode as at least one step; the last point holds the splice
      of the last step. */
  lemma SteppedChained(c: VecEnv.Settings, ds: seq<Dynamics>, width: nat, p: Policy, iteration: nat,
                       h: seq<StepRecord>, pts: seq<Point>)
    requires Stepped(c, ds, width, p, iteration, h, pts) && CollectReady(c, ds, width, pts[0])
    ensures RecordsSized(h, |ds|) && Chained(h, pts[0].obs, p, iteration) && AllCounted(h)
    ensures |h| > 0 ==> pts[|h|].obs == NextObs(h[|h| - 1].result)
  {
    forall t | 0 <= t < |h|
      ensures RecordSized(h[t], |ds|) && LengthsCounted(h[t].result)
      ensures h[t].obs == pts[t].obs && h[t].out == p.act(Draw(iteration, t), h[t].obs)
      ensures pts[t + 1].obs == NextObs(h[t].result)
    {
      assert (h[t], pts[t + 1]) == CollectFrom(c, ds, width, p, Draw(iteration, t), pts[t]);
    }
    forall t | 0 < t < |h|
      ensures h[t].obs == NextObs(h[t - 1].result)
    {
      assert pts[t].obs == NextObs(h[t - 1].result);
    }
  }

  /** Every step of `h` reports episodes of at least one step. */
  ghost predicate AllCounted(h: seq<StepRecord>)
  {
    forall t :: 0 <= t < |h| ==> LengthsCounted(h[t].result)
  }

  lemma AllCountedSnoc(h: seq<StepRecord>, rec: StepRecord)
    requires AllCounted(h) && LengthsCounted(rec.result)
    ensures AllCounted(h + [rec])
  {
    assert forall t :: 0 <= t < |h| ==> (h + [rec])[t] == h[t];
  }

  /** With every ended episode at least one step long, a step that ended
      an episode has positive summed lengths. */
  lemma {:induction false} EndedTotalsCounted(res: VectorizedStepResult, k: nat)
    requires Sized(res, |res.obs|) && k <= |res.obs| && LengthsCounted(res)
    ensures EndedTotals(res, k).episodes > 0 ==> EndedTotals(res, k).steps > 0
  {
    if k > 0 {
      EndedTotalsCounted(res, k - 1);
    }
  }

  /** A window in which an episode ended has positive summed lengths. */
  lemma {:induction false} WindowTotalsCounted(h: seq<StepRecord>, n: nat)
    requires RecordsSized(h, n) && AllCounted(h)
    ensures WindowTotals(h, n).episodes > 0 ==> WindowTotals(h, n).steps > 0
  {
    if |h| > 0 {
      WindowTotalsCounted(h[..|h| - 1], n);
      EndedTotalsCounted(h[|h| - 1].result, n);
    }
  }

  // ---------------------------------------------------------------------
  // The loss

  /** The per-sample clipped surrogate `min(r * a, clamp(r, 1 - c, 1 + c) * a)`. */
  function ClippedSurrogate(ratio: real, advantage: real, clip: real): (s: real)
    ensures s <= advantage * ratio && s <= advantage * Clip(ratio, 1.0 - clip, 1.0 + clip)
    ensures s == advantage * ratio || s == advantage * Clip(ratio, 1.0 - clip, 1.0 + clip)
  {
    var unclipped := advantage * ratio;
    var clipped := advantage * Clip(ratio, 1.0 - clip, 1.0 + clip);
    if unclipped < clipped then unclipped else clipped
  }

  /** For example ratio 2, advantage 1 and clip 0.2 give 1.2. */
  lemma SurrogateExample()
    ensures ClippedSurrogate(2.0, 1.0, 0.2) == 1.2
  {
  }

  /** The surrogate never exceeds the unclipped objective, equals it while
      the ratio is inside the clip range, and with `c >= 0` is at most
      `(1 + c) * a` for a positive advantage and at most `(1 - c) * a` for a
      negative one. */
  lemma SurrogateBounds(ratio: real, advantage: real, clip: real)
    requires clip >= 0.0
    ensures ClippedSurrogate(ratio, advantage, clip) <= advantage * ratio
    ensures 1.0 - clip <= ratio <= 1.0 + clip ==> ClippedSurrogate(ratio, advantage, clip) == advantage * ratio
    ensures advantage >= 0.0 ==> ClippedSurrogate(ratio, advantage, clip) <= (1.0 + clip) * advantage
    ensures advantage <= 0.0 ==> ClippedSurrogate(ratio, advantage, clip) <= (1.0 - clip) * advantage
  {
    var c := Clip(ratio, 1.0 - clip, 1.0 + clip);
    if advantage >= 0.0 {
      MulMonotone(advantage, c, 1.0 + clip);
    } else {
      MulMonotone(-advantage, 1.0 - clip, c);
    }
  }

  lemma MulMonotone(a: real, x: real, y: real)
    requires a >= 0.0 && x <= y
    ensures a * x <= a * y
  {
    assert a * y - a * x == a * (y - x);
  }

  /** `policy_loss + entropy_w * entropy_loss + val_w * value_loss`. */
  function CombinedLoss(args: Args, policyLoss: real, entropyLoss: real, valueLoss: real): (loss: real)
    ensures args.entropyLossWeight == 0.0 && args.valLossWeight == 0.0 ==> loss == policyLoss
    ensures entropyLoss == 0.0 && valueLoss == 0.0 ==> loss == policyLoss
  {
    policyLoss + args.entropyLossWeight * entropyLoss + args.valLossWeight * valueLoss
  }

  /** The loss is the policy loss plus the weighted terms, so it grows with
      each term whose weight is positive and ignores an unweighted one. */
  lemma CombinedLossMonotone(args: Args, p: real, e: real, v: real, v': real)
    requires args.valLossWeight >= 0.0 && v <= v'
    ensures CombinedLoss(args, p, e, v) <= CombinedLoss(args, p, e, v')
    ensures args.entropyLossWeight == 0.0 ==> forall e' :: CombinedLoss(args, p, e, v) == CombinedLoss(args, p, e', v)
  {
    assert args.valLossWeight * v <= args.valLossWeight * v';
  }

  // ---------------------------------------------------------------------
  // The averages and the timestep accounting of `Learn`

  /** A float division: a finite quotient, or a non-finite one when the
      divisor is 0 (`inf` or `nan`). */
  datatype Float = Finite(value: real) | NonFinite

  function Div(x: real, y: real): (q: Float)
    ensures q.Finite? <==> y != 0.0
    ensures q.Finite? ==> q.value * y == x
  {
    if y == 0.0 then NonFinite else Finite(x / y)
  }

  datatype Averages = Averages(rewardPerEpisode: Float, rewardPerStep: Float, episodeLength: Float)

  /** The averages of a window's totals. */
  function AveragesOf(t: Totals): (a: Averages)
    ensures a.rewardPerEpisode.Finite? <==> t.episodes > 0
    ensures a.rewardPerStep.Finite? <==> t.steps > 0
    ensures a.episodeLength.Finite? <==> t.episodes > 0
  {
    Averages(Div(t.reward, t.episodes as real), Div(t.reward, t.steps as real), Div(t.steps as real, t.episodes as real))
  }

  /** The guarded update of `Learn`: the averages change only when the
      window saw an episode end. */
  function UpdateAverages(current: Option<Averages>, t: Totals): (r: Option<Averages>)
    ensures t.episodes == 0 ==> r == current
    ensures t.episodes > 0 ==> r == Some(AveragesOf(t))
    ensures t.episodes > 0 ==> r.value.rewardPerEpisode.Finite? && r.value.episodeLength.Finite?
  {
    if t.episodes > 0 then Some(AveragesOf(t)) else current
  }

  /** All three averages are finite. */
  predicate AllFinite(a: Averages)
  {
    a.rewardPerEpisode.Finite? && a.rewardPerStep.Finite? && a.episodeLength.Finite?
  }

  /** When an episode ended and the summed lengths are positive, the three
      averages are the finite quotients of the totals. A window of the
      trainer meets both premises as soon as an episode ended in it, since
      every ended episode is at least one step long (`WindowTotalsCounted`). */
  lemma AveragesFinite(t: Totals)
    requires t.episodes > 0 && t.steps > 0
    ensures var a := AveragesOf(t);
            && a.rewardPerEpisode == Finite(t.reward / t.episodes as real)
            && a.rewardPerStep == Finite(t.reward / t.steps as real)
            && a.episodeLength == Finite(t.steps as real / t.episodes as real)
  {
  }

  /** `|Flatten(lists)|` for lists of one length. */
  lemma {:induction false} FlattenLength(lists: seq<seq<Sample>>, m: nat)
    requires forall e :: 0 <= e < |lists| ==> |lists[e]| == m
    ensures |Flatten(lists)| == |lists| * m
  {
    if |lists| > 0 {
      var init := lists[..|lists| - 1];
      assert lists == init + [lists[|lists| - 1]];
      FlattenConcat(init, [lists[|lists| - 1]]);
      FlattenLength(init, m);
      assert Flatten([lists[|lists| - 1]]) == lists[|lists| - 1] by {
        assert Flatten([lists[|lists| - 1]]) == Flatten([]) + lists[|lists| - 1];
      }
      assert (|lists| - 1) * m + m == |lists| * m;
    }
  }

  lemma MulPositive(a: nat, b: nat)
    requires a > 0 && b > 0
    ensures a * b > 0
  {
  }

  /** `k` windows of `w` timesteps, added one window at a time. */
  function Times(k: nat, w: nat): nat
  {
    if k == 0 then 0 else Times(k - 1, w) + w
  }

  lemma {:induction false} TimesIsProduct(k: nat, w: nat)
    ensures Times(k, w) == k * w
  {
    if k > 0 {
      TimesIsProduct(k - 1, w);
      MulSucc(k - 1, w);
    }
  }

  /** The averages `Learn` holds after a sequence of windows. */
  function ReportedAverages(windows: seq<Totals>): Option<Averages>
  {
    if |windows| == 0 then None
    else UpdateAverages(ReportedAverages(windows[..|windows| - 1]), windows[|windows| - 1])
  }

  /** A further window updates the report with its totals. */
  lemma ReportedStep(windows: seq<Totals>, t: Totals)
    ensures ReportedAverages(windows + [t]) == UpdateAverages(ReportedAverages(windows), t)
  {
    assert (windows + [t])[..|windows|] == windows;
  }

  /** Nothing is reported until a window sees an episode end; from then on
      the report shows the averages of the latest such window. */
  lemma {:induction false} ReportedLatest(windows: seq<Totals>)
    ensures ReportedAverages(windows).None? <==> forall k :: 0 <= k < |windows| ==> windows[k].episodes == 0
    ensures forall k :: 0 <= k < |windows| && windows[k].episodes > 0 &&
                        (forall j :: k < j < |windows| ==> windows[j].episodes == 0) ==>
              ReportedAverages(windows) == Some(AveragesOf(windows[k]))
  {
    if |windows| > 0 {
      var init := windows[..|windows| - 1];
      ReportedLatest(init);
      assert forall k :: 0 <= k < |init| ==> init[k] == windows[k];
    }
  }

  /** The lists `CollectRollouts` leaves in the buffer after the window `h`
      collected by `p`: each env's column with its advantages and returns
      computed on the masked bootstrap. */
  ghost predicate WindowSamples(data: seq<seq<Sample>>, h: seq<StepRecord>, n: nat, p: Policy, args: Args)
    requires RecordsSized(h, n) && |h| > 0
  {
    && |data| == n
    && forall e :: 0 <= e < n ==>
         data[e] == WithAdvantages(SampleColumn(h, n, e), RewardColumn(h, n, e, p, args.gamma), EndColumn(h, n, e),
                                   BootstrapOf(Bootstrap(h, n, p), e), args.gamma, args.lambdaGae)
  }

  /** One window of `Learn`: the point of the environments it starts
      from, its steps, the point they reach, the points they step
      between, the samples they left in the
      buffer, the policy that collected them, the policy training on them
      gave, and the window's episode totals. The point is the trainer's:
      `P` is what the environment it steps holds between steps. */
  datatype LearnRecord<P> = LearnRecord(start: P, steps: seq<StepRecord>, finish: P, path: seq<P>,
                                        data: seq<seq<Sample>>, before: Policy, after: Policy, totals: Totals)

  /** Window `w`: `n_steps` steps collected by `w.before`, summed into
      `w.totals`, after which training on its samples gives `w.after`. */
  ghost predicate TrainedWindow<P>(w: LearnRecord<P>, n: nat, args: Args, train: (Policy, seq<Sample>) -> Policy)
  {
    && |w.steps| == args.nSteps > 0 && RecordsSized(w.steps, n)
    && w.totals == WindowTotals(w.steps, n)
    && WindowSamples(w.data, w.steps, n, w.before, args)
    && w.after == train(w.before, Flatten(w.data))
  }

  /** The policy after the windows `ws`, starting from `p`. */
  function PolicyAfter<P>(ws: seq<LearnRecord<P>>, p: Policy): Policy
  {
    if |ws| == 0 then p else ws[|ws| - 1].after
  }

  /** The windows of `Learn` so far, from the policy `p`: the first is
      collected by `p` and every later one by the policy the window before
      it trained, and `windows` are their totals. */
  ghost predicate Trained<P>(ws: seq<LearnRecord<P>>, windows: seq<Totals>, p: Policy, n: nat, args: Args,
                             train: (Policy, seq<Sample>) -> Policy)
  {
    && |windows| == |ws|
    && (forall k :: 0 <= k < |ws| ==> TrainedWindow(ws[k], n, args, train) && windows[k] == ws[k].totals)
    && (|ws| > 0 ==> ws[0].before == p)
    && (forall j, k :: 0 <= j && k == j + 1 && k < |ws| ==> ws[k].before == ws[j].after)
  }

  /** A further window collected by the latest policy extends the history. */
  lemma TrainedStep<P>(ws: seq<LearnRecord<P>>, windows: seq<Totals>, p: Policy, n: nat, args: Args,
                       train: (Policy, seq<Sample>) -> Policy, w: LearnRecord<P>)
    requires Trained(ws, windows, p, n, args, train)
    requires TrainedWindow(w, n, args, train) && w.before == PolicyAfter(ws, p)
    ensures Trained(ws + [w], windows + [w.totals], p, n, args, train)
    ensures PolicyAfter(ws + [w], p) == w.after
  {
    var ws', windows' := ws + [w], windows + [w.totals];
    forall k | 0 <= k < |ws'|
      ensures TrainedWindow(ws'[k], n, args, train) && windows'[k] == ws'[k].totals
    {
      if k < |ws| {
        assert ws'[k] == ws[k] && windows'[k] == windows[k];
      } else {
        assert ws'[k] == w && windows'[k] == w.totals;
      }
    }
    forall j, k | 0 <= j && k == j + 1 && k < |ws'|
      ensures ws'[k].before == ws'[j].after
    {
      assert ws'[j] == ws[j];
      if k < |ws| {
        assert ws'[k] == ws[k];
      } else {
        assert ws'[k] == w && ws[j].after == PolicyAfter(ws, p);
      }
    }
  }

  /** The windows of `Learn` as the vectorised env collected them: window
      `k` is the trace of its `n_steps` iterations that the policy
      collecting it takes, with the draws of iteration `k`, from its start;
      it starts on the observation `GetObs` shows for the states and the
      statistics there, and where the window before it stopped. */
  ghost predicate Collected(ws: seq<LearnRecord<Point>>, c: VecEnv.Settings, ds: seq<Dynamics>, width: nat)
  {
    CollectedEach(ws, c, ds, width) && Linked(ws)
  }

  /** Every window is the trace of its iteration from its start. */
  ghost predicate CollectedEach(ws: seq<LearnRecord<Point>>, c: VecEnv.Settings, ds: seq<Dynamics>, width: nat)
  {
    forall k :: 0 <= k < |ws| ==> WindowCollected(ws[k], k, c, ds, width)
  }

  /** Window `w` is iteration `k` stepped from its start, through its
      path, to its finish. */
  ghost predicate WindowCollected(w: LearnRecord<Point>, k: nat, c: VecEnv.Settings, ds: seq<Dynamics>, width: nat)
  {
    && CollectReady(c, ds, width, w.start)
    && w.start.obs == StartObs(c, ds, width, w.start)
    && Stepped(c, ds, width, w.before, k, w.steps, w.path) && w.path[0] == w.start && w.path[|w.steps|] == w.finish
  }

  /** A collected window is the trace of its iteration from its start. */
  lemma WindowTrace(w: LearnRecord<Point>, k: nat, c: VecEnv.Settings, ds: seq<Dynamics>, width: nat)
    requires WindowCollected(w, k, c, ds, width)
    ensures (w.steps, w.finish) == CollectTrace(c, ds, width, w.before, k, w.start, |w.steps|)
  {
    SteppedTrace(c, ds, width, w.before, k, w.steps, w.path);
  }

  /** Every window starts where the one before it stopped. */
  ghost predicate Linked(ws: seq<LearnRecord<Point>>)
  {
    forall j, k :: 0 <= j && k == j + 1 && k < |ws| ==>
      ws[k].start.states == ws[j].finish.states && ws[k].start.norm == ws[j].finish.norm
  }

  /** What `GetObs` returns for the states and statistics of `pt`. */
  function StartObs(c: VecEnv.Settings, ds: seq<Dynamics>, width: nat, pt: Point): (obs: seq<Vector>)
    requires CollectReady(c, ds, width, pt)
    ensures |obs| == |ds|
  {
    NormalizeObs(c.normObs, ObsOf(ds, pt.states), pt.norm.obsStats, c.epsilon, c.maxObs, c.root)
  }

  /** What the loop of `Learn` keeps: the windows `ws` so far are trained
      from `p` and collected, the first starts from the states and
      statistics `states` and `norm`, and the environments stand at `here`,
      where the last window stopped (where the first starts, if there is
      none yet). */
  ghost predicate Learned(ws: seq<LearnRecord<Point>>, windows: seq<Totals>, p: Policy, n: nat, args: Args,
                          train: (Policy, seq<Sample>) -> Policy, c: VecEnv.Settings, ds: seq<Dynamics>, width: nat,
                          states: seq<EnvState>, norm: VecEnv.NormState, here: Point)
  {
    && Trained(ws, windows, p, n, args, train)
    && Collected(ws, c, ds, width) && StandsAfter(ws, here.states, here.norm)
    && (|ws| > 0 ==> ws[0].start.states == states && ws[0].start.norm == norm)
    && (|ws| == 0 ==> here.states == states && here.norm == norm)
  }

  /** A window trained by the latest policy and collected from where the
      environments stand extends what the loop of `Learn` keeps. */
  lemma LearnedStep(ws: seq<LearnRecord<Point>>, windows: seq<Totals>, p: Policy, n: nat, args: Args,
                    train: (Policy, seq<Sample>) -> Policy, c: VecEnv.Settings, ds: seq<Dynamics>, width: nat,
                    states: seq<EnvState>, norm: VecEnv.NormState, here: Point, w: LearnRecord<Point>)
    requires Learned(ws, windows, p, n, args, train, c, ds, width, states, norm, here)
    requires TrainedWindow(w, n, args, train) && w.before == PolicyAfter(ws, p) && WindowCollected(w, |ws|, c, ds, width)
    requires w.start.states == here.states && w.start.norm == here.norm
    ensures Learned(ws + [w], windows + [w.totals], p, n, args, train, c, ds, width, states, norm, w.finish)
    ensures PolicyAfter(ws + [w], p) == w.after
  {
    TrainedStep(ws, windows, p, n, args, train, w);
    CollectedStep(ws, c, ds, width, w);
  }

  /** The environments stand where the last window stopped. */
  ghost predicate StandsAfter(ws: seq<LearnRecord<Point>>, states: seq<EnvState>, norm: VecEnv.NormState)
  {
    |ws| > 0 ==> ws[|ws| - 1].finish.states == states && ws[|ws| - 1].finish.norm == norm
  }

  /** A window collected from where the last one stopped extends the
      collected history. */
  lemma CollectedStep(ws: seq<LearnRecord<Point>>, c: VecEnv.Settings, ds: seq<Dynamics>, width: nat, w: LearnRecord<Point>)
    requires Collected(ws, c, ds, width) && StandsAfter(ws, w.start.states, w.start.norm)
    requires WindowCollected(w, |ws|, c, ds, width)
    ensures Collected(ws + [w], c, ds, width) && StandsAfter(ws + [w], w.finish.states, w.finish.norm)
  {
    CollectedEachStep(ws, c, ds, width, w);
    LinkedStep(ws, w);
  }

  lemma CollectedEachStep(ws: seq<LearnRecord<Point>>, c: VecEnv.Settings, ds: seq<Dynamics>, width: nat, w: LearnRecord<Point>)
    requires CollectedEach(ws, c, ds, width) && WindowCollected(w, |ws|, c, ds, width)
    ensures CollectedEach(ws + [w], c, ds, width)
  {
    var ws' := ws + [w];
    forall k | 0 <= k < |ws'|
      ensures WindowCollected(ws'[k], k, c, ds, width)
    {
      if k < |ws| {
        assert ws'[k] == ws[k];
      }
    }
  }

  lemma LinkedStep(ws: seq<LearnRecord<Point>>, w: LearnRecord<Point>)
    requires Linked(ws) && StandsAfter(ws, w.start.states, w.start.norm)
    ensures Linked(ws + [w])
  {
    var ws' := ws + [w];
    forall j, k | 0 <= j && k == j + 1 && k < |ws'|
      ensures ws'[k].start.states == ws'[j].finish.states && ws'[k].start.norm == ws'[j].finish.norm
    {
      assert ws'[j] == ws[j];
      if k < |ws| {
        assert ws'[k] == ws[k];
      }
    }
  }

  /** One step of `Play`: the deterministic action, the result and the
      observation it leads to. */
  datatype PlayRecord = PlayRecord(obs: seq<Vector>, action: seq<Vector>, result: VectorizedStepResult)

  ghost predicate PlaySized(h: seq<PlayRecord>, n: nat)
  {
    forall t :: 0 <= t < |h| ==> |h[t].obs| == n && |h[t].action| == n && Sized(h[t].result, n)
  }

  /** Every step acts deterministically on the spliced observation of the
      step before. */
  ghost predicate PlayChained(h: seq<PlayRecord>, n: nat, p: Policy)
    requires PlaySized(h, n)
  {
    forall t :: 0 <= t < |h| ==>
      && h[t].action == p.predict(h[t].obs)
      && (t > 0 ==> h[t].obs == NextObs(h[t - 1].result))
  }

  /** Where a loop over the vectorised env stands before a step: the
      observation the policy acts on, the states of the environments and the
      normalisation state. */
  datatype Point = Point(obs: seq<Vector>, states: seq<EnvState>, norm: VecEnv.NormState)

  /** A point `Play` can step from: one row and one state per environment,
      the normalisation invariant, and training off. */
  ghost predicate PlayReady(c: VecEnv.Settings, ds: seq<Dynamics>, width: nat, pt: Point)
  {
    && |pt.obs| == |ds| && |pt.states| == |ds| && Widths(ds, width)
    && VecEnv.Fits(c, pt.norm, |ds|, width) && !pt.norm.training
  }

  /** One step of `Play` on values: the deterministic action on the current
      observation, every environment stepped, the normalisation state
      advanced and the result normalised with it; the next point holds the
      spliced observation and the stepped states. With training off the
      statistics do not move. */
  function PlayFrom(c: VecEnv.Settings, ds: seq<Dynamics>, width: nat, p: Policy, pt: Point): (r: (PlayRecord, Point))
    requires PlayReady(c, ds, width, pt)
    ensures PlayReady(c, ds, width, r.1)
    ensures r.0.obs == pt.obs && r.0.action == p.predict(pt.obs) && Sized(r.0.result, |ds|)
    ensures r.1.obs == NextObs(r.0.result)
    ensures r.1.norm.obsStats == pt.norm.obsStats && r.1.norm.retStats == pt.norm.retStats
  {
    var action := p.predict(pt.obs);
    StepAllShaped(ds, pt.states, action, width);
    var (states, results) := StepAll(ds, pt.states, action);
    VecEnv.StepStatistics(c, pt.norm, results, width);
    var norm := VecEnv.StepState(c, pt.norm, results, width);
    var result := VecEnv.StepOutput(c, norm, results, width);
    (PlayRecord(pt.obs, action, result), Point(NextObs(result), states, norm))
  }

  /** The step `PlayFrom` takes, from what the vectorised env computes. */
  lemma PlayFromParts(c: VecEnv.Settings, ds: seq<Dynamics>, width: nat, p: Policy, pt: Point,
                      action: seq<Vector>, results: seq<StepResult>, states: seq<EnvState>, norm: VecEnv.NormState,
                      result: VectorizedStepResult)
    requires PlayReady(c, ds, width, pt) && action == p.predict(pt.obs)
    requires (states, results) == StepAll(ds, pt.states, action)
    requires ResultsShaped(results, width)
    requires norm == VecEnv.StepState(c, pt.norm, results, width)
    requires result == VecEnv.StepOutput(c, norm, results, width)
    ensures PlayFrom(c, ds, width, p, pt) == (PlayRecord(pt.obs, action, result), Point(NextObs(result), states, norm))
  {
  }

  /** The first `k` steps of `Play` from `pt`, and the point they reach;
      the statistics are those of `pt` all along. */
  function PlayTrace(c: VecEnv.Settings, ds: seq<Dynamics>, width: nat, p: Policy, pt: Point, k: nat)
    : (r: (seq<PlayRecord>, Point))
    requires PlayReady(c, ds, width, pt)
    ensures |r.0| == k && PlayReady(c, ds, width, r.1)
    ensures r.1.norm.obsStats == pt.norm.obsStats && r.1.norm.retStats == pt.norm.retStats
  {
    if k == 0 then ([], pt)
    else
      var before := PlayTrace(c, ds, width, p, pt, k - 1);
      var step := PlayFrom(c, ds, width, p, before.1);
      (before.0 + [step.0], step.1)
  }

  /** A trace extended by the step `PlayFrom` takes from the point it
      reached, built from what the vectorised env computes. */
  lemma PlayTraceNext(c: VecEnv.Settings, ds: seq<Dynamics>, width: nat, p: Policy, start: Point,
                      h: seq<PlayRecord>, pt: Point, action: seq<Vector>, results: seq<StepResult>,
                      states: seq<EnvState>, norm: VecEnv.NormState, result: VectorizedStepResult)
    requires PlayReady(c, ds, width, start) && (h, pt) == PlayTrace(c, ds, width, p, start, |h|)
    requires action == p.predict(pt.obs) && (states, results) == StepAll(ds, pt.states, action)
    requires ResultsShaped(results, width)
    requires norm == VecEnv.StepState(c, pt.norm, results, width)
    requires result == VecEnv.StepOutput(c, norm, results, width)
    ensures Sized(result, |ds|)
    ensures (h + [PlayRecord(pt.obs, action, result)], Point(NextObs(result), states, norm))
            == PlayTrace(c, ds, width, p, start, |h| + 1)
  {
    PlayFromParts(c, ds, width, p, pt, action, results, states, norm, result);
  }

  /** A trace of `Play` starts on the start's observation, every step acts
      deterministically on the spliced observation of the step before, and
      the point reached holds the splice of the last step. */
  lemma {:induction false} PlayTraceChained(c: VecEnv.Settings, ds: seq<Dynamics>, width: nat, p: Policy, pt: Point, k: nat)
    requires PlayReady(c, ds, width, pt)
    ensures var r := PlayTrace(c, ds, width, p, pt, k);
            && PlaySized(r.0, |ds|) && PlayChained(r.0, |ds|, p)
            && (k == 0 ==> r.1 == pt)
            && (k > 0 ==> r.0[0].obs == pt.obs && r.1.obs == NextObs(r.0[k - 1].result))
  {
    if k > 0 {
      PlayTraceChained(c, ds, width, p, pt, k - 1);
      var before := PlayTrace(c, ds, width, p, pt, k - 1);
      var step := PlayFrom(c, ds, width, p, before.1);
      var h := before.0 + [step.0];
      assert PlayTrace(c, ds, width, p, pt, k) == (h, step.1);
      forall t | 0 <= t < k
        ensures |h[t].obs| == |ds| && |h[t].action| == |ds| && Sized(h[t].result, |ds|)
        ensures h[t].action == p.predict(h[t].obs)
        ensures t > 0 ==> h[t].obs == NextObs(h[t - 1].result)
      {
        if t < k - 1 {
          assert h[t] == before.0[t];
          if t > 0 {
            assert h[t - 1] == before.0[t - 1];
          }
        } else if t > 0 {
          assert h[t - 1] == before.0[k - 2];
        }
      }
      if k > 1 {
        assert h[0] == before.0[0];
      }
    }
  }

  /** What `Play` loads when the experiment directory exists. */
  datatype Saved = Saved(policy: Policy, obsBlob: Option<RmsState>, retBlob: Option<RmsState>)

  // ---------------------------------------------------------------------
  // The trainer

  /** The PPO trainer over the newer vectorised environment; `policy` is
      the network, replaced by each training phase. */
  class Trainer {
    const env: VecEnv.VectorizedEnv
    const args: Args
    var policy: Policy

    /** The network is built from the environment's sizes by code the model
        does not look into; it is given. */
    constructor (env: VecEnv.VectorizedEnv, args: Args, initial: Policy)
      ensures this.env == env && this.args == args && policy == initial
    {
      this.env := env;
      this.args := args;
      policy := initial;
    }

    /** The frame every collection method works in. */
    ghost predicate Ready(buffer: RolloutBuffer)
      reads env, env.obsRms, env.retRms, buffer
    {
      env.Valid() && buffer.Valid() && |buffer.data| == env.numEnvs > 0
    }

    /** `s` holds the settings, dynamics and observation width of the
        environments; none of them changes while the trainer runs. */
    ghost predicate Holds(s: Setup)
      reads env
    {
      s == Setup(env.Config(), DynamicsOf(env.envs), env.obsSize)
    }

    /** The environments stand at the point `pt`, and `s` holds their
        settings, dynamics and observation width. */
    ghost predicate Stands(s: Setup, pt: Point)
      reads env, env.obsRms, env.retRms, env.envs
    {
      Holds(s) && pt.states == States(env.envs) && pt.norm == env.Norm()
    }

    /** The policy acts on `obs` with the draw of step `t` and every env is
        stepped with its row of the action: `rec` is the step `CollectFrom`
        takes from the point `pt` the environments stand at, to the point
        `reached`. */
    method StepEnvs(buffer: RolloutBuffer, obs: seq<Vector>, t: nat, iteration: nat, ghost s: Setup, ghost pt: Point)
      returns (rec: StepRecord, ghost reached: Point)
      requires Ready(buffer) && Stands(s, pt) && pt.obs == obs && CollectReady(s.c, s.ds, s.width, pt)
      modifies env, env.obsRms, env.retRms, env.envs
      ensures Ready(buffer) && unchanged(buffer) && env.Kept() && env.training == old(env.training) && Stands(s, reached)
      ensures rec.obs == obs && RecordSized(rec, env.numEnvs) && reached.obs == NextObs(rec.result)
      ensures (rec, reached) == CollectFrom(s.c, s.ds, s.width, policy, Draw(iteration, t), pt)
    {
      var out := policy.act(Draw(iteration, t), obs);
      ghost var results := StepResults(env.envs, out.action);
      StepResultsShaped(env.envs, out.action, env.obsSize);
      var result := env.Step(out.action);
      reached := Point(NextObs(result), States(env.envs), env.Norm());
      CollectFromSteps(s.c, s.ds, s.width, policy, Draw(iteration, t), pt, out, results, reached.states, reached.norm, result);
      rec := StepRecord(obs, out, result);
    }

    /** The body of the collection loop at step `t` up to the splice:
        `StepEnvs`, then the timed-out rewards are bumped, the step is
        `Add`ed to the buffer, the next observation is spliced and the
        ended episodes are counted; `next` is the observation of the point
        `reached`. */
    method CollectStep(buffer: RolloutBuffer, obs: seq<Vector>, t: nat, iteration: nat, ghost s: Setup, ghost pt: Point)
      returns (rec: StepRecord, next: seq<Vector>, totals: Totals, ghost reached: Point)
      requires Ready(buffer) && Stands(s, pt) && pt.obs == obs && CollectReady(s.c, s.ds, s.width, pt)
      modifies buffer, env, env.obsRms, env.retRms, env.envs
      ensures Ready(buffer) && env.Kept() && env.training == old(env.training) && Stands(s, reached)
      ensures (rec, reached) == CollectFrom(s.c, s.ds, s.width, policy, Draw(iteration, t), pt)
      ensures next == reached.obs && totals == EndedTotals(rec.result, env.numEnvs)
      ensures forall e :: 0 <= e < env.numEnvs ==>
                && buffer.data[e] == old(buffer.data[e]) + [NewSample(obs[e], rec.out.action[e], rec.out.value[e], rec.out.logProb[e])]
                && buffer.rewards[e] == old(buffer.rewards[e]) + [StepRewards(rec.result, policy, args.gamma)[e]]
                && buffer.episodeEnds[e] == old(buffer.episodeEnds[e]) + [Ended(rec.result.terminalStates[e])]
    {
      rec, reached := StepEnvs(buffer, obs, t, iteration, s, pt);
      next, totals := SpliceAndCount(rec.result);
      Record(buffer, rec, s, reached);
    }

    /** `Store` with this trainer's policy and discount; the environments
        stay where they stand. */
    method Record(buffer: RolloutBuffer, rec: StepRecord, ghost s: Setup, ghost pt: Point)
      requires Ready(buffer) && Stands(s, pt) && RecordSized(rec, env.numEnvs)
      modifies buffer
      ensures Ready(buffer) && Stands(s, pt)
      ensures forall e :: 0 <= e < env.numEnvs ==>
                && buffer.data[e] == old(buffer.data[e]) + [NewSample(rec.obs[e], rec.out.action[e], rec.out.value[e], rec.out.logProb[e])]
                && buffer.rewards[e] == old(buffer.rewards[e]) + [StepRewards(rec.result, policy, args.gamma)[e]]
                && buffer.episodeEnds[e] == old(buffer.episodeEnds[e]) + [Ended(rec.result.terminalStates[e])]
    {
      Store(buffer, rec, policy, args.gamma);
    }

    /** What the collection loop keeps after the steps `h` from `start`:
        they step the window from there through the points `pts` to the
        point `pt` the environments stand at, `obs` is its observation,
        the buffer holds their columns, `lastStates` are the last step's
        terminal states and `totals` their episode totals. */
    ghost predicate Window(buffer: RolloutBuffer, s: Setup, start: Point, iteration: nat, h: seq<StepRecord>,
                           pts: seq<Point>, pt: Point, obs: seq<Vector>, lastStates: seq<TerminalState>, totals: Totals)
      reads this, env, env.obsRms, env.retRms, env.envs, buffer
    {
      && Ready(buffer) && Stands(s, pt) && obs == pt.obs
      && Collecting(s, policy, args.gamma, start, iteration, h, pts, pt, buffer.data, buffer.rewards, buffer.episodeEnds,
                    lastStates, totals)
    }

    /** One iteration of the collection loop at step `t`: act and step
        every env, bump the timed-out rewards, `Add` to the buffer, splice
        the next observation and count the ended episodes; the window
        grows by the step `CollectFrom` takes. */
    method Advance(buffer: RolloutBuffer, ghost s: Setup, ghost start: Point, iteration: nat, t: nat,
                   ghost h: seq<StepRecord>, ghost pts: seq<Point>, ghost pt: Point, obs: seq<Vector>,
                   lastStates: seq<TerminalState>, totals: Totals)
      returns (ghost h': seq<StepRecord>, ghost pts': seq<Point>, ghost pt': Point, obs': seq<Vector>,
               lastStates': seq<TerminalState>, totals': Totals)
      requires Window(buffer, s, start, iteration, h, pts, pt, obs, lastStates, totals) && t == |h|
      modifies buffer, env, env.obsRms, env.retRms, env.envs
      ensures env.Kept() && env.training == old(env.training) && |h'| == |h| + 1
      ensures Window(buffer, s, start, iteration, h', pts', pt', obs', lastStates', totals')
    {
      ghost var (data, rewards, ends) := (buffer.data, buffer.rewards, buffer.episodeEnds);
      var rec, next, stepTotals;
      rec, next, stepTotals, pt' := CollectStep(buffer, obs, t, iteration, s, pt);
      CollectingStep(s, policy, args.gamma, start, iteration, h, pts, pt, data, rewards, ends, lastStates, totals, rec, pt',
                     buffer.data, buffer.rewards, buffer.episodeEnds, stepTotals);
      h', pts' := h + [rec], pts + [pt'];
      obs', lastStates', totals' := next, rec.result.terminalStates, Plus(totals, stepTotals);
    }

    /** The collection loop: `n_steps` iterations starting from `first`,
        the observation at the point `start`. */
    method FillWindow(buffer: RolloutBuffer, first: seq<Vector>, iteration: nat, ghost s: Setup, ghost start: Point)
      returns (obs: seq<Vector>, lastStates: seq<TerminalState>, totals: Totals, ghost h: seq<StepRecord>,
               ghost pts: seq<Point>, ghost pt: Point)
      requires Ready(buffer) && args.nSteps >= 1
      requires Stands(s, start) && start.obs == first && CollectReady(s.c, s.ds, s.width, start)
      requires Recorded(buffer.data, buffer.rewards, buffer.episodeEnds, [], env.numEnvs, policy, args.gamma)
      modifies buffer, env, env.obsRms, env.retRms, env.envs
      ensures env.Kept() && env.training == old(env.training) && |h| == args.nSteps
      ensures Window(buffer, s, start, iteration, h, pts, pt, obs, lastStates, totals)
    {
      obs, lastStates, totals := first, [], Totals(0.0, 0, 0);
      h, pts, pt := [], [start], start;
      var t := 0;
      while t < args.nSteps
        invariant 0 <= t <= args.nSteps && |h| == t
        invariant env.Kept() && env.training == old(env.training)
        invariant Window(buffer, s, start, iteration, h, pts, pt, obs, lastStates, totals)
      {
        h, pts, pt, obs, lastStates, totals := Advance(buffer, s, start, iteration, t, h, pts, pt, obs, lastStates, totals);
        t := t + 1;
      }
    }

    /** The start of `CollectRollouts`: the buffer is emptied and `GetObs`
        shows the observation `first` at the point `start` the environments
        stand at. */
    method Restart(buffer: RolloutBuffer, ghost s: Setup) returns (first: seq<Vector>, ghost start: Point)
      requires Ready(buffer) && Holds(s)
      modifies buffer
      ensures Ready(buffer) && Stands(s, start) && start.obs == first
      ensures start == Point(old(env.Observation()), old(States(env.envs)), old(env.Norm()))
      ensures CollectReady(s.c, s.ds, s.width, start) && first == StartObs(s.c, s.ds, s.width, start)
      ensures Recorded(buffer.data, buffer.rewards, buffer.episodeEnds, [], env.numEnvs, policy, args.gamma)
    {
      buffer.Reset();
      first := env.GetObs();
      SameWidthDynamics(env.envs, env.obsSize);
      CurrentObsOf(env.envs);
      start := Point(first, States(env.envs), env.Norm());
    }

    /** `CollectRollouts`: the buffer is emptied and, from the observation
        `GetObs` shows, exactly `n_steps` iterations step the environments
        as `CollectFrom` says, each `Add`ing one row per env; the backward
        pass runs with the masked bootstrap and the window's episode totals
        are returned. `h` records what each iteration saw, `start` and
        `finish` the points before the first and after the last, `pts` the
        points in between (by `SteppedTrace`, `h` and `finish` are the
        window's `CollectTrace` from `start`); `s` holds the environments'
        settings, dynamics and width. */
    method CollectRollouts(buffer: RolloutBuffer, iteration: nat, ghost s: Setup)
      returns (totals: Totals, ghost h: seq<StepRecord>, ghost start: Point, ghost finish: Point, ghost pts: seq<Point>)
      requires Ready(buffer) && args.nSteps >= 1 && Holds(s)
      modifies buffer, env, env.obsRms, env.retRms, env.envs
      ensures Ready(buffer) && env.Kept() && env.training == old(env.training) && Stands(s, finish)
      ensures start == Point(old(env.Observation()), old(States(env.envs)), old(env.Norm()))
      ensures && CollectReady(s.c, s.ds, s.width, start) && start.obs == StartObs(s.c, s.ds, s.width, start)
              && Stepped(s.c, s.ds, s.width, policy, iteration, h, pts) && pts[0] == start && pts[|h|] == finish
      ensures |h| == args.nSteps && RecordsSized(h, env.numEnvs) && Chained(h, start.obs, policy, iteration)
      ensures forall e :: 0 <= e < env.numEnvs ==>
                && buffer.rewards[e] == RewardColumn(h, env.numEnvs, e, policy, args.gamma)
                && buffer.episodeEnds[e] == EndColumn(h, env.numEnvs, e)
                && buffer.data[e] == WithAdvantages(SampleColumn(h, env.numEnvs, e), buffer.rewards[e], buffer.episodeEnds[e],
                                                    BootstrapOf(Bootstrap(h, env.numEnvs, policy), e), args.gamma, args.lambdaGae)
      ensures totals == WindowTotals(h, env.numEnvs) && (totals.episodes > 0 ==> totals.steps > 0)
    {
      var first;
      first, start := Restart(buffer, s);
      var obs, lastStates;
      obs, lastStates, totals, h, pts, finish := FillWindow(buffer, first, iteration, s, start);
      SteppedChained(s.c, s.ds, s.width, policy, iteration, h, pts);
      WindowTotalsCounted(h, env.numEnvs);
      Conclude(buffer, s, finish, obs, lastStates, h);
    }

    /** The end of `CollectRollouts`: `FinishWindow` on the buffer, which
        leaves the environments where they stand. */
    method Conclude(buffer: RolloutBuffer, ghost s: Setup, ghost pt: Point, obs: seq<Vector>, lastStates: seq<TerminalState>,
                    ghost h: seq<StepRecord>)
      requires Ready(buffer) && Stands(s, pt) && |h| > 0 && RecordsSized(h, env.numEnvs)
      requires Recorded(buffer.data, buffer.rewards, buffer.episodeEnds, h, env.numEnvs, policy, args.gamma)
      requires obs == NextObs(h[|h| - 1].result) && lastStates == h[|h| - 1].result.terminalStates
      modifies buffer
      ensures Ready(buffer) && Stands(s, pt)
      ensures buffer.rewards == old(buffer.rewards) && buffer.episodeEnds == old(buffer.episodeEnds)
      ensures forall e :: 0 <= e < env.numEnvs ==>
                buffer.data[e] == WithAdvantages(SampleColumn(h, env.numEnvs, e), buffer.rewards[e], buffer.episodeEnds[e],
                                                 BootstrapOf(Bootstrap(h, env.numEnvs, policy), e), args.gamma, args.lambdaGae)
    {
      FinishWindow(buffer, obs, lastStates, h, policy, args);
    }

    /** One window of `Learn`: collect from where the environments stand,
        update the averages, count the samples and train on them. `w`
        records the window: window `iteration` as the environments step
        it, and the training on its samples. */
    method LearnWindow(buffer: RolloutBuffer, iteration: nat, averages: Option<Averages>, train: (Policy, seq<Sample>) -> Policy,
                       ghost s: Setup)
      returns (totals: Totals, size: nat, averages': Option<Averages>, ghost w: LearnRecord<Point>)
      requires Ready(buffer) && args.nSteps >= 1 && Holds(s)
      modifies this, buffer, env, env.obsRms, env.retRms, env.envs
      ensures Ready(buffer) && env.Kept() && env.training == old(env.training) && Stands(s, w.finish)
      ensures w.start == Point(old(env.Observation()), old(States(env.envs)), old(env.Norm()))
      ensures w.before == old(policy) && w.after == policy && w.totals == totals
      ensures WindowCollected(w, iteration, s.c, s.ds, s.width) && TrainedWindow(w, env.numEnvs, args, train)
      ensures averages' == UpdateAverages(averages, totals) && (totals.episodes > 0 ==> totals.steps > 0)
      ensures size == env.numEnvs * args.nSteps
    {
      ghost var h, start, finish, pts;
      totals, h, start, finish, pts := CollectRollouts(buffer, iteration, s);
      averages' := UpdateAverages(averages, totals);
      ghost var (data, before) := (buffer.data, policy);
      size := Train(buffer, train, s, finish);
      w := LearnRecord(start, h, finish, pts, data, before, policy, totals);
    }

    /** The end of a window of `Learn`: the samples are counted and the
        optimisation epochs, which `train` stands for, run over them; the
        environments stay where they stand. */
    method Train(buffer: RolloutBuffer, train: (Policy, seq<Sample>) -> Policy, ghost s: Setup, ghost pt: Point)
      returns (size: nat)
      requires Ready(buffer) && Stands(s, pt) && forall e :: 0 <= e < |buffer.data| ==> |buffer.data[e]| == args.nSteps
      modifies this
      ensures Ready(buffer) && Stands(s, pt) && policy == train(old(policy), Flatten(buffer.data))
      ensures size == env.numEnvs * args.nSteps
    {
      FlattenLength(buffer.data, args.nSteps);
      size := buffer.Size();
      policy := train(policy, Flatten(buffer.data));
    }

    /** The start of `Learn`: a buffer for `n_envs` lists, training on and
        every env reset. */
    method BeginLearning() returns (buffer: RolloutBuffer)
      requires env.Valid() && env.numEnvs > 0
      modifies env, env.obsRms, env.envs
      ensures fresh(buffer) && Ready(buffer) && env.Kept() && env.training
      ensures States(env.envs) == old(env.ResetStates())
      ensures env.Norm() == old(env.TrainingResetNorm())
    {
      buffer := new RolloutBuffer(env.GetNumEnvs(), args.nSteps);
      env.SetTraining(true);
      var _ := env.Reset();
    }

    /** `Learn`: the learning phase runs whole windows until at least
        `total_timesteps` timesteps were collected; each window adds
        `n_envs * n_steps` of them. Window `k` is collected by the policy
        the previous windows trained, stepping the environments from where
        the window before left them (the first from the training reset), and
        is summed into `windows[k]`; the averages are those of the latest
        window that saw an episode end, and are all finite. `train` stands
        for the optimisation epochs over the collected samples. */
    method Learn(totalTimesteps: nat, train: (Policy, seq<Sample>) -> Policy)
      returns (timestep: nat, ghost windows: seq<Totals>, averages: Option<Averages>, ghost ws: seq<LearnRecord<Point>>)
      requires env.Valid() && env.numEnvs > 0 && args.nSteps >= 1
      modifies this, env, env.obsRms, env.retRms, env.envs
      ensures env.Valid() && env.Kept() && env.training
      ensures timestep == |windows| * (env.numEnvs * args.nSteps)
      ensures totalTimesteps <= timestep < totalTimesteps + env.numEnvs * args.nSteps
      ensures Trained(ws, windows, old(policy), env.numEnvs, args, train) && policy == PolicyAfter(ws, old(policy))
      ensures Collected(ws, env.Config(), DynamicsOf(env.envs), env.obsSize)
      ensures |ws| > 0 ==>
                && ws[0].start.states == old(env.ResetStates())
                && ws[0].start.norm == old(env.TrainingResetNorm())
      ensures averages == ReportedAverages(windows)
      ensures averages.Some? ==> AllFinite(averages.value)
    {
      var buffer := BeginLearning();
      MulPositive(env.numEnvs, args.nSteps);
      ghost var s := Setup(env.Config(), DynamicsOf(env.envs), env.obsSize);
      timestep, windows, averages, ws := LearnLoop(buffer, totalTimesteps, env.numEnvs * args.nSteps, train, s);
      TimesIsProduct(|windows|, env.numEnvs * args.nSteps);
    }

    /** What the loop of `Learn` keeps besides its counters: the trainer
        and the environments are in the collection frame and stand at
        `here`, the windows `ws` were learned from `initial` and the states
        and statistics `states` and `norm`, the policy is the one they
        trained, and `averages` are the reported ones, all finite. */
    ghost predicate Learning(buffer: RolloutBuffer, train: (Policy, seq<Sample>) -> Policy, s: Setup, initial: Policy,
                             states: seq<EnvState>, norm: VecEnv.NormState, ws: seq<LearnRecord<Point>>,
                             windows: seq<Totals>, here: Point, averages: Option<Averages>)
      reads this, env, env.obsRms, env.retRms, env.envs, buffer
    {
      && Ready(buffer) && env.training && Stands(s, here)
      && Learned(ws, windows, initial, env.numEnvs, args, train, s.c, s.ds, s.width, states, norm, here)
      && policy == PolicyAfter(ws, initial)
      && averages == ReportedAverages(windows)
      && (averages.Some? ==> AllFinite(averages.value))
    }

    /** Before the first window nothing is learned yet: the environments
        stand where the windows will start. */
    lemma LearningBegins(buffer: RolloutBuffer, train: (Policy, seq<Sample>) -> Policy, s: Setup)
      requires Ready(buffer) && env.training && Holds(s)
      ensures Learning(buffer, train, s, policy, States(env.envs), env.Norm(), [], [], Point([], States(env.envs), env.Norm()), None)
    {
    }

    /** One iteration of the loop of `Learn`: window `|windows|` is learned
        and its totals update the averages. */
    method LearnNext(buffer: RolloutBuffer, iteration: nat, window: nat, averages: Option<Averages>, train: (Policy, seq<Sample>) -> Policy,
                     ghost s: Setup, ghost initial: Policy, ghost states: seq<EnvState>, ghost norm: VecEnv.NormState,
                     ghost ws: seq<LearnRecord<Point>>, ghost windows: seq<Totals>, ghost here: Point)
      returns (totals: Totals, size: nat, averages': Option<Averages>, ghost w: LearnRecord<Point>)
      requires Learning(buffer, train, s, initial, states, norm, ws, windows, here, averages)
      requires iteration == |windows| && window == env.numEnvs * args.nSteps && args.nSteps >= 1
      modifies this, buffer, env, env.obsRms, env.retRms, env.envs
      ensures env.Kept() && w.totals == totals && size == window
      ensures Learning(buffer, train, s, initial, states, norm, ws + [w], windows + [totals], w.finish, averages')
    {
      totals, size, averages', w := LearnWindow(buffer, iteration, averages, train, s);
      LearnedStep(ws, windows, initial, env.numEnvs, args, train, s.c, s.ds, s.width, states, norm, here, w);
      ReportedStep(windows, totals);
    }

    /** The windows of `Learn`, from the state `BeginLearning` leaves. */
    method LearnLoop(buffer: RolloutBuffer, totalTimesteps: nat, window: nat, train: (Policy, seq<Sample>) -> Policy,
                     ghost s: Setup)
      returns (timestep: nat, ghost windows: seq<Totals>, averages: Option<Averages>, ghost ws: seq<LearnRecord<Point>>)
      requires Ready(buffer) && env.training && args.nSteps >= 1 && window == env.numEnvs * args.nSteps > 0 && Holds(s)
      modifies this, buffer, env, env.obsRms, env.retRms, env.envs
      ensures Ready(buffer) && env.Kept() && env.training && Holds(s)
      ensures timestep == Times(|windows|, window)
      ensures totalTimesteps <= timestep < totalTimesteps + window
      ensures Trained(ws, windows, old(policy), env.numEnvs, args, train) && policy == PolicyAfter(ws, old(policy))
      ensures Collected(ws, s.c, s.ds, s.width)
      ensures |ws| > 0 ==> ws[0].start.states == old(States(env.envs)) && ws[0].start.norm == old(env.Norm())
      ensures averages == ReportedAverages(windows)
      ensures averages.Some? ==> AllFinite(averages.value)
    {
      timestep, averages := 0, None;
      windows, ws := [], [];
      ghost var initial, states, norm := policy, States(env.envs), env.Norm();
      ghost var here := Point([], states, norm);
      LearningBegins(buffer, train, s);
      var iteration: nat := 0;
      while timestep < totalTimesteps
        invariant env.Kept() && iteration == |windows| && timestep == Times(iteration, window) && timestep < totalTimesteps + window
        invariant Learning(buffer, train, s, initial, states, norm, ws, windows, here, averages)
        decreases totalTimesteps - timestep
      {
        var totals, size;
        ghost var w;
        totals, size, averages, w := LearnNext(buffer, iteration, window, averages, train, s, initial, states, norm, ws, windows, here);
        timestep := timestep + size;
        windows, ws, here := windows + [totals], ws + [w], w.finish;
        iteration := iteration + 1;
      }
    }

    /** One step of `Play`: the step `PlayFrom` takes from the observation
        `obs`, the states of the environments and the normalisation state.
        Evaluation never moves the statistics. */
    method PlayStep(obs: seq<Vector>, ghost start: Point, ghost h: seq<PlayRecord>) returns (rec: PlayRecord, next: seq<Vector>)
      requires env.Valid() && !env.training && |obs| == env.numEnvs
      requires PlayReady(env.Config(), DynamicsOf(env.envs), env.obsSize, start)
      requires (h, Point(obs, States(env.envs), env.Norm()))
               == PlayTrace(env.Config(), DynamicsOf(env.envs), env.obsSize, policy, start, |h|)
      modifies env, env.obsRms, env.retRms, env.envs
      ensures env.Valid() && env.Kept() && !env.training
      ensures env.obsRms.State() == old(env.obsRms.State()) && env.retRms.State() == old(env.retRms.State())
      ensures rec.obs == obs && rec.action == policy.predict(obs)
      ensures rec.result == VecEnv.StepOutput(env.Config(), env.Norm(), old(StepResults(env.envs, rec.action)), env.obsSize)
      ensures (h + [rec], Point(next, States(env.envs), env.Norm()))
              == PlayTrace(env.Config(), DynamicsOf(env.envs), env.obsSize, policy, start, |h| + 1)
    {
      ghost var ss, norm, ds := States(env.envs), env.Norm(), DynamicsOf(env.envs);
      var action := policy.predict(obs);
      StepResultsShaped(env.envs, action, env.obsSize);
      VecEnv.StepStatistics(env.Config(), env.Norm(), StepResults(env.envs, action), env.obsSize);
      ghost var results := StepResults(env.envs, action);
      var result := env.Step(action);
      SameWidthDynamics(env.envs, env.obsSize);
      PlayTraceNext(env.Config(), ds, env.obsSize, policy, start, h, Point(obs, ss, norm), action, results,
                    States(env.envs), env.Norm(), result);
      rec := PlayRecord(obs, action, result);
      next := NextObs(result);
    }

    /** The `Play` loop from the observation `obs`: the first
        `totalTimesteps` steps of `Play` from `obs` and the current states;
        `last` is the observation a further step would act on. */
    method PlayLoop(obs: seq<Vector>, totalTimesteps: nat) returns (ghost h: seq<PlayRecord>, last: seq<Vector>)
      requires env.Valid() && !env.training && |obs| == env.numEnvs
      modifies env, env.obsRms, env.retRms, env.envs
      ensures env.Valid() && env.Kept() && !env.training
      ensures env.obsRms.State() == old(env.obsRms.State()) && env.retRms.State() == old(env.retRms.State())
      ensures PlayReady(env.Config(), DynamicsOf(env.envs), env.obsSize, Point(obs, old(States(env.envs)), old(env.Norm())))
      ensures (h, Point(last, States(env.envs), env.Norm()))
              == PlayTrace(env.Config(), DynamicsOf(env.envs), env.obsSize, policy,
                           Point(obs, old(States(env.envs)), old(env.Norm())), totalTimesteps)
    {
      ghost var start := Point(obs, States(env.envs), env.Norm());
      ghost var c, ds, width := env.Config(), DynamicsOf(env.envs), env.obsSize;
      SameWidthDynamics(env.envs, width);
      h := [];
      last := obs;
      var t := 0;
      while t < totalTimesteps
        invariant 0 <= t <= totalTimesteps && |h| == t
        invariant env.Valid() && env.Kept() && !env.training
        invariant env.obsRms.State() == old(env.obsRms.State()) && env.retRms.State() == old(env.retRms.State())
        invariant PlayReady(c, ds, width, start)
        invariant (h, Point(last, States(env.envs), env.Norm())) == PlayTrace(c, ds, width, policy, start, t)
      {
        var rec, next := PlayStep(last, start, h);
        h, last := h + [rec], next;
        t := t + 1;
      }
    }

    /** The start of `Play` once the saved files are loaded: training is
        switched off, the envs are reset and `GetObs` returns the reset
        observations normalised with the loaded statistics. */
    method PlayReset() returns (obs: seq<Vector>, ghost start: Point)
      requires env.Valid()
      modifies env, env.obsRms, env.envs
      ensures env.Valid() && env.Kept() && !env.training
      ensures env.obsRms.State() == old(env.obsRms.State()) && env.retRms.State() == old(env.retRms.State())
      ensures obs == NormalizeObs(env.normObs, old(ResetRows(env.envs)), env.obsRms.State(), env.epsilon, env.maxObs, env.root)
      ensures States(env.envs) == old(ResetAll(DynamicsOf(env.envs), States(env.envs)).0)
      ensures start == Point(obs, States(env.envs), env.Norm())
      ensures PlayReady(env.Config(), DynamicsOf(env.envs), env.obsSize, start)
    {
      ghost var before := States(env.envs);
      ResetRowsAll(env.envs);
      env.SetTraining(false);
      var _ := env.Reset();
      ObserveAfterReset(env.envs, before);
      obs := env.GetObs();
      start := Point(obs, States(env.envs), env.Norm());
      SameWidthDynamics(env.envs, env.obsSize);
    }

    /** The evaluation phase of `Play` with the loaded policy and
        statistics: training off, the envs reset and `total_timesteps`
        deterministic steps taken from the observation after the reset. */
    method Evaluate(totalTimesteps: nat) returns (ghost h: seq<PlayRecord>, ghost start: Point)
      requires env.Valid()
      modifies env, env.obsRms, env.retRms, env.envs
      ensures env.Valid() && env.Kept() && !env.training
      ensures env.obsRms.State() == old(env.obsRms.State()) && env.retRms.State() == old(env.retRms.State())
      ensures && start.obs == NormalizeObs(env.normObs, old(ResetRows(env.envs)), env.obsRms.State(),
                                           env.epsilon, env.maxObs, env.root)
              && start.states == old(ResetAll(DynamicsOf(env.envs), States(env.envs)).0)
              && start.norm.obsStats == env.obsRms.State() && start.norm.retStats == env.retRms.State()
      ensures && PlayReady(env.Config(), DynamicsOf(env.envs), env.obsSize, start)
              && h == PlayTrace(env.Config(), DynamicsOf(env.envs), env.obsSize, policy, start, totalTimesteps).0
              && |h| == totalTimesteps && PlaySized(h, env.numEnvs) && PlayChained(h, env.numEnvs, policy)
              && (|h| > 0 ==> h[0].obs == start.obs)
    {
      var obs;
      obs, start := PlayReset();
      ghost var stats := env.obsRms.State();
      var last;
      h, last := PlayLoop(obs, totalTimesteps);
      assert env.obsRms.State() == stats;
      PlayTraceChained(env.Config(), DynamicsOf(env.envs), env.obsSize, policy, start, totalTimesteps);
    }

    /** `Play`: without saved files nothing happens; otherwise the saved
        policy and statistics are loaded, training is switched off, the envs
        are reset and `total_timesteps` deterministic steps are taken from
        the observation after the reset, none of which moves the loaded
        statistics. */
    method Play(totalTimesteps: nat, saved: Option<Saved>) returns (ghost h: seq<PlayRecord>, ghost start: Point)
      requires env.Valid()
      requires saved.Some? && env.normObs ==>
                 saved.value.obsBlob.Some? && ValidState(saved.value.obsBlob.value)
                 && (env.numEnvs > 0 ==> |saved.value.obsBlob.value.mean| == env.obsSize)
      requires saved.Some? && env.normReward ==>
                 saved.value.retBlob.Some? && ValidState(saved.value.retBlob.value) && |saved.value.retBlob.value.mean| == 1
      modifies this, env, env.obsRms, env.retRms, env.envs
      ensures env.Valid() && env.Kept()
      ensures saved.None? ==> h == [] && policy == old(policy) && env.training == old(env.training)
      ensures saved.None? ==> env.Norm() == old(env.Norm())
      ensures saved.Some? ==>
                && policy == saved.value.policy && !env.training
                && env.obsRms.State() == (if env.normObs then saved.value.obsBlob.value else old(env.obsRms.State()))
                && env.retRms.State() == (if env.normReward then saved.value.retBlob.value else old(env.retRms.State()))
      ensures saved.Some? ==>
                && start.obs == NormalizeObs(env.normObs, old(ResetRows(env.envs)), env.obsRms.State(),
                                             env.epsilon, env.maxObs, env.root)
                && start.states == old(ResetAll(DynamicsOf(env.envs), States(env.envs)).0)
                && start.norm.obsStats == env.obsRms.State() && start.norm.retStats == env.retRms.State()
      ensures saved.Some? ==>
                && PlayReady(env.Config(), DynamicsOf(env.envs), env.obsSize, start)
                && h == PlayTrace(env.Config(), DynamicsOf(env.envs), env.obsSize, policy, start, totalTimesteps).0
                && |h| == totalTimesteps && PlaySized(h, env.numEnvs) && PlayChained(h, env.numEnvs, policy)
                && (|h| > 0 ==> h[0].obs == start.obs)
    {
      h := [];
      start := Point([], [], env.Norm());
      if saved.None? {
        return;
      }
      ghost var rows, states := ResetRows(env.envs), ResetAll(DynamicsOf(env.envs), States(env.envs)).0;
      policy := saved.value.policy;
      env.Load(saved.value.obsBlob, saved.value.retBlob);
      assert ResetRows(env.envs) == rows && ResetAll(DynamicsOf(env.envs), States(env.envs)).0 == states;
      h, start := Evaluate(totalTimesteps);
    }
  }
}
