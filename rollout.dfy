/** The rollout storage of PPO (include/torchrl/rl/RolloutBuffer.hpp,
    torchrl/src/rl/RolloutBuffer.cpp): per environment, a list of samples,
    a list of raw rewards and a list of episode-end flags, always of equal
    length. The backward pass writes each sample's advantage and return in
    place. */
module Rollout {
  import opened Common
  import opened Env
  import opened Gae

  /** `RolloutSample` (`ret` is its field `returns`); `advantage` and `ret` are unset (an undefined
      tensor) until the backward pass writes them. */
  datatype Sample = Sample(observation: Vector, action: Vector, value: real, logProb: real,
                           advantage: Option<real>, ret: Option<real>)

  /** The four-argument constructor: advantage and returns stay unset. */
  function NewSample(observation: Vector, action: Vector, value: real, logProb: real): (s: Sample)
    ensures s.observation == observation && s.action == action && s.value == value && s.logProb == logProb
    ensures s.advantage.None? && s.ret.None?
  {
    Sample(observation, action, value, logProb, None, None)
  }

  /** One sample whose six fields are the stacked fields of a minibatch. */
  datatype Batch = Batch(observation: seq<Vector>, action: seq<Vector>, value: seq<real>, logProb: seq<real>,
                         advantage: seq<real>, ret: seq<real>)

  /** What `torch::stack` accepts: a non-empty list of defined tensors of one
      shape. */
  predicate Stackable(batch: seq<Sample>)
  {
    && |batch| > 0
    && (forall k :: 0 <= k < |batch| ==> batch[k].advantage.Some? && batch[k].ret.Some?)
    && (forall k :: 0 <= k < |batch| ==> |batch[k].observation| == |batch[0].observation|)
    && (forall k :: 0 <= k < |batch| ==> |batch[k].action| == |batch[0].action|)
  }

  /** `RolloutSampleBatchTransform::apply_batch`: collects each field of
      every sample in order and stacks the six lists; `None` stands for the
      exception `torch::stack` throws on a list it cannot stack. */
  method ApplyBatch(batch: seq<Sample>) returns (r: Option<Batch>)
    ensures r.Some? <==> Stackable(batch)
    ensures r.Some? ==>
              && |r.value.observation| == |batch| && |r.value.action| == |batch| && |r.value.value| == |batch|
              && |r.value.logProb| == |batch| && |r.value.advantage| == |batch| && |r.value.ret| == |batch|
              && forall k :: 0 <= k < |batch| ==>
                   && r.value.observation[k] == batch[k].observation
                   && r.value.action[k] == batch[k].action
                   && r.value.value[k] == batch[k].value
                   && r.value.logProb[k] == batch[k].logProb
                   && Some(r.value.advantage[k]) == batch[k].advantage
                   && Some(r.value.ret[k]) == batch[k].ret
  {
    var observation, action, value, logProb, advantage, ret := [], [], [], [], [], [];
    var defined := true;
    var k := 0;
    while k < |batch|
      invariant 0 <= k <= |batch|
      invariant |observation| == |action| == |value| == |logProb| == |advantage| == |ret| == k
      invariant defined <==> forall j :: 0 <= j < k ==> batch[j].advantage.Some? && batch[j].ret.Some?
      invariant forall j :: 0 <= j < k ==>
                  && observation[j] == batch[j].observation && action[j] == batch[j].action
                  && value[j] == batch[j].value && logProb[j] == batch[j].logProb
                  && (batch[j].advantage.Some? ==> advantage[j] == batch[j].advantage.value)
                  && (batch[j].ret.Some? ==> ret[j] == batch[j].ret.value)
    {
      var d := batch[k];
      observation := observation + [d.observation];
      action := action + [d.action];
      value := value + [d.value];
      logProb := logProb + [d.logProb];
      advantage := advantage + [if d.advantage.Some? then d.advantage.value else 0.0];
      ret := ret + [if d.ret.Some? then d.ret.value else 0.0];
      defined := defined && d.advantage.Some? && d.ret.Some?;
      k := k + 1;
    }
    if defined && Stackable(batch) {
      r := Some(Batch(observation, action, value, logProb, advantage, ret));
    } else {
      r := None;
    }
  }

  /** The samples of all environments, environment after environment: the
      dataset `size()` and `get` expose. */
  function Flatten(lists: seq<seq<Sample>>): seq<Sample>
  {
    if |lists| == 0 then [] else lists[0] + Flatten(lists[1..])
  }

  lemma {:induction false} FlattenConcat(a: seq<seq<Sample>>, b: seq<seq<Sample>>)
    ensures Flatten(a + b) == Flatten(a) + Flatten(b)
    decreases |a|
  {
    if |a| == 0 {
      assert a + b == b;
    } else {
      assert (a + b)[1..] == a[1..] + b;
      FlattenConcat(a[1..], b);
    }
  }

  /** Number of samples stored for the environments before `e`. */
  function Prefix(lists: seq<seq<Sample>>, e: nat): nat
    requires e <= |lists|
  {
    |Flatten(lists[..e])|
  }

  /** `get(index)` lands in the first environment whose cumulative length
      exceeds `index`, at the offset `index` minus the lengths before it. */
  lemma {:induction false} FlattenIndex(lists: seq<seq<Sample>>, e: nat, index: nat)
    requires e < |lists| && Prefix(lists, e) <= index < Prefix(lists, e) + |lists[e]|
    ensures index < |Flatten(lists)|
    ensures Flatten(lists)[index] == lists[e][index - Prefix(lists, e)]
  {
    assert lists == lists[..e] + [lists[e]] + lists[e + 1..];
    FlattenConcat(lists[..e] + [lists[e]], lists[e + 1..]);
    FlattenConcat(lists[..e], [lists[e]]);
    assert Flatten([lists[e]]) == lists[e] by {
      assert [lists[e]][1..] == [];
    }
  }

  /** The values of a list of samples. */
  function Values(samples: seq<Sample>): (vs: seq<real>)
    ensures |vs| == |samples| && forall k :: 0 <= k < |samples| ==> vs[k] == samples[k].value
  {
    seq(|samples|, k requires 0 <= k < |samples| => samples[k].value)
  }

  /** One environment's list after the backward pass: each sample gains the
      GAE advantage and `returns = advantage + value`; observation, action,
      value and log-probability are left as they were. */
  function WithAdvantages(samples: seq<Sample>, r: seq<real>, d: seq<bool>, last: real, gamma: real, lambda: real): (out: seq<Sample>)
    requires |samples| == |r| == |d|
    ensures |out| == |samples|
    ensures forall k :: 0 <= k < |out| ==>
              && out[k].observation == samples[k].observation && out[k].action == samples[k].action
              && out[k].value == samples[k].value && out[k].logProb == samples[k].logProb
              && out[k].advantage == Some(Advantage(Values(samples), r, d, last, gamma, lambda, k))
              && out[k].ret == Some(Advantage(Values(samples), r, d, last, gamma, lambda, k) + samples[k].value)
  {
    seq(|samples|, k requires 0 <= k < |samples| => Updated(samples, r, d, last, gamma, lambda, k))
  }

  /** The worked example of the backward pass on a list with zero values:
      unit rewards and an episode end only at the last sample give the
      advantages and the returns `[3, 2, 1]`. */
  lemma WorkedReturns(samples: seq<Sample>)
    requires |samples| == 3 && forall k :: 0 <= k < 3 ==> samples[k].value == 0.0
    ensures var out := WithAdvantages(samples, [1.0, 1.0, 1.0], [false, false, true], 0.0, 1.0, 1.0);
            && out[0].advantage == Some(3.0) && out[1].advantage == Some(2.0) && out[2].advantage == Some(1.0)
            && out[0].ret == Some(3.0) && out[1].ret == Some(2.0) && out[2].ret == Some(1.0)
  {
    assert Values(samples) == [0.0, 0.0, 0.0];
    WorkedExample();
    var a := Advantages([0.0, 0.0, 0.0], [1.0, 1.0, 1.0], [false, false, true], 0.0, 1.0, 1.0);
    assert a[0] == 3.0 && a[1] == 2.0 && a[2] == 1.0;
  }

  function Updated(samples: seq<Sample>, r: seq<real>, d: seq<bool>, last: real, gamma: real, lambda: real, k: nat): Sample
    requires |samples| == |r| == |d| && k < |samples|
  {
    var a := Advantage(Values(samples), r, d, last, gamma, lambda, k);
    samples[k].(advantage := Some(a), ret := Some(a + samples[k].value))
  }

  /** The bootstrap value of environment `e`; only read when its list is not
      empty. */
  function BootstrapOf(bootstrap: seq<real>, e: nat): real
  {
    if e < |bootstrap| then bootstrap[e] else 0.0
  }

  /** The body of the backward loop at index `i` computes the GAE advantage,
      given the next index's stored value and advantage. */
  lemma LoopBody(v: seq<real>, r: seq<real>, d: seq<bool>, last: real, gamma: real, lambda: real, i: nat,
                 nextValue: real, nextAdvantage: real, c: real, delta: real, adv: real)
    requires Aligned(v, r, d) && i < |v|
    requires nextValue == (if i == |v| - 1 then last else v[i + 1])
    requires nextAdvantage == (if i == |v| - 1 then 0.0 else Advantage(v, r, d, last, gamma, lambda, i + 1))
    requires c == (if d[i] then 0.0 else 1.0)
    requires delta == r[i] + gamma * nextValue * c - v[i]
    requires adv == delta + gamma * lambda * c * nextAdvantage
    ensures adv == Advantage(v, r, d, last, gamma, lambda, i)
  {
    AdvantageStep(v, r, d, last, gamma, lambda, i);
  }

  /** `RolloutBuffer`: the three per-environment lists are fields the
      methods update in place. */
  class RolloutBuffer {
    var data: seq<seq<Sample>>
    var rewards: seq<seq<real>>
    var episodeEnds: seq<seq<bool>>

    /** The three lists of every environment have one entry per step. */
    ghost predicate Valid()
      reads this
    {
      && |data| == |rewards| == |episodeEnds|
      && forall e :: 0 <= e < |data| ==> |data[e]| == |rewards[e]| == |episodeEnds[e]|
    }

    /** `num_envs` empty lists of each kind; `reserve` only preallocates. */
    constructor (numEnvs: nat, reserve: nat)
      ensures Valid() && |data| == numEnvs
      ensures forall e :: 0 <= e < numEnvs ==> data[e] == [] && rewards[e] == [] && episodeEnds[e] == []
    {
      data := seq(numEnvs, e => []);
      rewards := seq(numEnvs, e => []);
      episodeEnds := seq(numEnvs, e => []);
    }

    function NumEnvs(): nat
      reads this
    {
      |data|
    }

    /** Row `e` of each argument goes to environment `e`; the flag stored is
        whether the step ended the episode. */
    method Add(obs: seq<Vector>, action: seq<Vector>, value: seq<real>, logProb: seq<real>,
               reward: seq<real>, episodeEnd: seq<TerminalState>)
      requires Valid()
      requires |obs| >= |data| && |action| >= |data| && |value| >= |data| && |logProb| >= |data|
      requires |reward| >= |data| && |episodeEnd| >= |data|
      modifies this
      ensures Valid() && |data| == |old(data)|
      ensures forall e :: 0 <= e < |data| ==>
                && data[e] == old(data[e]) + [NewSample(obs[e], action[e], value[e], logProb[e])]
                && rewards[e] == old(rewards[e]) + [reward[e]]
                && episodeEnds[e] == old(episodeEnds[e]) + [Ended(episodeEnd[e])]
    {
      var i := 0;
      while i < |data|
        invariant 0 <= i <= |data| && Valid() && |data| == |old(data)|
        invariant forall e :: 0 <= e < i ==>
                    && data[e] == old(data[e]) + [NewSample(obs[e], action[e], value[e], logProb[e])]
                    && rewards[e] == old(rewards[e]) + [reward[e]]
                    && episodeEnds[e] == old(episodeEnds[e]) + [Ended(episodeEnd[e])]
        invariant forall e :: i <= e < |data| ==>
                    data[e] == old(data[e]) && rewards[e] == old(rewards[e]) && episodeEnds[e] == old(episodeEnds[e])
      {
        data := data[i := data[i] + [NewSample(obs[i], action[i], value[i], logProb[i])]];
        rewards := rewards[i := rewards[i] + [reward[i]]];
        episodeEnds := episodeEnds[i := episodeEnds[i] + [episodeEnd[i] != NotTerminal]];
        i := i + 1;
      }
    }

    /** Empties every list and keeps the number of environments. */
    method Reset()
      requires Valid()
      modifies this
      ensures Valid() && |data| == |old(data)|
      ensures forall e :: 0 <= e < |data| ==> data[e] == [] && rewards[e] == [] && episodeEnds[e] == []
    {
      var i := 0;
      while i < |data|
        invariant 0 <= i <= |data| && Valid() && |data| == |old(data)|
        invariant forall e :: 0 <= e < i ==> data[e] == [] && rewards[e] == [] && episodeEnds[e] == []
      {
        data := data[i := []];
        rewards := rewards[i := []];
        episodeEnds := episodeEnds[i := []];
        i := i + 1;
      }
    }

    /** `size()`: the number of stored samples over all environments. */
    method Size() returns (n: nat)
      ensures n == |Flatten(data)|
    {
      n := 0;
      var i := 0;
      while i < |data|
        invariant 0 <= i <= |data| && n == |Flatten(data[..i])|
      {
        assert data[..i + 1] == data[..i] + [data[i]];
        FlattenConcat(data[..i], [data[i]]);
        assert Flatten([data[i]]) == data[i] by {
          assert [data[i]][1..] == [];
        }
        n := n + |data[i]|;
        i := i + 1;
      }
      assert data[..i] == data;
    }

    /** `get(index)`: skips whole environment lists until `index` falls
        inside one. */
    method Get(index: nat) returns (s: Sample)
      requires index < |Flatten(data)|
      ensures s == Flatten(data)[index]
    {
      var lists := data;
      var i := 0;
      var offset: nat := index;
      assert lists[0..] == lists;
      while offset >= |lists[i]|
        invariant 0 <= i < |lists| && offset < |Flatten(lists[i..])| && Flatten(lists[i..])[offset] == Flatten(lists)[index]
        decreases |data| - i
      {
        assert lists[i..] == [lists[i]] + lists[i + 1..];
        assert Flatten(lists[i..]) == lists[i] + Flatten(lists[i + 1..]);
        offset := offset - |lists[i]|;
        i := i + 1;
      }
      assert Flatten(lists[i..]) == lists[i] + Flatten(lists[i + 1..]);
      s := lists[i][offset];
    }

    /** The backward pass of Generalized Advantage Estimation, environment by
        environment. */
    method ComputeReturnsAndAdvantage(bootstrap: seq<real>, gamma: real, lambda: real)
      requires Valid()
      requires forall e :: 0 <= e < |data| && |data[e]| > 0 ==> e < |bootstrap|
      modifies this
      ensures Valid() && rewards == old(rewards) && episodeEnds == old(episodeEnds) && |data| == |old(data)|
      ensures forall e :: 0 <= e < |data| ==>
                data[e] == WithAdvantages(old(data[e]), rewards[e], episodeEnds[e], BootstrapOf(bootstrap, e), gamma, lambda)
    {
      var env := 0;
      while env < |data|
        invariant 0 <= env <= |data| && Valid() && |data| == |old(data)|
        invariant rewards == old(rewards) && episodeEnds == old(episodeEnds)
        invariant forall e :: 0 <= e < env ==>
                    data[e] == WithAdvantages(old(data[e]), rewards[e], episodeEnds[e], BootstrapOf(bootstrap, e), gamma, lambda)
        invariant forall e :: env <= e < |data| ==> data[e] == old(data[e])
      {
        BackwardPass(env, bootstrap, gamma, lambda);
        env := env + 1;
      }
    }

    /** The inner loop of `ComputeReturnsAndAdvantage` for one environment,
        from its last index down to index 0. */
    method BackwardPass(env: nat, bootstrap: seq<real>, gamma: real, lambda: real)
      requires Valid() && env < |data| && (|data[env]| > 0 ==> env < |bootstrap|)
      modifies this
      ensures Valid() && rewards == old(rewards) && episodeEnds == old(episodeEnds)
      ensures data == old(data)[env := WithAdvantages(old(data[env]), rewards[env], episodeEnds[env], BootstrapOf(bootstrap, env), gamma, lambda)]
    {
      ghost var samples := data[env];
      ghost var v := Values(samples);
      ghost var last := BootstrapOf(bootstrap, env);
      var n := |data[env]|;
      var i: int := n - 1;
      while i > -1
        invariant -1 <= i < n && Valid() && |data| == |old(data)|
        invariant rewards == old(rewards) && episodeEnds == old(episodeEnds)
        invariant |data[env]| == n
        invariant forall k :: 0 <= k <= i ==> data[env][k] == samples[k]
        invariant forall k :: i < k < n ==> data[env][k] == Updated(samples, rewards[env], episodeEnds[env], last, gamma, lambda, k)
        invariant data == old(data)[env := data[env]]
      {
        var nextValue: real;
        var nextAdvantage: real;
        if i == n - 1 {
          nextValue := bootstrap[env];
          nextAdvantage := 0.0;
        } else {
          nextValue := data[env][i + 1].value;
          nextAdvantage := data[env][i + 1].advantage.value;
        }
        var c := if episodeEnds[env][i] then 0.0 else 1.0;
        var delta := rewards[env][i] + gamma * nextValue * c - data[env][i].value;
        var adv := delta + gamma * lambda * c * nextAdvantage;
        LoopBody(v, rewards[env], episodeEnds[env], last, gamma, lambda, i, nextValue, nextAdvantage, c, delta, adv);
        var updated := data[env][i].(advantage := Some(adv), ret := Some(adv + data[env][i].value));
        assert updated == Updated(samples, rewards[env], episodeEnds[env], last, gamma, lambda, i);
        data := data[env := data[env][i := updated]];
        i := i - 1;
      }
      assert data[env] == WithAdvantages(samples, rewards[env], episodeEnds[env], last, gamma, lambda);
    }
  }
}
