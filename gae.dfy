/** Generalized Advantage Estimation (Schulman et al.) as computed by the
    backward pass of `RolloutBuffer::ComputeReturnsAndAdvantage`
    (torchrl/src/rl/RolloutBuffer.cpp). One environment's list is given as
    its values `v`, raw rewards `r` and episode-end flags `d`, all of length
    `n`, together with the bootstrap value `last` for the state after the
    final step. */
module Gae {

  predicate Aligned(v: seq<real>, r: seq<real>, d: seq<bool>)
  {
    |v| == |r| == |d|
  }

  /** `next_step_same_episode`: 0 where the step ended the episode, else 1. */
  function Continues(d: seq<bool>, i: nat): real
    requires i < |d|
  {
    if d[i] then 0.0 else 1.0
  }

  /** The factor `gamma * lambda * next_step_same_episode` that carries the
      next index's advantage back to index `i`. */
  function Discount(d: seq<bool>, gamma: real, lambda: real, i: nat): real
    requires i < |d|
  {
    gamma * lambda * Continues(d, i)
  }

  /** `next_value`: the bootstrap at the last index, the next stored value
      elsewhere. */
  function NextValue(v: seq<real>, last: real, i: nat): real
    requires i < |v|
  {
    if i == |v| - 1 then last else v[i + 1]
  }

  /** The temporal-difference error `delta` at index `i`. */
  function Delta(v: seq<real>, r: seq<real>, d: seq<bool>, last: real, gamma: real, i: nat): real
    requires Aligned(v, r, d) && i < |v|
  {
    r[i] + gamma * NextValue(v, last, i) * Continues(d, i) - v[i]
  }

  function Deltas(v: seq<real>, r: seq<real>, d: seq<bool>, last: real, gamma: real): (ds: seq<real>)
    requires Aligned(v, r, d)
    ensures |ds| == |v| && forall i :: 0 <= i < |v| ==> ds[i] == Delta(v, r, d, last, gamma, i)
  {
    seq(|v|, i requires 0 <= i < |v| => Delta(v, r, d, last, gamma, i))
  }

  function Discounts(d: seq<bool>, gamma: real, lambda: real): (gs: seq<real>)
    ensures |gs| == |d| && forall i :: 0 <= i < |d| ==> gs[i] == Discount(d, gamma, lambda, i)
  {
    seq(|d|, i requires 0 <= i < |d| => Discount(d, gamma, lambda, i))
  }

  // ---------------------------------------------------------------------
  // The backward linear recurrence `a_i = delta_i + g_i * a_(i+1)` with
  // `a_n = 0`, and its solution as an explicit weighted sum.

  function Backward(delta: seq<real>, g: seq<real>, i: nat): (a: real)
    requires |delta| == |g| && i < |delta|
    ensures g[i] == 0.0 ==> a == delta[i]
    decreases |delta| - i
  {
    var next := if i == |delta| - 1 then 0.0 else Backward(delta, g, i + 1);
    delta[i] + g[i] * next
  }

  /** The product `g_i * ... * g_(k-1)`. */
  function Weight(g: seq<real>, i: nat, k: nat): real
    requires i <= k < |g|
    decreases k - i
  {
    if i == k then 1.0 else g[i] * Weight(g, i + 1, k)
  }

  /** The sum over `j` in `k .. n - 1` of `Weight(i, j) * delta_j`. */
  function WeightedFrom(delta: seq<real>, g: seq<real>, i: nat, k: nat): real
    requires |delta| == |g| && i <= k <= |delta|
    decreases |delta| - k
  {
    if k == |delta| then 0.0
    else Weight(g, i, k) * delta[k] + WeightedFrom(delta, g, i, k + 1)
  }

  lemma ShiftStep(a: real, b: real, w1: real, w: real, dk: real, e: real, e1: real, g: real)
    requires a == w * dk + e && w == g * w1 && e == g * e1 && b == w1 * dk + e1
    ensures a == g * b
  {
  }

  /** One step of `WeightedShift`: the claim at `k` from the claim at `k + 1`. */
  lemma WeightedShiftStep(delta: seq<real>, g: seq<real>, i: nat, k: nat)
    requires |delta| == |g| && i < k < |delta|
    requires WeightedFrom(delta, g, i, k + 1) == g[i] * WeightedFrom(delta, g, i + 1, k + 1)
    ensures WeightedFrom(delta, g, i, k) == g[i] * WeightedFrom(delta, g, i + 1, k)
  {
    ShiftStep(WeightedFrom(delta, g, i, k), WeightedFrom(delta, g, i + 1, k),
              Weight(g, i + 1, k), Weight(g, i, k), delta[k],
              WeightedFrom(delta, g, i, k + 1), WeightedFrom(delta, g, i + 1, k + 1), g[i]);
  }

  /** Dropping the first index of a weighted sum factors out its weight. */
  lemma {:induction false} WeightedShift(delta: seq<real>, g: seq<real>, i: nat, k: nat)
    requires |delta| == |g| && i < k <= |delta|
    ensures WeightedFrom(delta, g, i, k) == g[i] * WeightedFrom(delta, g, i + 1, k)
    decreases |delta| - k
  {
    if k < |delta| {
      WeightedShift(delta, g, i, k + 1);
      WeightedShiftStep(delta, g, i, k);
    }
  }

  lemma BackwardStep(a: real, dl: real, g: real, next: real, rest: real, ex: real, w: real, e: real)
    requires a == dl + g * next && next == rest
    requires ex == w * dl + e && w == 1.0 && e == g * rest
    ensures a == ex
  {
  }

  /** The recurrence is solved by the weighted sum. */
  lemma {:induction false} BackwardIsWeightedSum(delta: seq<real>, g: seq<real>, i: nat)
    requires |delta| == |g| && i < |delta|
    ensures Backward(delta, g, i) == WeightedFrom(delta, g, i, i)
    decreases |delta| - i
  {
    var next := if i == |delta| - 1 then 0.0 else Backward(delta, g, i + 1);
    var rest := if i == |delta| - 1 then 0.0 else WeightedFrom(delta, g, i + 1, i + 1);
    if i < |delta| - 1 {
      BackwardIsWeightedSum(delta, g, i + 1);
    }
    WeightedShift(delta, g, i, i + 1);
    BackwardStep(Backward(delta, g, i), delta[i], g[i], next, rest,
                 WeightedFrom(delta, g, i, i), Weight(g, i, i), WeightedFrom(delta, g, i, i + 1));
  }

  /** Two recurrences that agree from `i` through an index `e` whose factor is
      0 have the same value at `i`. */
  lemma {:induction false} BackwardLocal(delta: seq<real>, g: seq<real>, delta': seq<real>, g': seq<real>, i: nat, e: nat)
    requires |delta| == |g| && |delta'| == |g'|
    requires i <= e < |delta| && e < |delta'| && g[e] == 0.0 && g'[e] == 0.0
    requires forall j :: i <= j <= e ==> delta[j] == delta'[j] && g[j] == g'[j]
    ensures Backward(delta, g, i) == Backward(delta', g', i)
    decreases e - i
  {
    if i < e {
      BackwardLocal(delta, g, delta', g', i + 1, e);
    }
  }

  // ---------------------------------------------------------------------
  // The advantage

  /** The advantage written at index `i`: `delta` plus
      `gamma * lambda * next_step_same_episode` times the next index's
      advantage, which is taken to be 0 past the last index. */
  function Advantage(v: seq<real>, r: seq<real>, d: seq<bool>, last: real, gamma: real, lambda: real, i: nat): real
    requires Aligned(v, r, d) && i < |v|
  {
    Backward(Deltas(v, r, d, last, gamma), Discounts(d, gamma, lambda), i)
  }

  /** The advantages of a whole list. */
  function Advantages(v: seq<real>, r: seq<real>, d: seq<bool>, last: real, gamma: real, lambda: real): (a: seq<real>)
    requires Aligned(v, r, d)
    ensures |a| == |v|
    ensures forall i :: 0 <= i < |v| ==> a[i] == Advantage(v, r, d, last, gamma, lambda, i)
  {
    seq(|v|, i requires 0 <= i < |v| => Advantage(v, r, d, last, gamma, lambda, i))
  }

  /** The advantage obeys the loop body's update: at the last index it is
      `delta`, elsewhere `delta + gamma * lambda * c * advantage[i + 1]`. */
  lemma AdvantageStep(v: seq<real>, r: seq<real>, d: seq<bool>, last: real, gamma: real, lambda: real, i: nat)
    requires Aligned(v, r, d) && i < |v|
    ensures var next := if i == |v| - 1 then 0.0 else Advantage(v, r, d, last, gamma, lambda, i + 1);
            Advantage(v, r, d, last, gamma, lambda, i)
              == Delta(v, r, d, last, gamma, i) + Discount(d, gamma, lambda, i) * next
  {
  }

  /** At an index whose flag is set, the advantage is `reward - value`. */
  lemma AdvantageAtEnd(v: seq<real>, r: seq<real>, d: seq<bool>, last: real, gamma: real, lambda: real, i: nat)
    requires Aligned(v, r, d) && i < |v| && d[i]
    ensures Advantage(v, r, d, last, gamma, lambda, i) == r[i] - v[i]
  {
  }

  /** The reference advantage at `i`: the sum over `k >= i` of
      `(gamma * lambda)^(k - i) * delta_k`, cut at the first episode end. */
  function ExplicitAdvantage(v: seq<real>, r: seq<real>, d: seq<bool>, last: real, gamma: real, lambda: real, i: nat): real
    requires Aligned(v, r, d) && i < |v|
  {
    WeightedFrom(Deltas(v, r, d, last, gamma), Discounts(d, gamma, lambda), i, i)
  }

  /** The backward pass computes the explicit weighted sum. */
  lemma AdvantageIsWeightedSum(v: seq<real>, r: seq<real>, d: seq<bool>, last: real, gamma: real, lambda: real, i: nat)
    requires Aligned(v, r, d) && i < |v|
    ensures Advantage(v, r, d, last, gamma, lambda, i) == ExplicitAdvantage(v, r, d, last, gamma, lambda, i)
  {
    BackwardIsWeightedSum(Deltas(v, r, d, last, gamma), Discounts(d, gamma, lambda), i);
  }

  /** An index's advantage depends only on the steps up to the end of its
      episode: two lists that agree from `i` through an index `e` whose flag
      is set give the same advantage at `i`, whatever follows `e` and
      whatever the bootstraps. */
  lemma AdvantageEpisodeLocal(v: seq<real>, r: seq<real>, d: seq<bool>, last: real,
                              v': seq<real>, r': seq<real>, d': seq<bool>, last': real,
                              gamma: real, lambda: real, i: nat, e: nat)
    requires Aligned(v, r, d) && Aligned(v', r', d')
    requires i <= e < |v| && e < |v'| && d[e]
    requires forall j :: i <= j <= e ==> v[j] == v'[j] && r[j] == r'[j] && d[j] == d'[j]
    ensures Advantage(v, r, d, last, gamma, lambda, i) == Advantage(v', r', d', last', gamma, lambda, i)
  {
    var ds, gs := Deltas(v, r, d, last, gamma), Discounts(d, gamma, lambda);
    var ds', gs' := Deltas(v', r', d', last', gamma), Discounts(d', gamma, lambda);
    forall j | i <= j <= e
      ensures ds[j] == ds'[j] && gs[j] == gs'[j]
    {
      if j < e {
        assert NextValue(v, last, j) == v[j + 1] == NextValue(v', last', j);
      }
    }
    BackwardLocal(ds, gs, ds', gs', i, e);
  }

  /** When the final step ended an episode the bootstrap value is never
      used. */
  lemma BootstrapUnused(v: seq<real>, r: seq<real>, d: seq<bool>, last: real, last': real,
                        gamma: real, lambda: real, i: nat)
    requires Aligned(v, r, d) && i < |v| && d[|v| - 1]
    ensures Advantage(v, r, d, last, gamma, lambda, i) == Advantage(v, r, d, last', gamma, lambda, i)
  {
    AdvantageEpisodeLocal(v, r, d, last, v, r, d, last', gamma, lambda, i, |v| - 1);
  }

  /** With `gamma = lambda = 1`, zero values, unit rewards and an episode
      end only at index 2, the advantages are `[3, 2, 1]`. */
  lemma WorkedExample()
    ensures Advantages([0.0, 0.0, 0.0], [1.0, 1.0, 1.0], [false, false, true], 0.0, 1.0, 1.0) == [3.0, 2.0, 1.0]
  {
    var v, r, d := [0.0, 0.0, 0.0], [1.0, 1.0, 1.0], [false, false, true];
    var ds, gs := Deltas(v, r, d, 0.0, 1.0), Discounts(d, 1.0, 1.0);
    assert ds[0] == 1.0 && ds[1] == 1.0 && ds[2] == 1.0;
    assert gs[0] == 1.0 && gs[1] == 1.0 && gs[2] == 0.0;
    assert Backward(ds, gs, 2) == 1.0;
    assert Backward(ds, gs, 1) == 2.0;
    assert Backward(ds, gs, 0) == 3.0;
  }
}
