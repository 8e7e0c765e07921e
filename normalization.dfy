/** The observation and reward normalisation shared by both generations of
    the vectorised environment (torchrl/src/envs/VectorizedEnv.cpp and
    src/envs/NormalizedVectorizedEnv.cpp): standardise by the running
    statistics, then clip to a symmetric bound. */
module Normalization {
  import opened Common
  import opened Statistics

  /** Constructor defaults of both vectorised environments. */
  const DefaultMaxObs: real := 10.0
  const DefaultMaxReward: real := 10.0
  const DefaultDiscount: real := 0.99
  const DefaultNormEpsilon: real := 0.00000001

  /** The square root used as the divisor `sqrt(var + epsilon)`, known only to
      be positive on positive arguments. */
  type Root = f: real -> real | forall x :: x > 0.0 ==> f(x) > 0.0
    witness x => 1.0

  /** `torch::clip(x, lo, hi)`, that is `min(max(x, lo), hi)`. */
  function Clip(x: real, lo: real, hi: real): (y: real)
    ensures lo <= hi ==> lo <= y <= hi
    ensures lo <= x <= hi ==> y == x
    ensures x < lo && lo <= hi ==> y == lo
    ensures hi < x ==> y == hi
  {
    var m := if x < lo then lo else x;
    if m < hi then m else hi
  }

  /** Clipping preserves order. */
  lemma ClipMonotone(x: real, x': real, lo: real, hi: real)
    requires x <= x'
    ensures Clip(x, lo, hi) <= Clip(x', lo, hi)
  {
  }

  /** Every row has `width` entries. */
  predicate Rows(rows: seq<Vector>, width: nat)
  {
    forall i :: 0 <= i < |rows| ==> |rows[i]| == width
  }

  /** One coordinate standardised, `(x - mean) / sqrt(variance + epsilon)`,
      and clipped to `[-bound, bound]`. */
  function Standardize(x: real, mean: real, variance: real, epsilon: real, bound: real, root: Root): (y: real)
    requires variance + epsilon > 0.0
    ensures bound >= 0.0 ==> -bound <= y <= bound
  {
    Clip((x - mean) / root(variance + epsilon), -bound, bound)
  }

  lemma DivMonotone(x: real, x': real, d: real)
    requires d > 0.0 && x <= x'
    ensures x / d <= x' / d
  {
    assert x' / d - x / d == (x' - x) / d;
  }

  lemma DivSign(x: real, d: real)
    requires d > 0.0
    ensures x >= 0.0 ==> x / d >= 0.0
    ensures x <= 0.0 ==> x / d <= 0.0
  {
  }

  /** Standardisation preserves order. */
  lemma StandardizeMonotone(x: real, x': real, mean: real, variance: real, epsilon: real, bound: real, root: Root)
    requires variance + epsilon > 0.0 && x <= x'
    ensures Standardize(x, mean, variance, epsilon, bound, root) <= Standardize(x', mean, variance, epsilon, bound, root)
  {
    var d := root(variance + epsilon);
    DivMonotone(x - mean, x' - mean, d);
    ClipMonotone((x - mean) / d, (x' - mean) / d, -bound, bound);
  }

  /** One observation row standardised by an estimator's statistics and
      clipped to `[-maxObs, maxObs]`. */
  function NormalizeRow(x: Vector, s: RmsState, epsilon: real, maxObs: real, root: Root): (y: Vector)
    requires ValidState(s) && |x| == |s.mean| && epsilon > 0.0
    ensures |y| == |x|
    ensures maxObs >= 0.0 ==> forall j :: 0 <= j < |y| ==> -maxObs <= y[j] <= maxObs
  {
    seq(|x|, j requires 0 <= j < |x| => Standardize(x[j], s.mean[j], s.variance[j], epsilon, maxObs, root))
  }

  /** Standardisation preserves the order within a coordinate. */
  lemma NormalizeRowMonotone(x: Vector, x': Vector, s: RmsState, epsilon: real, maxObs: real, root: Root, j: nat)
    requires ValidState(s) && |x| == |s.mean| && |x'| == |s.mean| && epsilon > 0.0
    requires j < |x| && x[j] <= x'[j]
    ensures NormalizeRow(x, s, epsilon, maxObs, root)[j] <= NormalizeRow(x', s, epsilon, maxObs, root)[j]
  {
    StandardizeMonotone(x[j], x'[j], s.mean[j], s.variance[j], epsilon, maxObs, root);
  }

  /** `NormalizeObs`: the identity when observation normalisation is off,
      otherwise every row standardised and clipped. */
  function NormalizeObs(enabled: bool, rows: seq<Vector>, s: RmsState, epsilon: real, maxObs: real, root: Root): (r: seq<Vector>)
    requires ValidState(s) && epsilon > 0.0 && (enabled ==> Rows(rows, |s.mean|))
    ensures |r| == |rows| && (enabled ==> Rows(r, |s.mean|))
    ensures !enabled ==> r == rows
    ensures enabled ==> forall i :: 0 <= i < |r| ==> r[i] == NormalizeRow(rows[i], s, epsilon, maxObs, root)
    ensures enabled && maxObs >= 0.0 ==>
              forall i, j :: 0 <= i < |r| && 0 <= j < |r[i]| ==> -maxObs <= r[i][j] <= maxObs
  {
    if enabled then seq(|rows|, i requires 0 <= i < |rows| => NormalizeRow(rows[i], s, epsilon, maxObs, root))
    else rows
  }

  /** `NormalizeReward`: the identity when reward normalisation is off,
      otherwise each reward divided by the root of the scalar return
      variance (no centring) and clipped to `[-maxReward, maxReward]`. */
  function NormalizeReward(enabled: bool, rewards: seq<real>, s: RmsState, epsilon: real, maxReward: real, root: Root): (r: seq<real>)
    requires ValidState(s) && |s.mean| == 1 && epsilon > 0.0
    ensures |r| == |rewards|
    ensures !enabled ==> r == rewards
    ensures enabled && maxReward >= 0.0 ==> forall i :: 0 <= i < |r| ==> -maxReward <= r[i] <= maxReward
    ensures enabled ==> forall i :: 0 <= i < |r| ==>
              r[i] == Clip(rewards[i] / root(s.variance[0] + epsilon), -maxReward, maxReward)
  {
    if enabled then
      var d := root(s.variance[0] + epsilon);
      seq(|rewards|, i requires 0 <= i < |rewards| => Clip(rewards[i] / d, -maxReward, maxReward))
    else rewards
  }

  /** Reward normalisation keeps the sign of every reward. */
  lemma NormalizeRewardSign(rewards: seq<real>, s: RmsState, epsilon: real, maxReward: real, root: Root, i: nat)
    requires ValidState(s) && |s.mean| == 1 && epsilon > 0.0 && maxReward >= 0.0 && i < |rewards|
    ensures var r := NormalizeReward(true, rewards, s, epsilon, maxReward, root);
            && (rewards[i] >= 0.0 ==> r[i] >= 0.0)
            && (rewards[i] <= 0.0 ==> r[i] <= 0.0)
  {
    var d := root(s.variance[0] + epsilon);
    DivSign(rewards[i], d);
  }
}
