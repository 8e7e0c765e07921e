/** The streaming mean/variance estimator `RunningMeanStd`
    (src/envs/RunningMeanStd.cpp), modelled one coordinate at a time over
    the reals. The state is a mean vector, a variance vector and a scalar
    pseudo-count that starts at a small epsilon. `Update` merges a batch with
    the parallel algorithm of Chan et al.: the current state acts as one
    sample of size `count`, the batch as a second one. */
module Statistics {
  import opened Common

  /** Default pseudo-count of a fresh estimator, `1e-4f`. */
  const DefaultEpsilon: real := 0.0001

  /** What `Save` writes and `Load` reads back: mean, var and count. */
  datatype RmsState = RmsState(mean: seq<real>, variance: seq<real>, count: real)

  /** The invariant every estimator keeps: matching shapes, a positive count
      and non-negative variances. */
  predicate ValidState(s: RmsState)
  {
    && |s.mean| == |s.variance|
    && s.count > 0.0
    && forall j :: 0 <= j < |s.variance| ==> s.variance[j] >= 0.0
  }

  /** A batch `Update` accepts: at least one row, each row as wide as the
      estimator's shape. */
  predicate Batchable(s: RmsState, batch: seq<Vector>)
  {
    && |s.mean| == |s.variance|
    && s.count > 0.0
    && |batch| > 0
    && forall k :: 0 <= k < |batch| ==> |batch[k]| == |s.mean|
  }

  /** The state built by the constructor: zeros, ones and `count = epsilon`. */
  function Fresh(dim: nat, epsilon: real): (s: RmsState)
    ensures |s.mean| == dim && |s.variance| == dim && s.count == epsilon
    ensures forall j :: 0 <= j < dim ==> s.mean[j] == 0.0 && s.variance[j] == 1.0
    ensures epsilon > 0.0 ==> ValidState(s)
  {
    RmsState(Zeros(dim), seq(dim, j => 1.0), epsilon)
  }

  /** Coordinate `j` of every row of a batch. */
  function Column(batch: seq<Vector>, j: nat): (c: seq<real>)
    requires forall k :: 0 <= k < |batch| ==> j < |batch[k]|
    ensures |c| == |batch| && forall k :: 0 <= k < |batch| ==> c[k] == batch[k][j]
  {
    seq(|batch|, k requires 0 <= k < |batch| => batch[k][j])
  }

  /** Sum of the squares of `xs`. */
  function SumSquares(xs: seq<real>): real
  {
    if |xs| == 0 then 0.0 else SumSquares(xs[..|xs| - 1]) + xs[|xs| - 1] * xs[|xs| - 1]
  }

  /** Sum of the squared deviations of `xs` from `mu`. */
  function SumDeviations(xs: seq<real>, mu: real): real
  {
    if |xs| == 0 then 0.0
    else SumDeviations(xs[..|xs| - 1], mu) + (xs[|xs| - 1] - mu) * (xs[|xs| - 1] - mu)
  }

  /** `batch.mean(0)` for one coordinate. */
  function BatchMean(xs: seq<real>): real
    requires |xs| > 0
  {
    Sum(xs) / |xs| as real
  }

  /** `batch.var(0, false)` for one coordinate: the population variance,
      divided by the number of rows. */
  function PopulationVariance(xs: seq<real>): real
    requires |xs| > 0
  {
    SumDeviations(xs, BatchMean(xs)) / |xs| as real
  }

  /** The merge of a batch's statistics (mean `bm`, population variance `bv`,
      `n` rows) into a running mean, variance and count. */
  function Merge(mean: real, variance: real, count: real, bm: real, bv: real, n: real): (real, real)
    requires count > 0.0 && n > 0.0
  {
    var delta := bm - mean;
    var total := count + n;
    (mean + delta * n / total,
     (variance * count + bv * n + delta * delta * count * n / total) / total)
  }

  /** One coordinate of `Update`: the batch's statistics merged in. */
  function UpdateCoord(mean: real, variance: real, count: real, xs: seq<real>): (real, real)
    requires count > 0.0 && |xs| > 0
  {
    Merge(mean, variance, count, BatchMean(xs), PopulationVariance(xs), |xs| as real)
  }

  /** The state after `Update(batch)`. */
  function UpdateState(s: RmsState, batch: seq<Vector>): (r: RmsState)
    requires Batchable(s, batch)
    ensures |r.mean| == |s.mean| && |r.variance| == |s.mean|
    ensures r.count == s.count + |batch| as real
  {
    var d := |s.mean|;
    RmsState(
      seq(d, j requires 0 <= j < d => UpdateCoord(s.mean[j], s.variance[j], s.count, Column(batch, j)).0),
      seq(d, j requires 0 <= j < d => UpdateCoord(s.mean[j], s.variance[j], s.count, Column(batch, j)).1),
      s.count + |batch| as real)
  }

  // ---------------------------------------------------------------------
  // Algebra of the merge

  lemma {:induction false} SumSquaresConcat(xs: seq<real>, ys: seq<real>)
    ensures SumSquares(xs + ys) == SumSquares(xs) + SumSquares(ys)
    decreases |ys|
  {
    if |ys| == 0 {
      assert xs + ys == xs;
    } else {
      assert (xs + ys)[..|xs + ys| - 1] == xs + ys[..|ys| - 1];
      SumSquaresConcat(xs, ys[..|ys| - 1]);
    }
  }

  lemma {:induction false} ColumnConcat(a: seq<Vector>, b: seq<Vector>, j: nat)
    requires forall k :: 0 <= k < |a| ==> j < |a[k]|
    requires forall k :: 0 <= k < |b| ==> j < |b[k]|
    ensures Column(a + b, j) == Column(a, j) + Column(b, j)
  {
    var l := Column(a + b, j);
    var r := Column(a, j) + Column(b, j);
    forall k | 0 <= k < |l| ensures l[k] == r[k] {
      if k < |a| {
        assert (a + b)[k] == a[k];
      } else {
        assert (a + b)[k] == b[k - |a|];
      }
    }
    assert l == r;
  }

  lemma SquareExpand(x: real, mu: real)
    ensures (x - mu) * (x - mu) == x * x - 2.0 * mu * x + mu * mu
  {
  }

  /** The sum of squared deviations from `mu` expands into raw moments. */
  lemma {:induction false} DeviationsExpand(xs: seq<real>, mu: real)
    ensures SumDeviations(xs, mu) == SumSquares(xs) - 2.0 * mu * Sum(xs) + |xs| as real * mu * mu
    decreases |xs|
  {
    if |xs| > 0 {
      var init := xs[..|xs| - 1];
      var x := xs[|xs| - 1];
      DeviationsExpand(init, mu);
      SquareExpand(x, mu);
      var n0 := |init| as real;
      assert |xs| as real * mu * mu == n0 * mu * mu + mu * mu;
      assert 2.0 * mu * Sum(xs) == 2.0 * mu * Sum(init) + 2.0 * mu * x;
    }
  }

  lemma DivTimes(x: real, t: real)
    requires t != 0.0
    ensures (x / t) * t == x
  {
  }

  lemma MulBoth(x: real, y: real, z: real)
    requires x == y
    ensures x * z == y * z
  {
  }

  /** The population variance times N is the second raw moment minus N times
      the squared mean. */
  lemma PopulationVarianceMoment(xs: seq<real>)
    requires |xs| > 0
    ensures PopulationVariance(xs) * |xs| as real
         == SumSquares(xs) - |xs| as real * BatchMean(xs) * BatchMean(xs)
  {
    VarianceTimesCount(xs);
    DeviationsAroundBatchMean(xs);
  }

  lemma DeviationsAroundBatchMean(xs: seq<real>)
    requires |xs| > 0
    ensures SumDeviations(xs, BatchMean(xs)) == SumSquares(xs) - |xs| as real * BatchMean(xs) * BatchMean(xs)
  {
    MeanTimesCount(xs);
    DeviationsAroundMean(xs, BatchMean(xs));
  }

  /** Around the mean, the squared deviations sum to `Q - N * mu^2`. */
  lemma DeviationsAroundMean(xs: seq<real>, mu: real)
    requires mu * |xs| as real == Sum(xs)
    ensures SumDeviations(xs, mu) == SumSquares(xs) - |xs| as real * mu * mu
  {
    var n := |xs| as real;
    var s := Sum(xs);
    DeviationsExpand(xs, mu);
    MulBoth(mu * n, s, 2.0 * mu);
  }

  lemma MeanTimesCount(xs: seq<real>)
    requires |xs| > 0
    ensures BatchMean(xs) * |xs| as real == Sum(xs)
  {
    var n := |xs| as real;
    assert n > 0.0;
    DivTimes(Sum(xs), n);
  }

  lemma VarianceTimesCount(xs: seq<real>)
    requires |xs| > 0
    ensures PopulationVariance(xs) * |xs| as real == SumDeviations(xs, BatchMean(xs))
  {
    var n := |xs| as real;
    var d := SumDeviations(xs, BatchMean(xs));
    assert n > 0.0;
    DivTimes(d, n);
  }

  // ---------------------------------------------------------------------
  // Algebra of one merge, free of sequences. With `T = count + n`, the merge
  // keeps the raw moments: `T * mean' = count * mean + n * bm` and
  // `T * (var' + mean'^2) = count * (var + mean^2) + n * (bv + bm^2)`.

  lemma MergeMean(mean: real, variance: real, count: real, bm: real, bv: real, n: real)
    requires count > 0.0 && n > 0.0
    ensures (count + n) * Merge(mean, variance, count, bm, bv, n).0 == count * mean + bm * n
  {
    DivTimes((bm - mean) * n, count + n);
  }

  lemma MergeVariance(mean: real, variance: real, count: real, bm: real, bv: real, n: real)
    requires count > 0.0 && n > 0.0
    ensures (count + n) * ((count + n) * Merge(mean, variance, count, bm, bv, n).1)
         == (count + n) * (variance * count + bv * n) + (bm - mean) * (bm - mean) * count * n
  {
    var t := count + n;
    var e := (bm - mean) * (bm - mean) * count * n;
    DivTimes(variance * count + bv * n + e / t, t);
    DivTimes(e, t);
  }

  lemma SquareScaled(mean: real, count: real, bm: real, n: real, m: real)
    requires (count + n) * m == count * mean + bm * n
    ensures (count + n) * ((count + n) * (m * m)) == (count * mean + bm * n) * (count * mean + bm * n)
  {
  }

  lemma MergeSquare(mean: real, variance: real, count: real, bm: real, bv: real, n: real)
    requires count > 0.0 && n > 0.0
    ensures var m := Merge(mean, variance, count, bm, bv, n).0;
            (count + n) * ((count + n) * (m * m)) == (count * mean + bm * n) * (count * mean + bm * n)
  {
    MergeMean(mean, variance, count, bm, bv, n);
    SquareScaled(mean, count, bm, n, Merge(mean, variance, count, bm, bv, n).0);
  }

  /** The identity that pools the two samples' second moments. */
  lemma PoolIdentity(mean: real, count: real, n: real, bm: real)
    ensures (bm - mean) * (bm - mean) * count * n + (count * mean + bm * n) * (count * mean + bm * n)
         == (count + n) * (count * mean * mean + n * bm * bm)
  {
  }

  lemma SplitSecondMoment(count: real, n: real, r1: real, r0: real)
    ensures (count + n) * ((count + n) * (r1 + r0 * r0))
         == (count + n) * ((count + n) * r1) + (count + n) * ((count + n) * (r0 * r0))
  {
  }

  lemma SplitPooled(count: real, n: real, variance: real, bv: real, mean: real, bm: real)
    ensures (count + n) * ((variance * count + bv * n) + (count * mean * mean + n * bm * bm))
         == (count + n) * (variance * count + bv * n) + (count + n) * (count * mean * mean + n * bm * bm)
  {
  }

  /** The linear step that adds the pieces up, all of them as hypotheses. */
  lemma SumSecondMoment(mean: real, variance: real, count: real, bm: real, bv: real, n: real, r0: real, r1: real)
    requires (count + n) * ((count + n) * r1)
         == (count + n) * (variance * count + bv * n) + (bm - mean) * (bm - mean) * count * n
    requires (count + n) * ((count + n) * (r0 * r0)) == (count * mean + bm * n) * (count * mean + bm * n)
    requires (bm - mean) * (bm - mean) * count * n + (count * mean + bm * n) * (count * mean + bm * n)
         == (count + n) * (count * mean * mean + n * bm * bm)
    requires (count + n) * ((count + n) * (r1 + r0 * r0))
         == (count + n) * ((count + n) * r1) + (count + n) * ((count + n) * (r0 * r0))
    requires (count + n) * ((variance * count + bv * n) + (count * mean * mean + n * bm * bm))
         == (count + n) * (variance * count + bv * n) + (count + n) * (count * mean * mean + n * bm * bm)
    ensures (count + n) * ((count + n) * (r1 + r0 * r0))
         == (count + n) * ((variance * count + bv * n) + (count * mean * mean + n * bm * bm))
  {
  }

  lemma Cancel(t: real, y: real, z: real)
    requires t != 0.0 && t * y == t * z
    ensures y == z
  {
    assert t * (y - z) == 0.0;
  }

  lemma CancelSecondMoment(mean: real, variance: real, count: real, bm: real, bv: real, n: real, r0: real, r1: real)
    requires count + n > 0.0
    requires (count + n) * ((count + n) * (r1 + r0 * r0))
          == (count + n) * ((variance * count + bv * n) + (count * mean * mean + n * bm * bm))
    ensures (count + n) * (r1 + r0 * r0) == (variance * count + bv * n) + (count * mean * mean + n * bm * bm)
  {
    Cancel(count + n, (count + n) * (r1 + r0 * r0), (variance * count + bv * n) + (count * mean * mean + n * bm * bm));
  }

  lemma CombineSecondMoment(mean: real, variance: real, count: real, bm: real, bv: real, n: real, r0: real, r1: real)
    requires count > 0.0 && n > 0.0
    requires (count + n) * ((count + n) * r1)
         == (count + n) * (variance * count + bv * n) + (bm - mean) * (bm - mean) * count * n
    requires (count + n) * ((count + n) * (r0 * r0)) == (count * mean + bm * n) * (count * mean + bm * n)
    ensures (count + n) * (r1 + r0 * r0) == (variance * count + bv * n) + (count * mean * mean + n * bm * bm)
  {
    PoolIdentity(mean, count, n, bm);
    SplitSecondMoment(count, n, r1, r0);
    SplitPooled(count, n, variance, bv, mean, bm);
    SumSecondMoment(mean, variance, count, bm, bv, n, r0, r1);
    CancelSecondMoment(mean, variance, count, bm, bv, n, r0, r1);
  }

  lemma MergeSecondMoment(mean: real, variance: real, count: real, bm: real, bv: real, n: real)
    requires count > 0.0 && n > 0.0
    ensures var r := Merge(mean, variance, count, bm, bv, n);
            (count + n) * (r.1 + r.0 * r.0) == (variance * count + bv * n) + (count * mean * mean + n * bm * bm)
  {
    var r := Merge(mean, variance, count, bm, bv, n);
    MergeVariance(mean, variance, count, bm, bv, n);
    MergeSquare(mean, variance, count, bm, bv, n);
    CombineSecondMoment(mean, variance, count, bm, bv, n, r.0, r.1);
  }

  predicate RawMoments(count: real, n: real, mean: real, variance: real, s: real, q: real, r0: real, r1: real)
  {
    && (count + n) * r0 == count * mean + s
    && (count + n) * (r1 + r0 * r0) == count * (variance + mean * mean) + q
  }

  /** A merge in terms of raw moments: `T * mean'` adds the batch sum `s` and
      `T * (var' + mean'^2)` adds the batch sum of squares `q`. */
  lemma MergeMoments(mean: real, variance: real, count: real, n: real, s: real, q: real, bm: real, bv: real)
    requires count > 0.0 && n > 0.0 && BatchStats(n, s, q, bm, bv)
    ensures RawMoments(count, n, mean, variance, s, q,
                       Merge(mean, variance, count, bm, bv, n).0, Merge(mean, variance, count, bm, bv, n).1)
  {
    MergeMean(mean, variance, count, bm, bv, n);
    MergeSecondMoment(mean, variance, count, bm, bv, n);
  }

  /** The sums a batch's mean and population variance are made of: `n` rows
      with sum `s` and sum of squares `q`. */
  predicate BatchStats(n: real, s: real, q: real, bm: real, bv: real)
  {
    bm * n == s && bv * n == q - n * bm * bm
  }

  lemma BatchFacts(xs: seq<real>)
    requires |xs| > 0
    ensures BatchStats(|xs| as real, Sum(xs), SumSquares(xs), BatchMean(xs), PopulationVariance(xs))
  {
    MeanTimesCount(xs);
    PopulationVarianceMoment(xs);
  }

  /** The raw moments after merging `a` then `b` are those after merging the
      pooled batch, so the two results agree. */
  lemma PooledMoments(mean: real, variance: real, count: real,
                      na: real, sa: real, qa: real, nb: real, sb: real, qb: real,
                      nab: real, sab: real, qab: real,
                      f0: real, f1: real, s0: real, s1: real, w0: real, w1: real)
    requires count + nab > 0.0
    requires nab == na + nb && sab == sa + sb && qab == qa + qb
    requires RawMoments(count, na, mean, variance, sa, qa, f0, f1)
    requires RawMoments(count + na, nb, f0, f1, sb, qb, s0, s1)
    requires RawMoments(count, nab, mean, variance, sab, qab, w0, w1)
    ensures s0 == w0 && s1 == w1
  {
    assert (count + nab) * s0 == (count + nab) * w0;
    assert (count + nab) * (s1 + s0 * s0) == (count + nab) * (w1 + w0 * w0);
    Cancel(count + nab, s0, w0);
    Cancel(count + nab, s1 + s0 * s0, w1 + w0 * w0);
  }

  /** Two merges in a row equal one merge of the pooled statistics. */
  lemma MergeConcat(mean: real, variance: real, count: real,
                    na: real, sa: real, qa: real, bma: real, bva: real,
                    nb: real, sb: real, qb: real, bmb: real, bvb: real,
                    nab: real, sab: real, qab: real, bmab: real, bvab: real)
    requires count > 0.0 && na > 0.0 && nb > 0.0
    requires BatchStats(na, sa, qa, bma, bva) && BatchStats(nb, sb, qb, bmb, bvb)
    requires BatchStats(nab, sab, qab, bmab, bvab)
    requires nab == na + nb && sab == sa + sb && qab == qa + qb
    ensures var first := Merge(mean, variance, count, bma, bva, na);
            Merge(first.0, first.1, count + na, bmb, bvb, nb) == Merge(mean, variance, count, bmab, bvab, nab)
  {
    var first := Merge(mean, variance, count, bma, bva, na);
    var second := Merge(first.0, first.1, count + na, bmb, bvb, nb);
    var whole := Merge(mean, variance, count, bmab, bvab, nab);
    MergeMoments(mean, variance, count, na, sa, qa, bma, bva);
    MergeMoments(first.0, first.1, count + na, nb, sb, qb, bmb, bvb);
    MergeMoments(mean, variance, count, nab, sab, qab, bmab, bvab);
    PooledMoments(mean, variance, count, na, sa, qa, nb, sb, qb, nab, sab, qab,
                  first.0, first.1, second.0, second.1, whole.0, whole.1);
  }

  /** Merging `a` and then `b` into one coordinate gives exactly what merging
      `a + b` at once gives. */
  lemma UpdateCoordConcat(mean: real, variance: real, count: real, a: seq<real>, b: seq<real>)
    requires count > 0.0 && |a| > 0 && |b| > 0
    ensures var first := UpdateCoord(mean, variance, count, a);
            UpdateCoord(first.0, first.1, count + |a| as real, b) == UpdateCoord(mean, variance, count, a + b)
  {
    BatchFacts(a);
    BatchFacts(b);
    BatchFacts(a + b);
    SumConcat(a, b);
    SumSquaresConcat(a, b);
    MergeConcat(mean, variance, count,
                |a| as real, Sum(a), SumSquares(a), BatchMean(a), PopulationVariance(a),
                |b| as real, Sum(b), SumSquares(b), BatchMean(b), PopulationVariance(b),
                |a + b| as real, Sum(a + b), SumSquares(a + b), BatchMean(a + b), PopulationVariance(a + b));
  }

  /** The sequential-batches property: `Update(a)` followed by `Update(b)`
      leaves the estimator in the same state (mean, var and count) as one
      `Update(a + b)`. */
  lemma UpdateConcat(s: RmsState, a: seq<Vector>, b: seq<Vector>)
    requires Batchable(s, a) && Batchable(s, b)
    ensures Batchable(UpdateState(s, a), b) && Batchable(s, a + b)
    ensures UpdateState(UpdateState(s, a), b) == UpdateState(s, a + b)
  {
    var s1 := UpdateState(s, a);
    var d := |s.mean|;
    forall j | 0 <= j < d
      ensures s1.mean[j] == UpdateCoord(s.mean[j], s.variance[j], s.count, Column(a, j)).0
      ensures s1.variance[j] == UpdateCoord(s.mean[j], s.variance[j], s.count, Column(a, j)).1
    {
    }
    var s2 := UpdateState(s1, b);
    var w := UpdateState(s, a + b);
    forall j | 0 <= j < d
      ensures s2.mean[j] == w.mean[j] && s2.variance[j] == w.variance[j]
    {
      ColumnConcat(a, b, j);
      UpdateCoordConcat(s.mean[j], s.variance[j], s.count, Column(a, j), Column(b, j));
    }
  }

  /** A merge keeps the variance non-negative. */
  lemma MergeNonNegative(mean: real, variance: real, count: real, bm: real, bv: real, n: real)
    requires count > 0.0 && n > 0.0 && variance >= 0.0 && bv >= 0.0
    ensures Merge(mean, variance, count, bm, bv, n).1 >= 0.0
  {
    var delta := bm - mean;
    var t := count + n;
    assert delta * delta >= 0.0;
    assert delta * delta * count * n / t >= 0.0;
  }

  lemma PopulationVarianceNonNegative(xs: seq<real>)
    requires |xs| > 0
    ensures PopulationVariance(xs) >= 0.0
  {
    DeviationsNonNegative(xs, BatchMean(xs));
  }

  /** Each updated variance is non-negative when the old one is. */
  lemma UpdateCoordNonNegative(mean: real, variance: real, count: real, xs: seq<real>)
    requires count > 0.0 && |xs| > 0 && variance >= 0.0
    ensures UpdateCoord(mean, variance, count, xs).1 >= 0.0
  {
    PopulationVarianceNonNegative(xs);
    MergeNonNegative(mean, variance, count, BatchMean(xs), PopulationVariance(xs), |xs| as real);
  }

  lemma {:induction false} DeviationsNonNegative(xs: seq<real>, mu: real)
    ensures SumDeviations(xs, mu) >= 0.0
    decreases |xs|
  {
    if |xs| > 0 {
      DeviationsNonNegative(xs[..|xs| - 1], mu);
      var y := xs[|xs| - 1] - mu;
      assert y * y >= 0.0;
    }
  }

  /** A positive count and non-negative variances survive every update. */
  lemma UpdateKeepsValid(s: RmsState, batch: seq<Vector>)
    requires ValidState(s) && Batchable(s, batch)
    ensures ValidState(UpdateState(s, batch))
  {
    var r := UpdateState(s, batch);
    forall j | 0 <= j < |s.mean|
      ensures r.variance[j] >= 0.0
    {
      UpdateCoordNonNegative(s.mean[j], s.variance[j], s.count, Column(batch, j));
    }
  }

  lemma DivideOut(t: real, x: real, y: real)
    requires t != 0.0 && t * x == y
    ensures x == y / t
  {
  }

  /** The closed form of a fresh estimator's coordinate after one update:
      `mean = s / t` and `var = (epsilon + q) / t - mean^2`, for a column with
      sum `s` and sum of squares `q`, and `t = epsilon + N`. */
  predicate FreshForm(epsilon: real, s: real, q: real, t: real, mean: real, variance: real)
    requires t != 0.0
  {
    mean == s / t && variance == (epsilon + q) / t - mean * mean
  }

  lemma MergeFresh(epsilon: real, n: real, s: real, q: real, bm: real, bv: real, t: real)
    requires epsilon > 0.0 && n > 0.0 && t == epsilon + n && BatchStats(n, s, q, bm, bv)
    ensures FreshForm(epsilon, s, q, t, Merge(0.0, 1.0, epsilon, bm, bv, n).0, Merge(0.0, 1.0, epsilon, bm, bv, n).1)
  {
    var r := Merge(0.0, 1.0, epsilon, bm, bv, n);
    MergeMoments(0.0, 1.0, epsilon, n, s, q, bm, bv);
    DivideOut(t, r.0, s);
    DivideOut(t, r.1 + r.0 * r.0, epsilon + q);
  }

  /** One coordinate of a fresh estimator after one update. */
  lemma FreshCoord(epsilon: real, col: seq<real>, t: real)
    requires epsilon > 0.0 && |col| > 0 && t == epsilon + |col| as real
    ensures FreshForm(epsilon, Sum(col), SumSquares(col), t,
                      UpdateCoord(0.0, 1.0, epsilon, col).0, UpdateCoord(0.0, 1.0, epsilon, col).1)
  {
    BatchFacts(col);
    MergeFresh(epsilon, |col| as real, Sum(col), SumSquares(col), BatchMean(col), PopulationVariance(col), t);
  }

  /** A freshly constructed estimator after one update holds
      `count = epsilon + N`, `mean = S / (epsilon + N)` and
      `var = (epsilon + Q) / (epsilon + N) - mean^2` in every coordinate, where
      S and Q are the column's sum and sum of squares: the exact statistics
      of the data plus an epsilon-weighted prior (mean 0, var 1). */
  lemma FreshUpdateClosedForm(dim: nat, epsilon: real, batch: seq<Vector>, j: nat)
    requires epsilon > 0.0 && Batchable(Fresh(dim, epsilon), batch) && j < dim
    ensures var r := UpdateState(Fresh(dim, epsilon), batch);
            var t := epsilon + |batch| as real;
            && r.count == t
            && FreshForm(epsilon, Sum(Column(batch, j)), SumSquares(Column(batch, j)), t, r.mean[j], r.variance[j])
  {
    var f := Fresh(dim, epsilon);
    var col := Column(batch, j);
    assert f.mean[j] == 0.0 && f.variance[j] == 1.0;
    FreshCoord(epsilon, col, epsilon + |batch| as real);
  }

  /** The estimator object; `Update` and `Load` overwrite its three fields. */
  class RunningMeanStd {
    var mean: seq<real>
    var variance: seq<real>
    var count: real

    function State(): RmsState
      reads this
    {
      RmsState(mean, variance, count)
    }

    ghost predicate Valid()
      reads this
    {
      ValidState(State())
    }

    /** `RunningMeanStd(shape, epsilon)`; a scalar shape `{}` has one coordinate. */
    constructor (dim: nat, epsilon: real)
      requires epsilon > 0.0
      ensures Valid() && State() == Fresh(dim, epsilon)
    {
      mean := Zeros(dim);
      variance := seq(dim, j => 1.0);
      count := epsilon;
    }

    function GetMean(): seq<real>
      reads this
    {
      mean
    }

    function GetVar(): seq<real>
      reads this
    {
      variance
    }

    method Update(batch: seq<Vector>)
      requires Valid() && Batchable(State(), batch)
      modifies this
      ensures Valid() && State() == UpdateState(old(State()), batch)
    {
      ghost var before := State();
      UpdateKeepsValid(before, batch);
      var n := |batch| as real;
      var total := count + n;
      var d, m, v, c := |mean|, mean, variance, count;
      var newMean := seq(d, j requires 0 <= j < d => UpdateCoord(m[j], v[j], c, Column(batch, j)).0);
      variance := seq(d, j requires 0 <= j < d => UpdateCoord(m[j], v[j], c, Column(batch, j)).1);
      mean := newMean;
      count := total;
    }

    /** The blob `Save` writes. */
    function Save(): (blob: RmsState)
      reads this
      ensures blob.mean == mean && blob.variance == variance && blob.count == count
    {
      State()
    }

    /** `Load` reassigns the three fields from a saved blob. */
    method Load(blob: RmsState)
      requires ValidState(blob)
      modifies this
      ensures Valid() && State() == blob
    {
      mean := blob.mean;
      variance := blob.variance;
      count := blob.count;
    }
  }
}
