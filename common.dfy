/** Shared vocabulary: observation and action vectors, an optional value,
    and sums over sequences of reals. */
module Common {

  /** A flattened observation or action tensor. */
  type Vector = seq<real>

  datatype Option<T> = None | Some(value: T)

  /** Outcome of an operation that can fail with a configuration error. */
  datatype Outcome = Pass | Fail(message: string)

  function Sum(xs: seq<real>): real
  {
    if |xs| == 0 then 0.0 else Sum(xs[..|xs| - 1]) + xs[|xs| - 1]
  }

  lemma {:induction false} SumConcat(xs: seq<real>, ys: seq<real>)
    ensures Sum(xs + ys) == Sum(xs) + Sum(ys)
    decreases |ys|
  {
    if |ys| == 0 {
      assert xs + ys == xs;
    } else {
      assert (xs + ys)[..|xs + ys| - 1] == xs + ys[..|ys| - 1];
      SumConcat(xs, ys[..|ys| - 1]);
    }
  }

  lemma SumSnoc(xs: seq<real>, x: real)
    ensures Sum(xs + [x]) == Sum(xs) + x
  {
    assert (xs + [x])[..|xs|] == xs;
  }

  /** The first `j` elements are the first `j - 1` and element `j - 1`. */
  lemma TakeSnoc<T>(s: seq<T>, j: nat)
    requires 0 < j <= |s|
    ensures s[..j] == s[..j - 1] + [s[j - 1]]
  {
  }

  /** A vector of `n` zeros, as `torch::zeros({n})` builds. */
  function Zeros(n: nat): (z: seq<real>)
    ensures |z| == n && forall i :: 0 <= i < n ==> z[i] == 0.0
  {
    seq(n, i => 0.0)
  }

  /** `n` rows of `width` zeros, as `torch::zeros({n, width})` builds. */
  function ZeroRows(n: nat, width: nat): (z: seq<Vector>)
    ensures |z| == n && forall i :: 0 <= i < n ==> z[i] == Zeros(width)
  {
    seq(n, i => Zeros(width))
  }
}
