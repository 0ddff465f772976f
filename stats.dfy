/**
 * Sums and arithmetic means of sample sequences, the `reduce((a, b) => a + b, 0) / length`
 * computations both the collector and the aggregator use.
 */
module Stats {

  /** Sum of the samples, accumulated left to right like `Array.prototype.reduce`. */
  function Sum(s: seq<real>): real
  {
    if s == [] then 0.0 else Sum(s[..|s| - 1]) + s[|s| - 1]
  }

  /** Arithmetic mean of a non-empty sequence of samples. */
  function Mean(s: seq<real>): real
    requires |s| > 0
  {
    Sum(s) / |s| as real
  }

  /** Appending a sample adds exactly that sample to the sum. */
  lemma SumAppend(s: seq<real>, x: real)
    ensures Sum(s + [x]) == Sum(s) + x
  {
    assert (s + [x])[..|s|] == s;
  }

  /** A sum of samples that all lie in [lo, hi] lies in [n * lo, n * hi]. */
  lemma {:induction false} SumBounds(s: seq<real>, lo: real, hi: real)
    requires forall i :: 0 <= i < |s| ==> lo <= s[i] <= hi
    ensures |s| as real * lo <= Sum(s) <= |s| as real * hi
  {
    if s != [] {
      var init := s[..|s| - 1];
      assert forall i :: 0 <= i < |init| ==> init[i] == s[i];
      SumBounds(init, lo, hi);
      assert |s| as real == |init| as real + 1.0;
      assert Sum(s) == Sum(init) + s[|s| - 1];
    }
  }

  /** The mean of samples that all lie in [lo, hi] lies in [lo, hi]. */
  lemma MeanBounds(s: seq<real>, lo: real, hi: real)
    requires |s| > 0
    requires forall i :: 0 <= i < |s| ==> lo <= s[i] <= hi
    ensures lo <= Mean(s) <= hi
  {
    SumBounds(s, lo, hi);
    var n := |s| as real;
    assert Mean(s) * n == Sum(s);
  }

  /** The mean `avg` of `n` samples, updated by one more sample `x`. */
  function RunningMean(avg: real, n: nat, x: real): real
  {
    (avg * n as real + x) / (n as real + 1.0)
  }

  /**
   * Running-mean identity: when `avg` is the mean of the `n` samples of `s`, the mean after
   * one more sample weighs `avg` by `n`.
   */
  lemma MeanAppend(s: seq<real>, x: real, avg: real, n: nat)
    requires |s| == n > 0 && avg == Mean(s)
    ensures Mean(s + [x]) == RunningMean(avg, n, x)
  {
    SumAppend(s, x);
    assert avg * n as real == Sum(s);
    assert |s + [x]| as real == n as real + 1.0;
  }

  /** The mean of a single sample is that sample. */
  lemma MeanSingleton(x: real)
    ensures Mean([x]) == x
  {
    assert [x][..0] == [];
    assert Sum([x]) == x;
  }
}
