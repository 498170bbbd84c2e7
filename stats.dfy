/** Sums, arithmetic means and population variances of real sequences. */
module Stats {

  function Sum(s: seq<real>): real {
    if s == [] then 0.0 else Sum(s[..|s| - 1]) + s[|s| - 1]
  }

  /** Arithmetic mean; 0.0 for an empty sequence (the guard the trackers and the session use). */
  function Mean(s: seq<real>): real {
    if |s| == 0 then 0.0 else Sum(s) / |s| as real
  }

  /** Sum of squared deviations from `m`. */
  function SquaredDeviations(s: seq<real>, m: real): real {
    if s == [] then 0.0
    else SquaredDeviations(s[..|s| - 1], m) + (s[|s| - 1] - m) * (s[|s| - 1] - m)
  }

  /** Population variance (the square of numpy's default `np.std`). */
  function Variance(s: seq<real>): real {
    if |s| == 0 then 0.0 else SquaredDeviations(s, Mean(s)) / |s| as real
  }

  lemma SumAppend(s: seq<real>, x: real)
    ensures Sum(s + [x]) == Sum(s) + x
  {
    assert (s + [x])[..|s|] == s;
  }

  lemma {:induction false} SumBounds(s: seq<real>, lo: real, hi: real)
    requires forall i :: 0 <= i < |s| ==> lo <= s[i] <= hi
    ensures |s| as real * lo <= Sum(s) <= |s| as real * hi
  {
    if s != [] {
      SumBounds(s[..|s| - 1], lo, hi);
    }
  }

  /** A mean of values drawn from `[lo, hi]` lies in `[lo, hi]`. */
  lemma MeanBounds(s: seq<real>, lo: real, hi: real)
    requires s != []
    requires forall i :: 0 <= i < |s| ==> lo <= s[i] <= hi
    ensures lo <= Mean(s) <= hi
  {
    SumBounds(s, lo, hi);
    var n := |s| as real;
    assert n * lo <= Sum(s) <= n * hi;
    assert Sum(s) / n >= lo by {
      assert Sum(s) >= n * lo;
    }
    assert Sum(s) / n <= hi by {
      assert Sum(s) <= n * hi;
    }
  }

  lemma {:induction false} SumConstant(s: seq<real>, c: real)
    requires forall i :: 0 <= i < |s| ==> s[i] == c
    ensures Sum(s) == |s| as real * c
  {
    if s != [] {
      SumConstant(s[..|s| - 1], c);
    }
  }

  lemma {:induction false} SquaredDeviationsNonNegative(s: seq<real>, m: real)
    ensures SquaredDeviations(s, m) >= 0.0
  {
    if s != [] {
      SquaredDeviationsNonNegative(s[..|s| - 1], m);
      var d := s[|s| - 1] - m;
      assert d * d >= 0.0;
    }
  }

  lemma VarianceNonNegative(s: seq<real>)
    ensures Variance(s) >= 0.0
  {
    if |s| > 0 {
      SquaredDeviationsNonNegative(s, Mean(s));
    }
  }

  lemma {:induction false} SquaredDeviationsAtConstant(s: seq<real>, c: real)
    requires forall i :: 0 <= i < |s| ==> s[i] == c
    ensures SquaredDeviations(s, c) == 0.0
  {
    if s != [] {
      SquaredDeviationsAtConstant(s[..|s| - 1], c);
    }
  }

  /** A constant sequence has no spread: its variance, hence its standard deviation, is 0. */
  lemma ConstantHasZeroVariance(s: seq<real>, c: real)
    requires forall i :: 0 <= i < |s| ==> s[i] == c
    ensures |s| > 0 ==> Mean(s) == c
    ensures Variance(s) == 0.0
  {
    if |s| > 0 {
      SumConstant(s, c);
      assert Mean(s) == c;
      SquaredDeviationsAtConstant(s, c);
    }
  }

  /** For a non-negative root `r` of `v` (a standard deviation of a variance `v`), the
      comparisons `r < k` and `r > k` with a non-negative `k` can be made on `v` and `k * k`. */
  lemma RootComparisons(r: real, v: real, k: real)
    requires r >= 0.0 && r * r == v && k >= 0.0
    ensures r < k <==> v < k * k
    ensures r > k <==> v > k * k
  {
    var rr, rk, kk := r * r, r * k, k * k;
    if r < k {
      assert rr <= rk && rk < kk;
    } else if r == k {
      assert rr == kk;
    } else {
      assert rr > rk && rk >= kk;
    }
  }
}
