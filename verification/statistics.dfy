/**
 * Sliding statistics over a window of the series: positional slicing with
 * Python's negative indices, the mean, and the sample (n - 1) variance that
 * pandas' `Series.std()` squares.
 */
module SlidingStatistics {
  import opened Wrappers

  function Min(a: int, b: int): int { if a <= b then a else b }

  function Max(a: int, b: int): int { if a <= b then b else a }

  /** Where a Python slice bound `i` lands in a sequence of length `n`. */
  function PyIndex(i: int, n: nat): (k: nat)
    ensures k <= n
    ensures 0 <= i <= n ==> k == i
    ensures i < 0 && n + i >= 0 ==> k == n + i
  {
    if i < 0 then Max(n + i, 0) else Min(i, n)
  }

  /**
   * The positional slice `s[start:stop]` with Python's conventions: bounds in
   * range give the ordinary slice, and no bounds give more than the sequence.
   */
  function PySlice<X>(s: seq<X>, start: int, stop: int): (r: seq<X>)
    ensures |r| <= |s|
    ensures 0 <= start <= stop <= |s| ==> r == s[start..stop]
  {
    var a, b := PyIndex(start, |s|), PyIndex(stop, |s|);
    if a <= b then s[a..b] else []
  }

  function Sum(s: seq<real>): real
  {
    if s == [] then 0.0 else s[0] + Sum(s[1..])
  }

  /**
   * The arithmetic mean; pandas gives NaN on an empty window, which no caller
   * reads. The mean of a constant window is its value.
   */
  function Mean(s: seq<real>): (m: real)
    requires |s| > 0
    ensures Constant(s) ==> m == s[0]
  {
    assert Constant(s) ==> Sum(s) == |s| as real * s[0] by {
      if Constant(s) {
        SumOfConstant(s, s[0]);
      }
    }
    Sum(s) / |s| as real
  }

  /** The sum of squared deviations of the window from `m`. */
  function SumSqDev(s: seq<real>, m: real): (r: real)
    ensures r >= 0.0
    ensures r == 0.0 ==> forall i :: 0 <= i < |s| ==> s[i] == m
    ensures (forall i :: 0 <= i < |s| ==> s[i] == m) ==> r == 0.0
  {
    if s == [] then 0.0
    else
      var rest := SumSqDev(s[1..], m);
      assert forall i :: 1 <= i < |s| ==> s[i] == s[1..][i - 1];
      SquareNonNegative(s[0] - m);
      Square(s[0] - m) + rest
  }

  /** `x * x`, kept behind a name: the solver reasons poorly about a bare `x * x`. */
  function Square(x: real): real { x * x }

  lemma SquareNonNegative(x: real)
    ensures Square(x) >= 0.0
    ensures Square(x) == 0.0 ==> x == 0.0
  {
    if x != 0.0 {
      assert x == Square(x) / x;
    }
  }

  /** The sample variance (denominator n - 1); undefined (NaN in pandas) below two points. */
  function SampleVariance(s: seq<real>): (r: Option<real>)
    ensures r.Some? <==> |s| >= 2
    ensures r.Some? ==> r.value >= 0.0
  {
    if |s| < 2 then None else Some(SumSqDev(s, Mean(s)) / (|s| - 1) as real)
  }

  /**
   * `window.std() > 0` in the source: false for a NaN standard deviation
   * (fewer than two points) and for a zero one. The degenerate branch of both
   * first-layer tests is therefore taken exactly when the window has fewer
   * than two points or all of its values are equal.
   */
  predicate StdPositive(s: seq<real>)
    ensures StdPositive(s) <==> |s| >= 2 && !Constant(s)
  {
    VarianceVanishesIff(s);
    var v := SampleVariance(s);
    v.Some? && v.value > 0.0
  }

  /** Every value of the window is the same. */
  predicate Constant(s: seq<real>)
  {
    forall i, j :: 0 <= i < |s| && 0 <= j < |s| ==> s[i] == s[j]
  }

  /** Every slice of a constant window is constant. */
  lemma ConstantSlice(s: seq<real>, a: nat, b: nat)
    requires a <= b <= |s| && Constant(s)
    ensures Constant(s[a..b])
  {
    forall i, j | 0 <= i < b - a && 0 <= j < b - a
      ensures s[a..b][i] == s[a..b][j]
    {
      assert s[a..b][i] == s[a + i] && s[a..b][j] == s[a + j];
    }
  }

  lemma {:induction false} SumOfConstant(s: seq<real>, c: real)
    requires forall i :: 0 <= i < |s| ==> s[i] == c
    ensures Sum(s) == |s| as real * c
  {
    if s != [] {
      SumOfConstant(s[1..], c);
    }
  }

  lemma {:induction false} SumConcat(a: seq<real>, b: seq<real>)
    ensures Sum(a + b) == Sum(a) + Sum(b)
  {
    if a != [] {
      assert (a + b)[1..] == a[1..] + b;
      SumConcat(a[1..], b);
    } else {
      assert a + b == b;
    }
  }

  lemma {:induction false} SumSqDevConcat(a: seq<real>, b: seq<real>, m: real)
    ensures SumSqDev(a + b, m) == SumSqDev(a, m) + SumSqDev(b, m)
  {
    if a != [] {
      assert (a + b)[1..] == a[1..] + b;
      SumSqDevConcat(a[1..], b, m);
    } else {
      assert a + b == b;
    }
  }

  lemma {:induction false} SumSqDevOfConstant(s: seq<real>, c: real, m: real)
    requires forall i :: 0 <= i < |s| ==> s[i] == c
    ensures SumSqDev(s, m) == |s| as real * Square(c - m)
  {
    if s != [] {
      SumSqDevOfConstant(s[1..], c, m);
    }
  }

  /** A window of two or more points has a zero variance exactly when it is constant. */
  lemma VarianceVanishesIff(s: seq<real>)
    ensures |s| >= 2 ==> (SampleVariance(s).value > 0.0 <==> !Constant(s))
  {
    if |s| >= 2 {
      var m := Mean(s);
      if Constant(s) {
        assert forall i :: 0 <= i < |s| ==> s[i] == m;
      } else if SampleVariance(s).value <= 0.0 {
        assert SumSqDev(s, m) == 0.0;
        assert Constant(s);
      }
    }
  }
}
