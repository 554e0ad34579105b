/**
 * The two first-layer tests run on every incoming point once enough history
 * exists: a z-score against the trailing window that includes the point, and
 * a deviation from the mean of the points just before it.
 *
 * There is no square root over the reals here, so a score keeps the squared
 * denominator: `Ratio(dev, variance)` stands for `dev / sqrt(variance)`, and
 * the threshold test is decided on squares. `IsStdOf` names the standard
 * deviation of a window for the statements about the real-valued score.
 */
module FirstLayer {
  import opened Wrappers
  import opened SlidingStatistics

  /** `Zero` is the degenerate branch; `Ratio(dev, variance)` is `dev / sqrt(variance)`. */
  datatype Score = Zero | Ratio(dev: real, variance: real)

  function Abs(x: real): real { if x < 0.0 then -x else x }

  /** `std` is the (positive) sample standard deviation of `window`. */
  predicate IsStdOf(window: seq<real>, std: real)
  {
    StdPositive(window) && std > 0.0 && Square(std) == SampleVariance(window).value
  }

  /** `root` is a positive square root of the score's variance (anything will do for `Zero`). */
  predicate IsRootOf(z: Score, root: real)
  {
    z.Zero? || (root > 0.0 && Square(root) == z.variance)
  }

  /** The real number the score stands for, once the square root of its variance is known. */
  function ValueWith(z: Score, root: real): real
    requires IsRootOf(z, root)
  {
    match z
    case Zero => 0.0
    case Ratio(dev, _) => dev / root
  }

  /**
   * `abs(score) > threshold`, decided without the square root. An absolute
   * value is never negative, so every score exceeds a negative threshold, and
   * the score 0 exceeds no other.
   */
  predicate Exceeds(z: Score, threshold: real)
    ensures threshold < 0.0 ==> Exceeds(z, threshold)
    ensures threshold >= 0.0 && z.Zero? ==> !Exceeds(z, threshold)
  {
    match z
    case Zero => 0.0 > threshold
    case Ratio(dev, variance) =>
      threshold < 0.0 || Square(dev) > Square(threshold) * variance
  }

  lemma SquareOfProduct(a: real, b: real)
    ensures Square(a * b) == Square(a) * Square(b)
  {
  }

  lemma SquareOfAbs(a: real)
    ensures Square(Abs(a)) == Square(a)
  {
  }

  lemma ProductOfPositives(p: real, q: real)
    requires p > 0.0 && q > 0.0
    ensures p * q > 0.0
  {
  }

  lemma SquareOfPositive(x: real)
    requires x > 0.0
    ensures Square(x) > 0.0
  {
    SquareNonNegative(x);
  }

  /** Multiplying by a positive number keeps the strict order in both directions. */
  lemma ScaleStrictlyMonotone(a: real, b: real, c: real)
    requires c > 0.0
    ensures a > b <==> a * c > b * c
  {
    assert a * c - b * c == (a - b) * c;
    if a > b {
      ProductOfPositives(a - b, c);
    } else {
      assert (b - a) * c >= 0.0;
    }
  }

  /** On non-negative numbers, squaring keeps the strict order in both directions. */
  lemma SquareStrictlyMonotone(a: real, b: real)
    requires a >= 0.0 && b >= 0.0
    ensures a > b <==> Square(a) > Square(b)
  {
    if a > b {
      assert Square(a) - Square(b) == (a - b) * (a + b);
      ProductOfPositives(a - b, a + b);
    } else {
      assert Square(b) - Square(a) == (b - a) * (a + b);
      assert (b - a) * (a + b) >= 0.0;
    }
  }

  /** The squared comparison is exactly `abs(dev / root) > threshold`. */
  lemma ExceedsIsAbsAbove(z: Score, root: real, threshold: real)
    requires IsRootOf(z, root)
    ensures Exceeds(z, threshold) <==> Abs(ValueWith(z, root)) > threshold
  {
    if z.Ratio? && threshold >= 0.0 {
      var q := z.dev / root;
      assert z.dev == q * root;
      SquareOfProduct(q, root);
      SquareOfAbs(q);
      SquareStrictlyMonotone(Abs(q), threshold);
      SquareOfPositive(root);
      ScaleStrictlyMonotone(Square(q), Square(threshold), z.variance);
    }
  }

  /**
   * `time_series[-sliding_window_size:]`: the last `w` points, the current one
   * included; a window of 0 selects the whole series (Python reads `-0` as 0).
   */
  function ZWindow(series: seq<real>, w: nat): (window: seq<real>)
    ensures |window| == if w == 0 then |series| else Min(w, |series|)
  {
    PySlice(series, -(w as int), |series|)
  }

  /** The z-score window is the trailing `min(len, w)` values, the current one last. */
  lemma ZWindowIsTrailing(series: seq<real>, w: nat)
    ensures w > 0 ==> ZWindow(series, w) == series[|series| - Min(|series|, w)..]
    ensures w > 0 && |series| > 0 ==> ZWindow(series, w)[|ZWindow(series, w)| - 1] == series[|series| - 1]
    ensures w == 0 ==> ZWindow(series, w) == series
  {
    var n := |series|;
    var a := if w == 0 then 0 else n - Min(n, w);
    assert PyIndex(-(w as int), n) == a;
    assert ZWindow(series, w) == series[a..n];
  }

  /**
   * `time_series[-(neighbor_window_size + 1):-1]`: up to `k` points immediately
   * before the last one, never the last one itself.
   */
  function NeighborWindow(series: seq<real>, k: nat): (neighbors: seq<real>)
    ensures |neighbors| == if |series| == 0 then 0 else Min(k, |series| - 1)
  {
    PySlice(series, -(k + 1), -1)
  }

  /** The neighbour window is the `min(k, len - 1)` values just before the last one. */
  lemma NeighborWindowIsPreceding(series: seq<real>, k: nat)
    ensures |series| > 0 ==> NeighborWindow(series, k) == series[Max(0, |series| - 1 - k)..|series| - 1]
    ensures |series| == 0 ==> NeighborWindow(series, k) == []
  {
  }

  /** The z-score of `x` against `window`; 0 when the window's std is not positive. */
  function ZScore(window: seq<real>, x: real): (z: Score)
    ensures z.Zero? <==> |window| < 2 || Constant(window)
    ensures z.Ratio? ==> z.variance > 0.0
  {
    if StdPositive(window) then Ratio(x - Mean(window), SampleVariance(window).value) else Zero
  }

  /**
   * The global z-score test: the flag and the score it was decided on. A
   * window whose std is not positive gives the score 0, which no
   * non-negative threshold is below.
   */
  function DetectFirstLayerAnomalies(series: seq<real>, x: real, w: nat, threshold: real): (r: (bool, Score))
    ensures r.0 == Exceeds(r.1, threshold)
    ensures !StdPositive(ZWindow(series, w)) ==> r.1 == Zero && r.0 == (threshold < 0.0)
    ensures StdPositive(ZWindow(series, w)) ==> r.1.Ratio? && r.1.variance > 0.0
  {
    var z := ZScore(ZWindow(series, w), x);
    (Exceeds(z, threshold), z)
  }

  /**
   * With `std` the standard deviation of the window, the returned score is
   * `(x - mean) / std`, and the flag is exactly `abs(z) > threshold` for it.
   */
  lemma ZScoreTestMeaning(series: seq<real>, x: real, w: nat, threshold: real, std: real)
    requires IsStdOf(ZWindow(series, w), std)
    ensures var r := DetectFirstLayerAnomalies(series, x, w, threshold);
      var z := (x - Mean(ZWindow(series, w))) / std;
      IsRootOf(r.1, std) && ValueWith(r.1, std) == z && (r.0 <==> Abs(z) > threshold)
  {
    ExceedsIsAbsAbove(ZScore(ZWindow(series, w), x), std, threshold);
  }

  /** The deviation of `x` from the neighbour window, in neighbour standard deviations; 0 if degenerate. */
  function NeighborDeviation(series: seq<real>, x: real, k: nat): (d: Score)
    ensures d.Zero? <==> |series| < 3 || k < 2 || Constant(NeighborWindow(series, k))
    ensures d.Ratio? ==> d.dev >= 0.0 && d.variance > 0.0
  {
    var neighbors := NeighborWindow(series, k);
    if StdPositive(neighbors) then Ratio(Abs(x - Mean(neighbors)), SampleVariance(neighbors).value) else Zero
  }

  /**
   * The neighbour test: `deviation > threshold` for
   * `deviation = abs(x - neighbor_mean) / neighbor_std`.
   */
  function DetectNeighborDeviation(series: seq<real>, x: real, k: nat, threshold: real): (r: bool)
    ensures !StdPositive(NeighborWindow(series, k)) ==> r == (threshold < 0.0)
  {
    Exceeds(NeighborDeviation(series, x, k), threshold)
  }

  /**
   * With `std` the standard deviation of the neighbour window, the test is
   * exactly `abs(x - neighbor_mean) / std > threshold`.
   */
  lemma NeighborTestMeaning(series: seq<real>, x: real, k: nat, threshold: real, std: real)
    requires IsStdOf(NeighborWindow(series, k), std)
    ensures DetectNeighborDeviation(series, x, k, threshold) <==>
      Abs(x - Mean(NeighborWindow(series, k))) / std > threshold
  {
    var d := NeighborDeviation(series, x, k);
    ExceedsIsAbsAbove(d, std, threshold);
    DeviationNonNegative(series, x, k, std);
  }

  /** The neighbour deviation is never negative. */
  lemma DeviationNonNegative(series: seq<real>, x: real, k: nat, root: real)
    requires IsRootOf(NeighborDeviation(series, x, k), root)
    ensures ValueWith(NeighborDeviation(series, x, k), root) >= 0.0
  {
    var d := NeighborDeviation(series, x, k);
    if d.Ratio? {
      assert d.dev >= 0.0;
      assert d.dev / root >= 0.0 / root;
    }
  }

  /**
   * A constant window never raises a flag for a non-negative threshold: the
   * z-score is exactly 0, and so is the neighbour deviation.
   */
  lemma ConstantWindowsNeverFlag(series: seq<real>, x: real, w: nat, k: nat, threshold: real)
    requires threshold >= 0.0
    ensures Constant(ZWindow(series, w)) ==>
      DetectFirstLayerAnomalies(series, x, w, threshold) == (false, Zero)
    ensures Constant(NeighborWindow(series, k)) ==>
      NeighborDeviation(series, x, k) == Zero && !DetectNeighborDeviation(series, x, k, threshold)
  {
  }

  /** Both windows cut from a series of equal values hold equal values. */
  lemma ConstantSeriesWindows(series: seq<real>, w: nat, k: nat)
    requires Constant(series)
    ensures Constant(ZWindow(series, w)) && Constant(NeighborWindow(series, k))
  {
    ZWindowIsTrailing(series, w);
    if w > 0 {
      ConstantSlice(series, |series| - Min(|series|, w), |series|);
    }
    if |series| > 0 {
      NeighborWindowIsPreceding(series, k);
      ConstantSlice(series, Max(0, |series| - 1 - k), |series| - 1);
    }
  }

  /**
   * Thirty points of value 10 followed by a point of value 100, with windows
   * of 10 and thresholds of 2: the z-score test fires (z squared is 8.1), but
   * the neighbour test does not, because its ten neighbours are constant.
   */
  lemma SpikeAfterFlatHistory()
    ensures var series := seq(30, _ => 10.0) + [100.0];
      DetectFirstLayerAnomalies(series, 100.0, 10, 2.0).0 &&
      !DetectNeighborDeviation(series, 100.0, 10, 2.0)
  {
    var series := seq(30, _ => 10.0) + [100.0];
    var window := ZWindow(series, 10);
    ZWindowIsTrailing(series, 10);
    NeighborWindowIsPreceding(series, 10);
    var flat := seq(9, _ => 10.0);
    assert window == flat + [100.0];
    SumConcat(flat, [100.0]);
    SumOfConstant(flat, 10.0);
    assert Mean(window) == 19.0;
    SumSqDevConcat(flat, [100.0], 19.0);
    SumSqDevOfConstant(flat, 10.0, 19.0);
    assert SumSqDev(window, 19.0) == 7290.0;
    assert SampleVariance(window) == Some(810.0);
    var neighbors := NeighborWindow(series, 10);
    assert Constant(neighbors);
    ConstantWindowsNeverFlag(series, 100.0, 10, 10, 2.0);
  }
}
