/**
 * The second layer: residuals of the series against its rolling mean train an
 * isolation forest, and every candidate the forest labels -1 is confirmed.
 *
 * The forest itself (its fit, its randomness, its scores) is outside the
 * model: a `Forest` gives the label of one candidate value once trained on the
 * cleaned residuals. Prediction is row by row, so that is all of it that the
 * selection depends on.
 */
module SecondLayer {
  import opened Wrappers
  import opened SlidingStatistics
  import opened Observations

  /** The trained forest's label for a value: -1 for an outlier, 1 for an inlier. */
  type Forest = (seq<real>, real) -> int

  /** Training an isolation forest on no samples at all fails. */
  datatype ValidationError = EmptyTrainingSet

  /**
   * `time_series.rolling(window=w).mean()` at position `i`: NaN until `w`
   * points exist; over a stretch of equal values, the value itself.
   */
  function RollingMean(values: seq<real>, w: nat, i: nat): (m: Option<real>)
    requires w >= 1 && i < |values|
    ensures m.Some? <==> i >= w - 1
    ensures m.Some? && Constant(values) ==> m.value == values[i]
  {
    if i + 1 < w then None
    else
      var window := values[i + 1 - w..i + 1];
      assert Constant(values) ==> Constant(window) by {
        if Constant(values) {
          ConstantSlice(values, i + 1 - w, i + 1);
        }
      }
      Some(Mean(window))
  }

  /** `time_series - rolling_mean`, position by position, NaN where the mean is. */
  function ResidualSeries(values: seq<real>, w: nat): (residuals: seq<Option<real>>)
    requires w >= 1
    ensures |residuals| == |values|
  {
    seq(|values|, i requires 0 <= i < |values| =>
      match RollingMean(values, w, i)
      case None => None
      case Some(m) => Some(values[i] - m))
  }

  /** `dropna()`: the defined entries, in order. */
  function DropNa(s: seq<Option<real>>): (r: seq<real>)
    ensures |r| <= |s|
  {
    if s == [] then []
    else (if s[0].Some? then [s[0].value] else []) + DropNa(s[1..])
  }

  /**
   * The residuals the forest is trained on: the first `w - 1` are NaN and
   * dropped, so one remains per point from index `w - 1` on.
   */
  function CleanResiduals(values: seq<real>, w: nat): (residuals: seq<real>)
    requires w >= 1
    ensures |residuals| == if |values| >= w then |values| - w + 1 else 0
  {
    CleanResidualsShape(values, w);
    DropNa(ResidualSeries(values, w))
  }

  lemma {:induction false} DropNaConcat(a: seq<Option<real>>, b: seq<Option<real>>)
    ensures DropNa(a + b) == DropNa(a) + DropNa(b)
  {
    if a == [] {
      assert a + b == b;
    } else {
      assert (a + b)[0] == a[0];
      assert (a + b)[1..] == a[1..] + b;
      DropNaConcat(a[1..], b);
    }
  }

  lemma {:induction false} DropNaAllMissing(s: seq<Option<real>>)
    requires forall i :: 0 <= i < |s| ==> s[i].None?
    ensures DropNa(s) == []
  {
    if s != [] {
      DropNaAllMissing(s[1..]);
    }
  }

  lemma {:induction false} DropNaAllPresent(s: seq<Option<real>>)
    requires forall i :: 0 <= i < |s| ==> s[i].Some?
    ensures |DropNa(s)| == |s|
    ensures forall i :: 0 <= i < |s| ==> DropNa(s)[i] == s[i].value
  {
    if s != [] {
      DropNaAllPresent(s[1..]);
    }
  }

  /**
   * The cleaned residuals start at index `w - 1`: there are `n - w + 1` of them
   * when `n >= w` and none otherwise, and each is a value minus the mean of
   * itself and the `w - 1` values before it.
   */
  lemma CleanResidualsShape(values: seq<real>, w: nat)
    requires w >= 1
    ensures var residuals := DropNa(ResidualSeries(values, w));
      && |residuals| == (if |values| >= w then |values| - w + 1 else 0)
      && forall k :: 0 <= k < |residuals| ==> residuals[k] == values[k + w - 1] - Mean(values[k..k + w])
  {
    var s := ResidualSeries(values, w);
    var cut := Min(w - 1, |values|);
    var missing, present := s[..cut], s[cut..];
    assert s == missing + present;
    DropNaConcat(missing, present);
    ResidualsMissingBeforeWindow(values, w, missing);
    DropNaAllMissing(missing);
    ResidualsPresentAfterWindow(values, w, present);
    DropNaAllPresent(present);
  }

  /** The first `w - 1` residuals are missing. */
  lemma ResidualsMissingBeforeWindow(values: seq<real>, w: nat, missing: seq<Option<real>>)
    requires w >= 1
    requires missing == ResidualSeries(values, w)[..Min(w - 1, |values|)]
    ensures forall i :: 0 <= i < |missing| ==> missing[i].None?
  {
  }

  /** From index `w - 1` on, each residual is defined: the value minus its window mean. */
  lemma ResidualsPresentAfterWindow(values: seq<real>, w: nat, present: seq<Option<real>>)
    requires w >= 1
    requires present == ResidualSeries(values, w)[Min(w - 1, |values|)..]
    ensures |present| == if |values| >= w then |values| - w + 1 else 0
    ensures forall k :: 0 <= k < |present| ==>
      present[k] == Some(values[k + w - 1] - Mean(values[k..k + w]))
  {
  }

  /** `isolation_forest.predict(values)`: one label per candidate, decided on its value alone. */
  function Predict(forest: Forest, residuals: seq<real>, candidates: seq<Observation>): (labels: seq<int>)
    ensures |labels| == |candidates|
    ensures forall i, j ::
              0 <= i < |candidates| && 0 <= j < |candidates| && candidates[i].value == candidates[j].value
              ==> labels[i] == labels[j]
  {
    seq(|candidates|, i requires 0 <= i < |candidates| => forest(residuals, candidates[i].value))
  }

  /** The candidates whose label is -1, in candidate order. */
  function Confirm(candidates: seq<Observation>, labels: seq<int>): (confirmed: seq<Observation>)
    requires |labels| == |candidates|
    ensures |confirmed| <= |candidates|
    ensures forall o :: o in confirmed ==> o in candidates
  {
    if candidates == [] then []
    else
      var n := |candidates| - 1;
      Confirm(candidates[..n], labels[..n]) + (if labels[n] == -1 then [candidates[n]] else [])
  }

  /** The positions labelled -1, ascending. */
  function Outliers(labels: seq<int>): (positions: seq<nat>)
    ensures forall j :: 0 <= j < |positions| ==> positions[j] < |labels| && labels[positions[j]] == -1
    ensures forall j, j' :: 0 <= j < j' < |positions| ==> positions[j] < positions[j']
    ensures forall i :: 0 <= i < |labels| && labels[i] == -1 ==> i in positions
  {
    if labels == [] then []
    else
      var n := |labels| - 1;
      Outliers(labels[..n]) + (if labels[n] == -1 then [n] else [])
  }

  /**
   * The confirmed list is exactly the candidates at the positions labelled -1,
   * in their original order.
   */
  lemma {:induction false} ConfirmSelectsOutliers(candidates: seq<Observation>, labels: seq<int>)
    requires |labels| == |candidates|
    ensures |Confirm(candidates, labels)| == |Outliers(labels)|
    ensures forall j :: 0 <= j < |Outliers(labels)| ==>
      Confirm(candidates, labels)[j] == candidates[Outliers(labels)[j]]
  {
    if candidates != [] {
      var n := |candidates| - 1;
      var earlier, earlierLabels := candidates[..n], labels[..n];
      ConfirmSelectsOutliers(earlier, earlierLabels);
      var confirmed, positions := Confirm(earlier, earlierLabels), Outliers(earlierLabels);
      forall j | 0 <= j < |positions|
        ensures Confirm(candidates, labels)[j] == candidates[Outliers(labels)[j]]
      {
        assert Confirm(candidates, labels)[j] == confirmed[j];
        assert Outliers(labels)[j] == positions[j];
        assert earlier[positions[j]] == candidates[positions[j]];
      }
    }
  }

  /**
   * The validation pass. Training on the cleaned residuals fails when there
   * are none; otherwise the result is the candidates the forest labels -1,
   * in candidate order, and an empty candidate list gives an empty result.
   */
  function ValidateWithIsolationForest(values: seq<real>, candidates: seq<Observation>, forest: Forest, w: nat)
    : (r: Result<seq<Observation>, ValidationError>)
    requires w >= 1
    ensures r.Failure? <==> |values| < w
    ensures r.Success? ==> |r.value| <= |candidates| && forall o :: o in r.value ==> o in candidates
    ensures r.Success? && candidates == [] ==> r.value == []
    ensures r.Success? ==>
      var labels := Predict(forest, CleanResiduals(values, w), candidates);
      && |r.value| == |Outliers(labels)|
      && forall j :: 0 <= j < |Outliers(labels)| ==> r.value[j] == candidates[Outliers(labels)[j]]
  {
    var residuals := CleanResiduals(values, w);
    CleanResidualsShape(values, w);
    ConfirmSelectsOutliers(candidates, Predict(forest, residuals, candidates));
    if |residuals| == 0 then Failure(EmptyTrainingSet)
    else if candidates != [] then
      Success(Confirm(candidates, Predict(forest, residuals, candidates)))
    else Success([])
  }
}
