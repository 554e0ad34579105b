/**
 * The streaming driver: each incoming observation is appended to the series,
 * run through both first-layer tests once the series has `slidingWindowSize`
 * points, and every 50th point triggers a validation pass over the whole
 * candidate list whose confirmations are appended to the confirmed list.
 */
module StreamingPipeline {
  import opened Wrappers
  import opened SlidingStatistics
  import opened Observations
  import opened FirstLayer
  import opened SecondLayer
  import opened Prefixes

  /** A validation pass runs when the series length is a positive multiple of this. */
  const BatchSize: nat := 50

  /**
   * `len(time_series) >= 50 and len(time_series) % 50 == 0`: a pass is due
   * exactly at the positive multiples of the batch size.
   */
  predicate ValidationDue(n: nat)
    ensures ValidationDue(n) <==> n > 0 && n % BatchSize == 0
  {
    n >= 50 && n % BatchSize == 0
  }

  /** The detector settings; `modelWindow` is the rolling window of the second layer. */
  datatype Config = Config(
    slidingWindowSize: nat,
    zThreshold: real,
    neighborWindowSize: nat,
    neighborThreshold: real,
    modelWindow: nat)

  /** The settings of the driver script; the model window is the validator's default. */
  const DefaultConfig := Config(40, 2.0, 10, 2.0, 20)

  /** A model window the second layer accepts at every validation point. */
  predicate WellFormed(cfg: Config)
  {
    1 <= cfg.modelWindow <= BatchSize
  }

  /**
   * What the first layer appends to the candidate list for the last point of
   * `series`: nothing during warm-up, otherwise one copy of the point for each
   * test that fires.
   */
  function FirstLayerAppends(cfg: Config, series: seq<Observation>): (appended: seq<Observation>)
    requires |series| > 0
    ensures |appended| <= 2
  {
    var o := series[|series| - 1];
    if |series| < cfg.slidingWindowSize then []
    else
      (if DetectFirstLayerAnomalies(Values(series), o.value, cfg.slidingWindowSize, cfg.zThreshold).0 then [o] else []) +
      (if DetectNeighborDeviation(Values(series), o.value, cfg.neighborWindowSize, cfg.neighborThreshold) then [o] else [])
  }

  /** The confirmations of one validation pass over the whole candidate list. */
  function ValidationPass(cfg: Config, forest: Forest, series: seq<Observation>, candidates: seq<Observation>)
    : (confirmed: seq<Observation>)
    requires WellFormed(cfg) && |series| >= cfg.modelWindow
    ensures |confirmed| <= |candidates|
    ensures var labels := Predict(forest, CleanResiduals(Values(series), cfg.modelWindow), candidates);
      && |confirmed| == |Outliers(labels)|
      && forall j :: 0 <= j < |Outliers(labels)| ==> confirmed[j] == candidates[Outliers(labels)[j]]
  {
    ValidateWithIsolationForest(Values(series), candidates, forest, cfg.modelWindow).value
  }

  /**
   * The first layer appends nothing during warm-up; afterwards it appends the
   * current point once for each of the two tests that fires, so a point
   * flagged by both tests is a candidate twice.
   */
  lemma FirstLayerAppendsCount(cfg: Config, series: seq<Observation>)
    requires |series| > 0
    ensures var appended := FirstLayerAppends(cfg, series);
      var x := series[|series| - 1].value;
      && (|series| < cfg.slidingWindowSize ==> appended == [])
      && (|series| >= cfg.slidingWindowSize ==>
            |appended| ==
              (if DetectFirstLayerAnomalies(Values(series), x, cfg.slidingWindowSize, cfg.zThreshold).0 then 1 else 0) +
              (if DetectNeighborDeviation(Values(series), x, cfg.neighborWindowSize, cfg.neighborThreshold) then 1 else 0))
      && (forall k :: 0 <= k < |appended| ==> appended[k] == series[|series| - 1])
  {
  }

  /** A validation pass only confirms candidates, and confirms nothing when there are none. */
  lemma ValidationPassSelects(cfg: Config, forest: Forest, series: seq<Observation>, candidates: seq<Observation>)
    requires WellFormed(cfg) && |series| >= cfg.modelWindow
    ensures forall o :: o in ValidationPass(cfg, forest, series, candidates) ==> o in candidates
    ensures candidates == [] ==> ValidationPass(cfg, forest, series, candidates) == []
  {
  }

  /** The source's settings (40, 2, 10, 2 and the validator's window of 20) are accepted by `Step`. */
  lemma DefaultConfigWellFormed()
    ensures WellFormed(DefaultConfig)
  {
  }

  /** The candidate list after the points of `stream` have been processed, in order. */
  function CandidatesAfter(cfg: Config, stream: seq<Observation>): (candidates: seq<Observation>)
    ensures |candidates| <= 2 * |stream|
  {
    if stream == [] then []
    else
      CandidatesAfter(cfg, stream[..|stream| - 1]) + FirstLayerAppends(cfg, stream)
  }

  /**
   * The confirmed list after the points of `stream` have been processed, in
   * order; nothing is confirmed before the first batch of 50 points.
   */
  function ConfirmedAfter(cfg: Config, forest: Forest, stream: seq<Observation>): (confirmed: seq<Observation>)
    requires WellFormed(cfg)
    ensures |stream| < BatchSize ==> |confirmed| == 0
  {
    if stream == [] then []
    else
      ConfirmedAfter(cfg, forest, stream[..|stream| - 1]) +
      (if ValidationDue(|stream|) then ValidationPass(cfg, forest, stream, CandidatesAfter(cfg, stream)) else [])
  }

  /** Every candidate is one of the observations of the stream, timestamp and value alike. */
  lemma {:induction false} CandidatesAreObservations(cfg: Config, stream: seq<Observation>)
    ensures forall c :: c in CandidatesAfter(cfg, stream) ==> c in stream
  {
    if stream != [] {
      var n := |stream| - 1;
      CandidatesAreObservations(cfg, stream[..n]);
      FirstLayerAppendsCount(cfg, stream);
      forall c | c in CandidatesAfter(cfg, stream)
        ensures c in stream
      {
        if c in CandidatesAfter(cfg, stream[..n]) {
          assert c in stream[..n];
        } else {
          assert c in FirstLayerAppends(cfg, stream);
        }
      }
    }
  }

  /** Nothing is a candidate before the series holds `slidingWindowSize` points. */
  lemma {:induction false} NoCandidatesDuringWarmUp(cfg: Config, stream: seq<Observation>)
    requires |stream| < cfg.slidingWindowSize
    ensures CandidatesAfter(cfg, stream) == []
  {
    if stream != [] {
      NoCandidatesDuringWarmUp(cfg, stream[..|stream| - 1]);
      FirstLayerAppendsCount(cfg, stream);
    }
  }

  /** On a series whose values are all equal, neither test fires for non-negative thresholds. */
  lemma FirstLayerQuietOnConstant(cfg: Config, series: seq<Observation>)
    requires |series| > 0 && cfg.zThreshold >= 0.0 && cfg.neighborThreshold >= 0.0
    requires Constant(Values(series))
    ensures FirstLayerAppends(cfg, series) == []
  {
    var v := Values(series);
    var x := series[|series| - 1].value;
    ConstantSeriesWindows(v, cfg.slidingWindowSize, cfg.neighborWindowSize);
    ConstantWindowsNeverFlag(v, x, cfg.slidingWindowSize, cfg.neighborWindowSize, cfg.zThreshold);
    ConstantWindowsNeverFlag(v, x, cfg.slidingWindowSize, cfg.neighborWindowSize, cfg.neighborThreshold);
  }

  /** Every prefix of a stream of equal values is itself a stream of equal values. */
  lemma ConstantPrefix(stream: seq<Observation>, n: nat)
    requires n <= |stream| && Constant(Values(stream))
    ensures Constant(Values(stream[..n]))
  {
    var v, u := Values(stream), Values(stream[..n]);
    forall i, j | 0 <= i < |u| && 0 <= j < |u|
      ensures u[i] == u[j]
    {
      assert u[i] == v[i] && u[j] == v[j];
    }
  }

  /** A stream whose values are all equal produces no candidate. */
  lemma {:induction false} ConstantStreamNoCandidates(cfg: Config, stream: seq<Observation>)
    requires cfg.zThreshold >= 0.0 && cfg.neighborThreshold >= 0.0
    requires Constant(Values(stream))
    ensures CandidatesAfter(cfg, stream) == []
  {
    if stream != [] {
      var n := |stream| - 1;
      ConstantPrefix(stream, n);
      ConstantStreamNoCandidates(cfg, stream[..n]);
      FirstLayerQuietOnConstant(cfg, stream);
      assert CandidatesAfter(cfg, stream) == [] + [];
    }
  }

  /**
   * A stream whose values are all equal produces no candidate, and every
   * validation pass over it confirms nothing.
   */
  lemma {:induction false} ConstantStreamRaisesNothing(cfg: Config, forest: Forest, stream: seq<Observation>)
    requires WellFormed(cfg) && cfg.zThreshold >= 0.0 && cfg.neighborThreshold >= 0.0
    requires Constant(Values(stream))
    ensures CandidatesAfter(cfg, stream) == []
    ensures ConfirmedAfter(cfg, forest, stream) == []
  {
    ConstantStreamNoCandidates(cfg, stream);
    if stream != [] {
      var n := |stream| - 1;
      ConstantPrefix(stream, n);
      ConstantStreamRaisesNothing(cfg, forest, stream[..n]);
      if ValidationDue(|stream|) {
        ValidationPassSelects(cfg, forest, stream, []);
      }
    }
  }

  /** One more point only appends to the candidate list. */
  lemma CandidatesStep(cfg: Config, stream: seq<Observation>)
    requires |stream| > 0
    ensures CandidatesAfter(cfg, stream[..|stream| - 1]) <= CandidatesAfter(cfg, stream)
  {
    PrefixOfAppend(CandidatesAfter(cfg, stream[..|stream| - 1]), FirstLayerAppends(cfg, stream));
  }

  /** Processing more points never changes the candidates found so far. */
  lemma {:induction false} CandidatesOnlyGrow(cfg: Config, stream: seq<Observation>, i: nat)
    requires i <= |stream|
    ensures CandidatesAfter(cfg, stream[..i]) <= CandidatesAfter(cfg, stream)
  {
    if i < |stream| {
      var n := |stream| - 1;
      PrefixOfPrefix(stream, n, i);
      CandidatesOnlyGrow(cfg, stream[..n], i);
      CandidatesStep(cfg, stream);
      PrefixTransitive(CandidatesAfter(cfg, stream[..i]), CandidatesAfter(cfg, stream[..n]), CandidatesAfter(cfg, stream));
    } else {
      PrefixFull(stream);
      PrefixReflexive(CandidatesAfter(cfg, stream));
    }
  }

  /** One more point only appends to the confirmed list. */
  lemma ConfirmedStep(cfg: Config, forest: Forest, stream: seq<Observation>)
    requires WellFormed(cfg) && |stream| > 0
    ensures ConfirmedAfter(cfg, forest, stream[..|stream| - 1]) <= ConfirmedAfter(cfg, forest, stream)
  {
    var pass := if ValidationDue(|stream|) then ValidationPass(cfg, forest, stream, CandidatesAfter(cfg, stream)) else [];
    PrefixOfAppend(ConfirmedAfter(cfg, forest, stream[..|stream| - 1]), pass);
  }

  /** Processing more points never changes the confirmations made so far. */
  lemma {:induction false} ConfirmedOnlyGrow(cfg: Config, forest: Forest, stream: seq<Observation>, i: nat)
    requires WellFormed(cfg) && i <= |stream|
    ensures ConfirmedAfter(cfg, forest, stream[..i]) <= ConfirmedAfter(cfg, forest, stream)
  {
    if i < |stream| {
      var n := |stream| - 1;
      PrefixOfPrefix(stream, n, i);
      ConfirmedOnlyGrow(cfg, forest, stream[..n], i);
      ConfirmedStep(cfg, forest, stream);
      PrefixTransitive(ConfirmedAfter(cfg, forest, stream[..i]), ConfirmedAfter(cfg, forest, stream[..n]),
        ConfirmedAfter(cfg, forest, stream));
    } else {
      PrefixFull(stream);
      PrefixReflexive(ConfirmedAfter(cfg, forest, stream));
    }
  }

  /**
   * No fabricated anomalies: every confirmed entry is, with the same timestamp
   * and value, an entry of the candidate list.
   */
  lemma {:induction false} ConfirmedAreCandidates(cfg: Config, forest: Forest, stream: seq<Observation>)
    requires WellFormed(cfg)
    ensures forall c :: c in ConfirmedAfter(cfg, forest, stream) ==> c in CandidatesAfter(cfg, stream)
  {
    if stream != [] {
      var n := |stream| - 1;
      ConfirmedAreCandidates(cfg, forest, stream[..n]);
      CandidatesOnlyGrow(cfg, stream, n);
      if ValidationDue(|stream|) {
        ValidationPassSelects(cfg, forest, stream, CandidatesAfter(cfg, stream));
      }
    }
  }

  /** Between two validation points the confirmed list does not change. */
  lemma {:induction false} ConfirmedOnlyAtBatchPoints(cfg: Config, forest: Forest, stream: seq<Observation>)
    requires WellFormed(cfg)
    ensures ConfirmedAfter(cfg, forest, stream) ==
      ConfirmedAfter(cfg, forest, stream[..|stream| / BatchSize * BatchSize])
  {
    var m := |stream| / BatchSize * BatchSize;
    if |stream| == m {
      PrefixFull(stream);
    } else {
      var n := |stream| - 1;
      assert !ValidationDue(|stream|);
      assert n / BatchSize * BatchSize == m;
      PrefixOfPrefix(stream, n, m);
      ConfirmedOnlyAtBatchPoints(cfg, forest, stream[..n]);
    }
  }

  /**
   * After `n` points, `n / BatchSize` passes have run: the count goes up by
   * one exactly at the points where a validation is due.
   */
  lemma PassCount(n: nat)
    ensures (n + 1) / BatchSize == n / BatchSize + (if ValidationDue(n + 1) then 1 else 0)
  {
    var q, r := n / BatchSize, n % BatchSize;
    assert n == q * BatchSize + r && r < BatchSize;
    if r + 1 == BatchSize {
      assert n + 1 == (q + 1) * BatchSize;
    } else {
      assert n + 1 == q * BatchSize + (r + 1);
    }
  }

  /** How the candidate and confirmed lists extend when one more point arrives. */
  lemma NextPoint(cfg: Config, forest: Forest, stream: seq<Observation>)
    requires WellFormed(cfg) && |stream| > 0
    ensures CandidatesAfter(cfg, stream) ==
      CandidatesAfter(cfg, stream[..|stream| - 1]) + FirstLayerAppends(cfg, stream)
    ensures ConfirmedAfter(cfg, forest, stream) ==
      ConfirmedAfter(cfg, forest, stream[..|stream| - 1]) +
      (if ValidationDue(|stream|) then ValidationPass(cfg, forest, stream, CandidatesAfter(cfg, stream)) else [])
  {
  }

  class AnomalyPipeline {
    const cfg: Config
    const forest: Forest
    var series: seq<Observation>
    var candidates: seq<Observation>
    var confirmed: seq<Observation>
    /** The number of validation passes run so far. */
    ghost var passes: nat

    /**
     * The lists are those the loop has built from the series so far, and one
     * pass has run per multiple of 50 reached.
     */
    ghost predicate Valid()
      reads this
      ensures Valid() ==> |candidates| <= 2 * |series|
      ensures Valid() ==> forall c :: c in confirmed ==> c in candidates
    {
      && WellFormed(cfg)
      && (ConfirmedAreCandidates(cfg, forest, series);
          && candidates == CandidatesAfter(cfg, series)
          && confirmed == ConfirmedAfter(cfg, forest, series)
          && passes == |series| / BatchSize)
    }

    constructor (cfg: Config, forest: Forest)
      requires WellFormed(cfg)
      ensures Valid()
      ensures this.cfg == cfg && this.forest == forest
      ensures series == [] && candidates == [] && confirmed == []
    {
      this.cfg := cfg;
      this.forest := forest;
      series, candidates, confirmed := [], [], [];
      passes := 0;
    }

    /** One iteration of the streaming loop, for the observation `(timestamp, value)`. */
    method Step(timestamp: Timestamp, value: real)
      requires Valid()
      modifies this
      ensures Valid()
      ensures series == old(series) + [Observation(timestamp, value)]
      ensures candidates == old(candidates) + FirstLayerAppends(cfg, series)
      ensures confirmed == old(confirmed) +
        (if ValidationDue(|series|) then ValidationPass(cfg, forest, series, candidates) else [])
      ensures passes == old(passes) + (if ValidationDue(|series|) then 1 else 0)
    {
      series := series + [Observation(timestamp, value)];
      PrefixOfAppend(old(series), [Observation(timestamp, value)]);
      DetectLatest();
      ValidateIfDue();
      NextPoint(cfg, forest, series);
      PassCount(|old(series)|);
    }

    /** The first layer on the point just appended: one candidate append per test that fires. */
    method DetectLatest()
      requires |series| > 0
      modifies this`candidates
      ensures candidates == old(candidates) + FirstLayerAppends(cfg, series)
    {
      var o := series[|series| - 1];
      var values := Values(series);
      if |series| >= cfg.slidingWindowSize {
        var flagged := DetectFirstLayerAnomalies(values, o.value, cfg.slidingWindowSize, cfg.zThreshold);
        if flagged.0 {
          candidates := candidates + [o];
        }
        if DetectNeighborDeviation(values, o.value, cfg.neighborWindowSize, cfg.neighborThreshold) {
          candidates := candidates + [o];
        }
      }
    }

    /** The validation pass, when the series length calls for one. */
    method ValidateIfDue()
      requires WellFormed(cfg)
      modifies this`confirmed, this`passes
      ensures confirmed == old(confirmed) +
        (if ValidationDue(|series|) then ValidationPass(cfg, forest, series, candidates) else [])
      ensures passes == old(passes) + (if ValidationDue(|series|) then 1 else 0)
    {
      if |series| >= 50 && |series| % 50 == 0 {
        var validated := ValidateWithIsolationForest(Values(series), candidates, forest, cfg.modelWindow);
        confirmed := confirmed + validated.value;
        passes := passes + 1;
      }
    }
  }

  /** The streaming loop over a finite stream of observations. */
  method Run(cfg: Config, forest: Forest, stream: seq<Observation>) returns (p: AnomalyPipeline)
    requires WellFormed(cfg)
    ensures fresh(p) && p.Valid() && p.cfg == cfg
    ensures p.series == stream
    ensures p.candidates == CandidatesAfter(cfg, stream)
    ensures p.confirmed == ConfirmedAfter(cfg, forest, stream)
    ensures p.passes == |stream| / BatchSize
  {
    p := new AnomalyPipeline(cfg, forest);
    var i := 0;
    while i < |stream|
      invariant 0 <= i <= |stream|
      invariant fresh(p) && p.Valid() && p.cfg == cfg
      invariant p.series == stream[..i]
    {
      var o := stream[i];
      p.Step(o.timestamp, o.value);
      PrefixGrows(stream, i);
      i := i + 1;
    }
    PrefixFull(stream);
  }
}
