/**
 * Model-quality monitoring of the ML scores. Every recorded score is clipped to [0, 1] and
 * appended to a recent window that evicts its oldest score when full, and to a baseline that
 * keeps the first scores only. After each score the monitor publishes the recent mean, the
 * recent variance, the drift (distance between the recent and baseline means) and the share of
 * low-confidence recent scores, and counts a drift spike or a low-confidence spike each time
 * its metric reaches its threshold after having been below it.
 */
module ModelQuality {
  import opened Wrappers
  import opened Numeric

  /** The monitor's settings after normalisation. */
  datatype MonitorConfig = MonitorConfig(
    baselineWindowSize: int,
    recentWindowSize: int,
    lowConfidenceMin: real,
    lowConfidenceMax: real,
    driftAlertThreshold: real,
    lowConfidenceAlertThreshold: real)

  predicate ConfigValid(config: MonitorConfig)
  {
    && config.baselineWindowSize >= 1 && config.recentWindowSize >= 1
    && 0.0 <= config.lowConfidenceMin <= config.lowConfidenceMax <= 1.0
    && config.driftAlertThreshold >= 0.0
    && 0.0 <= config.lowConfidenceAlertThreshold <= 1.0
  }

  /** The constructor's normalisation: windows of at least 1, probabilities clipped, max not below min. */
  function NormalizeConfig(baselineWindowSize: int, recentWindowSize: int, lowConfidenceMin: real, lowConfidenceMax: real,
                           driftAlertThreshold: real, lowConfidenceAlertThreshold: real): (config: MonitorConfig)
    ensures ConfigValid(config)
    ensures baselineWindowSize >= 1 ==> config.baselineWindowSize == baselineWindowSize
    ensures recentWindowSize >= 1 ==> config.recentWindowSize == recentWindowSize
    ensures 0.0 <= lowConfidenceMin <= lowConfidenceMax <= 1.0 ==>
      config.lowConfidenceMin == lowConfidenceMin && config.lowConfidenceMax == lowConfidenceMax
    ensures driftAlertThreshold >= 0.0 ==> config.driftAlertThreshold == driftAlertThreshold
    ensures config.lowConfidenceAlertThreshold == Clamp01(lowConfidenceAlertThreshold)
  {
    var minimum := Clamp01(lowConfidenceMin);
    MonitorConfig(
      Max(1, baselineWindowSize),
      Max(1, recentWindowSize),
      minimum,
      MaxReal(minimum, Clamp01(lowConfidenceMax)),
      MaxReal(0.0, driftAlertThreshold),
      Clamp01(lowConfidenceAlertThreshold))
  }

  /**
   * The least magnitude that `BigDecimal.doubleValue` turns into an infinity: halfway between
   * `Double.MAX_VALUE` (2^1024 - 2^971) and 2^1024, which rounds to the even neighbour, infinity.
   */
  const DOUBLE_OVERFLOW: real := 179769313486231580793728971405303415079934132710037826936173778980444968292764750946649017977587207096330286416692887910946555547851940402630657488671505820681908902000708383676273854845817711531764475730270069855571366959622842914819860834936475292719074168444365510704342711559699508093042880177904174497792.0

  /**
   * `clampScore`: a missing score is 0; a score too large in magnitude for a `double` becomes an
   * infinity, which `clipProbability` records as 0; others are clipped to [0, 1].
   */
  function ClampScore(score: Option<real>): (r: real)
    ensures 0.0 <= r <= 1.0
    ensures score.None? ==> r == 0.0
    ensures score.Some? && (score.value >= DOUBLE_OVERFLOW || score.value <= -DOUBLE_OVERFLOW) ==> r == 0.0
    ensures score.Some? && -DOUBLE_OVERFLOW < score.value < DOUBLE_OVERFLOW ==> r == Clamp01(score.value)
    ensures score.Some? && 0.0 <= score.value <= 1.0 ==> r == score.value
  {
    if score.None? || score.value >= DOUBLE_OVERFLOW || score.value <= -DOUBLE_OVERFLOW then 0.0
    else Clamp01(score.value)
  }

  function Sum(values: seq<real>): real
  {
    if |values| == 0 then 0.0 else Sum(values[..|values| - 1]) + values[|values| - 1]
  }

  /** The arithmetic mean, 0 for no values. */
  function MeanOf(values: seq<real>): real
  {
    if |values| == 0 then 0.0 else Sum(values) / |values| as real
  }

  function SquaredDeviations(values: seq<real>, mean: real): real
  {
    if |values| == 0 then 0.0
    else
      var delta := values[|values| - 1] - mean;
      SquaredDeviations(values[..|values| - 1], mean) + delta * delta
  }

  /** The population variance around `mean`, 0 for no values; the published deviation is its square root. */
  function VarianceOf(values: seq<real>, mean: real): real
  {
    if |values| == 0 then 0.0 else SquaredDeviations(values, mean) / |values| as real
  }

  /** How many values lie in [lo, hi]. */
  function CountWithin(values: seq<real>, lo: real, hi: real): nat
  {
    if |values| == 0 then 0
    else CountWithin(values[..|values| - 1], lo, hi) + if lo <= values[|values| - 1] <= hi then 1 else 0
  }

  /** The share of values in [lo, hi], 0 for no values. */
  function RatioOf(values: seq<real>, lo: real, hi: real): real
  {
    if |values| == 0 then 0.0 else CountWithin(values, lo, hi) as real / |values| as real
  }

  /** `appendValue`: append, first evicting the oldest value when the window is full. */
  function AppendValue(values: seq<real>, score: real, maxSize: int): (r: seq<real>)
    requires 1 <= maxSize && |values| <= maxSize
    ensures |r| == Min(|values| + 1, maxSize)
    ensures r == (values + [score])[|values| + 1 - |r|..]
  {
    if |values| >= maxSize then values[1..] + [score] else values + [score]
  }

  /** `appendBaseline`: append only while the baseline is not full. */
  function AppendBaseline(baseline: seq<real>, score: real, maxSize: int): (r: seq<real>)
    ensures baseline <= r <= baseline + [score]
    ensures |r| == Min(|baseline| + 1, Max(maxSize, |baseline|))
  {
    if |baseline| < maxSize then baseline + [score] else baseline
  }

  /** The published gauges. */
  datatype Gauges = Gauges(mean: real, variance: real, drift: real, lowConfidenceRatio: real)

  /** Everything the monitor keeps between scores. */
  datatype MonitorState = MonitorState(
    baseline: seq<real>,
    recent: seq<real>,
    gauges: Gauges,
    driftSpikeOpen: bool,
    lowConfidenceSpikeOpen: bool,
    driftSpikes: nat,
    lowConfidenceSpikes: nat)

  const INITIAL_STATE: MonitorState := MonitorState([], [], Gauges(0.0, 0.0, 0.0, 0.0), false, false, 0, 0)

  /** An edge-triggered alarm: count when the metric reaches the threshold while closed; reopen once it falls below. */
  function Spike(reached: bool, open: bool, count: nat): (bool, nat)
  {
    if reached then (true, if open then count else count + 1) else (false, count)
  }

  function AbsReal(x: real): real { if x >= 0.0 then x else -x }

  /** The gauges computed from the two windows after a score is appended. */
  function Measure(recent: seq<real>, baseline: seq<real>, config: MonitorConfig): Gauges
  {
    var recentMean := MeanOf(recent);
    var baselineMean := if |baseline| == 0 then recentMean else MeanOf(baseline);
    Gauges(recentMean, VarianceOf(recent, recentMean), AbsReal(recentMean - baselineMean),
           RatioOf(recent, config.lowConfidenceMin, config.lowConfidenceMax))
  }

  /** `recordMlScore` on the monitor's state. */
  function Record(st: MonitorState, config: MonitorConfig, mlScore: Option<real>): MonitorState
    requires ConfigValid(config) && |st.recent| <= config.recentWindowSize
  {
    var score := ClampScore(mlScore);
    var recent := AppendValue(st.recent, score, config.recentWindowSize);
    var baseline := AppendBaseline(st.baseline, score, config.baselineWindowSize);
    var gauges := Measure(recent, baseline, config);
    var drift := Spike(gauges.drift >= config.driftAlertThreshold, st.driftSpikeOpen, st.driftSpikes);
    var low := Spike(gauges.lowConfidenceRatio >= config.lowConfidenceAlertThreshold, st.lowConfidenceSpikeOpen, st.lowConfidenceSpikes);
    MonitorState(baseline, recent, gauges, drift.0, low.0, drift.1, low.1)
  }

  predicate AllWithin(values: seq<real>, lo: real, hi: real)
  {
    forall i :: 0 <= i < |values| ==> lo <= values[i] <= hi
  }

  /** What holds of the monitor between scores. */
  predicate StateValid(st: MonitorState, config: MonitorConfig)
  {
    && |st.recent| <= config.recentWindowSize
    && |st.baseline| <= config.baselineWindowSize
    && AllWithin(st.recent, 0.0, 1.0) && AllWithin(st.baseline, 0.0, 1.0)
    && 0.0 <= st.gauges.mean <= 1.0
    && st.gauges.variance >= 0.0
    && 0.0 <= st.gauges.drift <= 1.0
    && 0.0 <= st.gauges.lowConfidenceRatio <= 1.0
    && (st.driftSpikeOpen ==> st.driftSpikes >= 1)
    && (st.lowConfidenceSpikeOpen ==> st.lowConfidenceSpikes >= 1)
  }

  lemma {:induction false} SumBounds(values: seq<real>, lo: real, hi: real)
    requires AllWithin(values, lo, hi)
    ensures |values| as real * lo <= Sum(values) <= |values| as real * hi
  {
    if |values| > 0 {
      var init := values[..|values| - 1];
      assert AllWithin(init, lo, hi) by {
        forall i | 0 <= i < |init| ensures lo <= init[i] <= hi { assert init[i] == values[i]; }
      }
      SumBounds(init, lo, hi);
      assert |values| as real * lo == |init| as real * lo + lo;
      assert |values| as real * hi == |init| as real * hi + hi;
    }
  }

  /** The mean of values in [lo, hi] is in [lo, hi]. */
  lemma MeanBounds(values: seq<real>, lo: real, hi: real)
    requires |values| > 0 && AllWithin(values, lo, hi)
    ensures lo <= MeanOf(values) <= hi
  {
    SumBounds(values, lo, hi);
    DivideBounds(Sum(values), |values| as real, lo, hi);
  }

  /** Equal values have that value as mean and no variance around it. */
  lemma {:induction false} ConstantValues(values: seq<real>, c: real)
    requires |values| > 0 && AllWithin(values, c, c)
    ensures MeanOf(values) == c
    ensures VarianceOf(values, c) == 0.0
  {
    MeanBounds(values, c, c);
    NoDeviation(values, c);
  }

  lemma {:induction false} NoDeviation(values: seq<real>, c: real)
    requires AllWithin(values, c, c)
    ensures SquaredDeviations(values, c) == 0.0
  {
    if |values| > 0 {
      var init := values[..|values| - 1];
      assert AllWithin(init, c, c) by {
        forall i | 0 <= i < |init| ensures c <= init[i] <= c { assert init[i] == values[i]; }
      }
      NoDeviation(init, c);
    }
  }

  lemma {:induction false} SquaredDeviationsNonNegative(values: seq<real>, mean: real)
    ensures SquaredDeviations(values, mean) >= 0.0
  {
    if |values| > 0 {
      SquaredDeviationsNonNegative(values[..|values| - 1], mean);
      var delta := values[|values| - 1] - mean;
      assert delta * delta >= 0.0;
    }
  }

  lemma {:induction false} CountWithinBounds(values: seq<real>, lo: real, hi: real)
    ensures CountWithin(values, lo, hi) <= |values|
    ensures AllWithin(values, lo, hi) ==> CountWithin(values, lo, hi) == |values|
  {
    if |values| > 0 {
      var init := values[..|values| - 1];
      CountWithinBounds(init, lo, hi);
      if AllWithin(values, lo, hi) {
        assert AllWithin(init, lo, hi) by {
          forall i | 0 <= i < |init| ensures lo <= init[i] <= hi { assert init[i] == values[i]; }
        }
      }
    }
  }

  /** The low-confidence ratio is a share: within [0, 1], and 1 when every value is low-confidence. */
  lemma RatioBounds(values: seq<real>, lo: real, hi: real)
    ensures 0.0 <= RatioOf(values, lo, hi) <= 1.0
    ensures |values| > 0 && AllWithin(values, lo, hi) ==> RatioOf(values, lo, hi) == 1.0
  {
    CountWithinBounds(values, lo, hi);
    if |values| > 0 {
      var n := |values| as real;
      DivideBounds(CountWithin(values, lo, hi) as real, n, 0.0, 1.0);
    }
  }

  /** Gauges over windows of scores in [0, 1]: mean, drift and ratio in [0, 1], variance not negative. */
  lemma MeasureBounds(recent: seq<real>, baseline: seq<real>, config: MonitorConfig)
    requires |recent| > 0 && AllWithin(recent, 0.0, 1.0) && AllWithin(baseline, 0.0, 1.0)
    ensures var gauges := Measure(recent, baseline, config);
      && 0.0 <= gauges.mean <= 1.0 && gauges.variance >= 0.0
      && 0.0 <= gauges.drift <= 1.0 && 0.0 <= gauges.lowConfidenceRatio <= 1.0
  {
    MeanBounds(recent, 0.0, 1.0);
    if |baseline| > 0 {
      MeanBounds(baseline, 0.0, 1.0);
    }
    var mean := MeanOf(recent);
    SquaredDeviationsNonNegative(recent, mean);
    var total := SquaredDeviations(recent, mean);
    var n := |recent| as real;
    DivideBounds(total, n, 0.0, total);
    RatioBounds(recent, config.lowConfidenceMin, config.lowConfidenceMax);
  }

  /** Appending a score in range to either window keeps every score in range. */
  lemma AppendWithin(values: seq<real>, score: real, maxSize: int)
    requires AllWithin(values, 0.0, 1.0) && 0.0 <= score <= 1.0
    ensures AllWithin(AppendBaseline(values, score, maxSize), 0.0, 1.0)
    ensures 1 <= maxSize && |values| <= maxSize ==> AllWithin(AppendValue(values, score, maxSize), 0.0, 1.0)
  {
    var extended := values + [score];
    assert AllWithin(extended, 0.0, 1.0);
    if 1 <= maxSize && |values| <= maxSize {
      var r := AppendValue(values, score, maxSize);
      var d := |values| + 1 - |r|;
      forall i | 0 <= i < |r| ensures 0.0 <= r[i] <= 1.0 {
        assert r[i] == extended[d + i];
      }
    }
  }

  /** Recording keeps the windows bounded, every score and gauge in range, and an open alarm counted. */
  lemma RecordPreservesValid(st: MonitorState, config: MonitorConfig, mlScore: Option<real>)
    requires ConfigValid(config) && StateValid(st, config)
    ensures StateValid(Record(st, config, mlScore), config)
  {
    RecordWindowsValid(st, config, mlScore);
    RecordGaugesValid(st, config, mlScore);
  }

  lemma RecordWindowsValid(st: MonitorState, config: MonitorConfig, mlScore: Option<real>)
    requires ConfigValid(config) && StateValid(st, config)
    ensures var r := Record(st, config, mlScore);
      AllWithin(r.recent, 0.0, 1.0) && AllWithin(r.baseline, 0.0, 1.0)
  {
    var score := ClampScore(mlScore);
    AppendWithin(st.recent, score, config.recentWindowSize);
    AppendWithin(st.baseline, score, config.baselineWindowSize);
  }

  lemma RecordGaugesValid(st: MonitorState, config: MonitorConfig, mlScore: Option<real>)
    requires ConfigValid(config) && StateValid(st, config)
    ensures var gauges := Record(st, config, mlScore).gauges;
      && 0.0 <= gauges.mean <= 1.0 && gauges.variance >= 0.0
      && 0.0 <= gauges.drift <= 1.0 && 0.0 <= gauges.lowConfidenceRatio <= 1.0
  {
    RecordWindowsValid(st, config, mlScore);
    var r := Record(st, config, mlScore);
    MeasureBounds(r.recent, r.baseline, config);
  }

  /** The state after recording each score in turn. */
  function RecordAll(config: MonitorConfig, scores: seq<Option<real>>): (st: MonitorState)
    requires ConfigValid(config)
    ensures |st.recent| <= config.recentWindowSize
  {
    if |scores| == 0 then INITIAL_STATE
    else Record(RecordAll(config, scores[..|scores| - 1]), config, scores[|scores| - 1])
  }

  /** Every state the monitor goes through is valid. */
  lemma {:induction false} RecordAllValid(config: MonitorConfig, scores: seq<Option<real>>)
    requires ConfigValid(config)
    ensures StateValid(RecordAll(config, scores), config)
  {
    if |scores| > 0 {
      RecordAllValid(config, scores[..|scores| - 1]);
      RecordPreservesValid(RecordAll(config, scores[..|scores| - 1]), config, scores[|scores| - 1]);
    }
  }

  /**
   * After at least one score the gauges are those of the current windows, and an alarm whose
   * metric is at or above its threshold is open and has been counted.
   */
  lemma RecordAllLast(config: MonitorConfig, scores: seq<Option<real>>)
    requires ConfigValid(config) && |scores| > 0
    ensures var st := RecordAll(config, scores);
      && st.gauges == Measure(st.recent, st.baseline, config)
      && (st.gauges.drift >= config.driftAlertThreshold <==> st.driftSpikeOpen)
      && (st.driftSpikeOpen ==> st.driftSpikes >= 1)
      && (st.gauges.lowConfidenceRatio >= config.lowConfidenceAlertThreshold <==> st.lowConfidenceSpikeOpen)
      && (st.lowConfidenceSpikeOpen ==> st.lowConfidenceSpikes >= 1)
  {
    RecordAllValid(config, scores[..|scores| - 1]);
  }

  /** The clipped scores, in order. */
  function Clamped(scores: seq<Option<real>>): (r: seq<real>)
    ensures |r| == |scores|
    ensures forall i :: 0 <= i < |scores| ==> r[i] == ClampScore(scores[i])
  {
    if |scores| == 0 then [] else Clamped(scores[..|scores| - 1]) + [ClampScore(scores[|scores| - 1])]
  }

  /** The last `w` values, or all of them when there are fewer. */
  function LastN(values: seq<real>, w: int): seq<real>
  {
    values[|values| - Min(|values|, Max(w, 0))..]
  }

  /** The first `w` values, or all of them when there are fewer. */
  function FirstN(values: seq<real>, w: int): seq<real>
  {
    values[..Min(|values|, Max(w, 0))]
  }

  /** Appending to the recent window of a prefix gives the recent window of the longer prefix. */
  lemma AppendValueKeepsLast(values: seq<real>, w: int)
    requires w >= 1 && |values| > 0
    ensures var init := values[..|values| - 1];
      AppendValue(LastN(init, w), values[|values| - 1], w) == LastN(values, w)
  {
    var n := |values|;
    var init := values[..n - 1];
    var m := Min(n - 1, w);
    assert LastN(init, w) + [values[n - 1]] == values[n - 1 - m..];
  }

  /** Appending to the baseline of a prefix gives the baseline of the longer prefix. */
  lemma AppendBaselineKeepsFirst(values: seq<real>, w: int)
    requires w >= 1 && |values| > 0
    ensures var init := values[..|values| - 1];
      AppendBaseline(FirstN(init, w), values[|values| - 1], w) == FirstN(values, w)
  {
    var n := |values|;
    if n - 1 < w {
      assert FirstN(values[..n - 1], w) + [values[n - 1]] == values;
    }
  }

  /** One more score: the windows are appended to as `recordMlScore` does. */
  lemma RecordAllStep(config: MonitorConfig, scores: seq<Option<real>>)
    requires ConfigValid(config) && |scores| > 0
    ensures var before := RecordAll(config, scores[..|scores| - 1]);
      var score := ClampScore(scores[|scores| - 1]);
      var st := RecordAll(config, scores);
      && st.recent == AppendValue(before.recent, score, config.recentWindowSize)
      && st.baseline == AppendBaseline(before.baseline, score, config.baselineWindowSize)
  {
  }

  /**
   * After any sequence of scores the recent window holds the last min(n, recentWindowSize)
   * clipped scores and the baseline the first min(n, baselineWindowSize), both in order.
   */
  lemma {:induction false} RecordAllWindows(config: MonitorConfig, scores: seq<Option<real>>)
    requires ConfigValid(config)
    ensures var st := RecordAll(config, scores);
      && st.recent == LastN(Clamped(scores), config.recentWindowSize)
      && st.baseline == FirstN(Clamped(scores), config.baselineWindowSize)
  {
    if |scores| > 0 {
      var n := |scores|;
      var init := scores[..n - 1];
      RecordAllWindows(config, init);
      RecordAllStep(config, scores);
      var all := Clamped(scores);
      assert all[..n - 1] == Clamped(init);
      var before := RecordAll(config, init);
      assert before.recent == LastN(all[..n - 1], config.recentWindowSize);
      assert before.baseline == FirstN(all[..n - 1], config.baselineWindowSize);
      AppendValueKeepsLast(all, config.recentWindowSize);
      AppendBaselineKeepsFirst(all, config.baselineWindowSize);
    }
  }

  /** The alarms count every closed-to-reached transition, and only those. */
  function RisingEdges(reached: seq<bool>, open: bool): nat
  {
    if |reached| == 0 then 0
    else
      var before := if |reached| == 1 then open else reached[|reached| - 2];
      RisingEdges(reached[..|reached| - 1], open) + if reached[|reached| - 1] && !before then 1 else 0
  }

  /** Running an alarm over a series of checks. */
  function SpikeRun(reached: seq<bool>, open: bool, count: nat): (bool, nat)
  {
    if |reached| == 0 then (open, count)
    else
      var (o, c) := SpikeRun(reached[..|reached| - 1], open, count);
      Spike(reached[|reached| - 1], o, c)
  }

  /**
   * An alarm run over a series of checks ends open exactly when the last check reached the
   * threshold, and has counted once per rising edge: a metric that stays above its threshold
   * is counted once.
   */
  lemma {:induction false} SpikeRunCountsRisingEdges(reached: seq<bool>, open: bool, count: nat)
    ensures SpikeRun(reached, open, count).0 == if |reached| == 0 then open else reached[|reached| - 1]
    ensures SpikeRun(reached, open, count).1 == count + RisingEdges(reached, open)
  {
    if |reached| > 0 {
      SpikeRunCountsRisingEdges(reached[..|reached| - 1], open, count);
      if |reached| > 1 {
        assert reached[..|reached| - 1][|reached| - 2] == reached[|reached| - 2];
      }
    }
  }

  /** The monitor's two alarms. */
  datatype Alarm = Drift | LowConfidence

  /** Whether the alarm's metric is at or above its threshold in `gauges`. */
  predicate Reached(alarm: Alarm, gauges: Gauges, config: MonitorConfig)
  {
    match alarm
    case Drift => gauges.drift >= config.driftAlertThreshold
    case LowConfidence => gauges.lowConfidenceRatio >= config.lowConfidenceAlertThreshold
  }

  /** The alarm's open flag and spike count in `st`. */
  function AlarmState(alarm: Alarm, st: MonitorState): (bool, nat)
  {
    match alarm
    case Drift => (st.driftSpikeOpen, st.driftSpikes)
    case LowConfidence => (st.lowConfidenceSpikeOpen, st.lowConfidenceSpikes)
  }

  /** For each score in turn, whether the alarm's metric reached its threshold after recording it. */
  function ReachedAfterEach(config: MonitorConfig, scores: seq<Option<real>>, alarm: Alarm): (r: seq<bool>)
    requires ConfigValid(config)
    ensures |r| == |scores|
  {
    if |scores| == 0 then []
    else ReachedAfterEach(config, scores[..|scores| - 1], alarm) + [Reached(alarm, RecordAll(config, scores).gauges, config)]
  }

  /** Recording scores one by one runs each alarm over the checks made after each score. */
  lemma {:induction false} RecordAllRunsAlarm(config: MonitorConfig, scores: seq<Option<real>>, alarm: Alarm)
    requires ConfigValid(config)
    ensures AlarmState(alarm, RecordAll(config, scores)) == SpikeRun(ReachedAfterEach(config, scores, alarm), false, 0)
  {
    if |scores| > 0 {
      var init := scores[..|scores| - 1];
      var flags := ReachedAfterEach(config, scores, alarm);
      assert flags[..|flags| - 1] == ReachedAfterEach(config, init, alarm);
      RecordAllRunsAlarm(config, init, alarm);
    }
  }

  /**
   * Each alarm's spike count after a series of scores is the number of rising edges of its
   * metric reaching the threshold, score after score, starting closed; and the alarm is open
   * exactly when the metric reached the threshold after the last score.
   */
  lemma RecordAllCountsSpikes(config: MonitorConfig, scores: seq<Option<real>>, alarm: Alarm)
    requires ConfigValid(config)
    ensures var flags := ReachedAfterEach(config, scores, alarm);
      && AlarmState(alarm, RecordAll(config, scores)).1 == RisingEdges(flags, false)
      && AlarmState(alarm, RecordAll(config, scores)).0 == (|scores| > 0 && flags[|scores| - 1])
  {
    RecordAllRunsAlarm(config, scores, alarm);
    SpikeRunCountsRisingEdges(ReachedAfterEach(config, scores, alarm), false, 0);
  }

  /**
   * The monitor's own example: windows (5, 10), low-confidence band [0.45, 0.55], drift
   * threshold 0.10 and ratio threshold 0.40; five scores of 0.20 then ten of 0.50 give mean
   * 0.5, no variance, drift 0.3, ratio 1.0 and at least one spike of each kind.
   */
  lemma MonitorExample(config: MonitorConfig, scores: seq<Option<real>>)
    requires config == NormalizeConfig(5, 10, 0.45, 0.55, 0.10, 0.40)
    requires |scores| == 15
    requires forall i :: 0 <= i < 5 ==> scores[i] == Some(0.2)
    requires forall i :: 5 <= i < 15 ==> scores[i] == Some(0.5)
    ensures var st := RecordAll(config, scores);
      && st.gauges.mean == 0.5 && st.gauges.variance == 0.0
      && st.gauges.drift == 0.3 && st.gauges.lowConfidenceRatio == 1.0
      && st.driftSpikes >= 1 && st.lowConfidenceSpikes >= 1
  {
    var all := Clamped(scores);
    var st := RecordAll(config, scores);
    assert st.recent == all[5..] && st.baseline == all[..5] by {
      RecordAllWindows(config, scores);
    }
    assert Measure(st.recent, st.baseline, config) == Gauges(0.5, 0.0, 0.3, 1.0) by {
      ExampleGauges(all, config);
    }
    RecordAllLast(config, scores);
  }

  /** The gauges of the example's windows. */
  lemma ExampleGauges(all: seq<real>, config: MonitorConfig)
    requires config == NormalizeConfig(5, 10, 0.45, 0.55, 0.10, 0.40)
    requires |all| == 15
    requires forall i :: 0 <= i < 5 ==> all[i] == 0.2
    requires forall i :: 5 <= i < 15 ==> all[i] == 0.5
    ensures Measure(all[5..], all[..5], config) == Gauges(0.5, 0.0, 0.3, 1.0)
  {
    var recent, baseline := all[5..], all[..5];
    assert AllWithin(recent, 0.5, 0.5) by {
      forall i | 0 <= i < |recent| ensures 0.5 <= recent[i] <= 0.5 { assert recent[i] == all[5 + i]; }
    }
    assert AllWithin(baseline, 0.2, 0.2);
    ConstantValues(recent, 0.5);
    ConstantValues(baseline, 0.2);
    assert AllWithin(recent, 0.45, 0.55);
    RatioBounds(recent, 0.45, 0.55);
  }

  /**
   * Out-of-range and missing scores are clipped before they are recorded: with windows of 3,
   * the scores -5.0, 9.0 and none are kept as 0, 1 and 0, and their mean is 1/3.
   */
  lemma ClampingExample(config: MonitorConfig, scores: seq<Option<real>>)
    requires config == NormalizeConfig(3, 3, 0.45, 0.55, 0.20, 0.70)
    requires scores == [Some(-5.0), Some(9.0), None]
    ensures var st := RecordAll(config, scores);
      st.recent == [0.0, 1.0, 0.0] && st.gauges.mean == 1.0 / 3.0
  {
    RecordAllWindows(config, scores);
    RecordAllLast(config, scores);
    var all := Clamped(scores);
    ClampedScores(scores);
    assert LastN(all, 3) == all;
    ClampedMean(all);
  }

  lemma ClampedScores(scores: seq<Option<real>>)
    requires scores == [Some(-5.0), Some(9.0), None]
    ensures Clamped(scores) == [0.0, 1.0, 0.0]
  {
  }

  lemma ClampedMean(values: seq<real>)
    requires values == [0.0, 1.0, 0.0]
    ensures MeanOf(values) == 1.0 / 3.0
  {
    var pair, single: seq<real> := [0.0, 1.0], [0.0];
    assert values[..2] == pair && pair[..1] == single && single[..0] == [];
    assert Sum(single) == 0.0;
    assert Sum(pair) == 1.0;
  }

  /** The monitor. Its gauges and counters are fields; the windows are sequences it reassigns. */
  class ModelQualityMonitoringService {
    const config: MonitorConfig
    var baselineScores: seq<real>
    var recentScores: seq<real>
    var scoreMean: real
    var scoreVariance: real
    var scoreDrift: real
    var lowConfidenceRatio: real
    var driftSpikeOpen: bool
    var lowConfidenceSpikeOpen: bool
    var driftSpikes: nat
    var lowConfidenceSpikes: nat

    function State(): MonitorState
      reads this
    {
      MonitorState(baselineScores, recentScores, Gauges(scoreMean, scoreVariance, scoreDrift, lowConfidenceRatio),
                   driftSpikeOpen, lowConfidenceSpikeOpen, driftSpikes, lowConfidenceSpikes)
    }

    predicate Valid()
      reads this
    {
      ConfigValid(config) && StateValid(State(), config)
    }

    constructor (baselineWindowSize: int, recentWindowSize: int, lowConfidenceMin: real, lowConfidenceMax: real,
                 driftAlertThreshold: real, lowConfidenceAlertThreshold: real)
      ensures Valid()
      ensures config == NormalizeConfig(baselineWindowSize, recentWindowSize, lowConfidenceMin, lowConfidenceMax,
                                        driftAlertThreshold, lowConfidenceAlertThreshold)
      ensures State() == INITIAL_STATE
    {
      config := NormalizeConfig(baselineWindowSize, recentWindowSize, lowConfidenceMin, lowConfidenceMax,
                                driftAlertThreshold, lowConfidenceAlertThreshold);
      baselineScores := [];
      recentScores := [];
      scoreMean, scoreVariance, scoreDrift, lowConfidenceRatio := 0.0, 0.0, 0.0, 0.0;
      driftSpikeOpen, lowConfidenceSpikeOpen := false, false;
      driftSpikes, lowConfidenceSpikes := 0, 0;
    }

    /** `recordMlScore`: record one score, publish the new metrics and update both alarms. */
    method RecordMlScore(mlScore: Option<real>)
      requires Valid()
      modifies this
      ensures Valid()
      ensures State() == Record(old(State()), config, mlScore)
    {
      var next := NextState(State(), mlScore);
      Store(next);
    }

    /** The monitor's state after one more score, computed step by step as `recordMlScore` does. */
    method NextState(before: MonitorState, mlScore: Option<real>) returns (next: MonitorState)
      requires ConfigValid(config) && StateValid(before, config)
      ensures StateValid(next, config)
      ensures next == Record(before, config, mlScore)
    {
      var score := ClampScore(mlScore);
      var recent := AppendValue(before.recent, score, config.recentWindowSize);
      var baseline := AppendBaseline(before.baseline, score, config.baselineWindowSize);
      var gauges := MeasureWindows(recent, baseline);
      var driftOpen, driftCount := UpdateAlarm(gauges.drift >= config.driftAlertThreshold, before.driftSpikeOpen, before.driftSpikes);
      var lowOpen, lowCount := UpdateAlarm(gauges.lowConfidenceRatio >= config.lowConfidenceAlertThreshold,
                                           before.lowConfidenceSpikeOpen, before.lowConfidenceSpikes);
      next := MonitorState(baseline, recent, gauges, driftOpen, lowOpen, driftCount, lowCount);
      RecordPreservesValid(before, config, mlScore);
    }

    /** Keep the new windows and counters and publish the gauges. */
    method Store(next: MonitorState)
      modifies this
      ensures State() == next
    {
      recentScores, baselineScores := next.recent, next.baseline;
      scoreMean, scoreVariance, scoreDrift, lowConfidenceRatio := next.gauges.mean, next.gauges.variance, next.gauges.drift, next.gauges.lowConfidenceRatio;
      driftSpikeOpen, driftSpikes := next.driftSpikeOpen, next.driftSpikes;
      lowConfidenceSpikeOpen, lowConfidenceSpikes := next.lowConfidenceSpikeOpen, next.lowConfidenceSpikes;
    }

    /** The four metrics of `recordMlScore`, over the windows after the score is appended. */
    method MeasureWindows(recent: seq<real>, baseline: seq<real>) returns (gauges: Gauges)
      ensures gauges == Measure(recent, baseline, config)
    {
      var recentMean := Mean(recent);
      var recentVariance := Variance(recent, recentMean);
      var baselineMean := recentMean;
      if |baseline| > 0 {
        baselineMean := Mean(baseline);
      }
      var driftScore := AbsReal(recentMean - baselineMean);
      var ratio := LowConfidenceRatio(recent, config.lowConfidenceMin, config.lowConfidenceMax);
      gauges := Gauges(recentMean, recentVariance, driftScore, ratio);
    }

    /** One alarm's edge trigger: count on reaching the threshold while closed, reopen below it. */
    method UpdateAlarm(reached: bool, open: bool, count: nat) returns (nowOpen: bool, newCount: nat)
      ensures (nowOpen, newCount) == Spike(reached, open, count)
    {
      nowOpen, newCount := open, count;
      if reached {
        if !nowOpen {
          newCount := newCount + 1;
          nowOpen := true;
        }
      } else {
        nowOpen := false;
      }
    }
  }

  /** `mean`: the running total divided by the count. */
  method Mean(values: seq<real>) returns (mean: real)
    ensures mean == MeanOf(values)
  {
    if |values| == 0 {
      return 0.0;
    }
    var total := 0.0;
    for i := 0 to |values|
      invariant total == Sum(values[..i])
    {
      assert values[..i + 1][..i] == values[..i];
      total := total + values[i];
    }
    assert values[..|values|] == values;
    return total / |values| as real;
  }

  /** The variance behind `stdDev`: the mean squared deviation from `mean`. */
  method Variance(values: seq<real>, mean: real) returns (variance: real)
    ensures variance == VarianceOf(values, mean)
  {
    if |values| == 0 {
      return 0.0;
    }
    var varianceTotal := 0.0;
    for i := 0 to |values|
      invariant varianceTotal == SquaredDeviations(values[..i], mean)
    {
      assert values[..i + 1][..i] == values[..i];
      var delta := values[i] - mean;
      varianceTotal := varianceTotal + delta * delta;
    }
    assert values[..|values|] == values;
    return varianceTotal / |values| as real;
  }

  /** `lowConfidenceRatio`: the share of values in [lo, hi]. */
  method LowConfidenceRatio(values: seq<real>, lo: real, hi: real) returns (ratio: real)
    ensures ratio == RatioOf(values, lo, hi)
  {
    if |values| == 0 {
      return 0.0;
    }
    var lowConfidenceCount := 0;
    for i := 0 to |values|
      invariant lowConfidenceCount == CountWithin(values[..i], lo, hi)
    {
      assert values[..i + 1][..i] == values[..i];
      if values[i] >= lo && values[i] <= hi {
        lowConfidenceCount := lowConfidenceCount + 1;
      }
    }
    assert values[..|values|] == values;
    return lowConfidenceCount as real / |values| as real;
  }
}
