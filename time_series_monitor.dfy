/**
 * The time-series monitor: it loads the restoration series for a site and a
 * date range, classifies the trend of the selected metric between the first
 * and the last point, and shows the growth rate and the average.
 */
module TimeSeriesMonitor {
  import opened JsRuntime
  import opened SatelliteService

  /** `'ndvi' | 'evi' | 'area'` */
  datatype Metric = Ndvi | Evi | Area

  datatype Trend = Improving | Stable | Declining

  /** `item[selectedMetric]` */
  function MetricValue(p: TimePoint, m: Metric): real {
    match m
    case Ndvi => p.ndvi
    case Evi => p.evi
    case Area => p.area
  }

  /** A change in percent, classified: above 10 improving, below -10 declining. */
  function Classify(change: real): (t: Trend)
    ensures t == Improving <==> change > 10.0
    ensures t == Declining <==> change < -10.0
    ensures t == Stable <==> -10.0 <= change <= 10.0
  {
    if change > 10.0 then Improving
    else if change < -10.0 then Declining
    else Stable
  }

  /** `(last - first) / first * 100` where it is a finite number. */
  function PercentChange(first: real, last: real): real
    requires first != 0.0
  {
    (last - first) / first * 100.0
  }

  /**
   * The trend a load computes from the first and last values. A first value
   * of 0 makes the change an infinity of the sign of `last`, or NaN when
   * `last` is 0 too, which no comparison accepts.
   */
  function TrendOf(first: real, last: real): (t: Trend)
    ensures first != 0.0 ==> t == Classify(PercentChange(first, last))
    ensures first == 0.0 ==> t == (if last > 0.0 then Improving else if last < 0.0 then Declining else Stable)
  {
    if first == 0.0 then
      (if last > 0.0 then Improving else if last < 0.0 then Declining else Stable)
    else Classify(PercentChange(first, last))
  }

  /** For a positive first value the trend follows the ratio of last to first: above 1.1 improving, below 0.9 declining. */
  lemma TrendOfPositiveFirst(first: real, last: real)
    requires first > 0.0
    ensures TrendOf(first, last) == Improving <==> last > first * 1.1
    ensures TrendOf(first, last) == Declining <==> last < first * 0.9
  {
    var c := PercentChange(first, last);
    assert c * first == (last - first) * 100.0;
    if last > first * 1.1 {
      assert (last - first) * 100.0 > 10.0 * first;
    }
    if c > 10.0 {
      assert c * first > 10.0 * first;
    }
    if last < first * 0.9 {
      assert (last - first) * 100.0 < -10.0 * first;
    }
    if c < -10.0 {
      assert c * first < -10.0 * first;
    }
  }

  /**
   * `calculateGrowthRate`: 0 for fewer than two points, else the percent
   * change from the first to the last; `None` stands for the non-finite
   * value a first value of 0 gives.
   */
  function GrowthRate(data: seq<TimePoint>, m: Metric): (r: Option<real>)
    ensures |data| < 2 ==> r == Some(0.0)
    ensures |data| >= 2 ==> (r.None? <==> MetricValue(data[0], m) == 0.0)
  {
    if |data| < 2 then Some(0.0)
    else
      var first := MetricValue(data[0], m);
      var last := MetricValue(data[|data| - 1], m);
      if first == 0.0 then None else Some(PercentChange(first, last))
  }

  /** The trend a load sets agrees with the growth rate shown for the same metric. */
  lemma TrendAgreesWithGrowthRate(data: seq<TimePoint>, m: Metric)
    requires |data| >= 2 && GrowthRate(data, m).Some?
    ensures TrendOf(MetricValue(data[0], m), MetricValue(data[|data| - 1], m)) == Classify(GrowthRate(data, m).value)
  {
  }

  /** `calculateAverageValue`: 0 for no data, else the mean of the metric. */
  function AverageValue(data: seq<TimePoint>, m: Metric): real {
    if |data| == 0 then 0.0 else SumBy(data, (p: TimePoint) => MetricValue(p, m)) / |data| as real
  }

  /** The average lies between any bounds every value respects. */
  lemma AverageWithinBounds(data: seq<TimePoint>, m: Metric, lo: real, hi: real)
    requires |data| > 0
    requires forall i :: 0 <= i < |data| ==> lo <= MetricValue(data[i], m) <= hi
    ensures lo <= AverageValue(data, m) <= hi
  {
    var f := (p: TimePoint) => MetricValue(p, m);
    var n := |data| as real;
    SumByBounds(data, f, lo, hi);
    var s := SumBy(data, f);
    assert AverageValue(data, m) == s / n;
    assert (s / n) * n == s;
  }

  /**
   * On a series the service produced, the first value of every metric is
   * positive, so the growth rate is a finite number; the NDVI average lies
   * in [0, 1].
   */
  lemma ServiceSeriesMeasurable(start: int, end: int, interval: Interval, growth: seq<real>, noise: seq<real>, m: Metric)
    requires |growth| >= PointCount(start, end, StepMonths(interval))
    requires |noise| >= PointCount(start, end, StepMonths(interval))
    requires ServiceCurve(growth, noise) && start <= end && growth[0] == 0.0
    ensures var data := TimeSeries(start, end, interval, growth, noise);
            && MetricValue(data[0], m) > 0.0
            && GrowthRate(data, m).Some?
            && 0.0 <= AverageValue(data, Ndvi) <= 1.0
  {
    var data := TimeSeries(start, end, interval, growth, noise);
    FirstPointPositive(start, end, interval, growth, noise);
    forall i | 0 <= i < |data|
      ensures 0.0 <= MetricValue(data[i], Ndvi) <= 1.0
    {
      TimeSeriesRanges(start, end, interval, growth, noise, i);
    }
    AverageWithinBounds(data, Ndvi, 0.0, 1.0);
  }

  /** The monitor's state. */
  class Monitor {
    var data: seq<TimePoint>
    var loading: bool
    var interval: Interval
    var selectedMetric: Metric
    var trend: Trend

    constructor ()
      ensures data == [] && !loading && interval == Monthly && selectedMetric == Ndvi && trend == Stable
    {
      data, loading, interval, selectedMetric, trend := [], false, Monthly, Ndvi, Stable;
    }

    /** `loadTimeSeriesData` up to its `await`: the load starts. */
    method BeginLoad()
      modifies this`loading
      ensures loading
    {
      loading := true;
    }

    /**
     * `loadTimeSeriesData` after its `await`: on success the series is
     * shown and, from two points on, the trend recomputed for the metric
     * selected now; on failure nothing changes. Either way loading ends.
     */
    method CompleteLoad(outcome: Option<seq<TimePoint>>)
      requires loading
      modifies this`data, this`trend, this`loading
      ensures !loading
      ensures outcome.None? ==> data == old(data) && trend == old(trend)
      ensures outcome.Some? ==> data == outcome.value
      ensures outcome.Some? && |outcome.value| >= 2 ==>
                trend == TrendOf(MetricValue(data[0], selectedMetric), MetricValue(data[|data| - 1], selectedMetric))
      ensures outcome.Some? && |outcome.value| < 2 ==> trend == old(trend)
    {
      if outcome.Some? {
        data := outcome.value;
        if |data| >= 2 {
          var first := MetricValue(data[0], selectedMetric);
          var last := MetricValue(data[|data| - 1], selectedMetric);
          trend := TrendOf(first, last);
        }
      }
      loading := false;
    }

    /** Choosing another metric redraws the chart; the trend stays until the next load. */
    method SelectMetric(m: Metric)
      modifies this`selectedMetric
      ensures selectedMetric == m
    {
      selectedMetric := m;
    }

    /** Choosing another interval starts a reload. */
    method SelectInterval(i: Interval)
      modifies this`interval, this`loading
      ensures interval == i && loading
    {
      interval := i;
      loading := true;
    }
  }
}
