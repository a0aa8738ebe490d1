/**
 * The satellite service behind the monitoring pages: mock Sentinel-2
 * imagery, vegetation indices, the before/after restoration analysis with
 * its scores and recommendations, the restoration time series, the habitat
 * latitude check and the ranked planting recommendations.
 *
 * Every `Math.random()` draw is a parameter in [0, 1); so are `Date.now()`,
 * the random URL token, the `Math.exp` growth curve and `Math.cos` of the
 * latitude. Dates of the time series are month numbers.
 */
module SatelliteService {
  import opened JsRuntime

  /** A draw of `Math.random()`. */
  predicate IsDraw(d: real) { 0.0 <= d < 1.0 }

  function Max0(x: real): (r: real)
    ensures r >= 0.0 && r >= x && (r == x || r == 0.0)
  {
    if x < 0.0 then 0.0 else x
  }

  /** `Math.round(x * 1000) / 1000`: three decimals. */
  function Round3(x: real): real {
    Round(x * 1000.0) as real / 1000.0
  }

  /** `Math.round(x * 10) / 10`: one decimal. */
  function Round1(x: real): real {
    Round(x * 10.0) as real / 10.0
  }

  /** Rounding to thousandths keeps a value between two whole thousandths. */
  lemma Round3Between(x: real, lo: int, hi: int)
    requires lo as real <= x * 1000.0 <= hi as real
    ensures lo as real / 1000.0 <= Round3(x) <= hi as real / 1000.0
  {
    RoundMonotone(lo as real, x * 1000.0);
    RoundMonotone(x * 1000.0, hi as real);
    RoundOfInt(lo);
    RoundOfInt(hi);
  }

  // ---------------------------------------------------------------------------
  // Imagery

  datatype Coordinates = Coordinates(lat: real, lng: real)
  datatype Bounds = Bounds(north: real, south: real, east: real, west: real)
  datatype ImagerySource = Sentinel2 | Landsat8 | Planet

  datatype SatelliteImagery = SatelliteImagery(
    id: string,
    date: string,
    coordinates: Coordinates,
    bounds: Bounds,
    imageUrl: string,
    thumbnailUrl: string,
    cloudCover: real,
    resolution: real,
    source: ImagerySource)

  /** The box of imagery fetched around a point: 0.01 degree each way. */
  function ImageryBounds(c: Coordinates): (b: Bounds)
    ensures b.south < c.lat < b.north && b.west < c.lng < b.east
    ensures b.north - b.south == 0.02 && b.east - b.west == 0.02
    ensures b.north - c.lat == c.lat - b.south && b.east - c.lng == c.lng - b.west
  {
    Bounds(c.lat + 0.01, c.lat - 0.01, c.lng + 0.01, c.lng - 0.01)
  }

  const ImageUrlPrefix: string := "https://earthengine.googleapis.com/v1alpha/projects/earthengine-legacy/maps/"
  const ImageUrlSuffix: string := "/tiles/{z}/{x}/{y}"
  const SatelliteThumbnail: string := "/src/assets/satellite-mangrove.jpg"

  /**
   * `getSatelliteImagery`: one Sentinel-2 image dated at the start date.
   * `now` is `Date.now()`, `token` the random base-36 map id and
   * `cloudDraw` the draw behind the cloud cover.
   */
  function GetSatelliteImagery(c: Coordinates, startDate: string, resolution: real,
                               now: nat, token: string, cloudDraw: real): (r: seq<SatelliteImagery>)
    requires IsDraw(cloudDraw)
    ensures |r| == 1
    ensures r[0].date == startDate && r[0].coordinates == c && r[0].bounds == ImageryBounds(c)
    ensures 0.0 <= r[0].cloudCover < 20.0
    ensures r[0].source == Sentinel2 && r[0].resolution == resolution
  {
    [SatelliteImagery("sentinel2_" + NatToString(now), startDate, c, ImageryBounds(c),
      ImageUrlPrefix + token + ImageUrlSuffix, SatelliteThumbnail,
      cloudDraw * 20.0, resolution, Sentinel2)]
  }

  /** `getSatelliteImagery`'s default resolution, in metres. */
  const DefaultResolution: real := 10.0

  // ---------------------------------------------------------------------------
  // Vegetation indices

  datatype VegetationIndices = VegetationIndices(
    ndvi: real,
    evi: real,
    savi: real,
    gndvi: real,
    timestamp: string,
    confidence: real)

  /** The base NDVI a draw gives: mangroves lie between 0.3 and 0.8. */
  function BaseNdvi(d: real): (r: real)
    requires IsDraw(d)
    ensures 0.3 <= r < 0.8
  {
    0.3 + d * 0.5
  }

  /** `calculateVegetationIndices` for the NDVI draw and the confidence draw. */
  function CalculateVegetationIndices(date: string, ndviDraw: real, confidenceDraw: real): (r: VegetationIndices)
    requires IsDraw(ndviDraw) && IsDraw(confidenceDraw)
    ensures 0.3 <= r.ndvi <= 0.8
    ensures 0.85 <= r.confidence < 1.0
    ensures r.timestamp == date
  {
    var base := BaseNdvi(ndviDraw);
    Round3Between(base, 300, 800);
    VegetationIndices(
      Round3(base), Round3(base * 0.8), Round3(base * 0.9), Round3(base * 1.1),
      date, 0.85 + confidenceDraw * 0.15)
  }

  /** The derived indices keep their order: EVI at most SAVI at most NDVI at most GNDVI. */
  lemma IndicesOrdered(date: string, ndviDraw: real, confidenceDraw: real)
    requires IsDraw(ndviDraw) && IsDraw(confidenceDraw)
    ensures var v := CalculateVegetationIndices(date, ndviDraw, confidenceDraw);
            0.0 < v.evi <= v.savi <= v.ndvi <= v.gndvi
  {
    var base := BaseNdvi(ndviDraw);
    RoundMonotone(base * 0.8 * 1000.0, base * 0.9 * 1000.0);
    RoundMonotone(base * 0.9 * 1000.0, base * 1000.0);
    RoundMonotone(base * 1000.0, base * 1.1 * 1000.0);
    Round3Between(base * 0.8, 240, 640);
  }

  // ---------------------------------------------------------------------------
  // The restoration analysis

  datatype ChangeDetection = ChangeDetection(areaChange: int, densityChange: int, timeframe: string)

  datatype MangroveAnalysis = MangroveAnalysis(
    mangroveArea: real,
    canopyDensity: int,
    healthScore: int,
    changeDetection: ChangeDetection,
    vegetationIndices: VegetationIndices,
    carbonSequestrationEstimate: real)

  datatype SatelliteAnalysisResult = SatelliteAnalysisResult(
    location: Coordinates,
    beforeImage: SatelliteImagery,
    afterImage: SatelliteImagery,
    analysis: MangroveAnalysis,
    verificationScore: real,
    recommendations: seq<string>)

  /** The health score: the after-NDVI in percent plus half the improvement, clamped to [0, 100] and rounded. */
  function HealthScore(before: VegetationIndices, after: VegetationIndices): (r: int)
    ensures 0 <= r <= 100
  {
    var h := Clamp(0.0, 100.0, after.ndvi * 100.0 + (after.ndvi - before.ndvi) * 50.0);
    RoundMonotone(0.0, h);
    RoundMonotone(h, 100.0);
    RoundOfInt(0);
    RoundOfInt(100);
    Round(h)
  }

  /** The weighted sum behind the verification score: 40% NDVI, 30% improvement, 20% confidence, 10% image quality. */
  function WeightedEvidence(after: VegetationIndices, improvement: real, cloudCover: real): real {
    after.ndvi * 40.0 + Max0(improvement) * 30.0 + after.confidence * 20.0 + Max0(1.0 - cloudCover / 100.0) * 10.0
  }

  /** The verification score as the service computes it: rounded, then multiplied by 100, then clamped. */
  function VerificationScoreAsWritten(after: VegetationIndices, improvement: real, cloudCover: real): real {
    Clamp(0.0, 100.0, Round(WeightedEvidence(after, improvement, cloudCover)) as real * 100.0)
  }

  /** The multiplication leaves only two possible scores, 0 and 100. */
  lemma VerificationScoreAsWrittenIsAllOrNothing(after: VegetationIndices, improvement: real, cloudCover: real)
    ensures VerificationScoreAsWritten(after, improvement, cloudCover) in {0.0, 100.0}
  {
  }

  /** The verification score the weights are evidently meant to give: the weighted sum, rounded and clamped. */
  function VerificationScore(after: VegetationIndices, improvement: real, cloudCover: real): (r: real)
    ensures 0.0 <= r <= 100.0 && r == r.Floor as real
  {
    var s := Round(WeightedEvidence(after, improvement, cloudCover));
    assert (s as real).Floor == s;
    Clamp(0.0, 100.0, s as real)
  }

  /** Inputs the service itself produces: indices from two draws each, cloud cover from one. */
  ghost predicate ServiceInputs(before: VegetationIndices, after: VegetationIndices, cloudCover: real) {
    && 0.3 <= before.ndvi <= 0.8 && 0.3 <= after.ndvi <= 0.8
    && 0.85 <= after.confidence < 1.0
    && 0.0 <= cloudCover < 20.0
  }

  /** On the service's own inputs the weighted sum lies strictly between 37 and 77. */
  lemma WeightedEvidenceRange(before: VegetationIndices, after: VegetationIndices, cloudCover: real)
    requires ServiceInputs(before, after, cloudCover)
    ensures 37.0 < WeightedEvidence(after, after.ndvi - before.ndvi, cloudCover) <= 77.0
  {
  }

  /** As written, every analysis the service produces scores 100. */
  lemma VerificationScoreAsWrittenAlways100(before: VegetationIndices, after: VegetationIndices, cloudCover: real)
    requires ServiceInputs(before, after, cloudCover)
    ensures VerificationScoreAsWritten(after, after.ndvi - before.ndvi, cloudCover) == 100.0
  {
    var w := WeightedEvidence(after, after.ndvi - before.ndvi, cloudCover);
    WeightedEvidenceRange(before, after, cloudCover);
    RoundMonotone(37.0, w);
    RoundOfInt(37);
  }

  /**
   * The corrected score follows the evidence: on the service's inputs it
   * lies between 37 and 77, and two analyses can score differently.
   */
  lemma VerificationScoreDiscriminates(before: VegetationIndices, after: VegetationIndices, cloudCover: real)
    requires ServiceInputs(before, after, cloudCover)
    ensures 37.0 <= VerificationScore(after, after.ndvi - before.ndvi, cloudCover) <= 77.0
    ensures var weak := VegetationIndices(0.3, 0.24, 0.27, 0.33, "", 0.85);
            var strong := VegetationIndices(0.8, 0.64, 0.72, 0.88, "", 0.99);
            && VerificationScore(weak, 0.0, 10.0) == 38.0
            && VerificationScore(strong, 0.5, 0.0) == 77.0
            && VerificationScoreAsWritten(weak, 0.0, 10.0) == VerificationScoreAsWritten(strong, 0.5, 0.0) == 100.0
  {
    var w := WeightedEvidence(after, after.ndvi - before.ndvi, cloudCover);
    WeightedEvidenceRange(before, after, cloudCover);
    RoundMonotone(37.0, w);
    RoundMonotone(w, 77.0);
    RoundOfInt(37);
    RoundOfInt(77);
    var weak := VegetationIndices(0.3, 0.24, 0.27, 0.33, "", 0.85);
    var strong := VegetationIndices(0.8, 0.64, 0.72, 0.88, "", 0.99);
    assert WeightedEvidence(weak, 0.0, 10.0) == 38.0;
    RoundOfInt(38);
    assert WeightedEvidence(strong, 0.5, 0.0) == 76.8;
  }

  const LowDensityAdvice: string := "Consider additional plantings to increase vegetation density"
  const SlowGrowthAdvice: string := "Monitor growth more frequently and consider soil/water quality assessment"
  const RecoveryPraise: string := "Excellent vegetation recovery detected - project performing well"

  /** One recommendation per rule that fires, in the order of the rules. */
  function Recommendations(afterNdvi: real, improvement: real, canopyDensity: int): seq<string> {
    (if afterNdvi < 0.4 then [LowDensityAdvice] else [])
    + (if improvement < 0.1 then [SlowGrowthAdvice] else [])
    + (if canopyDensity > 80 then [RecoveryPraise] else [])
  }

  /**
   * Each piece of advice appears exactly when its rule fires, at most once,
   * and in rule order; so there are at most three.
   */
  lemma RecommendationRules(afterNdvi: real, improvement: real, canopyDensity: int)
    ensures var r := Recommendations(afterNdvi, improvement, canopyDensity);
            && |r| <= 3
            && (LowDensityAdvice in r <==> afterNdvi < 0.4)
            && (SlowGrowthAdvice in r <==> improvement < 0.1)
            && (RecoveryPraise in r <==> canopyDensity > 80)
            && (forall i, j :: 0 <= i < j < |r| ==> r[i] != r[j])
            && (|r| > 0 && afterNdvi < 0.4 ==> r[0] == LowDensityAdvice)
            && (|r| > 0 && canopyDensity > 80 ==> r[|r| - 1] == RecoveryPraise)
  {
  }

  /** The analysis record built from the imagery and indices it fetched, given the verification score. */
  function AnalysisScored(c: Coordinates, beforeDate: string, afterDate: string, projectArea: real,
                          beforeImage: SatelliteImagery, afterImage: SatelliteImagery,
                          before: VegetationIndices, after: VegetationIndices, score: real): (r: SatelliteAnalysisResult)
    ensures 0 <= r.analysis.healthScore <= 100
    ensures r.analysis.changeDetection.areaChange == r.analysis.changeDetection.densityChange
    ensures r.analysis.vegetationIndices == after && r.location == c && r.verificationScore == score
  {
    var improvement := after.ndvi - before.ndvi;
    var canopy := Round(after.ndvi * 100.0);
    var analysis := MangroveAnalysis(
      projectArea * (0.7 + after.ndvi * 0.3),
      canopy,
      HealthScore(before, after),
      ChangeDetection(Round(improvement * 100.0), Round((after.ndvi - before.ndvi) * 100.0),
                      beforeDate + " to " + afterDate),
      after,
      projectArea * after.ndvi * 25.0);
    SatelliteAnalysisResult(c, beforeImage, afterImage, analysis, score,
      Recommendations(after.ndvi, improvement, canopy))
  }

  /**
   * `analyzeMangroveRestoration` on the imagery and indices it fetched,
   * scored as the service computes it, so the score is 0 or 100.
   */
  function Analyze(c: Coordinates, beforeDate: string, afterDate: string, projectArea: real,
                   beforeImage: SatelliteImagery, afterImage: SatelliteImagery,
                   before: VegetationIndices, after: VegetationIndices): (r: SatelliteAnalysisResult)
    ensures 0 <= r.analysis.healthScore <= 100
    ensures r.analysis.changeDetection.areaChange == r.analysis.changeDetection.densityChange
    ensures r.verificationScore in {0.0, 100.0}
    ensures r.analysis.vegetationIndices == after && r.location == c
  {
    var score := VerificationScoreAsWritten(after, after.ndvi - before.ndvi, beforeImage.cloudCover);
    VerificationScoreAsWrittenIsAllOrNothing(after, after.ndvi - before.ndvi, beforeImage.cloudCover);
    AnalysisScored(c, beforeDate, afterDate, projectArea, beforeImage, afterImage, before, after, score)
  }

  /**
   * The same analysis scored as the weights evidently intend: it differs
   * from the service's only in the verification score, a whole number
   * between 0 and 100.
   */
  function AnalyzeIntended(c: Coordinates, beforeDate: string, afterDate: string, projectArea: real,
                           beforeImage: SatelliteImagery, afterImage: SatelliteImagery,
                           before: VegetationIndices, after: VegetationIndices): (r: SatelliteAnalysisResult)
    ensures 0.0 <= r.verificationScore <= 100.0 && r.verificationScore == r.verificationScore.Floor as real
    ensures r == Analyze(c, beforeDate, afterDate, projectArea, beforeImage, afterImage, before, after)
                   .(verificationScore := r.verificationScore)
  {
    var score := VerificationScore(after, after.ndvi - before.ndvi, beforeImage.cloudCover);
    AnalysisScored(c, beforeDate, afterDate, projectArea, beforeImage, afterImage, before, after, score)
  }

  /** The random draws one analysis consumes, in the order the service makes them. */
  datatype AnalysisDraws = AnalysisDraws(
    beforeNow: nat, beforeToken: string, beforeCloud: real,
    afterNow: nat, afterToken: string, afterCloud: real,
    beforeNdvi: real, beforeConfidence: real,
    afterNdvi: real, afterConfidence: real)

  predicate ValidDraws(d: AnalysisDraws) {
    IsDraw(d.beforeCloud) && IsDraw(d.afterCloud)
    && IsDraw(d.beforeNdvi) && IsDraw(d.beforeConfidence)
    && IsDraw(d.afterNdvi) && IsDraw(d.afterConfidence)
  }

  /** What one analysis fetches before scoring: the first image of each fetch, and the two index sets. */
  datatype Evidence = Evidence(
    beforeImage: SatelliteImagery, afterImage: SatelliteImagery,
    before: VegetationIndices, after: VegetationIndices)

  /**
   * The two imagery fetches and the two index calculations; what they
   * return is always within the service's own ranges.
   */
  function FetchEvidence(c: Coordinates, beforeDate: string, afterDate: string, d: AnalysisDraws): (e: Evidence)
    requires ValidDraws(d)
    ensures ServiceInputs(e.before, e.after, e.beforeImage.cloudCover)
    ensures e.beforeImage.date == e.before.timestamp == beforeDate
    ensures e.afterImage.date == e.after.timestamp == afterDate
  {
    var beforeImagery := GetSatelliteImagery(c, beforeDate, DefaultResolution, d.beforeNow, d.beforeToken, d.beforeCloud);
    var afterImagery := GetSatelliteImagery(c, afterDate, DefaultResolution, d.afterNow, d.afterToken, d.afterCloud);
    Evidence(beforeImagery[0], afterImagery[0],
      CalculateVegetationIndices(beforeDate, d.beforeNdvi, d.beforeConfidence),
      CalculateVegetationIndices(afterDate, d.afterNdvi, d.afterConfidence))
  }

  /** The whole analysis as the service runs it: fetch, then score as written. */
  function AnalyzeMangroveRestoration(c: Coordinates, beforeDate: string, afterDate: string,
                                      projectArea: real, d: AnalysisDraws): SatelliteAnalysisResult
    requires ValidDraws(d)
  {
    var e := FetchEvidence(c, beforeDate, afterDate, d);
    Analyze(c, beforeDate, afterDate, projectArea, e.beforeImage, e.afterImage, e.before, e.after)
  }

  /** The whole analysis with the intended score. */
  function AnalyzeMangroveRestorationIntended(c: Coordinates, beforeDate: string, afterDate: string,
                                              projectArea: real, d: AnalysisDraws): SatelliteAnalysisResult
    requires ValidDraws(d)
  {
    var e := FetchEvidence(c, beforeDate, afterDate, d);
    AnalyzeIntended(c, beforeDate, afterDate, projectArea, e.beforeImage, e.afterImage, e.before, e.after)
  }

  /**
   * What every analysis the service produces satisfies: canopy density
   * between 30 and 80 percent, a verification score of exactly 100, and,
   * since the density never exceeds 80, never the praise for an excellent
   * recovery; the advice to plant more appears exactly when the
   * after-NDVI is below 0.4.
   */
  lemma AnalysisOfServiceData(c: Coordinates, beforeDate: string, afterDate: string,
                              projectArea: real, d: AnalysisDraws)
    requires ValidDraws(d)
    ensures var r := AnalyzeMangroveRestoration(c, beforeDate, afterDate, projectArea, d);
            && 30 <= r.analysis.canopyDensity <= 80
            && r.verificationScore == 100.0
            && RecoveryPraise !in r.recommendations
            && (LowDensityAdvice in r.recommendations <==> r.analysis.vegetationIndices.ndvi < 0.4)
            && |r.recommendations| <= 2
  {
    var e := FetchEvidence(c, beforeDate, afterDate, d);
    VerificationScoreAsWrittenAlways100(e.before, e.after, e.beforeImage.cloudCover);
    RoundMonotone(30.0, e.after.ndvi * 100.0);
    RoundMonotone(e.after.ndvi * 100.0, 80.0);
    RoundOfInt(30);
    RoundOfInt(80);
    RecommendationRules(e.after.ndvi, e.after.ndvi - e.before.ndvi, Round(e.after.ndvi * 100.0));
  }

  /**
   * With the intended score the service's analyses score between 37 and 77,
   * and everything else is what the service produces.
   */
  lemma IntendedAnalysisOfServiceData(c: Coordinates, beforeDate: string, afterDate: string,
                                      projectArea: real, d: AnalysisDraws)
    requires ValidDraws(d)
    ensures var r := AnalyzeMangroveRestorationIntended(c, beforeDate, afterDate, projectArea, d);
            && 37.0 <= r.verificationScore <= 77.0
            && r == AnalyzeMangroveRestoration(c, beforeDate, afterDate, projectArea, d)
                      .(verificationScore := r.verificationScore)
  {
    var e := FetchEvidence(c, beforeDate, afterDate, d);
    VerificationScoreDiscriminates(e.before, e.after, e.beforeImage.cloudCover);
  }

  // ---------------------------------------------------------------------------
  // Habitat check

  /** `isValidMangroveLocation`: mangroves grow between 30 degrees north and south. */
  function IsValidMangroveLocation(c: Coordinates): (r: bool)
    ensures r <==> -30.0 <= c.lat <= 30.0
  {
    (if c.lat < 0.0 then -c.lat else c.lat) <= 30.0
  }

  /** The longitude plays no part in the check. */
  lemma LocationIgnoresLongitude(lat: real, lng1: real, lng2: real)
    ensures IsValidMangroveLocation(Coordinates(lat, lng1)) == IsValidMangroveLocation(Coordinates(lat, lng2))
  {
  }

  // ---------------------------------------------------------------------------
  // The time series

  /** `'monthly' | 'quarterly' | 'yearly'`; any other value steps by a year. */
  datatype Interval = Monthly | Quarterly | Yearly

  function StepMonths(i: Interval): (m: nat)
    ensures m > 0
  {
    match i
    case Monthly => 1
    case Quarterly => 3
    case Yearly => 12
  }

  datatype TimePoint = TimePoint(month: int, ndvi: real, evi: real, area: real)

  /** The number of dates from `start` to `end` at `step` months apart: none when start is after end. */
  function PointCount(start: int, end: int, step: nat): (n: nat)
    requires step > 0
    ensures start > end ==> n == 0
    ensures start <= end ==> start + (n - 1) * step <= end < start + n * step
  {
    if start > end then 0 else (end - start) / step + 1
  }

  /** The raw NDVI of a point: 0.2 plus half the growth factor plus noise in [-0.05, 0.05). */
  function RawNdvi(growth: real, noise: real): real {
    0.2 + 0.5 * growth + (noise * 0.1 - 0.05)
  }

  /** One point: the NDVI clamped to [0, 1], the EVI and area from the unclamped value. */
  function PointOf(month: int, growth: real, noise: real): TimePoint {
    var v := RawNdvi(growth, noise);
    TimePoint(month, Round3(Clamp(0.0, 1.0, v)), Round3(v * 0.8), Round1(v * 100.0))
  }

  /** The series for given growth factors and noise draws, one per date. */
  function TimeSeries(start: int, end: int, interval: Interval, growth: seq<real>, noise: seq<real>): (r: seq<TimePoint>)
    requires |growth| >= PointCount(start, end, StepMonths(interval))
    requires |noise| >= PointCount(start, end, StepMonths(interval))
    ensures |r| == PointCount(start, end, StepMonths(interval))
  {
    var step := StepMonths(interval);
    seq(PointCount(start, end, step), k requires 0 <= k < PointCount(start, end, step) =>
      PointOf(start + k * step, growth[k], noise[k]))
  }

  /**
   * `getTimeSeriesAnalysis`: the `while` loop over the dates. `growth[k]` is
   * `1 - Math.exp(-monthsElapsed / 12)` at the k-th date and `noise[k]` its
   * `Math.random()` draw.
   */
  method GetTimeSeriesAnalysis(start: int, end: int, interval: Interval, growth: seq<real>, noise: seq<real>)
    returns (timePoints: seq<TimePoint>)
    requires |growth| >= PointCount(start, end, StepMonths(interval))
    requires |noise| >= PointCount(start, end, StepMonths(interval))
    ensures timePoints == TimeSeries(start, end, interval, growth, noise)
  {
    var step := StepMonths(interval);
    var n := PointCount(start, end, step);
    timePoints := [];
    var current := start;
    var k := 0;
    while current <= end
      invariant 0 <= k <= n && current == start + k * step
      invariant k < n <==> current <= end
      invariant timePoints == TimeSeries(start, end, interval, growth, noise)[..k]
      decreases end - current
    {
      timePoints := timePoints + [PointOf(current, growth[k], noise[k])];
      current := current + step;
      k := k + 1;
    }
  }

  /** The k-th point is dated k intervals after the start. */
  lemma TimeSeriesMonth(start: int, end: int, interval: Interval, growth: seq<real>, noise: seq<real>, k: nat)
    requires |growth| >= PointCount(start, end, StepMonths(interval))
    requires |noise| >= PointCount(start, end, StepMonths(interval))
    requires k < PointCount(start, end, StepMonths(interval))
    ensures TimeSeries(start, end, interval, growth, noise)[k].month == start + k * StepMonths(interval)
  {
  }

  /**
   * The dates: the series is empty exactly when the start is after the end;
   * the first date is the start date, each is one interval after the one
   * before, none is after the end date, and the next one would be.
   */
  lemma {:induction false} TimeSeriesDates(start: int, end: int, interval: Interval, growth: seq<real>, noise: seq<real>)
    requires |growth| >= PointCount(start, end, StepMonths(interval))
    requires |noise| >= PointCount(start, end, StepMonths(interval))
    ensures var r := TimeSeries(start, end, interval, growth, noise);
            && (start > end <==> r == [])
            && (r != [] ==> r[0].month == start && end < r[|r| - 1].month + StepMonths(interval))
            && (forall k :: 0 <= k < |r| ==> r[k].month <= end)
            && (forall k :: 0 < k < |r| ==> r[k].month == r[k - 1].month + StepMonths(interval))
  {
    var r := TimeSeries(start, end, interval, growth, noise);
    var step := StepMonths(interval);
    var n := PointCount(start, end, step);
    forall k | 0 <= k < n
      ensures r[k].month <= end
    {
      TimeSeriesMonth(start, end, interval, growth, noise, k);
      MulMonotone(k, n - 1, step);
    }
    forall k | 0 < k < n
      ensures r[k].month == r[k - 1].month + step
    {
      TimeSeriesMonth(start, end, interval, growth, noise, k);
      TimeSeriesMonth(start, end, interval, growth, noise, k - 1);
      assert k * step == (k - 1) * step + step;
    }
    if n > 0 {
      TimeSeriesMonth(start, end, interval, growth, noise, 0);
      TimeSeriesMonth(start, end, interval, growth, noise, n - 1);
      assert (n - 1) * step + step == n * step;
    }
  }

  lemma MulMonotone(j: nat, k: nat, step: nat)
    requires j <= k
    ensures j * step <= k * step
  {
  }

  /** Consecutive dates increase, so all dates are distinct and in order. */
  lemma {:induction false} TimeSeriesIncreasing(start: int, end: int, interval: Interval, growth: seq<real>, noise: seq<real>, j: nat, k: nat)
    requires |growth| >= PointCount(start, end, StepMonths(interval))
    requires |noise| >= PointCount(start, end, StepMonths(interval))
    requires j < k < PointCount(start, end, StepMonths(interval))
    ensures TimeSeries(start, end, interval, growth, noise)[j].month < TimeSeries(start, end, interval, growth, noise)[k].month
  {
    TimeSeriesMonth(start, end, interval, growth, noise, j);
    TimeSeriesMonth(start, end, interval, growth, noise, k);
    MulMonotone(j + 1, k, StepMonths(interval));
    assert (j + 1) * StepMonths(interval) == j * StepMonths(interval) + StepMonths(interval);
  }

  /** Growth factors and noise as the service produces them. */
  ghost predicate ServiceCurve(growth: seq<real>, noise: seq<real>) {
    && (forall k :: 0 <= k < |growth| ==> 0.0 <= growth[k] < 1.0)
    && (forall k :: 0 <= k < |noise| ==> IsDraw(noise[k]))
  }

  /** Every NDVI lies in [0, 1]; the EVI and area follow the unclamped value, between 0.12 and 0.6 and 15 and 75. */
  lemma TimeSeriesRanges(start: int, end: int, interval: Interval, growth: seq<real>, noise: seq<real>, k: nat)
    requires |growth| >= PointCount(start, end, StepMonths(interval))
    requires |noise| >= PointCount(start, end, StepMonths(interval))
    requires ServiceCurve(growth, noise)
    requires k < PointCount(start, end, StepMonths(interval))
    ensures var p := TimeSeries(start, end, interval, growth, noise)[k];
            && 0.0 <= p.ndvi <= 1.0
            && 0.12 <= p.evi <= 0.6
            && 15.0 <= p.area <= 75.0
  {
    var v := RawNdvi(growth[k], noise[k]);
    assert 0.15 <= v < 0.75;
    Round3Between(Clamp(0.0, 1.0, v), 0, 1000);
    Round3Between(v * 0.8, 120, 600);
    RoundMonotone(150.0, v * 100.0 * 10.0);
    RoundMonotone(v * 100.0 * 10.0, 750.0);
    RoundOfInt(150);
    RoundOfInt(750);
  }

  /**
   * The first point has no growth yet (`exp(0) = 1`): its NDVI, EVI and area
   * are all positive, so a later division by the first value is defined.
   */
  lemma FirstPointPositive(start: int, end: int, interval: Interval, growth: seq<real>, noise: seq<real>)
    requires |growth| >= PointCount(start, end, StepMonths(interval))
    requires |noise| >= PointCount(start, end, StepMonths(interval))
    requires ServiceCurve(growth, noise) && start <= end && growth[0] == 0.0
    ensures var p := TimeSeries(start, end, interval, growth, noise)[0];
            && 0.15 <= p.ndvi <= 0.25 && p.evi > 0.0 && p.area > 0.0
  {
    var v := RawNdvi(growth[0], noise[0]);
    assert 0.15 <= v < 0.25;
    Round3Between(Clamp(0.0, 1.0, v), 150, 250);
    TimeSeriesRanges(start, end, interval, growth, noise, 0);
  }

  // ---------------------------------------------------------------------------
  // Planting recommendations

  datatype PlantingRecommendation = PlantingRecommendation(lat: real, lng: real, suitability: real, reason: string)

  const PlantingReasons: seq<string> := [
    "Optimal soil moisture levels detected",
    "Good proximity to water source",
    "Low salinity levels favorable for growth",
    "Protected from strong currents",
    "Suitable elevation for mangrove species"
  ]

  const NumRecommendations: nat := 5

  /** The four draws behind one recommendation: two offsets, the suitability and the reason. */
  datatype PlantDraw = PlantDraw(latDraw: real, lngDraw: real, suitabilityDraw: real, reasonDraw: real)

  predicate ValidPlantDraw(d: PlantDraw) {
    IsDraw(d.latDraw) && IsDraw(d.lngDraw) && IsDraw(d.suitabilityDraw) && IsDraw(d.reasonDraw)
  }

  /**
   * One candidate site: an offset of up to `radius` metres each way (111 km
   * per degree; `cosLat` is `Math.cos` of the latitude), a suitability
   * between 0.7 and 1, and one of the five reasons.
   */
  function RecommendationOf(c: Coordinates, radius: real, cosLat: real, d: PlantDraw): (r: PlantingRecommendation)
    requires ValidPlantDraw(d) && cosLat != 0.0
    ensures 0.7 <= r.suitability < 1.0
    ensures r.reason in PlantingReasons
  {
    var offsetLat := (d.latDraw - 0.5) * (radius / 111000.0) * 2.0;
    var offsetLng := (d.lngDraw - 0.5) * (radius / (111000.0 * cosLat)) * 2.0;
    PlantingRecommendation(c.lat + offsetLat, c.lng + offsetLng, 0.7 + d.suitabilityDraw * 0.3,
      PlantingReasons[Floor(d.reasonDraw * 5.0)])
  }

  /** A candidate lies within `radius` metres of the centre in latitude. */
  lemma RecommendationNearCentre(c: Coordinates, radius: real, cosLat: real, d: PlantDraw)
    requires ValidPlantDraw(d) && cosLat != 0.0 && radius >= 0.0
    ensures var r := RecommendationOf(c, radius, cosLat, d);
            -(radius / 111000.0) <= r.lat - c.lat <= radius / 111000.0
  {
    var u := radius / 111000.0;
    var t := (d.latDraw - 0.5) * 2.0;
    assert -1.0 <= t < 1.0 && u >= 0.0;
    assert (d.latDraw - 0.5) * u * 2.0 == t * u;
    assert (t + 1.0) * u >= 0.0;
    assert (1.0 - t) * u >= 0.0;
  }

  predicate SortedBySuitability(rs: seq<PlantingRecommendation>) {
    forall i, j :: 0 <= i < j < |rs| ==> rs[i].suitability >= rs[j].suitability
  }

  /** The first `n` cells of `a` are ranked best first. */
  ghost predicate RankedUpTo(a: array<PlantingRecommendation>, n: int)
    reads a
  {
    forall p, q :: 0 <= p < q < n && q < a.Length ==> a[p].suitability >= a[q].suitability
  }

  /** `recommendations.sort((a, b) => b.suitability - a.suitability)`, as an insertion sort in place. */
  method SortBySuitability(a: array<PlantingRecommendation>)
    modifies a
    ensures SortedBySuitability(a[..])
    ensures multiset(a[..]) == multiset(old(a[..]))
  {
    var i := 1;
    while i < a.Length
      invariant RankedUpTo(a, i)
      invariant multiset(a[..]) == multiset(old(a[..]))
    {
      InsertAt(a, i);
      i := i + 1;
    }
  }

  /** One pass of the insertion sort: the element at `i` moves left past every worse one. */
  method InsertAt(a: array<PlantingRecommendation>, i: nat)
    requires i < a.Length && RankedUpTo(a, i)
    modifies a
    ensures RankedUpTo(a, i + 1)
    ensures multiset(a[..]) == multiset(old(a[..]))
  {
    var j := i;
    while j > 0 && a[j - 1].suitability < a[j].suitability
      invariant 0 <= j <= i
      invariant forall p, q :: 0 <= p < q <= i && p != j && q != j ==> a[p].suitability >= a[q].suitability
      invariant forall q :: j < q <= i ==> a[j].suitability >= a[q].suitability
      invariant multiset(a[..]) == multiset(old(a[..]))
    {
      SwapWithPrevious(a, j);
      j := j - 1;
    }
  }

  /** Exchanges the element at `j` with the one before it. */
  method SwapWithPrevious(a: array<PlantingRecommendation>, j: nat)
    requires 0 < j < a.Length
    modifies a
    ensures a[j - 1] == old(a[j]) && a[j] == old(a[j - 1])
    ensures forall m :: 0 <= m < a.Length && m != j - 1 && m != j ==> a[m] == old(a[m])
    ensures multiset(a[..]) == multiset(old(a[..]))
  {
    a[j - 1], a[j] := a[j], a[j - 1];
  }

  /**
   * `getPlantingRecommendations`: five candidates built by the `for` loop,
   * then ranked by suitability, best first.
   */
  method GetPlantingRecommendations(c: Coordinates, radius: real, cosLat: real, draws: seq<PlantDraw>)
    returns (recommendations: seq<PlantingRecommendation>)
    requires |draws| == NumRecommendations && cosLat != 0.0
    requires forall i :: 0 <= i < |draws| ==> ValidPlantDraw(draws[i])
    ensures |recommendations| == NumRecommendations
    ensures SortedBySuitability(recommendations)
    ensures multiset(recommendations)
            == multiset(seq(NumRecommendations, i requires 0 <= i < NumRecommendations =>
                          RecommendationOf(c, radius, cosLat, draws[i])))
    ensures forall i :: 0 <= i < |recommendations| ==>
              0.7 <= recommendations[i].suitability < 1.0 && recommendations[i].reason in PlantingReasons
  {
    var a := new PlantingRecommendation[NumRecommendations];
    for i := 0 to NumRecommendations
      invariant forall k :: 0 <= k < i ==> a[k] == RecommendationOf(c, radius, cosLat, draws[k])
    {
      a[i] := RecommendationOf(c, radius, cosLat, draws[i]);
    }
    ghost var built := a[..];
    assert built == seq(NumRecommendations, i requires 0 <= i < NumRecommendations =>
                          RecommendationOf(c, radius, cosLat, draws[i]));
    SortBySuitability(a);
    recommendations := a[..];
    forall i | 0 <= i < |recommendations|
      ensures 0.7 <= recommendations[i].suitability < 1.0 && recommendations[i].reason in PlantingReasons
    {
      assert recommendations[i] in multiset(built);
    }
  }
}
