/**
 * The satellite viewer: runs the restoration analysis for a site, reports
 * the result to its parent, and colours the scores, indices and changes it
 * shows.
 */
module SatelliteViewer {
  import opened JsRuntime
  import opened SatelliteService

  /** The three colour bands the viewer uses: green, yellow and red classes. */
  datatype Band = Green | Yellow | Red

  /** `getHealthColor`: 80 and above green, 60 and above yellow, else red. */
  function HealthColor(score: real): (b: Band)
    ensures b == Green <==> score >= 80.0
    ensures b == Yellow <==> 60.0 <= score < 80.0
    ensures b == Red <==> score < 60.0
  {
    if score >= 80.0 then Green
    else if score >= 60.0 then Yellow
    else Red
  }

  /** `getIndexColor` of a vegetation index card: 0.6 and above green, 0.3 and above yellow, else red. */
  function IndexColor(value: real): (b: Band)
    ensures b == Green <==> value >= 0.6
    ensures b == Yellow <==> 0.3 <= value < 0.6
    ensures b == Red <==> value < 0.3
  {
    if value >= 0.6 then Green
    else if value >= 0.3 then Yellow
    else Red
  }

  datatype IndicatorIcon = TrendingUpIcon | TrendingDownIcon | RefreshIcon

  datatype Indicator = Indicator(icon: IndicatorIcon, color: string, text: string)

  /** The component's own `getChangeIndicator`: above 5 improved, below -5 declined, else stable. */
  function ChangeIndicator(change: real): (r: Indicator)
    ensures r.text == "Improved" <==> change > 5.0
    ensures r.text == "Declined" <==> change < -5.0
    ensures r.text == "Stable" <==> -5.0 <= change <= 5.0
  {
    if change > 5.0 then Indicator(TrendingUpIcon, "text-green-600", "Improved")
    else if change < -5.0 then Indicator(TrendingDownIcon, "text-red-600", "Declined")
    else Indicator(RefreshIcon, "text-gray-600", "Stable")
  }

  /** The module-level `getChangeIndicator` the change cards call. */
  function ModuleChangeIndicator(change: real): Indicator {
    if change > 5.0 then Indicator(TrendingUpIcon, "text-green-600", "Improved")
    else if change < -5.0 then Indicator(TrendingDownIcon, "text-red-600", "Declined")
    else Indicator(RefreshIcon, "text-gray-600", "Stable")
  }

  /** The two copies agree on every change. */
  lemma ChangeIndicatorsAgree(change: real)
    ensures ModuleChangeIndicator(change) == ChangeIndicator(change)
  {
  }

  /** A change card prefixes `+` exactly to a strictly positive change. */
  function SignPrefix(change: real): (s: string)
    ensures s == "+" <==> change > 0.0
    ensures s == "" <==> change <= 0.0
  {
    if change > 0.0 then "+" else ""
  }

  /**
   * On the service's own analyses the verification badge is always green:
   * as the service computes it the score is always 100.
   */
  lemma VerificationBadgeOfServiceData(c: Coordinates, beforeDate: string, afterDate: string,
                                       projectArea: real, d: AnalysisDraws)
    requires ValidDraws(d)
    ensures var r := AnalyzeMangroveRestoration(c, beforeDate, afterDate, projectArea, d);
            HealthColor(r.verificationScore) == Green
  {
    AnalysisOfServiceData(c, beforeDate, afterDate, projectArea, d);
  }

  /**
   * Scored as the weights intend, the badge of a service analysis is never
   * green: the score stays between 37 and 77.
   */
  lemma VerificationBadgeOfIntendedAnalysis(c: Coordinates, beforeDate: string, afterDate: string,
                                            projectArea: real, d: AnalysisDraws)
    requires ValidDraws(d)
    ensures var r := AnalyzeMangroveRestorationIntended(c, beforeDate, afterDate, projectArea, d);
            HealthColor(r.verificationScore) != Green
  {
    IntendedAnalysisOfServiceData(c, beforeDate, afterDate, projectArea, d);
  }

  /** What the analysis call ended with: a result, or a thrown value with its `Error` message if it was an `Error`. */
  datatype Outcome = Succeeded(result: SatelliteAnalysisResult) | Failed(message: Option<string>)

  const DefaultErrorMessage: string := "Analysis failed"

  /** The viewer's state and the results it has handed to `onAnalysisComplete`. */
  class Viewer {
    var analysis: Option<SatelliteAnalysisResult>
    var loading: bool
    var error: Option<string>
    /** Every result passed to `onAnalysisComplete`, oldest first. */
    var reported: seq<SatelliteAnalysisResult>

    constructor ()
      ensures analysis.None? && !loading && error.None? && reported == []
    {
      analysis, loading, error, reported := None, false, None, [];
    }

    /** `handleAnalyzeRestoration` up to its `await`: loading, with the error cleared. */
    method BeginAnalysis()
      modifies this`loading, this`error
      ensures loading && error.None?
    {
      loading := true;
      error := None;
    }

    /**
     * `handleAnalyzeRestoration` after its `await`: a result is stored and
     * reported to the parent; a failure sets the message (`Analysis failed`
     * when the thrown value is no `Error`) and leaves the earlier analysis
     * and the reports alone. Loading ends either way.
     */
    method CompleteAnalysis(outcome: Outcome)
      requires loading
      modifies this`analysis, this`error, this`loading, this`reported
      ensures !loading
      ensures outcome.Succeeded? ==>
                && analysis == Some(outcome.result)
                && reported == old(reported) + [outcome.result]
                && error == old(error)
      ensures outcome.Failed? ==>
                && analysis == old(analysis) && reported == old(reported)
                && error == Some(outcome.message.GetOr(DefaultErrorMessage))
    {
      loading := false;
      match outcome
      case Succeeded(result) =>
        analysis := Some(result);
        reported := reported + [result];
      case Failed(message) =>
        error := Some(message.GetOr(DefaultErrorMessage));
    }
  }
}
