/** The pose-analysis panel of one swing (src/components/pose/SwingAnalysis.tsx):
    the status line (icon, text, colour) chosen by a fixed priority, the
    generate and retry handlers with their two pieces of local state, and
    the condition for showing the Generate button. */
module SwingAnalysis {
  import opened Common
  import opened Api
  import opened SwingHooks

  /** `analysis?.status` */
  function AnalysisStatus(analysis: Option<AnalysisPayload>): Option<string> {
    if analysis.Some? then analysis.value.status else None
  }

  /** What the panel knows when it renders. */
  datatype PanelState = PanelState(
    isLoading: bool,
    isGenerating: bool,
    queryFailed: bool,
    generationError: Option<string>,
    analysis: Option<AnalysisPayload>)

  /** The status the line reports, highest priority first. */
  datatype StatusLevel = Busy | Failed | Complete | InProgress | Idle

  /** The priority the three status helpers share: busy, then failed, then
      available, then processing, then anything else. */
  function Level(p: PanelState): StatusLevel {
    if p.isLoading || p.isGenerating then Busy
    else if p.queryFailed || Truthy(p.generationError) then Failed
    else if AnalysisStatus(p.analysis) == Some("available") then Complete
    else if AnalysisStatus(p.analysis) == Some("processing") then InProgress
    else Idle
  }

  datatype Icon = SpinningRefresh | AlertCircle | CheckCircle | Clock | Zap

  /** `getStatusIcon` */
  function StatusIcon(p: PanelState): (Icon, string) {
    if p.isLoading || p.isGenerating then (SpinningRefresh, "text-blue-600")
    else if p.queryFailed || Truthy(p.generationError) then (AlertCircle, "text-red-600")
    else if AnalysisStatus(p.analysis) == Some("available") then (CheckCircle, "text-green-600")
    else if AnalysisStatus(p.analysis) == Some("processing") then (Clock, "text-yellow-600")
    else (Zap, "text-gray-400")
  }

  /** `getStatusText` */
  function StatusText(p: PanelState): string {
    if p.isLoading || p.isGenerating then "Generating pose analysis..."
    else if p.queryFailed || Truthy(p.generationError) then "Analysis failed"
    else if AnalysisStatus(p.analysis) == Some("available") then "Analysis complete"
    else if AnalysisStatus(p.analysis) == Some("processing") then "Processing video..."
    else if AnalysisStatus(p.analysis) == Some("not_generated") then "Ready to analyze"
    else "Ready to analyze"
  }

  /** `getStatusColor` */
  function StatusColor(p: PanelState): string {
    if p.isLoading || p.isGenerating then "text-blue-600"
    else if p.queryFailed || Truthy(p.generationError) then "text-red-600"
    else if AnalysisStatus(p.analysis) == Some("available") then "text-green-600"
    else if AnalysisStatus(p.analysis) == Some("processing") then "text-yellow-600"
    else if AnalysisStatus(p.analysis) == Some("not_generated") then "text-gray-600"
    else "text-gray-600"
  }

  function LevelText(l: StatusLevel): string {
    match l
    case Busy => "Generating pose analysis..."
    case Failed => "Analysis failed"
    case Complete => "Analysis complete"
    case InProgress => "Processing video..."
    case Idle => "Ready to analyze"
  }

  function LevelColor(l: StatusLevel): string {
    match l
    case Busy => "text-blue-600"
    case Failed => "text-red-600"
    case Complete => "text-green-600"
    case InProgress => "text-yellow-600"
    case Idle => "text-gray-600"
  }

  function LevelIcon(l: StatusLevel): Icon {
    match l
    case Busy => SpinningRefresh
    case Failed => AlertCircle
    case Complete => CheckCircle
    case InProgress => Clock
    case Idle => Zap
  }

  /** Icon, text and colour follow one and the same priority: each is the
      entry of the shared level, so they never disagree. The icon of the idle
      line is lighter (gray-400) than its text (gray-600). */
  lemma StatusLineAgrees(p: PanelState)
    ensures StatusText(p) == LevelText(Level(p))
    ensures StatusColor(p) == LevelColor(Level(p))
    ensures StatusIcon(p).0 == LevelIcon(Level(p))
    ensures Level(p) != Idle ==> StatusIcon(p).1 == LevelColor(Level(p))
    ensures Level(p) == Idle ==> StatusIcon(p).1 == "text-gray-400"
  {
  }

  /** Loading or generating hides any failure, and a failure hides a
      finished analysis. An empty failure message does not count as one. */
  lemma StatusPriority(p: PanelState)
    ensures p.isLoading || p.isGenerating ==> StatusText(p) == "Generating pose analysis..."
    ensures !p.isLoading && !p.isGenerating && p.queryFailed ==> StatusText(p) == "Analysis failed"
    ensures (!p.isLoading && !p.isGenerating && !p.queryFailed && p.generationError == Some("") &&
             AnalysisStatus(p.analysis) == Some("available")) ==>
      StatusText(p) == "Analysis complete"
  {
  }

  /** The Generate button: no analysis yet or not generated, and not already
      generating. */
  predicate ShowGenerateButton(analysis: Option<AnalysisPayload>, isGenerating: bool) {
    (analysis.None? || analysis.value.status == Some("not_generated")) && !isGenerating
  }

  /** Whenever the button shows and nothing is loading or failing, the line
      says "Ready to analyze"; it never shows beside a finished or
      processing analysis. */
  lemma GenerateButtonMeansReady(p: PanelState)
    requires ShowGenerateButton(p.analysis, p.isGenerating)
    ensures Level(p) != Complete && Level(p) != InProgress
    ensures !p.isLoading && !p.queryFailed && !Truthy(p.generationError) ==>
      StatusText(p) == "Ready to analyze"
  {
  }

  /** The completion effect: `onAnalysisComplete(analysis)` runs when the
      cached analysis is available and the callback was given. */
  function CompletionReport(analysis: Option<AnalysisPayload>, hasOnAnalysisComplete: bool): (r: Option<AnalysisPayload>)
    ensures r.Some? <==> hasOnAnalysisComplete && AnalysisStatus(analysis) == Some("available")
    ensures r.Some? ==> r == analysis
  {
    if AnalysisStatus(analysis) == Some("available") && hasOnAnalysisComplete then analysis else None
  }

  const LoadFailedMessage := "Failed to load pose analysis"

  /** The load-error effect: `onError(error.message || 'Failed to load pose
      analysis')` runs when the query failed and the callback was given. */
  function LoadErrorReport(error: Option<Thrown>, hasOnError: bool): (r: Option<string>)
    ensures r.Some? <==> error.Some? && hasOnError
    ensures r.Some? ==> r.value != ""
    ensures r.Some? && !error.value.NonError? && error.value.message != "" ==> r.value == error.value.message
    ensures r.Some? && (error.value.NonError? || error.value.message == "") ==> r.value == LoadFailedMessage
  {
    if error.Some? && hasOnError then
      Some(if !error.value.NonError? && error.value.message != "" then error.value.message else LoadFailedMessage)
    else None
  }

  /** A failed query is both announced to the caller and shown on the status
      line, unless loading or generating takes precedence on the line. */
  lemma FailedQueryReportedAndShown(p: PanelState, error: Thrown)
    requires p.queryFailed && !p.isLoading && !p.isGenerating
    ensures LoadErrorReport(Some(error), true).Some?
    ensures StatusText(p) == "Analysis failed" && StatusColor(p) == "text-red-600"
    ensures CompletionReport(p.analysis, true).Some? ==> Level(p) == Failed
  {
  }

  const GenerateFailedMessage := "Failed to generate snapshots"

  /** `err instanceof Error ? err.message : 'Failed to generate snapshots'` */
  function GenerationErrorMessage(e: Thrown): string {
    if e.NonError? then GenerateFailedMessage else e.message
  }

  class SwingAnalysisView {
    var isGenerating: bool
    var generationError: Option<string>

    constructor ()
      ensures !isGenerating && generationError == None
    {
      isGenerating := false;
      generationError := None;
    }

    /** `handleGenerateSnapshots`: marks generation as running and clears
        the last error before calling the backend (`during` is the state
        the call sees); afterwards generation is over on every path, and a
        failure is recorded and passed to `onError` when there is one. */
    method HandleGenerateSnapshots(outcome: Result<AnalysisPayload, Thrown>, hasOnError: bool)
      returns (during: (bool, Option<string>), reported: Option<string>)
      modifies this
      ensures during == (true, None)
      ensures !isGenerating
      ensures outcome.Ok? ==> generationError == None && reported == None
      ensures outcome.Err? ==> generationError == Some(GenerationErrorMessage(outcome.error))
      ensures outcome.Err? && hasOnError ==> reported == Some(GenerationErrorMessage(outcome.error))
      ensures !hasOnError ==> reported == None
    {
      reported := None;
      isGenerating := true;
      generationError := None;
      during := (isGenerating, generationError);
      if outcome.Err? {
        var errorMessage := GenerationErrorMessage(outcome.error);
        generationError := Some(errorMessage);
        if hasOnError {
          reported := Some(errorMessage);
        }
      }
      isGenerating := false;
    }

    /** `handleRetry`: clears the error (the refetch is I/O). */
    method HandleRetry()
      modifies this
      ensures generationError == None && isGenerating == old(isGenerating)
    {
      generationError := None;
    }
  }

  /** A failed generation shows the failure line until a retry, which brings
      the line back to what the query says. */
  method FailThenRetry(v: SwingAnalysisView, message: string, analysis: Option<AnalysisPayload>)
    requires message != ""
    modifies v
    ensures StatusText(PanelState(false, v.isGenerating, false, v.generationError, analysis)) ==
      LevelText(Level(PanelState(false, false, false, None, analysis)))
  {
    var _, _ := v.HandleGenerateSnapshots(Err(OtherError(message)), false);
    assert StatusText(PanelState(false, v.isGenerating, false, v.generationError, analysis)) == "Analysis failed";
    v.HandleRetry();
    StatusLineAgrees(PanelState(false, false, false, None, analysis));
  }
}
