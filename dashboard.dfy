/** The dashboard page: the progress ticker, which of the three views is shown,
    the results and zones fetched for a finished analysis, the status filter,
    the detail modal and the report download flag. The analysis result and the
    analysing flag belong to the application and are passed down; here they
    are fields of the page. */
module DashboardPage {
  import opened Common
  import opened ApiTypes
  import opened ApiClient

  /** The ticker's update: one step further while below 4, left alone after. */
  function NextStep(prev: int): (n: int)
    ensures prev < 4 ==> n == prev + 1
    ensures prev >= 4 ==> n == prev
    ensures prev <= 4 ==> n <= 4
  {
    if prev >= 4 then prev else prev + 1
  }

  /** The step after `ticks` ticks from `start`. */
  function StepAfter(start: int, ticks: nat): int
  {
    if ticks == 0 then start else NextStep(StepAfter(start, ticks - 1))
  }

  /** From any step in [0, 4] the ticker climbs one step per tick and stops at 4. */
  lemma {:induction false} StepAfterTicks(start: int, ticks: nat)
    requires 0 <= start <= 4
    ensures StepAfter(start, ticks) == if start + ticks < 4 then start + ticks else 4
  {
    if ticks > 0 {
      StepAfterTicks(start, ticks - 1);
    }
  }

  /** What the page shows. */
  datatype View = UploadView | ProgressView | ResultsView

  /** Upload without a result and when idle, progress while analysing (even
      with a result), results otherwise. */
  function SelectView(hasResult: bool, isAnalyzing: bool): (v: View)
    ensures v == UploadView <==> !hasResult && !isAnalyzing
    ensures v == ProgressView <==> isAnalyzing
    ensures v == ResultsView <==> hasResult && !isAnalyzing
  {
    if !hasResult && !isAnalyzing then UploadView
    else if isAnalyzing then ProgressView
    else ResultsView
  }

  /** The rows per page the table asks for. */
  const PageSize: int := 10

  /** The filter buttons, in display order. */
  const FilterOptions: seq<string> := ["all", "High Risk", "Suspicious", "Review Needed", "Normal"]

  /** The caption of a filter button. */
  function FilterCaption(status: string): (c: string)
    ensures status == "all" ==> c == "All"
    ensures status != "all" ==> c == status
  {
    if status == "all" then "All" else status
  }

  /** The status argument of `getResults`: none for "all", else the filter itself. */
  function StatusArgument(statusFilter: string): (s: Option<string>)
    ensures s.None? <==> statusFilter == "all"
    ensures s.Some? ==> s.value == statusFilter
  {
    if statusFilter != "all" then Some(statusFilter) else None
  }

  /** The query `fetchResults(page)` sends under a given filter. */
  function ResultsRequest(page: int, statusFilter: string): seq<(string, string)>
  {
    ResultsQuery(page, PageSize, StatusArgument(statusFilter))
  }

  /** Each request asks for the given page, ten rows, by descending score, and
      carries a status filter exactly when a specific, non-empty status is chosen. */
  lemma ResultsRequestShape(page: int, statusFilter: string)
    ensures |ResultsRequest(page, statusFilter)| >= 4
    ensures ParseInt(ResultsRequest(page, statusFilter)[0].1) == page
    ensures ResultsRequest(page, statusFilter)[1] == ("limit", "10")
    ensures ResultsRequest(page, statusFilter)[2] == ("sort_by", "anomaly_score")
    ensures ResultsRequest(page, statusFilter)[3] == ("sort_desc", "true")
    ensures (exists k :: 0 <= k < |ResultsRequest(page, statusFilter)| && ResultsRequest(page, statusFilter)[k].0 == "status_filter")
      <==> statusFilter != "all" && statusFilter != ""
    ensures |ResultsRequest(page, statusFilter)| == 4 <==> statusFilter == "all" || statusFilter == ""
  {
    var q := ResultsRequest(page, statusFilter);
    assert q[..4][1] == q[1] && q[..4][2] == q[2] && q[..4][3] == q[3];
    assert IntToString(10) == [DigitChar(1)] + [DigitChar(0)] == "10";
    ResultsQueryNumbers(page, PageSize, StatusArgument(statusFilter), None, "anomaly_score", true);
  }

  /** The name the downloaded report is saved under. */
  function ReportFileName(format: ReportFormat): (name: string)
    ensures format == Pdf ==> name == "analysis_report.pdf"
    ensures format == Excel ==> name == "analysis_report.xlsx"
  {
    "analysis_report." + (if format == Pdf then "pdf" else "xlsx")
  }

  class Dashboard {
    /** Application state handed to the page. */
    var analysisResult: Option<AnalysisResult>
    var isAnalyzing: bool
    /** Page state. */
    var currentStep: int
    var consumers: seq<Consumer>
    var pagination: Option<Pagination>
    var currentPage: int
    var zones: seq<ZoneStats>
    var selectedConsumer: Option<ConsumerDetail>
    var isModalOpen: bool
    var statusFilter: string
    var isDownloading: bool

    /** The ticker stays within the four steps, and the modal is only open
        over a fetched consumer. */
    ghost predicate Valid()
      reads this
    {
      0 <= currentStep <= 4 && (isModalOpen ==> selectedConsumer.Some?)
    }

    function CurrentView(): (v: View)
      reads this
      ensures v == SelectView(analysisResult.Some?, isAnalyzing)
    {
      SelectView(analysisResult.Some?, isAnalyzing)
    }

    /** Whether the filter button for `status` is highlighted. */
    function FilterActive(status: string): bool
      reads this
    {
      statusFilter == status
    }

    /** The page as first rendered, under the application's state. */
    constructor (analysisResult: Option<AnalysisResult>, isAnalyzing: bool)
      ensures Valid()
      ensures this.analysisResult == analysisResult && this.isAnalyzing == isAnalyzing
      ensures currentStep == 0 && consumers == [] && pagination.None? && currentPage == 1
      ensures zones == [] && selectedConsumer.None? && !isModalOpen
      ensures statusFilter == "all" && !isDownloading
    {
      this.analysisResult := analysisResult;
      this.isAnalyzing := isAnalyzing;
      currentStep := 0;
      consumers := [];
      pagination := None;
      currentPage := 1;
      zones := [];
      selectedConsumer := None;
      isModalOpen := false;
      statusFilter := "all";
      isDownloading := false;
    }

    /** One interval tick. The interval exists only while analysing. */
    method Tick()
      requires Valid()
      modifies this
      ensures Valid()
      ensures isAnalyzing ==> currentStep == NextStep(old(currentStep))
      ensures !isAnalyzing ==> currentStep == old(currentStep)
      ensures analysisResult == old(analysisResult) && isAnalyzing == old(isAnalyzing)
      ensures consumers == old(consumers) && pagination == old(pagination) && currentPage == old(currentPage)
      ensures zones == old(zones) && selectedConsumer == old(selectedConsumer) && isModalOpen == old(isModalOpen)
      ensures statusFilter == old(statusFilter) && isDownloading == old(isDownloading)
    {
      if isAnalyzing {
        currentStep := NextStep(currentStep);
      }
    }

    /** The upload panel's `onAnalysisStart`. */
    method OnAnalysisStart()
      requires Valid()
      modifies this
      ensures Valid() && isAnalyzing && CurrentView() == ProgressView
      ensures analysisResult == old(analysisResult) && currentStep == old(currentStep)
      ensures consumers == old(consumers) && pagination == old(pagination) && currentPage == old(currentPage)
      ensures zones == old(zones) && selectedConsumer == old(selectedConsumer) && isModalOpen == old(isModalOpen)
      ensures statusFilter == old(statusFilter) && isDownloading == old(isDownloading)
    {
      isAnalyzing := true;
    }

    /** `handleAnalysisComplete`: the response's id and summary become the
        result, with no consumers yet; analysis ends and the stepper resets. */
    method HandleAnalysisComplete(result: AnalyzeResponse)
      requires Valid()
      modifies this
      ensures Valid()
      ensures analysisResult == Some(AnalysisResult(result.analysis_id, result.summary, [], None))
      ensures !isAnalyzing && currentStep == 0 && CurrentView() == ResultsView
      ensures consumers == old(consumers) && pagination == old(pagination) && currentPage == old(currentPage)
      ensures zones == old(zones) && selectedConsumer == old(selectedConsumer) && isModalOpen == old(isModalOpen)
      ensures statusFilter == old(statusFilter) && isDownloading == old(isDownloading)
    {
      analysisResult := Some(AnalysisResult(result.analysis_id, result.summary, [], None));
      isAnalyzing := false;
      currentStep := 0;
    }

    /** `handleNewAnalysis`: back to the upload view with the stepper reset. */
    method HandleNewAnalysis()
      requires Valid()
      modifies this
      ensures Valid()
      ensures analysisResult.None? && !isAnalyzing && currentStep == 0 && CurrentView() == UploadView
      ensures consumers == old(consumers) && pagination == old(pagination) && currentPage == old(currentPage)
      ensures zones == old(zones) && selectedConsumer == old(selectedConsumer) && isModalOpen == old(isModalOpen)
      ensures statusFilter == old(statusFilter) && isDownloading == old(isDownloading)
    {
      analysisResult := None;
      isAnalyzing := false;
      currentStep := 0;
    }

    /** The requests issued when the result changes: page 1 under the current
        filter, and the zones, both only when there is a result. */
    function RequestsOnResult(): (r: Option<seq<(string, string)>>)
      reads this
      ensures r.Some? <==> analysisResult.Some?
      ensures r.Some? ==> r.value == ResultsRequest(1, statusFilter)
    {
      if analysisResult.Some? then Some(ResultsRequest(1, statusFilter)) else None
    }

    /** `fetchResults(page)` completing: a success replaces the rows and the
        pagination and moves to `page`; a failure changes nothing. */
    method FinishFetchResults(page: int, outcome: Outcome<ResultsResponse>)
      requires Valid()
      modifies this
      ensures Valid()
      ensures outcome.Success? ==> consumers == outcome.value.consumers
      ensures outcome.Success? ==> pagination == Some(outcome.value.pagination) && currentPage == page
      ensures outcome.Failure? ==> consumers == old(consumers) && pagination == old(pagination) && currentPage == old(currentPage)
      ensures analysisResult == old(analysisResult) && isAnalyzing == old(isAnalyzing) && currentStep == old(currentStep)
      ensures zones == old(zones) && selectedConsumer == old(selectedConsumer) && isModalOpen == old(isModalOpen)
      ensures statusFilter == old(statusFilter) && isDownloading == old(isDownloading)
    {
      if outcome.Success? {
        consumers := outcome.value.consumers;
        pagination := Some(outcome.value.pagination);
        currentPage := page;
      }
    }

    /** `fetchZones` completing: a success stores the zones (none when the
        response has no zone list); a failure changes nothing. */
    method FinishFetchZones(outcome: Outcome<Option<seq<ZoneStats>>>)
      requires Valid()
      modifies this
      ensures Valid()
      ensures outcome.Success? && outcome.value.Some? ==> zones == outcome.value.value
      ensures outcome.Success? && outcome.value.None? ==> zones == []
      ensures outcome.Failure? ==> zones == old(zones)
      ensures analysisResult == old(analysisResult) && isAnalyzing == old(isAnalyzing) && currentStep == old(currentStep)
      ensures consumers == old(consumers) && pagination == old(pagination) && currentPage == old(currentPage)
      ensures selectedConsumer == old(selectedConsumer) && isModalOpen == old(isModalOpen)
      ensures statusFilter == old(statusFilter) && isDownloading == old(isDownloading)
    {
      if outcome.Success? {
        zones := if outcome.value.Some? then outcome.value.value else [];
      }
    }

    /** `handleConsumerClick` completing: the modal opens only over a fetched consumer. */
    method FinishConsumerClick(outcome: Outcome<ConsumerDetail>)
      requires Valid()
      modifies this
      ensures Valid()
      ensures outcome.Success? ==> selectedConsumer == Some(outcome.value) && isModalOpen
      ensures outcome.Failure? ==> selectedConsumer == old(selectedConsumer) && isModalOpen == old(isModalOpen)
      ensures analysisResult == old(analysisResult) && isAnalyzing == old(isAnalyzing) && currentStep == old(currentStep)
      ensures consumers == old(consumers) && pagination == old(pagination) && currentPage == old(currentPage)
      ensures zones == old(zones) && statusFilter == old(statusFilter) && isDownloading == old(isDownloading)
    {
      if outcome.Success? {
        selectedConsumer := Some(outcome.value);
        isModalOpen := true;
      }
    }

    /** The modal's `onClose`. */
    method CloseModal()
      requires Valid()
      modifies this
      ensures Valid()
      ensures !isModalOpen && selectedConsumer.None?
      ensures analysisResult == old(analysisResult) && isAnalyzing == old(isAnalyzing) && currentStep == old(currentStep)
      ensures consumers == old(consumers) && pagination == old(pagination) && currentPage == old(currentPage)
      ensures zones == old(zones) && statusFilter == old(statusFilter) && isDownloading == old(isDownloading)
    {
      isModalOpen := false;
      selectedConsumer := None;
    }

    /** `handleFilterChange`: the filter is set, and page 1 is requested by a
        `fetchResults` that still sees the filter of the render it came from. */
    method HandleFilterChange(status: string) returns (request: seq<(string, string)>)
      requires Valid()
      modifies this
      ensures Valid()
      ensures statusFilter == status && FilterActive(status)
      ensures request == ResultsRequest(1, old(statusFilter))
      ensures analysisResult == old(analysisResult) && isAnalyzing == old(isAnalyzing) && currentStep == old(currentStep)
      ensures consumers == old(consumers) && pagination == old(pagination) && currentPage == old(currentPage)
      ensures zones == old(zones) && selectedConsumer == old(selectedConsumer) && isModalOpen == old(isModalOpen)
      ensures isDownloading == old(isDownloading)
    {
      request := ResultsRequest(1, statusFilter);
      statusFilter := status;
    }

    /** A report download starting: the buttons are disabled while it runs. */
    method StartDownload(format: ReportFormat) returns (path: string, fileName: string)
      requires Valid()
      modifies this
      ensures Valid() && isDownloading
      ensures path == ReportPath(format) && fileName == ReportFileName(format)
      ensures analysisResult == old(analysisResult) && isAnalyzing == old(isAnalyzing) && currentStep == old(currentStep)
      ensures consumers == old(consumers) && pagination == old(pagination) && currentPage == old(currentPage)
      ensures zones == old(zones) && selectedConsumer == old(selectedConsumer) && isModalOpen == old(isModalOpen)
      ensures statusFilter == old(statusFilter)
    {
      isDownloading := true;
      path := ReportPath(format);
      fileName := ReportFileName(format);
    }

    /** A report download ending, saved or failed: the buttons are enabled again. */
    method FinishDownload()
      requires Valid()
      modifies this
      ensures Valid() && !isDownloading
      ensures analysisResult == old(analysisResult) && isAnalyzing == old(isAnalyzing) && currentStep == old(currentStep)
      ensures consumers == old(consumers) && pagination == old(pagination) && currentPage == old(currentPage)
      ensures zones == old(zones) && selectedConsumer == old(selectedConsumer) && isModalOpen == old(isModalOpen)
      ensures statusFilter == old(statusFilter)
    {
      isDownloading := false;
    }
  }

  /** Whatever filter is chosen, exactly one filter button is highlighted when it is one of the options. */
  lemma OneFilterActive(statusFilter: string, i: int, j: int)
    requires 0 <= i < |FilterOptions| && 0 <= j < |FilterOptions|
    requires FilterOptions[i] == statusFilter && FilterOptions[j] == statusFilter
    ensures i == j
  {
    assert forall a, b :: 0 <= a < b < |FilterOptions| ==> FilterOptions[a] != FilterOptions[b] by {
      forall a, b | 0 <= a < b < |FilterOptions|
        ensures FilterOptions[a] != FilterOptions[b]
      {
        assert FilterOptions[a][0] != FilterOptions[b][0] || |FilterOptions[a]| != |FilterOptions[b]|;
      }
    }
  }
}
