# GovAI dashboard — a Dafny model of its client-side rules

GovAI is a web dashboard for detecting electricity theft. A user uploads
smart-meter readings as CSV and runs an anomaly-detection analysis. The user
then browses the flagged consumers: a summary, a paged table, a score
histogram, zone and state heat maps, and a detail modal per consumer. The
dashboard also lists past analyses and downloads reports. The backend does
the analysis. This project models the browser side of the dashboard, which
covers:

- the HTTP client's interceptors, the auth-call error rethrowing and the
  results query;
- the session provider: its token in browser storage, the restore on
  mount, login, register and logout, and the backend warm-up;
- the decision rules of the components: page windows, score and rate tiers,
  colour families, histogram buckets, anomaly flags, the state lookup table,
  summary cards, link visibility and view selection;
- the state machines of the dashboard page, the upload panel, the history
  page, the navigation bar and the modal's record toggle.

The project has one Dafny module per source file, plus three shared modules:

- `Common`: Option, JS truthiness, join, ASCII upper-casing, decimal
  numerals and their parser, and a fraction-bounds lemma.
- `Tiers`: a reference definition of the source's `if (x >= t) return …`
  chains. `Reached(x, ts)` counts the thresholds `x` reaches. Every tier
  function is proved equal to `palette[Reached(x, ts)]`.
- `ApiTypes`: the record shapes the client and the components exchange.

Components that keep state are classes. Their fields are the component's
`useState` variables, and each method is one event handler. An asynchronous
handler is split at its `await`. A `Start…` method covers what happens
before the call. A `Finish…` method takes the call's outcome (`Outcome<T>`,
success or the thrown value) and covers what happens after. The backend, the
timers and the browser are not modelled: their results are parameters.

## Model

| member | source | states |
|---|---|---|
| ApiTypes.ErrorMessage | src/components/UploadPanel.tsx:54 | a thrown `Error` yields its own message; any other thrown value yields the fallback |
| Common.ParseIntToString | src/api/client.ts:236-237 | the decimal numeral `toString` produces for an integer parses back to that integer |
| Common.UpperIdempotent | src/components/IndiaMap.tsx:56 | upper-casing an upper-cased code changes nothing |
| ApiClient.TokenStorage.GetItem | src/api/client.ts:16 | `getItem` is null exactly for a missing key and otherwise the stored value |
| ApiClient.TokenStorage.SetItem | src/context/AuthContext.tsx:76 | `setItem` replaces that key's value and leaves every other key alone |
| ApiClient.TokenStorage.RemoveItem | src/api/client.ts:29 | `removeItem` deletes that key and leaves every other key alone |
| ApiClient.Authorize | src/api/client.ts:15-21 | a truthy token adds `Authorization: Bearer <token>`; a missing or empty one leaves the headers exactly as they were; other headers are always untouched |
| ApiClient.InterceptRequest | src/api/client.ts:15-21 | the request interceptor adds the stored token's Bearer header iff the storage holds a non-empty token |
| ApiClient.CurrentUserHeaders | src/api/client.ts:80-84 | `getCurrentUser(token)` is sent with the stored token's header when there is one, otherwise with its own token's header, and with none when neither is truthy |
| ApiClient.LoginRedirect | src/api/client.ts:27-33 | an error response redirects to `/login` iff its status is 401 and the page is neither `/login` nor `/register` |
| ApiClient.InterceptResponseError | src/api/client.ts:24-37 | a 401 removes the stored token and nothing else; any other failure leaves storage unchanged; the failure is rejected unchanged and the redirect is the one `LoginRedirect` gives |
| ApiClient.AuthCallError | src/api/client.ts:60-65 | an axios failure with a truthy `detail` is rethrown as an Error with exactly that message; any other failure is rethrown as it was |
| ApiClient.AuthCall | src/api/client.ts:68-78 | `loginUser`/`registerUser` return the response on success, and on failure throw what `AuthCallError` gives |
| ApiClient.ResultsQuery | src/api/client.ts:227-243 | the query holds `page`, `limit`, `sort_by` and `sort_desc` first, then `status_filter` iff the status filter is truthy, then `region_filter` iff the region filter is truthy, with the given values |
| ApiClient.ResultsParams | src/api/client.ts:235-243 | the successive appends build exactly the query `ResultsQuery` describes |
| ApiClient.ResultsQueryDefaults | src/api/client.ts:227-234 | called with no arguments, the query asks for page 1, 50 rows, sorted by `anomaly_score`, descending |
| ApiClient.ResultsQueryNumbers | src/api/client.ts:236-237 | the page and the limit can be read back from the query |
| ApiClient.ReportPathDefault | src/api/client.ts:260-261 | `ReportPath`, the path `downloadReport` requests, asks for `pdf` when no format is given and for `excel` for the spreadsheet |
| AuthContext.IsAuthenticated | src/context/AuthContext.tsx:99 | authenticated iff there is a user and a non-empty token |
| AuthContext.AuthProvider.constructor | src/context/AuthContext.tsx:20-23 | no user, no token, loading, backend not ready, and no health check yet |
| AuthContext.AuthProvider.WarmUp | src/context/AuthContext.tsx:27-34 | the first health check makes the backend ready on success and schedules one retry on failure; the warm-up invariant holds |
| AuthContext.AuthProvider.RetryWarmUp | src/context/AuthContext.tsx:34-41 | after the retry the backend is ready whatever the outcome, after exactly two checks |
| AuthContext.AuthProvider.RestoreSession | src/context/AuthContext.tsx:48-56 | a truthy stored token is adopted and handed to the user fetch; otherwise loading ends and the token stays; token and storage agree afterwards |
| AuthContext.AuthProvider.FetchCurrentUser | src/context/AuthContext.tsx:58-70 | success records the user; failure deletes the stored token and drops the token; loading ends either way |
| AuthContext.AuthProvider.StartSession | src/context/AuthContext.tsx:75-78 | the token is stored under `govai_token` and held in memory with the user; the session is authenticated iff the token is non-empty |
| AuthContext.AuthProvider.Login | src/context/AuthContext.tsx:72-79 | success starts the session with the response's token and user; failure changes nothing and passes the error on |
| AuthContext.AuthProvider.Register | src/context/AuthContext.tsx:81-88 | the same as `Login`, for the register call |
| AuthContext.AuthProvider.Logout | src/context/AuthContext.tsx:90-94 | the stored token, the token and the user are dropped; the session is no longer authenticated; nothing else changes |
| AuthContext.LogoutTwice | src/context/AuthContext.tsx:90-94 | a second logout leaves the state the first one left |
| AuthContext.MountWithoutToken | src/context/AuthContext.tsx:48-56 | mounting with nothing stored ends loading with no session |
| AuthContext.UseAuth | src/context/AuthContext.tsx:110-116 | the hook returns the context, and throws "useAuth must be used within an AuthProvider" outside a provider |
| AnomalyTable.WindowLength | src/components/AnomalyTable.tsx:151 | the window has min(5, total_pages) buttons, never more than 5 |
| AnomalyTable.PageNumber | src/components/AnomalyTable.tsx:152-161 | every button inside the window shows a page in [1, total_pages] |
| AnomalyTable.PageWindow | src/components/AnomalyTable.tsx:151-161 | the window has min(5, total_pages) entries, all in [1, total_pages], consecutive, and it contains the current page when that is a valid page |
| AnomalyTable.PositionOf | src/components/AnomalyTable.tsx:152-161 | a valid current page has a slot in the window that shows it |
| AnomalyTable.PageWindowIncreasing | src/components/AnomalyTable.tsx:152-161 | the page numbers strictly increase along the window |
| AnomalyTable.PageWindowCases | src/components/AnomalyTable.tsx:155-160 | above five pages the window is pages 1-5 near the start, the last five near the end, and otherwise the five centred on the current page |
| AnomalyTable.PageWindowSmall | src/components/AnomalyTable.tsx:153-154 | with at most five pages every page is listed in order |
| AnomalyTable.PreviousTarget | src/components/AnomalyTable.tsx:141-142 | Previous is disabled iff the current page is at most 1, and otherwise asks for the page before |
| AnomalyTable.NextTarget | src/components/AnomalyTable.tsx:180-181 | Next is disabled iff the current page is at least total_pages, and otherwise asks for the page after |
| AnomalyTable.PaginationVisible | src/components/AnomalyTable.tsx:133 | the bar is drawn iff there is pagination with more than one page, and then it has 2 to 5 page buttons |
| AnomalyTable.ScoreColor | src/components/AnomalyTable.tsx:43-48 | a score's text class is the palette entry of the tier it reaches under the thresholds 0.9, 0.75 and 0.5 |
| AnomalyTable.ScoreBarColor | src/components/AnomalyTable.tsx:50-55 | the same tiers give the bar class |
| AnomalyTable.ScoreColorsAgree | src/components/AnomalyTable.tsx:43-55 | two scores share a text class iff they share a bar class iff they reach the same tier |
| AnomalyTable.ScoreTierMonotone | src/components/AnomalyTable.tsx:43-55 | a higher score never lands in a lower tier |
| AnomalyTable.StatusBadge | src/components/AnomalyTable.tsx:25-41 | the three risk statuses show their own word in red, amber and blue; everything else shows "Normal" in emerald |
| AnalysisProgress.StepStatuses | src/components/AnalysisProgress.tsx:53-56 | each step is drawn completed, current or pending exactly as the current step is above, at or below its id |
| AnalysisProgress.IsPending | src/components/AnalysisProgress.tsx:56 | a step is pending while the current step is below its id; under the default step every step is pending |
| AnalysisProgress.IsCurrent | src/components/AnalysisProgress.tsx:55 | a step is current when the current step is its id, and a current step is never pending |
| AnalysisProgress.IsCompleted | src/components/AnalysisProgress.tsx:54 | a step is completed exactly when it is neither current nor pending |
| AnalysisProgress.StepIds | src/components/AnalysisProgress.tsx:9-34 | the four steps have ids 1 to 4 in display order |
| AnalysisProgress.ExactlyOneStatus | src/components/AnalysisProgress.tsx:54-56 | exactly one of completed, current and pending holds of every step |
| AnalysisProgress.AtMostOneCurrent | src/components/AnalysisProgress.tsx:55 | at most one step is current, the one whose id is the current step |
| AnalysisProgress.NothingStarted | src/components/AnalysisProgress.tsx:8 | under the default step 0 every step is pending and the bar is at 0% |
| AnalysisProgress.ProgressPercent | src/components/AnalysisProgress.tsx:128 | the bar never exceeds 100%, reaches it iff step 4 is reached, and moves 25% per step up to there |
| DashboardPage.NextStep | src/pages/Dashboard.tsx:37-43 | a tick moves the step up by one below 4 and leaves it alone from 4 on, so it never passes 4 |
| DashboardPage.StepAfterTicks | src/pages/Dashboard.tsx:34-47 | from a step in [0, 4], n ticks give min(step + n, 4) |
| DashboardPage.SelectView | src/pages/Dashboard.tsx:123-151 | upload iff there is no result and no analysis running; progress iff an analysis is running; results iff there is a result and none running |
| DashboardPage.FilterCaption | src/pages/Dashboard.tsx:219 | the `all` button reads "All"; the others read their status |
| DashboardPage.StatusArgument | src/pages/Dashboard.tsx:59 | no status is sent iff the filter is `all`; otherwise the filter itself is sent |
| DashboardPage.ResultsRequestShape | src/pages/Dashboard.tsx:59 | `ResultsRequest`, the `getResults` query of `fetchResults`: every request asks for the given page, 10 rows, by descending score, and filters by status iff a specific non-empty status is chosen |
| DashboardPage.ReportFileName | src/pages/Dashboard.tsx:103 | the PDF report is saved as `analysis_report.pdf`, the Excel one as `analysis_report.xlsx` |
| DashboardPage.OneFilterActive | src/pages/Dashboard.tsx:209-214 | no two filter buttons are highlighted at once |
| DashboardPage.Dashboard.constructor | src/pages/Dashboard.tsx:23-31 | the page starts at step 0, page 1, filter `all`, with no rows, zones, consumer or open modal |
| DashboardPage.Dashboard.Tick | src/pages/Dashboard.tsx:34-47 | while analysing a tick applies `NextStep`; otherwise nothing changes; the step stays in [0, 4] |
| DashboardPage.Dashboard.OnAnalysisStart | src/pages/Dashboard.tsx:133 | starting an analysis shows the progress view |
| DashboardPage.Dashboard.HandleAnalysisComplete | src/pages/Dashboard.tsx:77-87 | the response's id and summary become the result with no consumers; analysis ends, the step resets and the results view shows |
| DashboardPage.Dashboard.HandleNewAnalysis | src/pages/Dashboard.tsx:116-120 | the result is dropped, analysis ends, the step resets and the upload view shows |
| DashboardPage.Dashboard.RequestsOnResult | src/pages/Dashboard.tsx:50-55 | page 1 under the current filter is requested iff there is a result |
| DashboardPage.Dashboard.FinishFetchResults | src/pages/Dashboard.tsx:57-66 | success replaces the rows and the pagination and moves to the page; failure changes nothing |
| DashboardPage.Dashboard.FinishFetchZones | src/pages/Dashboard.tsx:68-75 | success stores the zones, or none when the response has no list; failure changes nothing |
| DashboardPage.Dashboard.FinishConsumerClick | src/pages/Dashboard.tsx:89-97 | success selects the consumer and opens the modal; failure changes nothing, so the modal is never open without a consumer |
| DashboardPage.Dashboard.CloseModal | src/pages/Dashboard.tsx:240-243 | closing the modal also clears the selected consumer |
| DashboardPage.Dashboard.HandleFilterChange | src/pages/Dashboard.tsx:111-114 | the filter is set and highlighted; the page-1 request still carries the filter it replaced |
| DashboardPage.Dashboard.StartDownload | src/pages/Dashboard.tsx:99-103 | the download buttons are disabled, and the report is fetched and named for its format |
| DashboardPage.Dashboard.FinishDownload | src/pages/Dashboard.tsx:106-108 | the buttons are enabled again whatever the outcome |
| AnomalyDistributionChart.Distribution | src/components/Charts/AnomalyDistributionChart.tsx:24-45 | five buckets in range order, each with the count of its range and that count's share of all consumers |
| AnomalyDistributionChart.Percentage | src/components/Charts/AnomalyDistributionChart.tsx:42 | the share is 0 with no consumers, and count / total * 100 otherwise |
| AnomalyDistributionChart.RangesDisjoint | src/components/Charts/AnomalyDistributionChart.tsx:25-38 | no score is counted in two ranges |
| AnomalyDistributionChart.RangesCover | src/components/Charts/AnomalyDistributionChart.tsx:25-38 | a score is counted in some range iff it lies in [0, 1.01) |
| AnomalyDistributionChart.CountsSum | src/components/Charts/AnomalyDistributionChart.tsx:35-38 | the five counts add up to the number of scores in [0, 1.01) |
| AnomalyDistributionChart.PercentagesSum | src/components/Charts/AnomalyDistributionChart.tsx:35-44 | the percentages add up to at most 100, and to exactly 100 when every score lies in [0, 1.01) |
| AnomalyDistributionChart.BarColor | src/components/Charts/AnomalyDistributionChart.tsx:47-62 | each range label has its own colour; an unknown label is grey |
| AnomalyDistributionChart.BarColorsDistinct | src/components/Charts/AnomalyDistributionChart.tsx:47-62 | the five ranges get five different colours, none the grey |
| ConsumptionTrendChart.IsAnomaly | src/components/Charts/ConsumptionTrendChart.tsx:28-36 | the backend's flag decides when present; otherwise a reading is anomalous iff it is above twice the average or below a tenth of it |
| ConsumptionTrendChart.ToChartPoint | src/components/Charts/ConsumptionTrendChart.tsx:38-47 | an entry keeps its index and reading, carries the reason iff it is truthy, and has a scatter value iff it is anomalous |
| ConsumptionTrendChart.ChartData | src/components/Charts/ConsumptionTrendChart.tsx:31-48 | one entry per reading, in order, indexed by position |
| ConsumptionTrendChart.Anomalous | src/components/Charts/ConsumptionTrendChart.tsx:51 | the overlay holds exactly the anomalous entries |
| ConsumptionTrendChart.AnomalousKeepsOrder | src/components/Charts/ConsumptionTrendChart.tsx:51 | the filter keeps the entries in their order |
| ConsumptionTrendChart.AnomalyDataExact | src/components/Charts/ConsumptionTrendChart.tsx:31-51 | a reading is in the overlay iff it is anomalous, and the overlay is in reading order |
| ConsumptionTrendChart.BadgeShownExactly | src/components/Charts/ConsumptionTrendChart.tsx:116 | the count badge shows iff some reading is anomalous |
| HistoryPage.AutoencoderCount | src/pages/History.tsx:31 | the count is at most the number of entries, equals it iff every entry used the autoencoder, and is 0 iff none did |
| HistoryPage.TotalConsumers | src/pages/History.tsx:29 | the sum of the entries' consumer counts: non-negative when each count is, and a single entry's own count |
| HistoryPage.TotalAnomalies | src/pages/History.tsx:30 | the sum of the entries' anomaly counts: non-negative when each count is, and a single entry's own count |
| HistoryPage.EmptyTotals | src/pages/History.tsx:29-31 | with no analyses every total is 0 |
| HistoryPage.AppendEntry | src/pages/History.tsx:29-31 | one more entry raises each total by exactly that entry's part |
| HistoryPage.ConcatTotals | src/pages/History.tsx:29-31 | the totals of two lists joined are the sums of their totals |
| HistoryPage.AnomaliesWithinConsumers | src/pages/History.tsx:29-30 | when each entry has at most as many anomalies as consumers, so do the totals |
| HistoryPage.ModelTag | src/pages/History.tsx:135-144 | an autoencoder run is tagged "Autoencoder" in purple, any other "Isolation Forest" in emerald |
| HistoryPage.History.constructor | src/pages/History.tsx:7-9 | the page starts loading, with no entries and no error |
| HistoryPage.History.ShownList | src/pages/History.tsx:60-67 | a spinner while loading, the empty notice for no entries, the cards otherwise |
| HistoryPage.History.StartFetch | src/pages/History.tsx:11-13 | a fetch sets loading and clears the error |
| HistoryPage.History.FinishFetch | src/pages/History.tsx:14-22 | success replaces the list, or empties it when the response has none; failure keeps the list and sets "Failed to load analysis history"; loading ends either way |
| HistoryPage.FetchSucceeds | src/pages/History.tsx:11-22 | a fetch that succeeds leaves the new list, no error and no spinner |
| ConsumerDetailModal.StatusColor | src/components/ConsumerDetailModal.tsx:18-29 | the three risk statuses have their own style; everything else gets the emerald style |
| ConsumerDetailModal.StatusColorsDistinct | src/components/ConsumerDetailModal.tsx:18-29 | the three risk styles differ from one another and from the default |
| ConsumerDetailModal.ScoreCardColor | src/components/ConsumerDetailModal.tsx:55 | the score card is red iff the score is at least 0.75, amber otherwise |
| ConsumerDetailModal.DisplayedRecords | src/components/ConsumerDetailModal.tsx:59-61 | expanded, all records show; collapsed, the first min(10, n); either way a prefix of the list |
| ConsumerDetailModal.ShowMoreVisible | src/components/ConsumerDetailModal.tsx:188 | the toggle shows iff there are more than 10 records, that is iff collapsing hides some |
| ConsumerDetailModal.RecordsSectionShown | src/components/ConsumerDetailModal.tsx:135 | the records section is drawn iff the collapsed list, and so the expanded one, has at least one row |
| ConsumerDetailModal.TrendChartShown | src/components/ConsumerDetailModal.tsx:274 | the trend chart is left out iff the consumer has no readings |
| ConsumerDetailModal.RangePercent | src/components/ConsumerDetailModal.tsx:243-245 | the average's position is (avg - min) / (max - min) * 100, with a denominator of 1 when max equals min |
| ConsumerDetailModal.RangePercentBounds | src/components/ConsumerDetailModal.tsx:243-245 | an average inside a non-empty range lies on the bar, at 0 iff it is the minimum and at 100 iff it is the maximum |
| ConsumerDetailModal.RangePercentFlat | src/components/ConsumerDetailModal.tsx:243-245 | a flat range puts the marker at the start |
| ConsumerDetailModal.Render | src/components/ConsumerDetailModal.tsx:16-65 | nothing without a consumer; the content iff there is a consumer and the modal is open |
| ConsumerDetailModal.RecordsToggle.constructor | src/components/ConsumerDetailModal.tsx:14 | the list starts collapsed |
| ConsumerDetailModal.RecordsToggle.Toggle | src/components/ConsumerDetailModal.tsx:190 | the button flips between expanded and collapsed |
| ConsumerDetailModal.ToggleTwice | src/components/ConsumerDetailModal.tsx:190 | two clicks leave the list as it was |
| RegionMap.ZoneGradient | src/components/RegionMap.tsx:10-15 | a zone's gradient is the palette entry of the tier its rate reaches under 0.1, 0.05 and 0.02 |
| RegionMap.ZoneBg | src/components/RegionMap.tsx:17-22 | the same tiers give the card background |
| RegionMap.ZoneTextColor | src/components/RegionMap.tsx:24-29 | the same tiers give the text colour |
| RegionMap.ZoneStylesAgree | src/components/RegionMap.tsx:10-29 | two zones share a gradient iff they share a background iff they share a text colour iff they are in the same tier |
| RegionMap.ZoneTierMonotone | src/components/RegionMap.tsx:10-29 | a higher rate never lands in a lower tier |
| RegionMap.LegendMatchesTiers | src/components/RegionMap.tsx:106-111 | the legend has one swatch per tier, bottom tier first, each the gradient of its tier |
| RegionMap.MaxAnomalyRate | src/components/RegionMap.tsx:31 | the scale is at least 0.1 and at least every rate, and it is 0.1 or one of the rates |
| RegionMap.IntensityPercent | src/components/RegionMap.tsx:88 | the bar width times the scale is 100 times the zone's rate |
| RegionMap.IntensityBounds | src/components/RegionMap.tsx:88 | a zone's bar stays within the track, and the zone with the largest rate fills it |
| RegionMap.ShownGrid | src/components/RegionMap.tsx:45-53 | the placeholder shows iff there are no zones; otherwise one card per zone |
| RegionMap.NoZones | src/components/RegionMap.tsx:31-45 | with no zones the placeholder shows and the scale is 0.1 |
| IndiaMap.FillColor | src/components/IndiaMap.tsx:32-40 | a state's fill is the palette entry of the tier its rate reaches under the six thresholds |
| IndiaMap.FillColorTiers | src/components/IndiaMap.tsx:32-40 | seven tiers with seven different colours, and a higher rate never lands in a lower tier |
| IndiaMap.Opacity | src/components/IndiaMap.tsx:43-47 | the opacity above 0.5 is proportional to the count, rising by 0.4 over one scale of consumers |
| IndiaMap.OpacityBounds | src/components/IndiaMap.tsx:43-47 | the opacity stays in [0.5, 0.9], at 0.5 iff there are no consumers and at 0.9 iff the count is the maximum |
| IndiaMap.StateDataMapOf | src/components/IndiaMap.tsx:53-59 | the table's keys are exactly the upper-cased codes of the entries |
| IndiaMap.BuildStateDataMap | src/components/IndiaMap.tsx:53-59 | the `forEach` builds exactly the table `StateDataMapOf` gives |
| IndiaMap.StateDataMapLastWins | src/components/IndiaMap.tsx:55-57 | an entry is what its code finds unless a later entry has the same code |
| IndiaMap.StateDataMapValues | src/components/IndiaMap.tsx:55-57 | every value in the table is one of the entries |
| IndiaMap.StateDataMapKeysUpper | src/components/IndiaMap.tsx:100 | no key is the lower-case `undefined` an absent code is looked up under |
| IndiaMap.LookupKey | src/components/IndiaMap.tsx:100 | a feature with a code is looked up under that code upper-cased, which upper-casing leaves alone; one without a code under `undefined` |
| IndiaMap.MaxConsumers | src/components/IndiaMap.tsx:61-63 | the scale is at least 1 and at least every count, and it is 1 or one of the counts |
| IndiaMap.FeatureStyle | src/components/IndiaMap.tsx:66-97 | a feature without a code and a code without data get the two grey styles; a state with data gets its tier colour and its opacity |
| IndiaMap.FeatureOpacityBounds | src/components/IndiaMap.tsx:89-95 | a state with data and a non-negative count is drawn with an opacity in [0.5, 0.9] |
| IndiaMap.ClickTarget | src/components/IndiaMap.tsx:100-128 | a click reports the feature's own code iff there is a callback and its upper-cased code has data |
| DashboardSummary.ZoneSubtext | src/components/DashboardSummary.tsx:43 | the zone card lists at most the first two zones joined by a comma, and "None" when that joins to nothing |
| DashboardSummary.AnomalyPercent | src/components/DashboardSummary.tsx:26 | the share times the number of consumers is 100 times the number of anomalies |
| DashboardSummary.AnomalyPercentBounds | src/components/DashboardSummary.tsx:26 | with at most as many anomalies as consumers the share lies in [0, 100], at 100 iff all are anomalous |
| DashboardSummary.AnomalyCardShare | src/components/DashboardSummary.tsx:19-26 | the anomaly card's subtext is the share of the detected anomalies among all consumers, in [0, 100] and at 100 iff all are anomalous |
| DashboardSummary.Cards | src/components/DashboardSummary.tsx:10-45 | four cards in order, each with its caption, its figure and its subtext |
| DashboardSummary.ZoneCountReadsBack | src/components/DashboardSummary.tsx:38 | the zone card's figure reads back as the number of high-risk zones |
| UploadPanel.AcceptsDrop | src/components/UploadPanel.tsx:37-38 | a drop is taken iff there is a file and its type is `text/csv` |
| UploadPanel.ErrorBanner | src/components/UploadPanel.tsx:108 | the error banner shows iff the error is a non-empty message, and shows that message |
| UploadPanel.Panel.constructor | src/components/UploadPanel.tsx:13-21 | no file, result or error, not dragging or uploading, contamination 0.05 and Isolation Forest |
| UploadPanel.Panel.DragOver | src/components/UploadPanel.tsx:23-26 | dragging is on and nothing else changes |
| UploadPanel.Panel.DragLeave | src/components/UploadPanel.tsx:28-31 | dragging is off and nothing else changes |
| UploadPanel.Panel.StartFileSelect | src/components/UploadPanel.tsx:45-48 | the file is taken, the error cleared and the upload started |
| UploadPanel.Panel.FinishUpload | src/components/UploadPanel.tsx:50-59 | success keeps the response; failure drops the file and shows the error's message or "Upload failed"; the upload ends either way |
| UploadPanel.Panel.HandleDrop | src/components/UploadPanel.tsx:33-43 | dragging ends; a CSV starts an upload; anything else sets "Please upload a CSV file" and starts nothing |
| UploadPanel.Panel.HandleInputChange | src/components/UploadPanel.tsx:62-67 | any chosen file starts an upload, whatever its type; no file changes nothing |
| UploadPanel.Panel.StartAnalyze | src/components/UploadPanel.tsx:69-77 | the error is cleared and the request carries the current contamination and model choice |
| UploadPanel.Panel.FinishAnalyze | src/components/UploadPanel.tsx:76-82 | success hands the response on; failure sets the error to the error's message or "Analysis failed" |
| UploadPanel.Panel.ClearFile | src/components/UploadPanel.tsx:85-89 | the file, the result and the error are dropped, so the drop zone shows again |
| UploadPanel.Panel.SetContamination | src/components/UploadPanel.tsx:214-220 | the slider sets the contamination within [0.01, 0.2] |
| UploadPanel.Panel.SetUseAutoencoder | src/components/UploadPanel.tsx:235-245 | the model buttons choose the autoencoder or not, and nothing else changes |
| UploadPanel.RejectThenAccept | src/components/UploadPanel.tsx:33-48 | a CSV dropped after a rejected file clears the error and starts its upload |
| Navbar.VisibleLinks | src/components/Navbar.tsx:53-55 | a link shows iff it is public or the session is authenticated (the mobile menu applies the same filter at line 143); signed in, all links show in order |
| Navbar.VisibleNavLinks | src/components/Navbar.tsx:13-17 | signed in the three links show; signed out only Home |
| Navbar.IsActive | src/components/Navbar.tsx:19 | a link is active iff the current path equals its path exactly |
| Navbar.AtMostOneActive | src/components/Navbar.tsx:13-19 | no path makes two links active |
| Navbar.Shown | src/components/Navbar.tsx:28-30 | the bar is hidden iff the path is `/login` or `/register` |
| Navbar.Bar.constructor | src/components/Navbar.tsx:11 | the mobile menu starts closed |
| Navbar.Bar.ToggleMobileMenu | src/components/Navbar.tsx:127 | the menu button flips the mobile menu |
| Navbar.Bar.FollowMobileLink | src/components/Navbar.tsx:146-149 | a mobile link navigates and closes the menu |
| Navbar.Bar.HandleLogout | src/components/Navbar.tsx:21-25 | logout ends the session and deletes the stored token, goes to `/` and closes the menu; the bar then shows only Home, and Home is active; the provider's loading and warm-up state is untouched, so its invariant and token-storage agreement hold |

## Left out

- Rendering is left out: JSX, Tailwind class strings beyond the ones the decision rules return, framer-motion animations, recharts, react-leaflet, hover styles, tooltips and icons.
- The transport and the browser are left out: axios, the multipart upload, the blob download, file-saver, real timers and `window.location`. A backend call is an outcome passed to a `Finish…` method. A redirect is a returned path. The warm-up's five-second timer is the `RetryWarmUp` event. The progress interval is the `Tick` event.
- `localStorage` is a `TokenStorage` object holding a map; other keys and quota errors are not modelled.
- Numbers are exact reals and integers, so floating-point rounding is not modelled. The thresholds such as 0.2 and 0.05 are compared as exact decimals, not as their nearest doubles.
- Number and date formatting are left out: `toLocaleString`, `toFixed`, the chart's time and date labels and their `Point <i>` fallback. The summary's figures keep the number and say which format it is shown in.
- `URLSearchParams` percent-encoding is left out: the query is the list of name/value pairs.
- Upper-casing covers ASCII letters only; `toUpperCase` also maps other scripts.
- DashboardSummary.AnomalyPercent: no value is claimed for zero consumers, where the source divides by zero and shows `NaN` or `Infinity`.
- DashboardPage.Dashboard.HandleFilterChange: the request carries the filter being replaced, because `fetchResults` reads `statusFilter` from the render that created the handler. The model does not claim that the new filter reaches the request.
- DashboardPage.Dashboard: a failed analysis leaves `isAnalyzing` true, because the upload panel reports no failure to the page. The model does not claim that the page returns to the upload view.
- UploadPanel.Panel.FinishAnalyze: the error it sets is never displayed. `handleAnalyze` calls `onAnalysisStart` first, so the page switches to the progress view and the panel is unmounted while the analysis runs. The model keeps the panel's own state and does not claim that the message reaches the screen.
- ConsumerDetailModal.RecordsToggle: the modal is unmounted when it closes, so the list starts collapsed again on every reopen. The model has one toggle and does not model the remount.
- IndiaMap.ClickTarget: react-leaflet attaches the click handler once per layer, so a click looks up the `stateDataMap` of the render that created the layer. The model looks up the current table.
- AuthContext.AuthProvider.Synced: token and storage stay in agreement only as far as the provider's own methods go. The response interceptor deletes the stored token on a 401 without touching the provider's token, so agreement is assumed for no call that follows one.
- ApiClient.AuthCallError: a `detail` that is not a string is not modelled; the backend's `detail` is treated as an optional string.
- The IndiaMap legend, its tooltips and `indiaGeoJSON.ts` are left out. The link between the legend's captions and the fill tiers is not stated.
- `Home.tsx` is not part of this model. `App.tsx` is not part of this model beyond the record shapes it declares.
- The backend's own checks are not modelled. These include the contamination bounds as the backend enforces them and the analysis itself.
