/** The record shapes the dashboard receives from the backend. Counts are
    integers, scores, rates and consumptions exact reals. Fields the client
    code never reads for a decision (free-form reports, previews) are omitted. */
module ApiTypes {
  import opened Common

  datatype Summary = Summary(
    total_consumers: int,
    anomalies_detected: int,
    high_risk_count: int,
    suspicious_count: int,
    review_needed_count: int,
    avg_anomaly_score: real,
    high_risk_zones: seq<string>,
    zone_anomaly_counts: map<string, int>)

  datatype Consumer = Consumer(
    consumer_id: string,
    region: string,
    avg_consumption: real,
    anomaly_score: real,
    status: string,
    is_anomaly: bool,
    consumption_profile: Option<string>)

  datatype Pagination = Pagination(page: int, limit: int, total: int, total_pages: int)

  datatype AnalysisResult = AnalysisResult(
    analysis_id: string,
    summary: Summary,
    consumers: seq<Consumer>,
    pagination: Option<Pagination>)

  datatype User = User(id: string, email: string, name: string, created_at: string)

  datatype AuthResponse = AuthResponse(access_token: string, token_type: string, user: User)

  datatype UploadResponse = UploadResponse(
    status: string,
    message: string,
    filename: string,
    rows: int,
    columns: seq<string>)

  datatype AnalyzeRequest = AnalyzeRequest(contamination: real, use_autoencoder: bool)

  datatype AnalyzeResponse = AnalyzeResponse(
    status: string,
    analysis_id: string,
    message: string,
    summary: Summary,
    consumers_analyzed: int,
    timestamp: string)

  datatype ResultsResponse = ResultsResponse(
    analysis_id: string,
    summary: Summary,
    consumers: seq<Consumer>,
    pagination: Pagination)

  /** A reading of the consumption history; the trend chart also accepts it
      without `is_anomalous`. */
  datatype TimeseriesPoint = TimeseriesPoint(
    timestamp: string,
    consumption: real,
    is_anomalous: Option<bool>,
    anomaly_reason: Option<string>)

  datatype AnomalousRecord = AnomalousRecord(
    timestamp: string,
    consumption: real,
    is_anomalous: bool,
    anomaly_reason: string)

  datatype ConsumerDetail = ConsumerDetail(
    consumer_id: string,
    region: string,
    avg_consumption: real,
    std_consumption: real,
    min_consumption: real,
    max_consumption: real,
    anomaly_score: real,
    status: string,
    is_anomaly: bool,
    consumption_profile: string,
    ai_explanation: string,
    night_day_ratio: real,
    weekend_weekday_ratio: real,
    timeseries: seq<TimeseriesPoint>,
    anomalous_records: seq<AnomalousRecord>,
    anomalous_record_count: int,
    total_records: int)

  datatype HistoryEntry = HistoryEntry(
    analysis_id: string,
    timestamp: string,
    filename: string,
    total_consumers: int,
    anomalies_detected: int,
    contamination: real,
    used_autoencoder: bool)

  datatype ZoneStats = ZoneStats(
    zone: string,
    consumer_count: int,
    avg_anomaly_score: real,
    anomaly_count: int,
    anomaly_rate: real)

  /** What a failed call throws, as the catch blocks see it: an `Error` with a
      message, or some other value. */
  datatype Thrown = ErrorObject(message: string) | OtherValue

  /** `err instanceof Error ? err.message : fallback` */
  function ErrorMessage(err: Thrown, fallback: string): (m: string)
    ensures err.ErrorObject? ==> m == err.message
    ensures err.OtherValue? ==> m == fallback
  {
    match err
    case ErrorObject(message) => message
    case OtherValue => fallback
  }

  /** The outcome of one backend call. */
  datatype Outcome<+T> = Success(value: T) | Failure(error: Thrown)
}
