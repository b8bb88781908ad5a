/** The HTTP client: the browser's token storage, the request and response
    interceptors, the error rethrowing of the auth calls, and the query of the
    paged results listing. The transport itself is not modelled: a call's
    outcome is handed in by the caller. */
module ApiClient {
  import opened Common
  import opened ApiTypes

  /** The storage key of the session token. */
  const TokenKey: string := "govai_token"

  /** `localStorage`: one key/value store, shared by the client and the auth context. */
  class TokenStorage {
    var items: map<string, string>

    constructor (initial: map<string, string>)
      ensures items == initial
    {
      items := initial;
    }

    /** `getItem`: null for a missing key. */
    function GetItem(key: string): (v: Option<string>)
      reads this
      ensures v.Some? <==> key in items
      ensures v.Some? ==> v.value == items[key]
    {
      if key in items then Some(items[key]) else None
    }

    method SetItem(key: string, value: string)
      modifies this
      ensures items == old(items)[key := value]
    {
      items := items[key := value];
    }

    method RemoveItem(key: string)
      modifies this
      ensures items == old(items) - {key}
    {
      items := items - {key};
    }
  }

  type Headers = map<string, string>

  /** The headers every request of the client instance starts with. */
  const DefaultHeaders: Headers := map["Content-Type" := "application/json"]

  /** The request interceptor: a truthy stored token becomes a Bearer
      `Authorization` header; otherwise the headers pass through. */
  function Authorize(headers: Headers, stored: Option<string>): (h: Headers)
    ensures Truthy(stored) ==> "Authorization" in h && h["Authorization"] == "Bearer " + stored.value
    ensures forall k :: k != "Authorization" ==> (k in h <==> k in headers)
    ensures forall k :: k in h && k != "Authorization" ==> h[k] == headers[k]
    ensures !Truthy(stored) ==> h == headers
  {
    if Truthy(stored) then headers["Authorization" := "Bearer " + stored.value] else headers
  }

  /** The request interceptor reading the shared storage. */
  function InterceptRequest(storage: TokenStorage, headers: Headers): (h: Headers)
    reads storage
    ensures TokenKey in storage.items && storage.items[TokenKey] != "" ==>
      h == headers["Authorization" := "Bearer " + storage.items[TokenKey]]
    ensures !(TokenKey in storage.items && storage.items[TokenKey] != "") ==> h == headers
  {
    Authorize(headers, storage.GetItem(TokenKey))
  }

  /** The headers `getCurrentUser(token)` is sent with: its own Bearer header,
      which the interceptor then replaces by the stored token when there is one. */
  function CurrentUserHeaders(token: Option<string>, stored: Option<string>): (h: Headers)
    ensures Truthy(stored) ==> "Authorization" in h && h["Authorization"] == "Bearer " + stored.value
    ensures !Truthy(stored) && Truthy(token) ==> "Authorization" in h && h["Authorization"] == "Bearer " + token.value
    ensures !Truthy(stored) && !Truthy(token) ==> "Authorization" !in h
  {
    var own := if Truthy(token) then DefaultHeaders["Authorization" := "Bearer " + token.value] else DefaultHeaders;
    Authorize(own, stored)
  }

  /** Why a request failed: an axios error (with the HTTP status and the
      backend's `detail`, when there was a response) or anything else thrown. */
  datatype RequestFailure =
    | AxiosFailure(status: Option<int>, detail: Option<string>, message: string)
    | OtherFailure(thrown: Thrown)

  function StatusOf(failure: RequestFailure): Option<int> {
    if failure.AxiosFailure? then failure.status else None
  }

  /** After an error response: where the page is sent, if anywhere. */
  function LoginRedirect(status: Option<int>, pathname: string): (r: Option<string>)
    ensures r.Some? <==> status == Some(401) && pathname != "/login" && pathname != "/register"
    ensures r.Some? ==> r.value == "/login"
  {
    if status == Some(401) && pathname != "/login" && pathname != "/register" then Some("/login") else None
  }

  /** The response interceptor's error path: a 401 drops the stored token and
      may redirect to the login page; the failure is rejected unchanged. */
  method InterceptResponseError(storage: TokenStorage, failure: RequestFailure, pathname: string)
    returns (rejected: RequestFailure, redirect: Option<string>)
    modifies storage
    ensures rejected == failure
    ensures redirect == LoginRedirect(StatusOf(failure), pathname)
    ensures StatusOf(failure) == Some(401) ==> storage.items == old(storage.items) - {TokenKey}
    ensures StatusOf(failure) != Some(401) ==> storage.items == old(storage.items)
  {
    if StatusOf(failure) == Some(401) {
      storage.RemoveItem(TokenKey);
    }
    redirect := LoginRedirect(StatusOf(failure), pathname);
    rejected := failure;
  }

  /** What `loginUser` and `registerUser` throw: an error carrying a backend
      `detail` becomes an Error with exactly that message; anything else is
      rethrown as it is (an axios error is an Error with its own message). */
  function AuthCallError(failure: RequestFailure): (e: Thrown)
    ensures failure.AxiosFailure? && Truthy(failure.detail) ==> e == ErrorObject(failure.detail.value)
    ensures failure.AxiosFailure? && !Truthy(failure.detail) ==> e == ErrorObject(failure.message)
    ensures failure.OtherFailure? ==> e == failure.thrown
  {
    match failure
    case AxiosFailure(_, detail, message) => if Truthy(detail) then ErrorObject(detail.value) else ErrorObject(message)
    case OtherFailure(thrown) => thrown
  }

  /** The outcome `loginUser` / `registerUser` hand to their caller. */
  function AuthCall(response: Option<AuthResponse>, failure: RequestFailure): (o: Outcome<AuthResponse>)
    ensures response.Some? ==> o == Success(response.value)
    ensures response.None? ==> o.Failure? && o.error == AuthCallError(failure)
  {
    if response.Some? then Success(response.value) else Failure(AuthCallError(failure))
  }

  function BoolToString(b: bool): string {
    if b then "true" else "false"
  }

  /** The query of `getResults`, with the function's defaults. The four fixed
      parameters come first, then the filters that are truthy. */
  function ResultsQuery(page: int := 1, limit: int := 50, statusFilter: Option<string> := None,
                        regionFilter: Option<string> := None, sortBy: string := "anomaly_score",
                        sortDesc: bool := true): (q: seq<(string, string)>)
    ensures |q| == 4 + (if Truthy(statusFilter) then 1 else 0) + (if Truthy(regionFilter) then 1 else 0)
    ensures q[..4] == [("page", IntToString(page)), ("limit", IntToString(limit)),
                       ("sort_by", sortBy), ("sort_desc", BoolToString(sortDesc))]
    ensures (exists k :: 0 <= k < |q| && q[k].0 == "status_filter") <==> Truthy(statusFilter)
    ensures (exists k :: 0 <= k < |q| && q[k].0 == "region_filter") <==> Truthy(regionFilter)
    ensures Truthy(statusFilter) ==> q[4] == ("status_filter", statusFilter.value)
    ensures Truthy(regionFilter) ==> q[|q| - 1] == ("region_filter", regionFilter.value)
  {
    var fixed := [("page", IntToString(page)), ("limit", IntToString(limit)),
                  ("sort_by", sortBy), ("sort_desc", BoolToString(sortDesc))];
    var withStatus := if Truthy(statusFilter) then fixed + [("status_filter", statusFilter.value)] else fixed;
    var q := if Truthy(regionFilter) then withStatus + [("region_filter", regionFilter.value)] else withStatus;
    assert "status_filter"[0] != "region_filter"[0];
    assert forall k :: 0 <= k < 4 ==> q[k] == fixed[k] && |q[k].0| < 13;
    assert |"status_filter"| == |"region_filter"| == 13;
    assert Truthy(statusFilter) ==> q[4].0 == "status_filter";
    assert Truthy(regionFilter) ==> q[|q| - 1].0 == "region_filter";
    q
  }

  /** `getResults` building its `URLSearchParams` by successive appends. */
  method ResultsParams(page: int := 1, limit: int := 50, statusFilter: Option<string> := None,
                       regionFilter: Option<string> := None, sortBy: string := "anomaly_score",
                       sortDesc: bool := true) returns (params: seq<(string, string)>)
    ensures params == ResultsQuery(page, limit, statusFilter, regionFilter, sortBy, sortDesc)
  {
    params := [("page", IntToString(page)), ("limit", IntToString(limit)),
               ("sort_by", sortBy), ("sort_desc", BoolToString(sortDesc))];
    if Truthy(statusFilter) {
      params := params + [("status_filter", statusFilter.value)];
    }
    if Truthy(regionFilter) {
      params := params + [("region_filter", regionFilter.value)];
    }
  }

  /** Called with no arguments, `getResults` asks for page 1 of 50 by descending score. */
  lemma ResultsQueryDefaults()
    ensures ResultsQuery() == [("page", "1"), ("limit", "50"), ("sort_by", "anomaly_score"), ("sort_desc", "true")]
  {
    assert IntToString(1) == [DigitChar(1)] == "1";
    assert IntToString(50) == [DigitChar(5)] + [DigitChar(0)] == "50";
  }

  /** The page and limit sent can be read back from the query. */
  lemma ResultsQueryNumbers(page: int, limit: int, statusFilter: Option<string>, regionFilter: Option<string>,
                            sortBy: string, sortDesc: bool)
    ensures ParseInt(ResultsQuery(page, limit, statusFilter, regionFilter, sortBy, sortDesc)[0].1) == page
    ensures ParseInt(ResultsQuery(page, limit, statusFilter, regionFilter, sortBy, sortDesc)[1].1) == limit
  {
    var q := ResultsQuery(page, limit, statusFilter, regionFilter, sortBy, sortDesc);
    assert q[0] == q[..4][0] && q[1] == q[..4][1];
    ParseIntToString(page);
    ParseIntToString(limit);
  }

  datatype ReportFormat = Pdf | Excel

  function FormatName(format: ReportFormat): string {
    match format
    case Pdf => "pdf"
    case Excel => "excel"
  }

  /** The request path of `downloadReport`; the format defaults to PDF. */
  function ReportPath(format: ReportFormat := Pdf): string {
    "/report?format=" + FormatName(format)
  }

  /** Without an argument the PDF report is asked for; the spreadsheet is `excel`. */
  lemma ReportPathDefault()
    ensures ReportPath() == "/report?format=pdf"
    ensures ReportPath(Excel) == "/report?format=excel"
  {
  }
}
