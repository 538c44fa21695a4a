/**
 The AsyncRequest resource: status, spec and the exact field effects of its status setters.

 A jq expression of the spec is modelled by its meaning: a total function from the values in
 its context to a value or an error. Nothing is assumed about these functions unless a
 theorem says so.
 */
module Api {

  datatype Option<+T> = None | Some(value: T)

  /** What evaluating a jq expression yields. */
  datatype Eval<+T> = EvalErr(msg: string) | EvalOk(value: T)

  /** The shapes of an isTerminalError result the controller tells apart. */
  datatype JqValue = JqString(s: string) | JqBool(b: bool) | JqOther

  type Headers = map<string, seq<string>>

  datatype Response = Response(statusCode: int, headers: Option<Headers>, body: string)

  const NO_RESPONSE := Response(0, None, "")

  datatype HttpRequest = HttpRequest(verb: string, url: string, body: string, headers: Option<Headers>)

  const NO_REQUEST := HttpRequest("", "", "", None)

  datatype HttpDetails = HttpDetails(response: Response, request: HttpRequest)

  const NO_DETAILS := HttpDetails(NO_RESPONSE, NO_REQUEST)

  datatype Action = Create | Observe | Update | Remove

  // ---------------------------------------------------------------- status

  /** status.polling.response is `anchor`, status.polling.startedAt is `startedAt`. */
  datatype Status = Status(
    response: Response,
    cache: Response,
    failed: int,
    error: string,
    requestDetails: HttpRequest,
    externalRef: string,
    terminalError: string,
    anchor: Option<Response>,
    startedAt: Option<int>,
    observedGeneration: int)

  const FRESH_STATUS :=
    Status(NO_RESPONSE, NO_RESPONSE, 0, "", NO_REQUEST, "", "", None, None, 0)

  /** `n++` on an int32. */
  function Increment32(n: int): int {
    if n == 0x7fff_ffff then -0x8000_0000 else n + 1
  }

  /** The setters for status code, headers and body: an empty part leaves the stored one alone. */
  function MergeResponse(stored: Response, r: Response): Response {
    Response(
      if r.statusCode != 0 then r.statusCode else stored.statusCode,
      if r.headers.Some? then r.headers else stored.headers,
      if r.body != "" then r.body else stored.body)
  }

  function SetResponse(st: Status, r: Response): (st': Status)
    ensures st' == st.(response := st'.response)
  {
    st.(response := MergeResponse(st.response, r))
  }

  function SetRequestDetails(st: Status, r: HttpRequest): (st': Status)
    ensures st' == st.(requestDetails := st'.requestDetails)
  {
    if r.verb != "" then st.(requestDetails := r) else st
  }

  function SetError(st: Status, msg: Option<string>): Status {
    st.(failed := Increment32(st.failed), error := if msg.Some? then msg.value else st.error)
  }

  function ResetFailures(st: Status): Status {
    st.(failed := 0, error := "")
  }

  function SetTerminalError(st: Status, msg: string): Status {
    st.(terminalError := msg, error := msg)
  }

  /** The cached response, absent while its status code is zero. */
  function CachedResponse(st: Status): Option<Response> {
    if st.cache.statusCode == 0 then None else Some(st.cache)
  }

  // ---------------------------------------------------------------- spec

  /** A templated request. `valid` is IsRequestValid: a URL and no "null" anywhere in it. */
  datatype Rendered = RenderErr(msg: string) | Rendered(request: HttpRequest, valid: bool)

  datatype Polling = Polling(
    url: (Status, Response) -> Eval<string>,
    done: (Status, Response, Response) -> Eval<bool>,
    error: Option<(Status, Response, Response) -> Eval<Option<string>>>,
    timeout: int,
    interval: nat)

  datatype Mapping = Mapping(
    verb: string,
    action: string,
    url: string,
    render: (Status, Option<Response>) -> Rendered,
    polling: Option<Polling>)

  type Check = (Status, Response) -> Eval<bool>

  datatype UpToDateCheck =
    | DefaultUpToDate(compare: (Status, Response, string) -> Eval<bool>)
    | CustomUpToDate(check: Check)

  datatype Spec = Spec(
    mappings: seq<Mapping>,
    allowed: set<int>,
    externalRef: Option<(Status, Response, Option<Response>) -> Eval<string>>,
    isTerminalError: Option<(Status, Response, Option<Response>) -> Eval<JqValue>>,
    removed: Option<Check>,
    existsCheck: Option<Check>,
    upToDate: UpToDateCheck)

  /** The stored object. `version` is the resource version: every write and every edit bumps it. */
  datatype Object = Object(
    name: string,
    externalName: string,
    spec: Spec,
    generation: int,
    deleted: bool,
    version: nat,
    status: Status)

  // ---------------------------------------------------------------- HTTP status codes

  predicate IsHTTPSuccess(code: int) {
    200 <= code < 300
  }

  predicate IsHTTPError(code: int, allowed: set<int>) {
    400 <= code < 600 && code !in allowed
  }

  // ---------------------------------------------------------------- URLs

  predicate HasPrefix(s: string, prefix: string) {
    |prefix| <= |s| && s[..|prefix|] == prefix
  }

  predicate Contains(s: string, sub: string) {
    exists i :: 0 <= i <= |s| && HasPrefix(s[i..], sub)
  }

  predicate UrlReferencesExternalRef(url: string) {
    Contains(url, ".status.externalRef")
  }

  predicate UrlReferencesResponse(url: string) {
    Contains(url, ".response") && !Contains(url, ".status.response")
  }

  /** An http or https scheme followed by a non-empty host. */
  predicate IsAbsoluteUrl(raw: string) {
    var rest := if HasPrefix(raw, "http://") then raw[7..]
                else if HasPrefix(raw, "https://") then raw[8..] else "";
    rest != "" && rest[0] != '/' && rest[0] != '?' && rest[0] != '#'
  }

  predicate PollingConfigured(spec: Spec) {
    exists i :: 0 <= i < |spec.mappings| && spec.mappings[i].polling.Some?
  }
}
