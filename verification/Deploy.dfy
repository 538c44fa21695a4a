/** DeployAction: fire the mutate request or resume its poll, then write down how it ended. */
module Deploy {
  import opened Api
  import opened Cluster
  import opened RequestMapping
  import opened RequestGen
  import opened Poller

  const ERR_TRANSPORT := "no response"
  const ERR_TERMINAL_EXPR := "isTerminalError jq expression failed"
  const TERMINAL_MUTATE := "isTerminalError classified the mutate response as terminal"
  const TERMINAL_FAILURE := "isTerminalError classified this failure as terminal"

  /** The terminal message isTerminalError yields; None means retry. */
  function Classify(spec: Spec, st: Status, mutate: Response, poll: Option<Response>, default: string): Option<string> {
    if spec.isTerminalError.None? then None
    else
      match spec.isTerminalError.value(st, mutate, poll)
      case EvalErr(_) => Some(ERR_TERMINAL_EXPR)
      case EvalOk(JqString(s)) => if s == "" then None else Some(s)
      case EvalOk(JqBool(b)) => if !b then None else Some(if default == "" then TERMINAL_FAILURE else default)
      case EvalOk(JqOther) => None
  }

  /** SetRequestStatus: always an error when the request got no response. */
  function SetRequestStatus(w: World, d: HttpDetails, failed: bool, reset: bool): (World, bool) {
    if failed then (Save(w, RecordError(ERR_TRANSPORT)).0, false)
    else
      var spec := w.local.spec;
      Save(w, Record(d, reset, IsHTTPError(d.response.statusCode, spec.allowed),
                     ShouldSetCache(spec, w.local.status, d.response)))
  }

  /** NewStatusHandler followed by SetRequestStatus. */
  function RefreshAndRecord(w: World, d: HttpDetails, failed: bool, reset: bool): (World, bool) {
    var (w1, ok) := Get(w);
    if !ok then (w1, false) else SetRequestStatus(w1, d, failed, reset)
  }

  /** A mutate that came back as an HTTP error: stall if classified terminal, else an error. */
  function FailMutate(w: World, response: Response): (World, bool) {
    var msg := Classify(w.local.spec, w.local.status, response, None, TERMINAL_MUTATE);
    if msg.Some? then Save(w, SetTerminal(msg.value, false)) else (w, false)
  }

  /** Send the mutate request and put it on record. */
  function SendMutate(w: World, action: Action, m: Mapping): (World, Reply) {
    var (w1, reply) := Send(w);
    if !Alive(w) then (w1, reply)
    else
      var accepted := reply == NoAnswer(true)
        || (reply.Answer? && !IsHTTPError(reply.response.statusCode, w.local.spec.allowed));
      (Emit(w1, Mutate(action, m.polling.Some?, w.local.status, reply, accepted)), reply)
  }

  /** A mutate without a polling block: extract the identity, record the response. */
  function FinishSync(w: World, d: HttpDetails, failed: bool): (World, bool) {
    var w1 := if w.local.spec.externalRef.None? then w else Save(w, ExtractRef(d.response)).0;
    var (w2, ok) := RefreshAndRecord(w1, d, failed, false);
    if !ok then (w2, false)
    else if IsHTTPError(d.response.statusCode, w2.local.spec.allowed) then FailMutate(w2, d.response)
    else (w2, true)
  }

  /** A poll-confirmed operation failure: surface the response, then stall or clear the anchor. */
  function HandleOperationFailure(w: World, mutate: Response, failing: Response, msg: string): (World, bool) {
    var (w1, ok) := Save(w, PollFailure(failing));
    if !ok then (w1, false)
    else
      var terminal := Classify(w1.local.spec, w1.local.status, mutate, Some(failing), msg);
      if terminal.Some? then Save(w1, SetTerminal(terminal.value, true)) else Save(w1, ClearAnchor)
  }

  /** Poll the anchored operation and act on the verdict. */
  function PollAndFinish(w: World, m: Mapping, mutate: Response): (World, bool) {
    var (w1, outcome) := Poll(w, m, mutate);
    match outcome
    case Errored => (w1, false)
    case Terminal(_, msg) => Save(w1, SetTerminal(msg, false))
    case Failure(failing, msg) => HandleOperationFailure(w1, mutate, failing, msg)
    case StillRunning => (w1, true)
    case Finished(_, poll) => Save(w1, Complete(mutate, poll))
  }

  /** Fire the request; with a polling block, anchor its response before the first poll. */
  function Fire(w: World, action: Action, m: Mapping): (World, bool) {
    match GenerateValidRequestDetails(m, w.local.status)
    case EvalErr(_) => (w, false)
    case EvalOk(request) =>
      var (w1, reply) := SendMutate(w, action, m);
      var d := HttpDetails(ResponseOf(reply), request);
      var failed := !reply.Answer?;
      if m.polling.None? then FinishSync(w1, d, failed)
      else if failed then RefreshAndRecord(w1, d, true, false)
      else if IsHTTPError(d.response.statusCode, w1.local.spec.allowed) then
        var (w2, ok) := RefreshAndRecord(w1, d, false, false);
        if !ok then (w2, false) else FailMutate(w2, d.response)
      else
        var (w2, ok) := Save(w1, PersistAnchor(d.response));
        if !ok then (w2, false) else PollAndFinish(w2, m, d.response)
  }

  /** Resume the anchored operation; a clock reset by a cleared terminal starts anew here. */
  function Resume(w: World, m: Mapping, mutate: Response): (World, bool) {
    if w.local.status.startedAt.Some? then PollAndFinish(w, m, mutate)
    else
      var (w1, ok) := Save(w, StartClock);
      if !ok then (w1, false) else PollAndFinish(w1, m, mutate)
  }

  function DeployAction(w: World, action: Action): (World, bool) {
    var m := MappingFor(w.local.spec, action);
    if m.None? then (w, true)
    else if w.local.status.anchor.Some? then Resume(w, m.value, w.local.status.anchor.value)
    else Fire(w, action, m.value)
  }
}
