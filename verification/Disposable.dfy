/**
 The AsyncDisposableRequest machine: a one-off trigger request with a retry limit. Like in
 Cluster, a reconcile consumes turns of a tape, and an exhausted tape is a crash. Unlike there,
 errors clear the anchor and count towards the limit, and the anchor is written without a retry.
 */
module Disposable {
  import opened Api
  import Cluster
  import Poller

  datatype DisposableStatus = DisposableStatus(
    response: Response,
    failed: int,
    error: string,
    synced: bool,
    requestDetails: HttpRequest,
    anchor: Option<Response>,
    startedAt: Option<int>,
    lastReconcile: Option<int>)

  const UNSYNCED := DisposableStatus(NO_RESPONSE, 0, "", false, NO_REQUEST, None, None, None)

  datatype OperationPolling = OperationPolling(
    url: (DisposableStatus, Response) -> Eval<string>,
    done: (DisposableStatus, Response, Response) -> Eval<bool>,
    error: Option<(DisposableStatus, Response, Response) -> Eval<Option<string>>>,
    timeout: int,
    interval: nat)

  /** `limit` is rollbackRetriesLimit, `loop` shouldLoopInfinitely. */
  datatype DisposableSpec = DisposableSpec(
    request: HttpRequest,
    valid: bool,
    allowed: set<int>,
    expected: Option<Response -> Eval<bool>>,
    limit: Option<int>,
    loop: bool,
    nextReconcile: Option<int>,
    polling: Option<OperationPolling>)

  datatype DisposableObject = DisposableObject(spec: DisposableSpec, deleted: bool, version: nat, status: DisposableStatus)

  /** `touch`: someone else wrote the object, but neither its spec nor these status fields. */
  datatype Env = Env(touch: bool, delete: bool, delay: nat)

  /** How a call to the API server ended; `LandedUnseen` took effect although its caller was told it failed. */
  datatype Ack = Refused | Landed | LandedUnseen

  /** The answers in store for whatever the turn is spent on: an API call, an HTTP request, a sleep. */
  datatype Reply = Reply(ack: Ack, response: Option<Response>, woke: bool)

  datatype Turn = Turn(env: Env, reply: Reply)

  /**
   Besides the state proper: `sent` trigger requests, `phantoms` (failures counted although the
   secrets for the request could not be resolved, so none was sent), and `lost` (requests sent
   whose reconcile ended with neither a counted failure, nor an anchor, nor success on record).
   */
  datatype World = World(
    server: DisposableObject, local: DisposableObject, now: nat, tape: seq<Turn>, finalized: bool, sent: nat, phantoms: nat, lost: nat)

  // ---------------------------------------------------------------- status setters

  function CountError(st: DisposableStatus, msg: string): DisposableStatus {
    st.(failed := Increment32(st.failed), synced := false, error := msg)
  }

  function SetSynced(st: DisposableStatus): DisposableStatus {
    st.(synced := true, failed := 0, error := "")
  }

  function SetDetails(st: DisposableStatus, r: HttpRequest): DisposableStatus {
    if r.verb != "" then st.(requestDetails := r) else st
  }

  function RecordResponse(st: DisposableStatus, r: Response): DisposableStatus {
    st.(response := MergeResponse(st.response, r))
  }

  // ---------------------------------------------------------------- single interactions

  function Disturb(o: DisposableObject, env: Env): DisposableObject {
    var o1 := if env.touch then o.(version := o.version + 1) else o;
    if env.delete && !o1.deleted then o1.(deleted := true, version := o1.version + 1) else o1
  }

  predicate Alive(w: World) {
    w.tape != []
  }

  function Advance(w: World): World
    requires Alive(w)
  {
    w.(server := Disturb(w.server, w.tape[0].env), now := w.now + w.tape[0].env.delay, tape := w.tape[1..])
  }

  function Get(w: World): (World, bool) {
    if !Alive(w) then (w, false)
    else
      var w1 := Advance(w);
      if w.tape[0].reply.ack.Landed? then (w1.(local := w1.server), true) else (w1, false)
  }

  datatype Saved = Stored | StoredUnseen | NotStored

  function Store(w: World, st: DisposableStatus, reply: Reply): (World, Saved) {
    if !reply.ack.Landed? && !reply.ack.LandedUnseen? then (w, NotStored)
    else
      var w1 := w.(server := w.server.(status := st, version := w.server.version + 1));
      if reply.ack.Landed? then (w1.(local := w1.server), Stored) else (w1, StoredUnseen)
  }

  /** What the trigger's status setters make of the status they meet. */
  datatype Change =
    | TransportError(msg: string, request: HttpRequest)
    | HttpError(msg: string, details: HttpDetails)
    | Unexpected(msg: string, details: HttpDetails)
    | Synced(details: HttpDetails)

  function Apply(c: Change, st: DisposableStatus, now: nat): DisposableStatus {
    match c
    case TransportError(msg, request) => SetDetails(CountError(st, msg).(lastReconcile := Some(Cluster.Stored(now))), request)
    case HttpError(msg, d) => CountError(SetDetails(RecordResponse(st, d.response).(lastReconcile := Some(Cluster.Stored(now))), d.request), msg)
    case Unexpected(msg, d) => SetDetails(CountError(RecordResponse(st, d.response).(lastReconcile := Some(Cluster.Stored(now))), msg), d.request)
    case Synced(d) => SetDetails(SetSynced(RecordResponse(st, d.response).(lastReconcile := Some(Cluster.Stored(now)))), d.request)
  }

  /** A status write through the conflict-retry writer: one atomic step. */
  function Save(w: World, c: Change): (World, Saved) {
    if !Alive(w) then (w, NotStored)
    else
      var w1 := Advance(w);
      Store(w1, Apply(c, w1.server.status, w1.now), w.tape[0].reply)
  }

  /** A plain status update to `st`: it lands only if the stored object has not moved. */
  function Persist(w: World, st: DisposableStatus): (World, Saved) {
    if !Alive(w) then (w, NotStored)
    else
      var w1 := Advance(w);
      if w1.server.version != w1.local.version then (w1, NotStored) else Store(w1, st, w.tape[0].reply)
  }

  // ---------------------------------------------------------------- polling

  datatype Outcome = Errored | OverBudget | OpFailed(failing: Option<Response>, msg: string) | Completed(poll: Response)

  const INVALID_URL := "polling.url is not a valid absolute URL"
  const TIMEOUT := "polling timeout"
  const UNEXPECTED := "Response does not match the expected format"

  function Judge(p: OperationPolling, st: DisposableStatus, trigger: Response, poll: Response): (r: Option<Outcome>) {
    var done := p.done(st, trigger, poll);
    if done.EvalErr? then Some(Errored)
    else if !done.value then None
    else if p.error.None? then Some(Completed(poll))
    else
      match p.error.value(st, trigger, poll)
      case EvalErr(_) => Some(Errored)
      case EvalOk(None) => Some(Completed(poll))
      case EvalOk(Some(msg)) => Some(OpFailed(Some(poll), msg))
  }

  function Sleep(w: World, interval: nat): (World, bool) {
    if !Alive(w) then (w, false)
    else
      var w1 := Advance(w);
      (w1.(now := w1.now + interval), w.tape[0].reply.woke)
  }

  function PollLoop(w: World, p: OperationPolling, trigger: Response, deadline: int, budgetEnd: int): (World, Outcome)
    decreases |w.tape|
  {
    if w.now > deadline then (w, OpFailed(None, TIMEOUT))
    else if w.now > budgetEnd then (w, OverBudget)
    else if !Alive(w) then (w, Errored)
    else
      var w1, reply := Advance(w), w.tape[0].reply;
      if reply.response.None? then (w1, Errored)
      else
        var verdict := Judge(p, w.local.status, trigger, reply.response.value);
        if verdict.Some? then (w1, verdict.value)
        else
          var (w2, woke) := Sleep(w1, p.interval);
          if !woke then (w2, Errored) else PollLoop(w2, p, trigger, deadline, budgetEnd)
  }

  /** IsResponseAsExpected. */
  function IsExpected(spec: DisposableSpec, r: Response): Eval<bool> {
    if spec.expected.None? then EvalOk(true)
    else if r.statusCode == 0 then EvalOk(false)
    else spec.expected.value(r)
  }

  function Release(st: DisposableStatus): DisposableStatus {
    st.(anchor := None, startedAt := None)
  }

  function FinalizeError(w: World, msg: string, failing: Option<Response>): World {
    var st := if failing.Some? then w.local.status.(response := failing.value) else w.local.status;
    Persist(w, Release(CountError(st, msg).(lastReconcile := Some(Cluster.Stored(w.now))))).0
  }

  /** A broken expectedResponse expression leaves the anchor in place and counts nothing. */
  function FinalizeSuccess(w: World, poll: Response): World {
    var expected := IsExpected(w.local.spec, poll);
    if expected.EvalErr? then w
    else
      var st := Release(w.local.status.(response := poll, lastReconcile := Some(Cluster.Stored(w.now))));
      Persist(w, if expected.value then SetSynced(st) else CountError(st, UNEXPECTED)).0
  }

  function DrivePolling(w: World, p: OperationPolling, trigger: Response): World {
    var url := p.url(w.local.status, trigger);
    if url.EvalErr? then w
    else if !IsAbsoluteUrl(url.value) then FinalizeError(w, INVALID_URL, None)
    else
      var startedAt := if w.local.status.startedAt.Some? then w.local.status.startedAt.value else w.now;
      var (w1, outcome) := PollLoop(w, p, trigger, startedAt + p.timeout, w.now + Poller.RECONCILE_BUDGET);
      match outcome
      case Errored => w1
      case OverBudget => Persist(w1, w1.local.status.(lastReconcile := Some(Cluster.Stored(w1.now)))).0
      case OpFailed(failing, msg) => FinalizeError(w1, msg, failing)
      case Completed(poll) => FinalizeSuccess(w1, poll)
  }

  // ---------------------------------------------------------------- DeployAction

  /** The end of a trigger whose outcome should now be on record. */
  function Book(w: World, saved: Saved, sent: bool): World {
    if sent && saved.NotStored? then w.(lost := w.lost + 1)
    else if !sent && !saved.NotStored? then w.(phantoms := w.phantoms + 1)
    else w
  }

  function Conclude(w: World, c: Change, sent: bool): World {
    var (w1, saved) := Save(w, c);
    Book(w1, saved, sent)
  }

  /** The anchor is written before the first poll, by a plain update. */
  function BeginPolling(w: World, p: OperationPolling, d: HttpDetails): World {
    var st := w.local.status;
    var anchored := st.(
      anchor := Some(d.response), startedAt := if st.startedAt.None? then Some(Cluster.Stored(w.now)) else st.startedAt,
      requestDetails := d.request, lastReconcile := Some(Cluster.Stored(w.now)));
    var (w1, saved) := Persist(w, anchored);
    if saved.Stored? then DrivePolling(w1, p, d.response) else Book(w1, saved, true)
  }

  function HandleResponse(w: World, d: HttpDetails): World {
    var spec := w.local.spec;
    if IsHTTPError(d.response.statusCode, spec.allowed) then Conclude(w, HttpError("HTTP error status", d), true)
    else if spec.polling.Some? then BeginPolling(w, spec.polling.value, d)
    else
      var expected := IsExpected(spec, d.response);
      if expected.EvalErr? then w.(lost := w.lost + 1)
      else Conclude(w, if expected.value then Synced(d) else Unexpected(UNEXPECTED, d), true)
  }

  /** Resolve the secrets of the request, then send it; None when it was never sent. */
  function SendTrigger(w: World): (World, Option<Reply>) {
    if !Alive(w) then (w, None)
    else
      var w1 := Advance(w);
      if !w.tape[0].reply.ack.Landed? || !Alive(w1) then (w1, None)
      else (Advance(w1).(sent := w1.sent + 1), Some(w1.tape[0].reply))
  }

  function Trigger(w: World): World {
    var spec := w.local.spec;
    var (w1, reply) := SendTrigger(w);
    var (w2, ok) := Get(w1);
    if !ok then (if reply.Some? then w2.(lost := w2.lost + 1) else w2)
    else if reply.None? then Conclude(w2, TransportError("secret not resolved", NO_REQUEST), false)
    else if reply.value.response.None? then Conclude(w2, TransportError("no response", spec.request), true)
    else HandleResponse(w2, HttpDetails(reply.value.response.value, spec.request))
  }

  predicate LimitReached(spec: DisposableSpec, st: DisposableStatus) {
    spec.limit.Some? && st.failed >= spec.limit.value
  }

  function DeployAction(w: World): World {
    var spec, st := w.local.spec, w.local.status;
    if st.synced && !spec.loop then w
    else if LimitReached(spec, st) then w
    else if spec.polling.Some? && st.anchor.Some? then DrivePolling(w, spec.polling.value, st.anchor.value)
    else Trigger(w)
  }

  // ---------------------------------------------------------------- Observe

  datatype Answer = ObserveError | NotExists | Exists(upToDate: bool)

  /** Get the object and write its conditions. */
  function Touch(w: World): (World, bool) {
    var (w1, ok) := Get(w);
    if !ok then (w1, false)
    else
      var (w2, saved) := Persist(w1, w1.local.status);
      (w2, saved.Stored?)
  }

  predicate NeedsRetry(spec: DisposableSpec, st: DisposableStatus) {
    spec.limit.Some? && st.failed != 0 && !LimitReached(spec, st)
  }

  /** nextReconcile has passed since the last reconcile. */
  predicate Due(st: DisposableStatus, nextReconcile: int, now: int) {
    var last := if st.lastReconcile.Some? then st.lastReconcile.value else now;
    now >= last + nextReconcile
  }

  /** What a validated stored response means for a synced resource. */
  function JudgeStored(w: World, isExpected: bool, available: bool): (World, Answer) {
    var spec, st := w.local.spec, w.local.status;
    if !isExpected then
      var waiting := spec.nextReconcile.Some? && !Due(st, spec.nextReconcile.value, w.now);
      (w, if available then Exists(waiting) else NotExists)
    else
      var looped := if spec.loop && spec.limit.None? then false else available;
      var upToDate := if !NeedsRetry(spec, st) && spec.nextReconcile.Some? && Due(st, spec.nextReconcile.value, w.now)
                      then false else looped;
      if !available then (w, NotExists)
      else
        var (w1, ok) := Touch(w);
        (w1, if ok then Exists(upToDate) else ObserveError)
  }

  function ObserveDisposable(w: World): (World, Answer) {
    var spec, st := w.local.spec, w.local.status;
    if w.local.deleted then (w, NotExists)
    else if !st.synced && st.error != "" && LimitReached(spec, st) then
      var (w1, ok) := Touch(w);
      (w1, if ok then Exists(true) else ObserveError)
    else
      var retryNow := NeedsRetry(spec, st) && (spec.nextReconcile.None? || Due(st, spec.nextReconcile.value, w.now));
      if !st.synced then (w, if NeedsRetry(spec, st) && !retryNow then Exists(true) else NotExists)
      else if st.response.statusCode == 0 then JudgeStored(w, false, !retryNow)
      else if !Alive(w) then (w, ObserveError)
      else
        var w1, reply := Advance(w), w.tape[0].reply;
        if reply.response.None? then (w1, ObserveError)
        else
          var expected := IsExpected(spec, st.response.(body := reply.response.value.body));
          if expected.EvalErr? then (w1, ObserveError) else JudgeStored(w1, expected.value, !retryNow)
  }

  // ---------------------------------------------------------------- runs

  function Deploy(w: World): World {
    if w.local.spec.valid then DeployAction(w) else w
  }

  function Dispatch(w: World, a: Answer): World {
    match a
    case ObserveError => w
    case NotExists => if w.local.deleted then w.(finalized := true) else Deploy(w)
    case Exists(upToDate) => if w.local.deleted || upToDate then w else Deploy(w)
  }

  function Reconcile(w: World): World {
    if w.finalized then w
    else
      var (w1, ok) := Get(w);
      if !ok then w1
      else
        var (w2, a) := ObserveDisposable(w1);
        Dispatch(w2, a)
  }

  function Run(w: World, tapes: seq<seq<Turn>>): World
    decreases |tapes|
  {
    if tapes == [] then w else Run(Reconcile(w.(tape := tapes[0])), tapes[1..])
  }
}
