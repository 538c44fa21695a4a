/**
 The world one AsyncRequest lives in, and the single steps a reconcile takes in it.

 A reconcile runs against a tape. Every interaction with the outside (a Get, a status write,
 an HTTP request, a sleep) consumes one turn of the tape, which says what else happened
 before it (a spec edit, a deletion request, the passage of time) and how it was answered.
 When the tape is exhausted the process is gone: nothing it still "does" has any effect. So
 a tape cut short is a crash, cut points are exactly the boundaries between interactions,
 and a statement over all tapes is a statement over all interleavings and all crashes.
 */
module Cluster {
  import opened Api

  const SECOND := 1_000_000_000

  /** Timestamps are stored with whole-second precision. */
  function Stored(t: nat): (r: nat)
    ensures r <= t < r + SECOND
  {
    t - t % SECOND
  }

  // ---------------------------------------------------------------- the tape

  /** What others did before this interaction. */
  datatype Env = Env(spec: Option<Spec>, externalName: Option<string>, delete: bool, bumpsGeneration: bool, delay: nat)

  /**
   How the interaction was answered. `LandedUnseen` is a write that took effect although its
   caller was told it failed; `NoAnswer(true)` is a request the remote side accepted although
   no response came back. A sleep that runs out is answered `Landed`. A reply that does not fit
   the interaction counts as its failure.
   */
  datatype Reply = Refused | Landed | LandedUnseen | Answer(response: Response) | NoAnswer(accepted: bool)

  datatype Turn = Turn(env: Env, reply: Reply)

  // ---------------------------------------------------------------- status changes

  /** The status writes of the controller, one constructor per writer in the source. */
  datatype Change =
    | Seed(ref: string)
    | ClearTerminal
    | SetTerminal(msg: string, clearAnchor: bool)
    | PollFailure(failing: Response)
    | ClearAnchor
    | ExtractRef(response: Response)
    | Complete(mutate: Response, poll: Option<Response>)
    | PersistAnchor(mutate: Response)
    | StartClock
    | RecordError(msg: string)
    | Record(details: HttpDetails, reset: bool, httpError: bool, cached: bool)

  /** Agreement on everything routing looks at: all but response, cache, requestDetails, failed, error. */
  predicate RoutingEq(a: Status, b: Status) {
    && a.externalRef == b.externalRef
    && a.terminalError == b.terminalError
    && a.anchor == b.anchor
    && a.startedAt == b.startedAt
    && a.observedGeneration == b.observedGeneration
  }

  function EvalExternalRef(spec: Spec, st: Status, mutate: Response, poll: Option<Response>): string {
    if spec.externalRef.None? then "" else
      var v := spec.externalRef.value(st, mutate, poll);
      if v.EvalOk? then v.value else ""
  }

  /** The status setters of SetRequestStatus for a response that did arrive, in order. */
  function RecordDetails(st: Status, d: HttpDetails, reset: bool, httpError: bool, cached: bool): (st': Status)
    ensures RoutingEq(st', st)
  {
    var st1 := SetRequestDetails(SetResponse(st, d.response), d.request);
    var st2 := if reset then ResetFailures(st1) else st1;
    if httpError then SetError(st2, None)
    else if IsHTTPSuccess(d.response.statusCode) then
      var st3 := if d.request.verb != "GET" then ResetFailures(st2) else st2;
      if cached then st3.(cache := d.response) else st3
    else st2
  }

  /** What a change makes of the stored status; None when the writer leaves without a write. */
  function Apply(c: Change, o: Object, now: nat): Option<Status> {
    var st := o.status;
    match c
    case Seed(ref) => Some(st.(externalRef := ref))
    case ClearTerminal => Some(SetTerminalError(st, "").(startedAt := None))
    case SetTerminal(msg, clearAnchor) =>
      var st1 := SetTerminalError(st, msg);
      var st2 := if clearAnchor then st1.(anchor := None, startedAt := None) else st1;
      Some(st2.(observedGeneration := o.generation))
    case PollFailure(failing) =>
      Some(st.(response := failing, requestDetails := HttpRequest("POST", "", "", None)))
    case ClearAnchor => Some(st.(anchor := None, startedAt := None))
    case ExtractRef(response) =>
      var ref := EvalExternalRef(o.spec, st, response, None);
      if ref == "" then None else Some(st.(externalRef := ref))
    case Complete(mutate, poll) =>
      var st1 := st.(anchor := None, startedAt := None);
      var ref := EvalExternalRef(o.spec, st1, mutate, poll);
      Some(if ref == "" then st1 else st1.(externalRef := ref))
    case PersistAnchor(mutate) =>
      Some(st.(anchor := Some(mutate), startedAt := if st.startedAt.None? then Some(Stored(now)) else st.startedAt))
    case StartClock => Some(st.(startedAt := Some(Stored(now))))
    case RecordError(msg) => Some(SetError(st, Some(msg)))
    case Record(d, reset, httpError, cached) => Some(RecordDetails(st, d, reset, httpError, cached))
  }

  // ---------------------------------------------------------------- the log

  datatype Verdict = NoBlock | Completed | OpFailed | BadUrl | TimedOut | Running | Broke

  /** What an onlooker sees of a reconcile: its HTTP calls, its poll verdicts, its writes. */
  datatype Event =
    | Began
    | ObserveCall(spec: Spec, status: Status, reply: Reply)
    | Routed(byExternalRef: bool)
    | Mutate(action: Action, polled: bool, status: Status, reply: Reply, accepted: bool)
    | PollCall(at: nat)
    | Polled(verdict: Verdict, status: Status)
    | Wrote(change: Change, spec: Spec, before: Object, at: nat, after: Status)
    | Finalized(status: Status)

  /** `server` is the stored object, `local` the copy the controller works on. */
  datatype World = World(server: Object, local: Object, now: nat, tape: seq<Turn>, log: seq<Event>, finalized: bool)

  function Emit(w: World, e: Event): World {
    w.(log := w.log + [e])
  }

  // ---------------------------------------------------------------- single interactions

  function Disturb(o: Object, env: Env): Object {
    var o1 := if env.spec.Some? then o.(spec := env.spec.value, generation := o.generation + 1, version := o.version + 1) else o;
    var o2 := if env.externalName.Some? then o1.(externalName := env.externalName.value, version := o1.version + 1) else o1;
    if env.delete && !o2.deleted then
      o2.(deleted := true, generation := if env.bumpsGeneration then o2.generation + 1 else o2.generation, version := o2.version + 1)
    else o2
  }

  predicate Alive(w: World) {
    w.tape != []
  }

  /** Start the next interaction: let the others act, let time pass. */
  function Advance(w: World): World
    requires Alive(w)
  {
    w.(server := Disturb(w.server, w.tape[0].env), now := w.now + w.tape[0].env.delay, tape := w.tape[1..])
  }

  /** Get the resource into the local copy. */
  function Get(w: World): (r: (World, bool)) {
    if !Alive(w) then (w, false)
    else
      var w1 := Advance(w);
      if w.tape[0].reply.Landed? then (w1.(local := w1.server), true) else (w1, false)
  }

  function Commit(w: World, c: Change, st: Status): World {
    Emit(w, Wrote(c, w.local.spec, w.server, w.now, st)).(server := w.server.(status := st, version := w.server.version + 1))
  }

  /**
   One status write under RetryOnConflict, as an atomic step: the retry loop either applies
   the change to the object it overwrites or leaves the server alone (see StatusWriter).
   */
  function Save(w: World, c: Change): (r: (World, bool)) {
    if !Alive(w) then (w, false)
    else
      var w1 := Advance(w);
      var reply := w.tape[0].reply;
      var after := Apply(c, w1.server, w1.now);
      if after.None? then (if reply.Landed? then (w1.(local := w1.server), true) else (w1, false))
      else if reply.Landed? then
        var w2 := Commit(w1, c, after.value);
        (w2.(local := w2.server), true)
      else if reply.LandedUnseen? then (Commit(w1, c, after.value), false)
      else (w1, false)
  }

  /** A plain status update of the local copy: it lands only if the stored object has not moved. */
  function UpdateLocal(w: World, c: Change): (r: (World, bool)) {
    if !Alive(w) then (w, false)
    else if Disturb(w.server, w.tape[0].env).version != w.local.version then (Advance(w), false)
    else Save(w, c)
  }

  /** An HTTP request, as its caller sees it: a response, or none. */
  function Send(w: World): (r: (World, Reply)) {
    if !Alive(w) then (w, Refused) else (Advance(w), w.tape[0].reply)
  }

  function ResponseOf(reply: Reply): Response {
    if reply.Answer? then reply.response else NO_RESPONSE
  }
}
