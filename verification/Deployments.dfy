/**
 What a deployment comes to, case by case, when nobody interferes and the writes succeed: what is
 sent, what is put on record, which identity is stored, when the resource stalls, how an operation
 in flight ends. The conditions are those of Terms.
 */
module Deployments {
  import opened Api
  import opened Cluster
  import opened RequestMapping
  import opened RequestGen
  import opened Poller
  import opened Deploy
  import opened Terms

  // ---------------------------------------------------------------- putting an answer on record

  /** Every mapping templates validly against the answer. */
  predicate TemplatesAll(spec: Spec, st: Status, r: Response) {
    forall i :: 0 <= i < |spec.mappings| ==>
      spec.mappings[i].render(st, Some(r)).Rendered? && spec.mappings[i].render(st, Some(r)).valid
  }

  predicate Received(st: Status, before: Status, r: Response) {
    && st.response.statusCode == (if r.statusCode != 0 then r.statusCode else before.response.statusCode)
    && st.response.headers == (if r.headers.Some? then r.headers else before.response.headers)
    && st.response.body == (if r.body != "" then r.body else before.response.body)
  }

  /** The answer and its request are on record; failures are counted, and a fit answer is cached. */
  predicate OnRecord(spec: Spec, before: Status, st: Status, d: HttpDetails, reset: bool) {
    var r := d.response;
    var recovered := reset || (Success(r) && d.request.verb != "GET");
    && Received(st, before, r)
    && st.requestDetails == (if d.request.verb != "" then d.request else before.requestDetails)
    && st.failed == (if HttpError(spec, r) then Increment32(if reset then 0 else before.failed) else if recovered then 0 else before.failed)
    && st.error == (if recovered then "" else before.error)
    && st.cache == (if Success(r) && TemplatesAll(spec, before, r) then r else before.cache)
    && RoutingEq(st, before)
  }

  /** The transport failed: one more failure, with a message. */
  predicate TransportOnRecord(before: Status, st: Status) {
    && st.failed == Increment32(before.failed) && st.error != ""
    && st == before.(failed := st.failed, error := st.error)
  }

  /** The same object, but for its status and version. */
  ghost predicate SameButStatus(o: Object, o': Object) {
    o' == o.(status := o'.status, version := o'.version)
  }

  lemma SaveLands(w: World, c: Change)
    requires Alive(w) && Undisturbed(w.tape) && w.tape[0].reply.Landed?
    ensures var (r, ok) := Save(w, c);
      && ok && r.local == r.server && SameButStatus(w.server, r.server) && Undisturbed(r.tape) && r.tape == w.tape[1..]
      && r.now == w.now + w.tape[0].env.delay && r.finalized == w.finalized
      && (var st := Apply(c, w.server, r.now); r.server.status == if st.Some? then st.value else w.server.status)
  {
    hide Apply;
    UndisturbedTail(w);
  }

  lemma GetLands(w: World)
    requires Alive(w) && Undisturbed(w.tape) && w.tape[0].reply.Landed?
    ensures Get(w) == (w.(local := w.server, now := w.now + w.tape[0].env.delay, tape := w.tape[1..]), true)
    ensures Undisturbed(w.tape[1..])
  {
    UndisturbedTail(w);
  }

  lemma ApplyRecord(spec: Spec, o: Object, d: HttpDetails, reset: bool, now: nat)
    requires o.spec == spec
    ensures var c := Record(d, reset, IsHTTPError(d.response.statusCode, spec.allowed), ShouldSetCache(spec, o.status, d.response));
      Apply(c, o, now).Some? && OnRecord(spec, o.status, Apply(c, o, now).value, d, reset)
  {
    assert ShouldSetCache(spec, o.status, d.response) == TemplatesAll(spec, o.status, d.response);
  }

  /** Refreshing and recording, when both calls succeed. */
  lemma Records(w: World, d: HttpDetails, failed: bool, reset: bool)
    requires Undisturbed(w.tape) && Succeed(w.tape, 0, 2)
    ensures var (r, ok) := RefreshAndRecord(w, d, failed, reset);
      && ok == !failed && r.local == r.server && SameButStatus(w.server, r.server)
      && Undisturbed(r.tape) && r.tape == w.tape[2..] && r.finalized == w.finalized
      && (failed ==> TransportOnRecord(w.server.status, r.server.status))
      && (!failed ==> OnRecord(w.server.spec, w.server.status, r.server.status, d, reset))
  {
    hide Save, Apply, OnRecord, ShouldSetCache, Undisturbed;
    GetLands(w);
    var w1 := Get(w).0;
    assert w1.tape[0] == w.tape[1] && w1.tape[1..] == w.tape[2..];
    var spec := w1.local.spec;
    var c := if failed then RecordError(ERR_TRANSPORT)
             else Record(d, reset, IsHTTPError(d.response.statusCode, spec.allowed),
                         ShouldSetCache(spec, w1.local.status, d.response));
    SaveLands(w1, c);
    if failed { ApplyError(w1.server); } else { ApplyRecord(spec, w1.server, d, reset, w1.now + w1.tape[0].env.delay); }
  }

  lemma ApplyError(o: Object)
    ensures forall now :: Apply(RecordError(ERR_TRANSPORT), o, now).Some?
                          && TransportOnRecord(o.status, Apply(RecordError(ERR_TRANSPORT), o, now).value)
  {
  }

  // ---------------------------------------------------------------- a refused mutate

  /** A terminal failure is on record for this generation, or nothing has changed. */
  predicate StalledIff(o: Object, before: Status, gaveUp: bool) {
    var msg := o.status.terminalError;
    if gaveUp
    then msg != "" && o.status == before.(terminalError := msg, error := msg, observedGeneration := o.generation)
    else o.status == before
  }

  lemma ClassifyIs(spec: Spec, st: Status, mutate: Response, poll: Option<Response>, default: string)
    ensures var msg := Classify(spec, st, mutate, poll, default);
      && (msg.Some? <==> GivesUp(spec, st, mutate, poll))
      && (msg.Some? ==> msg.value != "" && Reason(spec, st, mutate, poll, default, msg.value))
  {
  }

  /** A mutate that came back as an HTTP error stalls the resource if and only if isTerminalError says so. */
  lemma RefusalIsJudged(w: World, r: Response)
    requires w.local == w.server && w.server.status.terminalError == ""
    requires Undisturbed(w.tape) && Succeed(w.tape, 0, 1)
    ensures var (after, ok) := FailMutate(w, r);
      var gaveUp := GivesUp(w.server.spec, w.server.status, r, None);
      && ok == gaveUp && StalledIff(after.server, w.server.status, gaveUp) && SameButStatus(w.server, after.server)
      && (gaveUp ==> Reason(w.server.spec, w.server.status, r, None, TERMINAL_MUTATE, after.server.status.terminalError))
  {
    hide Classify, GivesUp, Reason, Save, Undisturbed;
    ClassifyIs(w.server.spec, w.server.status, r, None, TERMINAL_MUTATE);
    var msg := Classify(w.server.spec, w.server.status, r, None, TERMINAL_MUTATE);
    if msg.Some? { SaveLands(w, SetTerminal(msg.value, false)); }
  }

  // ---------------------------------------------------------------- sending

  /** A fetched object whose mutate is to be sent. */
  ghost predicate ToBeSent(w: World, action: Action, m: Mapping, request: HttpRequest) {
    && w.local == w.server && w.server.status.anchor.None? && w.server.status.terminalError == ""
    && MappingFor(w.server.spec, action) == Some(m) && Templated(m, w.server.status) == EvalOk(request)
    && Alive(w) && Undisturbed(w.tape)
  }

  function Sent(w: World, action: Action, m: Mapping): World
    requires Alive(w)
  {
    var reply := w.tape[0].reply;
    var accepted := reply == NoAnswer(true) || (reply.Answer? && !HttpError(w.local.spec, reply.response));
    w.(now := w.now + w.tape[0].env.delay, tape := w.tape[1..],
       log := w.log + [Mutate(action, m.polling.Some?, w.local.status, reply, accepted)])
  }

  /** The first thing a deployment without an anchor does is to send its mutate. */
  lemma Sends(w: World, action: Action, m: Mapping, request: HttpRequest)
    requires ToBeSent(w, action, m, request)
    ensures var (w1, reply) := SendMutate(w, action, m); w1 == Sent(w, action, m) && reply == w.tape[0].reply
    ensures GenerateValidRequestDetails(m, w.local.status) == EvalOk(request)
    ensures DeployAction(w, action) == Fire(w, action, m)
    ensures Undisturbed(Sent(w, action, m).tape)
  {
    hide MappingFor, Templated, Fire, GenerateValidRequestDetails;
    TemplatedIs(m, w.local.status);
    UndisturbedTail(w);
  }

  /** Nothing changes without a mapping, which is no error, or when its mutate cannot be templated, which is one. */
  lemma NothingToSend(w: World, action: Action)
    ensures var m := MappingFor(w.local.spec, action);
      && (m.None? ==> DeployAction(w, action) == (w, true))
      && (m.Some? && w.local.status.anchor.None? && Templated(m.value, w.local.status).EvalErr? ==> DeployAction(w, action) == (w, false))
  {
    hide MappingFor, Templated, GenerateValidRequestDetails, Resume;
    var m := MappingFor(w.local.spec, action);
    if m.Some? { TemplatedIs(m.value, w.local.status); }
  }

  // ---------------------------------------------------------------- a mutate without polling

  /** The identity of the answer, extracted when the write succeeds. */
  lemma Extracts(w: World, r: Response)
    requires w.local == w.server && Undisturbed(w.tape) && Succeed(w.tape, 0, 1)
    ensures var after := if w.local.spec.externalRef.None? then w else Save(w, ExtractRef(r)).0;
      var st := w.server.status;
      && after.local == after.server && SameButStatus(w.server, after.server) && after.finalized == w.finalized
      && after.server.status == st.(externalRef := NamedBy(w.server.spec, st, r, None, st.externalRef))
      && Undisturbed(after.tape) && after.tape == if w.local.spec.externalRef.None? then w.tape else w.tape[1..]
  {
    hide Undisturbed;
    if w.local.spec.externalRef.Some? { SaveLands(w, ExtractRef(r)); }
  }

  /**
   A mutate without polling, answered. The identity its answer yields is stored; answer and
   request are on record; an HTTP error stalls the resource if and only if isTerminalError says
   so, and is otherwise reported for a retry.
   */
  lemma SyncAnswered(w: World, action: Action, m: Mapping, request: HttpRequest, r: Response)
    requires ToBeSent(w, action, m, request) && m.polling.None?
    requires w.tape[0].reply == Answer(r) && Succeed(w.tape, 1, 5)
    ensures var (after, ok) := DeployAction(w, action);
      var spec, before, st := w.server.spec, w.server.status, after.server.status;
      var named := before.(externalRef := NamedBy(spec, before, r, None, before.externalRef));
      && SameButStatus(w.server, after.server)
      && exists recorded ::
           && OnRecord(spec, named, recorded, HttpDetails(r, request), false)
           && StalledIff(after.server, recorded, HttpError(spec, r) && GivesUp(spec, recorded, r, None))
           && (after.server.status.terminalError != "" ==> Reason(spec, recorded, r, None, TERMINAL_MUTATE, after.server.status.terminalError))
           && ok == (!HttpError(spec, r) || GivesUp(spec, recorded, r, None))
  {
    hide MappingFor, Templated, GenerateValidRequestDetails, Save, RefreshAndRecord, FailMutate, SendMutate, OnRecord, GivesUp, Reason, Undisturbed, NamedBy;
    Sends(w, action, m, request);
    var w1, d := Sent(w, action, m), HttpDetails(r, request);
    assert forall k :: 0 <= k < |w.tape| - 1 ==> w1.tape[k] == w.tape[k + 1];
    Extracts(w1, r);
    var w2 := if w1.local.spec.externalRef.None? then w1 else Save(w1, ExtractRef(r)).0;
    assert Succeed(w2.tape, 0, 3) && w2.local.spec == w.server.spec;
    RecordedAndJudged(w2, d);
  }

  /** What follows the extraction: the answer is put on record and judged. */
  lemma RecordedAndJudged(w: World, d: HttpDetails)
    requires w.local == w.server && w.server.status.terminalError == "" && Undisturbed(w.tape) && Succeed(w.tape, 0, 3)
    ensures var (w1, ok) := RefreshAndRecord(w, d, false, false);
      var (after, done) := if ok && HttpError(w1.local.spec, d.response) then FailMutate(w1, d.response) else (w1, ok);
      var spec := w.server.spec;
      && SameButStatus(w.server, after.server)
      && exists recorded ::
           && OnRecord(spec, w.server.status, recorded, d, false)
           && StalledIff(after.server, recorded, HttpError(spec, d.response) && GivesUp(spec, recorded, d.response, None))
           && (after.server.status.terminalError != "" ==>
                 Reason(spec, recorded, d.response, None, TERMINAL_MUTATE, after.server.status.terminalError))
           && done == (!HttpError(spec, d.response) || GivesUp(spec, recorded, d.response, None))
  {
    hide RefreshAndRecord, FailMutate, OnRecord, GivesUp, Reason, Undisturbed;
    Records(w, d, false, false);
    var w1 := RefreshAndRecord(w, d, false, false).0;
    assert w1.tape[0] == w.tape[2];
    RecordKeepsRouting(w.server.spec, w.server.status, w1.server.status, d);
    if HttpError(w.server.spec, d.response) { RefusalIsJudged(w1, d.response); }
    assert OnRecord(w.server.spec, w.server.status, w1.server.status, d, false);
  }

  lemma RecordKeepsRouting(spec: Spec, before: Status, st: Status, d: HttpDetails)
    requires OnRecord(spec, before, st, d, false)
    ensures RoutingEq(st, before)
  {
  }

  /** A mutate without an answer counts as a failure; without polling, even the empty answer may yield an identity. */
  lemma Unanswered(w: World, action: Action, m: Mapping, request: HttpRequest)
    requires ToBeSent(w, action, m, request) && !w.tape[0].reply.Answer? && Succeed(w.tape, 1, 4)
    ensures var (after, ok) := DeployAction(w, action);
      var before := w.server.status;
      var named := if m.polling.Some? then before
                   else before.(externalRef := NamedBy(w.server.spec, before, NO_RESPONSE, None, before.externalRef));
      !ok && TransportOnRecord(named, after.server.status) && SameButStatus(w.server, after.server)
  {
    hide MappingFor, Templated, GenerateValidRequestDetails, Save, RefreshAndRecord, FailMutate, SendMutate, TransportOnRecord, Undisturbed, NamedBy;
    Sends(w, action, m, request);
    var w1, d := Sent(w, action, m), HttpDetails(NO_RESPONSE, request);
    assert forall k :: 0 <= k < |w.tape| - 1 ==> w1.tape[k] == w.tape[k + 1];
    if m.polling.None? {
      Extracts(w1, NO_RESPONSE);
      var w2 := if w1.local.spec.externalRef.None? then w1 else Save(w1, ExtractRef(NO_RESPONSE)).0;
      Records(w2, d, true, false);
    } else {
      Records(w1, d, true, false);
    }
  }

  // ---------------------------------------------------------------- a mutate with polling

  /** Refused: on record, never anchored, stalled if and only if isTerminalError says so. */
  lemma PolledRefused(w: World, action: Action, m: Mapping, request: HttpRequest, r: Response)
    requires ToBeSent(w, action, m, request) && m.polling.Some?
    requires w.tape[0].reply == Answer(r) && HttpError(w.server.spec, r) && Succeed(w.tape, 1, 4)
    ensures var (after, ok) := DeployAction(w, action);
      var spec, before := w.server.spec, w.server.status;
      && SameButStatus(w.server, after.server)
      && exists recorded ::
           && OnRecord(spec, before, recorded, HttpDetails(r, request), false)
           && StalledIff(after.server, recorded, GivesUp(spec, recorded, r, None))
           && (after.server.status.terminalError != "" ==> Reason(spec, recorded, r, None, TERMINAL_MUTATE, after.server.status.terminalError))
           && ok == GivesUp(spec, recorded, r, None)
  {
    hide MappingFor, Templated, GenerateValidRequestDetails, RefreshAndRecord, FailMutate, SendMutate, GivesUp, Reason, Undisturbed;
    Sends(w, action, m, request);
    var w1, d := Sent(w, action, m), HttpDetails(r, request);
    assert forall k :: 0 <= k < |w.tape| - 1 ==> w1.tape[k] == w.tape[k + 1];
    Records(w1, d, false, false);
    RecordedAndJudged(w1, d);
  }

  /** Timestamps are stored in whole seconds. */
  function InSeconds(t: nat): nat {
    t - t % 1_000_000_000
  }

  /** The status once the answer is anchored. */
  function AnchoredAt(st: Status, r: Response, now: nat): Status {
    st.(anchor := Some(r), startedAt := if st.startedAt.None? then Some(InSeconds(now)) else st.startedAt)
  }

  /** Accepted: anchored under a clock, then polled like any operation in flight. */
  lemma PolledAccepted(w: World, action: Action, m: Mapping, request: HttpRequest, r: Response)
    requires ToBeSent(w, action, m, request) && m.polling.Some?
    requires w.tape[0].reply == Answer(r) && !HttpError(w.server.spec, r) && Succeed(w.tape, 1, 2)
    ensures var now := w.now + w.tape[0].env.delay + w.tape[1].env.delay;
      var anchored := w.server.(status := AnchoredAt(w.server.status, r, now), version := w.server.version + 1);
      var w1 := Save(Sent(w, action, m), PersistAnchor(r)).0;
      && w1.local == w1.server == anchored && w1.tape == w.tape[2..] && w1.now == now && Undisturbed(w1.tape)
      && DeployAction(w, action) == PollAndFinish(w1, m, r)
  {
    hide MappingFor, Templated, GenerateValidRequestDetails, PollAndFinish, SendMutate;
    Sends(w, action, m, request);
    var w1 := Sent(w, action, m);
    assert w1.tape[0] == w.tape[1] && w1.tape[1..] == w.tape[2..];
    UndisturbedTail(w1);
  }

  /** An operation in flight is polled, not sent again; a clock that was reset starts anew first. */
  lemma Resumes(w: World, action: Action, m: Mapping, r: Response)
    requires w.local == w.server && MappingFor(w.server.spec, action) == Some(m) && w.server.status.anchor == Some(r)
    requires Undisturbed(w.tape)
    ensures w.server.status.startedAt.Some? ==> DeployAction(w, action) == PollAndFinish(w, m, r)
    ensures w.server.status.startedAt.None? && Succeed(w.tape, 0, 1) ==>
      var now := w.now + w.tape[0].env.delay;
      var w1 := Save(w, StartClock).0;
      && w1.local == w1.server == w.server.(status := w.server.status.(startedAt := Some(InSeconds(now))), version := w.server.version + 1)
      && w1.tape == w.tape[1..] && w1.now == now && Undisturbed(w1.tape)
      && DeployAction(w, action) == PollAndFinish(w1, m, r)
  {
    hide MappingFor, PollAndFinish, Fire;
    if Alive(w) { UndisturbedTail(w); }
  }
}
