/**
 Which mutates are sent: a deployment sends its own, exactly when nothing is in flight; a reconcile
 sends one at most, and no CREATE for a resource with an identity that is still there.
 */
module Mutates {
  import opened Api
  import opened Cluster
  import opened RequestMapping
  import opened RequestGen
  import opened Poller
  import opened Deploy
  import opened Observing
  import opened Reconciling
  import opened Terms

  /** The actions whose mutates were sent, in order. */
  function Requests(log: seq<Event>): seq<Action> {
    if log == [] then []
    else
      var e := log[|log| - 1];
      Requests(log[..|log| - 1]) + if e.Mutate? then [e.action] else []
  }

  lemma RequestsEmit(log: seq<Event>, e: Event)
    ensures Requests(log + [e]) == Requests(log) + if e.Mutate? then [e.action] else []
  {
    assert (log + [e])[..|log|] == log;
  }

  /** No mutate was sent, and the finalizer is where it was. */
  predicate Quiet(w: World, r: World) {
    Requests(r.log) == Requests(w.log) && r.finalized == w.finalized
  }

  lemma SaveQuiet(w: World, c: Change)
    ensures Quiet(w, Save(w, c).0)
  {
    hide Apply, Disturb, Requests;
    if Alive(w) {
      var w1 := Advance(w);
      var after := Apply(c, w1.server, w1.now);
      if after.Some? { RequestsEmit(w1.log, Wrote(c, w1.local.spec, w1.server, w1.now, after.value)); }
    }
  }

  lemma RecordQuiet(w: World, d: HttpDetails, failed: bool, reset: bool)
    ensures Quiet(w, RefreshAndRecord(w, d, failed, reset).0)
  {
    hide Save, ShouldSetCache, Disturb;
    var (w1, ok) := Get(w);
    var spec := w1.local.spec;
    SaveQuiet(w1, RecordError(ERR_TRANSPORT));
    SaveQuiet(w1, Record(d, reset, IsHTTPError(d.response.statusCode, spec.allowed), ShouldSetCache(spec, w1.local.status, d.response)));
  }

  lemma FailQuiet(w: World, r: Response)
    ensures Quiet(w, FailMutate(w, r).0)
  {
    hide Save, Classify;
    var msg := Classify(w.local.spec, w.local.status, r, None, TERMINAL_MUTATE);
    if msg.Some? { SaveQuiet(w, SetTerminal(msg.value, false)); }
  }

  lemma {:induction false} LoopQuiet(w: World, p: Polling, mutate: Response, deadline: int, budgetEnd: int)
    ensures Quiet(w, PollLoop(w, p, mutate, deadline, budgetEnd).0)
    decreases |w.tape|
  {
    hide Judge, Disturb, Requests;
    if (w.local.deleted || w.now <= deadline) && w.now <= budgetEnd && Alive(w) {
      RequestsEmit(w.log, PollCall(w.now));
      var (w1, reply) := Send(Emit(w, PollCall(w.now)));
      if reply.Answer? && Judge(p, w.local.status, mutate, reply.response).None? {
        var (w2, woke) := Sleep(w1, p.interval);
        if woke { LoopQuiet(w2, p, mutate, deadline, budgetEnd); }
      }
    }
  }

  lemma DriveQuiet(w: World, p: Polling, mutate: Response)
    ensures Quiet(w, Drive(w, p, mutate).0)
  {
    hide PollLoop, IsAbsoluteUrl, Quiet;
    assert Quiet(w, w) by { Stays(w); }
    var st := w.local.status;
    LoopQuiet(w, p, mutate, (if st.startedAt.Some? then st.startedAt.value else w.now) + p.timeout, w.now + RECONCILE_BUDGET);
  }

  lemma Stays(w: World)
    ensures Quiet(w, w)
  {
  }

  lemma PollQuiet(w: World, m: Mapping, mutate: Response)
    ensures Quiet(w, Poll(w, m, mutate).0)
  {
    hide Drive, Requests;
    if m.polling.None? {
      RequestsEmit(w.log, Polled(NoBlock, w.local.status));
    } else {
      DriveQuiet(w, m.polling.value, mutate);
      var (w1, o) := Drive(w, m.polling.value, mutate);
      RequestsEmit(w1.log, Polled(VerdictOf(o), w1.local.status));
    }
  }

  lemma FailureQuiet(w: World, mutate: Response, failing: Response, msg: string)
    ensures Quiet(w, HandleOperationFailure(w, mutate, failing, msg).0)
  {
    hide Save, Classify;
    SaveQuiet(w, PollFailure(failing));
    var (w1, ok) := Save(w, PollFailure(failing));
    var terminal := Classify(w1.local.spec, w1.local.status, mutate, Some(failing), msg);
    if terminal.Some? { SaveQuiet(w1, SetTerminal(terminal.value, true)); } else { SaveQuiet(w1, ClearAnchor); }
  }

  lemma FinishQuiet(w: World, m: Mapping, mutate: Response)
    ensures Quiet(w, PollAndFinish(w, m, mutate).0)
  {
    hide Poll, Save, HandleOperationFailure;
    PollQuiet(w, m, mutate);
    var (w1, o) := Poll(w, m, mutate);
    match o {
      case Errored =>
      case StillRunning =>
      case Terminal(_, msg) => SaveQuiet(w1, SetTerminal(msg, false));
      case Failure(failing, msg) => FailureQuiet(w1, mutate, failing, msg);
      case Finished(_, poll) => SaveQuiet(w1, Complete(mutate, poll));
    }
  }

  lemma SyncQuiet(w: World, d: HttpDetails, failed: bool)
    ensures Quiet(w, FinishSync(w, d, failed).0)
  {
    hide Save, RefreshAndRecord, FailMutate;
    SaveQuiet(w, ExtractRef(d.response));
    var w1 := if w.local.spec.externalRef.None? then w else Save(w, ExtractRef(d.response)).0;
    RecordQuiet(w1, d, failed, false);
    FailQuiet(RefreshAndRecord(w1, d, failed, false).0, d.response);
  }

  lemma AnsweredQuiet(w: World, m: Mapping, d: HttpDetails)
    ensures Quiet(w, RefreshAndRecord(w, d, true, false).0)
    ensures Quiet(w, FailMutate(RefreshAndRecord(w, d, false, false).0, d.response).0)
    ensures Quiet(w, RefreshAndRecord(w, d, false, false).0)
    ensures Quiet(w, PollAndFinish(Save(w, PersistAnchor(d.response)).0, m, d.response).0)
    ensures Quiet(w, Save(w, PersistAnchor(d.response)).0)
  {
    hide Save, RefreshAndRecord, FailMutate, PollAndFinish;
    RecordQuiet(w, d, true, false);
    RecordQuiet(w, d, false, false);
    FailQuiet(RefreshAndRecord(w, d, false, false).0, d.response);
    SaveQuiet(w, PersistAnchor(d.response));
    FinishQuiet(Save(w, PersistAnchor(d.response)).0, m, d.response);
  }

  /** The mutate of the action is due: nothing is in flight, and its mapping templates. */
  predicate Due(o: Object, action: Action) {
    var m := MappingFor(o.spec, action);
    o.status.anchor.None? && m.Some? && Templated(m.value, o.status).EvalOk?
  }

  /** A deployment sends its own mutate, once, exactly when that is due; it never drops the finalizer. */
  lemma DeploySends(w: World, action: Action)
    ensures var after := DeployAction(w, action).0;
      && Requests(after.log) == Requests(w.log) + (if Alive(w) && Due(w.local, action) then [action] else [])
      && after.finalized == w.finalized
  {
    hide MappingFor, Templated, GenerateValidRequestDetails, Fire, Save, PollAndFinish;
    var m := MappingFor(w.local.spec, action);
    if m.Some? {
      TemplatedIs(m.value, w.local.status);
      if w.local.status.anchor.Some? {
        var mutate := w.local.status.anchor.value;
        FinishQuiet(w, m.value, mutate);
        SaveQuiet(w, StartClock);
        FinishQuiet(Save(w, StartClock).0, m.value, mutate);
      } else {
        FireSends(w, action, m.value);
      }
    }
  }

  lemma FireSends(w: World, action: Action, m: Mapping)
    ensures var after := Fire(w, action, m).0;
      && Requests(after.log) == Requests(w.log) + (if Alive(w) && GenerateValidRequestDetails(m, w.local.status).EvalOk? then [action] else [])
      && after.finalized == w.finalized
  {
    hide GenerateValidRequestDetails, Save, RefreshAndRecord, FailMutate, PollAndFinish, FinishSync, Disturb;
    var request := GenerateValidRequestDetails(m, w.local.status);
    if request.EvalOk? {
      var (w1, reply) := SendMutate(w, action, m);
      var d := HttpDetails(ResponseOf(reply), request.value);
      assert Requests(w1.log) == Requests(w.log) + (if Alive(w) then [action] else []) && w1.finalized == w.finalized by {
        if Alive(w) { RequestsEmit(w.log, w1.log[|w1.log| - 1]); }
      }
      SyncQuiet(w1, d, !reply.Answer?);
      AnsweredQuiet(w1, m, d);
    }
  }

  // ---------------------------------------------------------------- a whole reconcile

  lemma InspectQuiet(w: World, d: HttpDetails, failed: bool, keyed: bool)
    ensures Quiet(w, Inspect(w, d, failed, keyed).0)
    ensures Inspect(w, d, failed, keyed).1.NotFound? ==>
      Gone(w.local.spec, w.local.status, d.response) || Missing(w.local.spec, w.local.status, d.response)
  {
    hide CheckUpToDate, MappingFor, Save;
    SaveQuiet(w, SetTerminal(ERR_NO_UPDATE_MAPPING, false));
  }

  lemma SendObserveQuiet(w: World)
    ensures var (r, reply) := SendObserve(w);
      Quiet(w, r) && r.local == w.local && reply == if Alive(w) then w.tape[0].reply else Refused
  {
    hide Disturb, Requests;
    if Alive(w) { RequestsEmit(w.log, ObserveCall(w.local.spec, w.local.status, w.tape[0].reply)); }
  }

  /** The answer of turn i, if there is one. */
  function AnswerAt(tape: seq<Turn>, i: nat): Response {
    if i < |tape| then ResponseOf(tape[i].reply) else NO_RESPONSE
  }

  predicate ReportedAbsent(o: Object, r: Response) {
    Gone(o.spec, o.status, r) || Missing(o.spec, o.status, r)
  }

  lemma ObserveByMappingQuiet(w: World)
    ensures var (r, o) := ObserveByMapping(w);
      Quiet(w, r) && (o.NotFound? && w.local.status.externalRef != "" ==> ReportedAbsent(w.local, AnswerAt(w.tape, 0)))
  {
    hide MappingFor, UrlReferencesExternalRef, UrlReferencesResponse, PollingConfigured, GenerateValidRequestDetails;
    hide Inspect, SendObserve, Save, Gone, Missing, Requests;
    var m := MappingFor(w.local.spec, Observe);
    if m.Some? {
      var keyed := UrlReferencesExternalRef(m.value.url);
      SaveQuiet(w, SetTerminal(ERR_POLLED_RESPONSE_IDENTITY, false));
      RequestsEmit(w.log, Routed(keyed));
      var w1 := Emit(w, Routed(keyed));
      SendObserveQuiet(w1);
      var (w2, reply) := SendObserve(w1);
      var request := GenerateValidRequestDetails(m.value, w.local.status);
      if request.EvalOk? { InspectQuiet(w2, HttpDetails(ResponseOf(reply), request.value), !reply.Answer?, keyed); }
    }
  }

  lemma IsUpToDateQuiet(w: World)
    ensures var (r, o) := IsUpToDate(w);
      && Quiet(w, r)
      && (o.NotFound? && w.local.status.externalRef != "" && w.local.status.anchor.None? && w.local.status.terminalError == "" ==>
            ReportedAbsent(w.local, AnswerAt(w.tape, 0)))
  {
    hide ObserveByMapping, Save, ReportedAbsent, Requests;
    ObserveByMappingQuiet(w);
    SaveQuiet(w, ClearTerminal);
    ObserveByMappingQuiet(Save(w, ClearTerminal).0);
  }

  lemma ObserveQuiet(w: World)
    ensures var (r, a) := ObserveResource(w);
      && Quiet(w, r)
      && (a.NotExists? && w.local.status.externalRef != "" && w.local.status.anchor.None? && w.local.status.terminalError == "" ==>
            ReportedAbsent(w.local, AnswerAt(w.tape, 0)))
  {
    hide IsUpToDate, RefreshAndRecord, Save, Disturb, ReportedAbsent, Requests;
    var ext := w.local.externalName;
    SaveQuiet(w, Seed(ext));
    var w1 := if w.local.status.externalRef == "" && ext != "" && ext != w.local.name then UpdateLocal(w, Seed(ext)).0 else w;
    assert Quiet(w, w1);
    IsUpToDateQuiet(w1);
    var (w2, seen) := IsUpToDate(w1);
    if seen.Seen? { RecordQuiet(w2, seen.details, seen.failed, seen.synced); }
  }

  /** One mutate at most is sent between the two. */
  ghost predicate SendsOne(w: World, r: World, action: Action) {
    Requests(r.log) == Requests(w.log) || Requests(r.log) == Requests(w.log) + [action]
  }

  function Route(a: Answer, deleted: bool): Action {
    if a.NotExists? then Create else if deleted then Remove else Update
  }

  lemma DispatchSends(w: World, a: Answer)
    ensures SendsOne(w, Dispatch(w, a), Route(a, w.local.deleted))
  {
    hide DeployAction, Requests, Due, Disturb;
    var w1 := Get(w).0;
    forall action ensures SendsOne(w, DeployAction(w1, action).0, action) { DeploySends(w1, action); }
    DeploySends(w1, Create);
    if w1.local.status.anchor.Some? { AnchoredIsNotDue(w1.local, Create); }
    if Alive(w) { RequestsEmit(w.log, Finalized(Advance(w).server.status)); }
  }

  lemma AnchoredIsNotDue(o: Object, action: Action)
    requires o.status.anchor.Some?
    ensures !Due(o, action)
  {
  }

  /**
   A reconcile sends one mutate at most, whatever happens meanwhile. It sends a CREATE for a
   resource at rest that has an identity only if the answer to its OBSERVE reports the absence.
   */
  lemma ReconcileSends(w: World)
    ensures exists action :: SendsOne(w, Reconcile(w), action)
    ensures w.server.status.externalRef != "" && w.server.status.anchor.None? && w.server.status.terminalError == ""
            && Requests(Reconcile(w).log) == Requests(w.log) + [Create]
            ==> |w.tape| > 0 && ReportedAbsent(Disturb(w.server, w.tape[0].env), AnswerAt(w.tape, 1))
  {
    hide Dispatch, ObserveResource, Requests, ReportedAbsent, Disturb;
    var base := Requests(w.log);
    RequestsEmit(w.log, Began);
    if w.finalized || !Get(Emit(w, Began)).1 {
      assert SendsOne(w, Reconcile(w), Create);
    } else {
      var w1 := Get(Emit(w, Began)).0;
      ObserveQuiet(w1);
      var (w2, a) := ObserveResource(w1);
      DispatchSends(w2, a);
      var action := Route(a, w2.local.deleted);
      assert SendsOne(w, Reconcile(w), action);
      assert (base + [action])[|base|] == action && (base + [Create])[|base|] == Create;
      assert forall i: nat :: AnswerAt(w.tape[1..], i) == AnswerAt(w.tape, i + 1);
      DisturbKeepsStatus(w.server, w.tape[0].env);
    }
  }

  lemma DisturbKeepsStatus(o: Object, env: Env)
    ensures Disturb(o, env).status == o.status
  {
  }
}
