/**
 Every run of the controller, under every interleaving and every crash, is a run of the
 protocol. The lemmas follow the call tree of one reconcile.
 */
module Refinement {
  import opened Api
  import opened Cluster
  import opened RequestMapping
  import opened RequestGen
  import opened Poller
  import opened Deploy
  import opened Observing
  import opened Reconciling
  import opened Protocol

  /** The log is legal and the auditor's books agree with the server. */
  ghost predicate Sound(w: World) {
    && Legal(w.log)
    && BookOf(w.log).status == w.server.status
    && w.server.status.observedGeneration <= w.server.generation
  }

  /** The local copy carries the stored status, its generation is current enough, its version tells whether it is current. */
  ghost predicate InSync(w: World) {
    && w.local.status == w.server.status
    && w.local.version <= w.server.version
    && (w.local.version == w.server.version ==> w.local == w.server)
    && w.local.status.observedGeneration <= w.local.generation <= w.server.generation
  }

  ghost predicate Good(w: World) {
    Sound(w) && InSync(w)
  }

  lemma AdvanceGood(w: World)
    requires Alive(w) && Sound(w)
    ensures Sound(Advance(w)) && Advance(w).log == w.log && Advance(w).server.status == w.server.status && Advance(w).local == w.local
    ensures w.server.generation <= Advance(w).server.generation
    ensures InSync(w) ==> InSync(Advance(w))
  {
  }

  lemma EmitSound(w: World, e: Event)
    requires Sound(w) && Allowed(BookOf(w.log), e) && !e.Wrote?
    ensures Sound(Emit(w, e)) && BookOf(Emit(w, e).log) == Next(BookOf(w.log), e)
    ensures InSync(w) ==> InSync(Emit(w, e))
  {
    Extend(w.log, e);
  }

  lemma GetGood(w: World)
    requires Sound(w)
    ensures var (r, ok) := Get(w);
      Sound(r) && r.log == w.log && r.server.status == w.server.status && r.finalized == w.finalized && (ok ==> InSync(r))
  {
    if Alive(w) { AdvanceGood(w); }
  }

  lemma ApplyKeepsGeneration(c: Change, o: Object, now: nat)
    requires o.status.observedGeneration <= o.generation
    ensures var st := Apply(c, o, now); st.Some? ==> st.value.observedGeneration <= o.generation
  {
  }

  lemma CommitSound(w: World, c: Change, st: Status)
    requires Sound(w) && Apply(c, w.server, w.now) == Some(st)
    requires Guard(BookOf(w.log), c, w.local.spec, w.server)
    ensures Sound(Commit(w, c, st))
  {
    hide Apply, Guard, BookOf, Legal;
    ApplyKeepsGeneration(c, w.server, w.now);
    Extend(w.log, Wrote(c, w.local.spec, w.server, w.now, st));
  }

  lemma SaveGoodAt(w: World, c: Change)
    requires Sound(w)
    requires Alive(w) ==> Guard(BookOf(w.log), c, w.local.spec, Advance(w).server)
    ensures var (r, ok) := Save(w, c); Sound(r) && (ok ==> InSync(r))
  {
    hide Apply, Guard, BookOf, Legal, Advance;
    if Alive(w) {
      AdvanceGood(w);
      var w1 := Advance(w);
      var after := Apply(c, w1.server, w1.now);
      if after.Some? { CommitSound(w1, c, after.value); }
    }
  }

  lemma SaveGood(w: World, c: Change)
    requires Sound(w)
    requires forall o: Object | o.status == w.server.status && w.server.generation <= o.generation ::
      Guard(BookOf(w.log), c, w.local.spec, o)
    ensures var (r, ok) := Save(w, c); Sound(r) && (ok ==> InSync(r))
  {
    hide Apply, Guard, BookOf, Legal, Advance, Save;
    if Alive(w) { AdvanceGood(w); }
    SaveGoodAt(w, c);
  }

  // ---------------------------------------------------------------- DeployAction

  predicate KeepsRouting(c: Change) {
    c.RecordError? || c.Record? || c.PollFailure?
  }

  lemma ApplyKeepsRouting(c: Change, o: Object, now: nat)
    requires KeepsRouting(c)
    ensures Apply(c, o, now).Some? && RoutingEq(Apply(c, o, now).value, o.status)
  {
    hide RecordDetails;
  }

  lemma SaveKeepsRouting(w: World, c: Change)
    requires KeepsRouting(c)
    ensures RoutingEq(Save(w, c).0.server.status, w.server.status)
  {
    hide Apply;
    if Alive(w) {
      var w1 := Advance(w);
      ApplyKeepsRouting(c, w1.server, w1.now);
    }
  }

  lemma RecordGood(w: World, d: HttpDetails, failed: bool, reset: bool)
    requires Good(w)
    requires w.server.status.anchor.Some? ==> d == NO_DETAILS && !failed
    ensures var (r, ok) := SetRequestStatus(w, d, failed, reset);
      Sound(r) && RoutingEq(r.server.status, w.server.status) && (ok ==> InSync(r))
  {
    hide BookOf, Legal, ShouldSetCache, Save;
    var spec := w.local.spec;
    var c := if failed then RecordError(ERR_TRANSPORT)
             else Record(d, reset, IsHTTPError(d.response.statusCode, spec.allowed),
                         ShouldSetCache(spec, w.local.status, d.response));
    SaveGood(w, c);
    SaveKeepsRouting(w, c);
  }

  lemma RefreshAndRecordGood(w: World, d: HttpDetails, failed: bool, reset: bool)
    requires Sound(w)
    requires w.server.status.anchor.Some? ==> d == NO_DETAILS && !failed
    ensures var (r, ok) := RefreshAndRecord(w, d, failed, reset);
      Sound(r) && RoutingEq(r.server.status, w.server.status) && (ok ==> InSync(r))
  {
    hide SetRequestStatus, Get, BookOf, Legal;
    GetGood(w);
    var (w1, ok) := Get(w);
    if ok { RecordGood(w1, d, failed, reset); }
  }

  lemma ClassifyNonEmpty(spec: Spec, st: Status, mutate: Response, poll: Option<Response>, default: string)
    ensures var msg := Classify(spec, st, mutate, poll, default); msg.Some? ==> msg.value != ""
  {
  }

  lemma FailMutateGood(w: World, response: Response)
    requires Good(w) && w.server.status.anchor.None? && w.server.status.terminalError == ""
    ensures Sound(FailMutate(w, response).0)
  {
    hide Classify, Save, BookOf, Legal;
    ClassifyNonEmpty(w.local.spec, w.local.status, response, None, TERMINAL_MUTATE);
    var msg := Classify(w.local.spec, w.local.status, response, None, TERMINAL_MUTATE);
    if msg.Some? { SaveGood(w, SetTerminal(msg.value, false)); }
  }

  lemma SaveExtractRef(w: World, response: Response)
    ensures var r := Save(w, ExtractRef(response)).0.server.status;
      r == w.server.status.(externalRef := r.externalRef)
  {
    hide EvalExternalRef;
  }

  lemma FinishSyncGood(w: World, d: HttpDetails, failed: bool)
    requires Good(w) && w.server.status.anchor.None? && w.server.status.terminalError == ""
    ensures Sound(FinishSync(w, d, failed).0)
  {
    hide RefreshAndRecord, FailMutate, BookOf, Legal, Save;
    if w.local.spec.externalRef.Some? {
      SaveGood(w, ExtractRef(d.response));
      SaveExtractRef(w, d.response);
    }
    var w1 := if w.local.spec.externalRef.None? then w else Save(w, ExtractRef(d.response)).0;
    RefreshAndRecordGood(w1, d, failed, false);
    var (w2, ok) := RefreshAndRecord(w1, d, failed, false);
    if ok && IsHTTPError(d.response.statusCode, w2.local.spec.allowed) { FailMutateGood(w2, d.response); }
  }

  lemma PollLoopGood(w: World, p: Polling, mutate: Response, deadline: int, budgetEnd: int)
    requires Good(w)
    requires w.server.status.anchor.Some? && w.server.status.startedAt.Some? && w.server.status.terminalError == ""
    ensures var r := PollLoop(w, p, mutate, deadline, budgetEnd).0;
      Good(r) && r.server.status == w.server.status && r.local == w.local && r.finalized == w.finalized
    decreases |w.tape|
  {
    hide BookOf, Legal, Allowed, Next, Judge, Disturb;
    if !(!w.local.deleted && w.now > deadline) && !(w.now > budgetEnd) && Alive(w) {
      assert Allowed(BookOf(w.log), PollCall(w.now)) by { PollCallAllowed(BookOf(w.log), w.now); }
      var w0 := Emit(w, PollCall(w.now));
      EmitSound(w, PollCall(w.now));
      AdvanceGood(w0);
      var (w1, reply) := Send(w0);
      if reply.Answer? && Judge(p, w.local.status, mutate, reply.response).None? && Alive(w1) {
        AdvanceGood(w1);
        var (w2, woke) := Sleep(w1, p.interval);
        if woke { PollLoopGood(w2, p, mutate, deadline, budgetEnd); }
      }
    }
  }

  lemma PollCallAllowed(b: Book, at: nat)
    requires b.status.anchor.Some? && b.status.startedAt.Some? && b.status.terminalError == ""
    ensures Allowed(b, PollCall(at)) && Next(b, PollCall(at)) == b
  {
  }

  lemma DriveGood(w: World, p: Polling, mutate: Response)
    requires Good(w)
    requires w.server.status.anchor.Some? && w.server.status.startedAt.Some? && w.server.status.terminalError == ""
    ensures var r := Drive(w, p, mutate).0;
      Good(r) && r.server.status == w.server.status && r.local == w.local && r.finalized == w.finalized
  {
    hide BookOf, Legal, PollLoop, IsAbsoluteUrl;
    PollLoopGood(w, p, mutate, w.local.status.startedAt.value + p.timeout, w.now + RECONCILE_BUDGET);
  }

  lemma PollGood(w: World, m: Mapping, mutate: Response)
    requires Good(w)
    requires w.server.status.anchor.Some? && w.server.status.startedAt.Some? && w.server.status.terminalError == ""
    ensures var (r, o) := Poll(w, m, mutate);
      Good(r) && r.server.status == w.server.status && BookOf(r.log).verdict == Some(VerdictOf(o))
  {
    hide BookOf, Legal, Drive, VerdictOf;
    if m.polling.Some? { DriveGood(w, m.polling.value, mutate); }
    var (w1, o) := if m.polling.None? then (w, Finished(NoBlock, None)) else Drive(w, m.polling.value, mutate);
    EmitSound(w1, Polled(VerdictOf(o), w1.local.status));
  }

  lemma PollVerdict(w: World, m: Mapping, mutate: Response)
    ensures var o := Poll(w, m, mutate).1;
      && (o.Terminal? ==> o.msg != "" && (o.verdict == TimedOut || o.verdict == BadUrl))
      && (o.Finished? ==> o.verdict == if o.poll.Some? then Completed else NoBlock)
  {
    hide PollLoop, IsAbsoluteUrl;
  }

  lemma HandleOperationFailureGood(w: World, mutate: Response, failing: Response, msg: string)
    requires Good(w) && BookOf(w.log).verdict == Some(OpFailed)
    requires w.server.status.anchor.Some? && w.server.status.terminalError == ""
    ensures Sound(HandleOperationFailure(w, mutate, failing, msg).0)
  {
    hide Classify, Save, Legal, BookOf;
    SaveGood(w, PollFailure(failing));
    SaveKeepsRouting(w, PollFailure(failing));
    var (w1, ok) := Save(w, PollFailure(failing));
    if ok {
      SaveKeepsVerdict(w, PollFailure(failing));
      ClassifyNonEmpty(w1.local.spec, w1.local.status, mutate, Some(failing), msg);
      var terminal := Classify(w1.local.spec, w1.local.status, mutate, Some(failing), msg);
      if terminal.Some? { SaveGood(w1, SetTerminal(terminal.value, true)); } else { SaveGood(w1, ClearAnchor); }
    }
  }

  /** A write that leaves the anchor alone leaves the auditor's verdict alone. */
  lemma SaveKeepsVerdict(w: World, c: Change)
    requires Sound(w) && KeepsRouting(c)
    ensures BookOf(Save(w, c).0.log).verdict == BookOf(w.log).verdict
  {
    hide Apply, Legal, BookOf;
    if Alive(w) {
      var w1 := Advance(w);
      ApplyKeepsRouting(c, w1.server, w1.now);
      var after := Apply(c, w1.server, w1.now);
      Extend(w1.log, Wrote(c, w1.local.spec, w1.server, w1.now, after.value));
    }
  }

  lemma PollAndFinishGood(w: World, m: Mapping, mutate: Response)
    requires Good(w)
    requires w.server.status.anchor == Some(mutate) && w.server.status.startedAt.Some? && w.server.status.terminalError == ""
    ensures Sound(PollAndFinish(w, m, mutate).0)
  {
    hide Poll, HandleOperationFailure, Save, Legal, BookOf;
    PollGood(w, m, mutate);
    PollVerdict(w, m, mutate);
    var (w1, outcome) := Poll(w, m, mutate);
    match outcome {
      case Errored =>
      case Terminal(_, msg) => SaveGood(w1, SetTerminal(msg, false));
      case Failure(failing, msg) => HandleOperationFailureGood(w1, mutate, failing, msg);
      case StillRunning =>
      case Finished(_, poll) => SaveGood(w1, Complete(mutate, poll));
    }
  }

  /** What a mutate needs of the books: the two rules that tie it to this reconcile's observation. */
  ghost predicate MayMutate(w: World, action: Action) {
    var b := BookOf(w.log);
    && w.server.status.terminalError == ""
    && (action == Remove && w.server.status.externalRef == "" ==> b.routed == Some(false))
    && (action == Create && w.server.status.externalRef != "" ==> b.absent)
  }

  lemma SendMutateGood(w: World, action: Action, m: Mapping)
    requires Good(w) && w.server.status.anchor.None? && MayMutate(w, action)
    ensures var (r, reply) := SendMutate(w, action, m);
      && Good(r) && r.server.status == w.server.status && r.local == w.local
      && (Alive(w) && m.polling.Some? && reply.Answer? && !IsHTTPError(reply.response.statusCode, w.local.spec.allowed)
          ==> BookOf(r.log).pending == Some(reply.response))
  {
    hide BookOf, Legal, Disturb;
    if Alive(w) {
      AdvanceGood(w);
      var (w1, reply) := Send(w);
      var accepted := reply == NoAnswer(true)
        || (reply.Answer? && !IsHTTPError(reply.response.statusCode, w.local.spec.allowed));
      EmitSound(w1, Mutate(action, m.polling.Some?, w.local.status, reply, accepted));
    }
  }

  lemma SaveAnchor(w: World, mutate: Response)
    ensures var (r, ok) := Save(w, PersistAnchor(mutate));
      ok ==> r.server.status.anchor == Some(mutate) && r.server.status.startedAt.Some?
             && r.server.status.terminalError == w.server.status.terminalError
  {
  }

  lemma FireGood(w: World, action: Action, m: Mapping)
    requires Good(w) && w.server.status.anchor.None? && MayMutate(w, action)
    ensures Sound(Fire(w, action, m).0)
  {
    hide GenerateValidRequestDetails, SendMutate, FinishSync, RefreshAndRecord, FailMutate, PollAndFinish, Save, BookOf, Legal;
    var g := GenerateValidRequestDetails(m, w.local.status);
    if g.EvalOk? {
      SendMutateGood(w, action, m);
      DeadSendsNothing(w, action, m);
      var (w1, reply) := SendMutate(w, action, m);
      var d := HttpDetails(ResponseOf(reply), g.value);
      if m.polling.None? {
        FinishSyncGood(w1, d, !reply.Answer?);
      } else if !reply.Answer? {
        RefreshAndRecordGood(w1, d, true, false);
      } else if IsHTTPError(d.response.statusCode, w1.local.spec.allowed) {
        RefreshAndRecordGood(w1, d, false, false);
        var (w2, ok) := RefreshAndRecord(w1, d, false, false);
        if ok { FailMutateGood(w2, d.response); }
      } else {
        SaveGood(w1, PersistAnchor(d.response));
        SaveAnchor(w1, d.response);
        var (w2, ok) := Save(w1, PersistAnchor(d.response));
        if ok { PollAndFinishGood(w2, m, d.response); }
      }
    }
  }

  lemma DeadSendsNothing(w: World, action: Action, m: Mapping)
    ensures SendMutate(w, action, m).1.Answer? ==> Alive(w)
  {
  }

  lemma SaveClock(w: World)
    ensures var (r, ok) := Save(w, StartClock);
      ok ==> r.server.status.startedAt.Some? && r.server.status == w.server.status.(startedAt := r.server.status.startedAt)
  {
  }

  lemma ResumeGood(w: World, m: Mapping, mutate: Response)
    requires Good(w) && w.server.status.anchor == Some(mutate) && w.server.status.terminalError == ""
    ensures Sound(Resume(w, m, mutate).0)
  {
    hide PollAndFinish, Save, BookOf, Legal;
    if w.local.status.startedAt.Some? {
      PollAndFinishGood(w, m, mutate);
    } else {
      SaveGood(w, StartClock);
      SaveClock(w);
      var (w1, ok) := Save(w, StartClock);
      if ok { PollAndFinishGood(w1, m, mutate); }
    }
  }

  lemma DeployActionGood(w: World, action: Action)
    requires Good(w) && w.server.status.terminalError == ""
    requires w.server.status.anchor.None? ==> MayMutate(w, action)
    ensures Sound(DeployAction(w, action).0)
  {
    hide Resume, Fire, MappingFor, BookOf, Legal;
    var m := MappingFor(w.local.spec, action);
    if m.Some? {
      if w.local.status.anchor.Some? { ResumeGood(w, m.value, w.local.status.anchor.value); } else { FireGood(w, action, m.value); }
    }
  }

  // ---------------------------------------------------------------- IsUpToDate

  /** What an observation promises the dispatch that follows, if there is still a process to dispatch. */
  ghost predicate Observed(r: World, o: Observation) {
    Sound(r) && (Alive(r) ==> ObservedAlive(r, o))
  }

  ghost predicate ObservedAlive(r: World, o: Observation) {
    var st, b := r.server.status, BookOf(r.log);
    && (!o.Failed? ==> InSync(r))
    && (o.NotFound? ==> st.externalRef != "" ==> b.absent)
    && (o.NotFound? ==> st.anchor.Some? ==> !r.local.deleted)
    && (o.NotFound? ==> st.terminalError == "" || (r.local.deleted && st.externalRef == ""))
    && (o.Seen? ==> st.terminalError == "")
    && (o.Seen? ==> st.anchor.None? ==> st.externalRef == "" ==> b.routed == Some(false))
    && (o.Seen? ==> st.anchor.Some? ==> o == IN_FLIGHT)
  }

  lemma DetermineIfUpToDateGood(w: World, d: HttpDetails, failed: bool)
    requires Good(w) && w.server.status.anchor.None? && w.server.status.terminalError == ""
    requires w.server.status.externalRef == "" ==> BookOf(w.log).routed == Some(false)
    ensures var (r, o) := DetermineIfUpToDate(w, d, failed); Observed(r, o)
  {
    hide CheckUpToDate, MappingFor, Save, BookOf, Legal;
    SaveGood(w, SetTerminal(ERR_NO_UPDATE_MAPPING, false));
  }

  lemma InspectGood(w: World, d: HttpDetails, failed: bool, statusGate: bool)
    requires Good(w) && w.server.status.anchor.None? && w.server.status.terminalError == ""
    requires w.server.status.externalRef == "" ==> BookOf(w.log).routed == Some(false)
    requires Alive(w) ==> BookOf(w.log).absent == ReportsAbsence(w.local.spec, w.local.status, d.response)
    ensures var (r, o) := Inspect(w, d, failed, statusGate); Observed(r, o)
  {
    hide DetermineIfUpToDate, BookOf, Legal;
    DetermineIfUpToDateGood(w, d, failed);
  }

  lemma SendObserveGood(w: World)
    requires Good(w) && w.server.status.anchor.None? && w.server.status.terminalError == ""
    ensures var (r, reply) := SendObserve(w);
      && Good(r) && r.server.status == w.server.status && r.local == w.local
      && BookOf(r.log).routed == BookOf(w.log).routed
      && (Alive(w) ==> BookOf(r.log).absent == ReportsAbsence(w.local.spec, w.local.status, ResponseOf(reply)))
  {
    hide BookOf, Legal, Disturb, ReportsAbsence;
    if Alive(w) {
      AdvanceGood(w);
      var (w1, reply) := Send(w);
      EmitSound(w1, ObserveCall(w.local.spec, w.local.status, reply));
    }
  }

  lemma RoutedGood(w: World, byExternalRef: bool)
    requires Good(w) && w.server.status.anchor.None? && w.server.status.terminalError == ""
    ensures Good(Emit(w, Routed(byExternalRef)))
    ensures BookOf(Emit(w, Routed(byExternalRef)).log).routed == Some(byExternalRef)
  {
    hide BookOf, Legal;
    EmitSound(w, Routed(byExternalRef));
  }

  lemma ObserveExternalRefDrivenGood(w: World, m: Mapping)
    requires Good(w) && w.server.status.anchor.None? && w.server.status.terminalError == ""
    ensures var (r, o) := ObserveExternalRefDriven(w, m); Observed(r, o)
  {
    hide GenerateValidRequestDetails, SendObserve, Inspect, BookOf, Legal, ReportsAbsence;
    var g := GenerateValidRequestDetails(m, w.local.status);
    if w.local.status.externalRef != "" && g.EvalOk? {
      SendObserveGood(w);
      SendObserveAlive(w);
      var (w1, reply) := SendObserve(w);
      InspectGood(w1, HttpDetails(ResponseOf(reply), g.value), !reply.Answer?, true);
    }
  }

  lemma SendObserveAlive(w: World)
    ensures Alive(SendObserve(w).0) ==> Alive(w)
  {
  }

  lemma ObserveResponseDrivenGood(w: World, m: Mapping)
    requires Good(w) && w.server.status.anchor.None? && w.server.status.terminalError == ""
    requires BookOf(w.log).routed == Some(false)
    ensures var (r, o) := ObserveResponseDriven(w, m); Observed(r, o)
  {
    hide GenerateValidRequestDetails, SendObserve, Inspect, BookOf, Legal, ReportsAbsence;
    var g := GenerateValidRequestDetails(m, w.local.status);
    if g.EvalOk? {
      SendObserveGood(w);
      SendObserveAlive(w);
      var (w1, reply) := SendObserve(w);
      InspectGood(w1, HttpDetails(ResponseOf(reply), g.value), !reply.Answer?, false);
    }
  }

  lemma ObserveByMappingGood(w: World)
    requires Good(w) && w.server.status.anchor.None? && w.server.status.terminalError == ""
    ensures var (r, o) := ObserveByMapping(w); Observed(r, o)
  {
    hide MappingFor, PollingConfigured, UrlReferencesResponse, UrlReferencesExternalRef, Save, BookOf, Legal;
    hide ObserveExternalRefDriven, ObserveResponseDriven;
    var m := MappingFor(w.local.spec, Observe);
    if m.Some? {
      var url := m.value.url;
      if PollingConfigured(w.local.spec) && UrlReferencesResponse(url) && !UrlReferencesExternalRef(url) {
        SaveGood(w, SetTerminal(ERR_POLLED_RESPONSE_IDENTITY, false));
      } else if UrlReferencesExternalRef(url) {
        RoutedGood(w, true);
        ObserveExternalRefDrivenGood(Emit(w, Routed(true)), m.value);
      } else {
        RoutedGood(w, false);
        ObserveResponseDrivenGood(Emit(w, Routed(false)), m.value);
      }
    }
  }

  lemma ObserveUnstalledGood(w: World)
    requires Good(w) && w.server.status.terminalError == ""
    ensures var (r, o) := ObserveUnstalled(w); Observed(r, o)
  {
    hide ObserveByMapping, BookOf, Legal;
    if w.server.status.anchor.None? { ObserveByMappingGood(w); }
  }

  lemma IsUpToDateGood(w: World)
    requires Good(w)
    ensures var (r, o) := IsUpToDate(w); Observed(r, o)
  {
    hide ObserveUnstalled, Save, BookOf, Legal;
    var st := w.local.status;
    if st.terminalError == "" {
      ObserveUnstalledGood(w);
    } else if !(w.local.deleted && st.anchor.None? && st.externalRef == "") && w.local.generation != st.observedGeneration {
      SaveGood(w, ClearTerminal);
      SaveClearTerminal(w);
      var (w1, ok) := Save(w, ClearTerminal);
      if ok { ObserveUnstalledGood(w1); }
    }
  }

  lemma SaveClearTerminal(w: World)
    ensures var (r, ok) := Save(w, ClearTerminal);
      ok ==> r.server.status == w.server.status.(terminalError := "", error := "", startedAt := None)
  {
  }

  // ---------------------------------------------------------------- the reconcile

  lemma UpdateLocalGood(w: World, ref: string)
    requires Good(w) && ref != "" && w.server.status.externalRef == ""
    requires ref == w.local.externalName && ref != w.local.name
    ensures var (r, ok) := UpdateLocal(w, Seed(ref)); Sound(r) && (ok ==> InSync(r))
  {
    hide Save, BookOf, Legal;
    if Alive(w) {
      AdvanceGood(w);
      if Advance(w).server.version == w.local.version { SaveGoodAt(w, Seed(ref)); }
    }
  }

  /** What the answer of Observe promises the dispatch. */
  ghost predicate Promised(r: World, a: Answer) {
    Sound(r) && (Alive(r) ==> PromisedAlive(r, a))
  }

  ghost predicate PromisedAlive(r: World, a: Answer) {
    var st, b := r.server.status, BookOf(r.log);
    && (a.NotExists? ==> st.externalRef != "" ==> b.absent)
    && (a.NotExists? ==> st.anchor.Some? ==> !r.local.deleted)
    && (a.NotExists? ==> st.terminalError == "" || r.local.deleted)
    && (a.Exists? ==> st.terminalError == "")
    && (a.Exists? ==> st.anchor.None? ==> st.externalRef == "" ==> b.routed == Some(false))
  }

  lemma RecordKeepsRoute(w: World, d: HttpDetails, failed: bool, reset: bool)
    requires Sound(w)
    ensures BookOf(RefreshAndRecord(w, d, failed, reset).0.log).routed == BookOf(w.log).routed
  {
    hide BookOf, Legal, ShouldSetCache, Apply, Disturb;
    GetGood(w);
    var (w1, ok) := Get(w);
    if ok && Alive(w1) {
      var spec := w1.local.spec;
      var c := if failed then RecordError(ERR_TRANSPORT)
               else Record(d, reset, IsHTTPError(d.response.statusCode, spec.allowed),
                           ShouldSetCache(spec, w1.local.status, d.response));
      var w2 := Advance(w1);
      ApplyKeepsRouting(c, w2.server, w2.now);
      Extend(w2.log, Wrote(c, w2.local.spec, w2.server, w2.now, Apply(c, w2.server, w2.now).value));
    }
  }

  lemma ObserveResourceGood(w: World)
    requires Good(w)
    ensures var (r, a) := ObserveResource(w); Promised(r, a)
  {
    hide UpdateLocal, IsUpToDate, RefreshAndRecord, BookOf, Legal;
    var ext := w.local.externalName;
    var (w1, ok) :=
      if w.local.status.externalRef == "" && ext != "" && ext != w.local.name then UpdateLocal(w, Seed(ext)) else (w, true);
    if w.local.status.externalRef == "" && ext != "" && ext != w.local.name { UpdateLocalGood(w, ext); }
    if ok {
      IsUpToDateGood(w1);
      var (w2, seen) := IsUpToDate(w1);
      if seen.Seen? {
        RefreshAndRecordSound(w2, seen);
      }
    }
  }

  lemma RefreshAndRecordSound(w: World, o: Observation)
    requires o.Seen? && Observed(w, o)
    ensures var (r, ok) := RefreshAndRecord(w, o.details, o.failed, o.synced);
      Promised(r, if ok then Exists(o.synced) else ObserveError)
  {
    hide RefreshAndRecord, BookOf, Legal;
    if Alive(w) {
      RefreshAndRecordGood(w, o.details, o.failed, o.synced);
      RecordKeepsRoute(w, o.details, o.failed, o.synced);
    } else {
      DeadRecordsNothing(w, o.details, o.failed, o.synced);
    }
  }

  lemma DeadRecordsNothing(w: World, d: HttpDetails, failed: bool, reset: bool)
    requires !Alive(w)
    ensures RefreshAndRecord(w, d, failed, reset) == (w, false)
  {
  }

  lemma RefreshAndDeployGood(w: World, action: Action)
    requires Sound(w) && (Alive(w) ==> w.server.status.terminalError == "")
    requires Alive(w) && w.server.status.anchor.None? ==> MayMutate(w, action)
    ensures Sound(RefreshAndDeploy(w, action))
  {
    hide Get, DeployAction, BookOf, Legal;
    GetGood(w);
    DeadGetsNothing(w);
    var (w1, ok) := Get(w);
    if ok { DeployActionGood(w1, action); }
  }

  lemma DeadGetsNothing(w: World)
    ensures !Alive(w) ==> Get(w) == (w, false)
  {
  }

  lemma DeleteGood(w: World)
    requires Sound(w) && (Alive(w) ==> w.server.status.terminalError == "")
    requires Alive(w) && w.server.status.anchor.None? ==> MayMutate(w, Remove)
    ensures Sound(Delete(w))
  {
    hide Get, DeployAction, BookOf, Legal;
    GetGood(w);
    DeadGetsNothing(w);
    var (w1, ok) := Get(w);
    if ok {
      if w1.local.status.anchor.Some? && w1.local.status.externalRef == "" {
        DeployActionGood(w1, Create);
      } else {
        DeployActionGood(w1, Remove);
      }
    }
  }

  lemma DropFinalizerGood(w: World)
    requires Sound(w)
    requires Alive(w) ==> w.server.status.anchor.None? && (w.server.status.externalRef != "" ==> BookOf(w.log).absent)
    ensures Sound(DropFinalizer(w))
  {
    hide BookOf, Legal, Disturb;
    if Alive(w) {
      AdvanceGood(w);
      var w1 := Advance(w);
      assert Allowed(BookOf(w1.log), Finalized(w1.server.status));
      EmitSound(w1, Finalized(w1.server.status));
    }
  }

  lemma DispatchGood(w: World, a: Answer)
    requires Promised(w, a)
    ensures Sound(Dispatch(w, a))
  {
    hide DropFinalizer, RefreshAndDeploy, Delete, BookOf, Legal;
    match a {
      case ObserveError =>
      case NotExists => if w.local.deleted { DropFinalizerGood(w); } else { RefreshAndDeployGood(w, Create); }
      case Exists(upToDate) =>
        if w.local.deleted { DeleteGood(w); } else if !upToDate { RefreshAndDeployGood(w, Update); }
    }
  }

  lemma ReconcileGood(w: World)
    requires Sound(w)
    ensures Sound(Reconcile(w))
  {
    hide Get, ObserveResource, Dispatch, BookOf, Legal;
    if !w.finalized {
      EmitSound(w, Began);
      GetGood(Emit(w, Began));
      var (w1, ok) := Get(Emit(w, Began));
      if ok {
        ObserveResourceGood(w1);
        var (w2, a) := ObserveResource(w1);
        DispatchGood(w2, a);
      }
    }
  }

  /** Refinement: any number of reconciles, on any tapes, keep to the protocol. */
  lemma {:induction false} RunGood(w: World, tapes: seq<seq<Turn>>)
    requires Sound(w)
    ensures Sound(Run(w, tapes))
    decreases |tapes|
  {
    hide Reconcile, BookOf, Legal;
    if tapes != [] {
      assert Sound(w.(tape := tapes[0]));
      ReconcileGood(w.(tape := tapes[0]));
      RunGood(Reconcile(w.(tape := tapes[0])), tapes[1..]);
    }
  }
}
