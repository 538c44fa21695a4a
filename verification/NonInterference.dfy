/**
 Routing consults identity, anchor and terminal state, and nothing else: two worlds whose
 statuses differ only in response, cache, requestDetails, failed and error take the same
 route and make the same HTTP calls.
 */
module NonInterference {
  import opened Api
  import opened Cluster
  import opened RequestMapping
  import opened RequestGen
  import opened Poller
  import opened Deploy
  import opened Observing
  import opened Reconciling

  ghost predicate ObjectEq(a: Object, b: Object) {
    RoutingEq(a.status, b.status) && a == b.(status := a.status)
  }

  /** The OBSERVE URL is keyed on .status.externalRef. */
  predicate Driven(spec: Spec) {
    var m := MappingFor(spec, Observe);
    m.Some? && UrlReferencesExternalRef(m.value.url)
  }

  // ---------------------------------------------------------------- expressions that do not read the stored response

  ghost predicate InsensitiveMapping(m: Mapping) {
    && (forall s, s', r, r' | RoutingEq(s, s') :: m.render(s, r) == m.render(s', r'))
    && (m.polling.Some? ==> InsensitivePolling(m.polling.value))
  }

  ghost predicate InsensitivePolling(p: Polling) {
    && (forall s, s', a | RoutingEq(s, s') :: p.url(s, a) == p.url(s', a))
    && (forall s, s', a, r | RoutingEq(s, s') :: p.done(s, a, r) == p.done(s', a, r))
    && (p.error.Some? ==> forall s, s', a, r | RoutingEq(s, s') :: p.error.value(s, a, r) == p.error.value(s', a, r))
  }

  ghost predicate InsensitiveCheck(c: Check) {
    forall s, s', r | RoutingEq(s, s') :: c(s, r) == c(s', r)
  }

  ghost predicate InsensitiveChecks(spec: Spec) {
    && (spec.removed.Some? ==> InsensitiveCheck(spec.removed.value))
    && (spec.existsCheck.Some? ==> InsensitiveCheck(spec.existsCheck.value))
    && (match spec.upToDate
        case CustomUpToDate(c) => InsensitiveCheck(c)
        case DefaultUpToDate(c) => forall s, s', r, d | RoutingEq(s, s') :: c(s, r, d) == c(s', r, d))
  }

  ghost predicate InsensitiveExtracts(spec: Spec) {
    && (spec.externalRef.Some? ==>
          forall s, s', a, r | RoutingEq(s, s') :: spec.externalRef.value(s, a, r) == spec.externalRef.value(s', a, r))
    && (spec.isTerminalError.Some? ==>
          forall s, s', a, r | RoutingEq(s, s') :: spec.isTerminalError.value(s, a, r) == spec.isTerminalError.value(s', a, r))
  }

  /** A driven spec none of whose expressions reads response, cache, requestDetails, failed or error. */
  ghost predicate Insensitive(spec: Spec) {
    && Driven(spec)
    && (forall i :: 0 <= i < |spec.mappings| ==> InsensitiveMapping(spec.mappings[i]))
    && InsensitiveChecks(spec)
    && InsensitiveExtracts(spec)
  }

  ghost predicate InsensitiveTape(tape: seq<Turn>) {
    forall i :: 0 <= i < |tape| && tape[i].env.spec.Some? ==> Insensitive(tape[i].env.spec.value)
  }

  /** The same call, verdict or write; statuses agree on the routing fields. */
  ghost predicate EventEq(a: Event, b: Event) {
    match (a, b)
    case (ObserveCall(sp, st, reply), ObserveCall(sp', st', reply')) => sp == sp' && RoutingEq(st, st') && reply == reply'
    case (Mutate(action, polled, st, reply, accepted), Mutate(action', polled', st', reply', accepted')) =>
      action == action' && polled == polled' && RoutingEq(st, st') && reply == reply' && accepted == accepted'
    case (Wrote(c, sp, o, at, st), Wrote(c', sp', o', at', st')) =>
      c == c' && sp == sp' && ObjectEq(o, o') && at == at' && RoutingEq(st, st')
    case (Polled(verdict, st), Polled(verdict', st')) => verdict == verdict' && RoutingEq(st, st')
    case (Finalized(st), Finalized(st')) => RoutingEq(st, st')
    case _ => a == b
  }

  ghost predicate LogEq(a: seq<Event>, b: seq<Event>) {
    |a| == |b| && forall i :: 0 <= i < |a| ==> EventEq(a[i], b[i])
  }

  // ---------------------------------------------------------------- without any assumption on expressions

  predicate InFlightOrUnidentified(o: Object) {
    o.status.anchor.Some? || (o.status.externalRef == "" && Driven(o.spec))
  }

  /** The terminal stands, or is abandoned with the resource it never created. */
  predicate Stands(o: Object) {
    && o.status.terminalError != ""
    && (o.generation == o.status.observedGeneration || (o.deleted && o.status.anchor.None? && o.status.externalRef == ""))
  }

  /** The object the observation routes by: past a clearing of the terminal, the one stored by then. */
  function RoutedBy(w: World): Object {
    if w.local.status.terminalError != "" then Upcoming(w) else w.local
  }

  /** The stored object once the next turn has disturbed it. */
  function Upcoming(w: World): Object {
    if Alive(w) then Advance(w).server else w.local
  }

  /**
   Whenever a terminal stands, an operation is in flight, or no identity is established on a
   driven resource, the observation is a function of the routing fields alone, with the same
   writes and without any HTTP call. Only a reopened or plain object that is identified and not
   in flight is left to StoredResponseIsInert.
   */
  lemma RouteIsInert(v: World, w: World)
    requires ObjectEq(v.local, w.local) && ObjectEq(v.server, w.server) && v.tape == w.tape && v.now == w.now
    requires Stands(v.local) || InFlightOrUnidentified(RoutedBy(v))
    ensures IsUpToDate(v).1 == IsUpToDate(w).1
    ensures var a, b := IsUpToDate(v).0.log, IsUpToDate(w).0.log;
      && |v.log| <= |a| && |w.log| <= |b| && a[..|v.log|] == v.log && b[..|w.log|] == w.log
      && LogEq(a[|v.log|..], b[|w.log|..])
      && forall e :: e in a[|v.log|..] ==> e.Wrote? || e.Routed?
  {
    hide MappingFor, UrlReferencesExternalRef, UrlReferencesResponse, PollingConfigured, LogEq, Disturb, ObserveResponseDriven;
    var st := v.local.status;
    if st.terminalError == "" {
      UnstalledIsInert(v, w);
    } else if Stands(v.local) {
      assert v.log[|v.log|..] == [] && w.log[|w.log|..] == [];
      LogEqNone();
    } else {
      ClearIsInert(v, w);
      var (v1, ok) := Save(v, ClearTerminal);
      var (w1, _) := Save(w, ClearTerminal);
      if ok {
        UnstalledIsInert(v1, w1);
        var a, b := IsUpToDate(v).0.log, IsUpToDate(w).0.log;
        LogEqJoin(v.log, v1.log, a, w.log, w1.log, b);
      }
    }
  }

  lemma LogEqNone()
    ensures LogEq([], [])
  {
  }

  lemma LogEqJoin(a: seq<Event>, a1: seq<Event>, a2: seq<Event>, b: seq<Event>, b1: seq<Event>, b2: seq<Event>)
    requires |a| <= |a1| <= |a2| && a1[..|a|] == a && a2[..|a1|] == a1
    requires |b| <= |b1| <= |b2| && b1[..|b|] == b && b2[..|b1|] == b1
    requires LogEq(a1[|a|..], b1[|b|..]) && LogEq(a2[|a1|..], b2[|b1|..])
    ensures a2[..|a|] == a && b2[..|b|] == b && LogEq(a2[|a|..], b2[|b|..])
    ensures forall e :: e in a2[|a|..] ==> e in a1[|a|..] || e in a2[|a1|..]
  {
    hide EventEq;
    var x, y := a2[|a|..], b2[|b|..];
    assert x == a1[|a|..] + a2[|a1|..] by { assert a2 == a1 + a2[|a1|..]; }
    assert y == b1[|b|..] + b2[|b1|..] by { assert b2 == b1 + b2[|b1|..]; }
    assert a2[..|a|] == a2[..|a1|][..|a|] && b2[..|b|] == b2[..|b1|][..|b|];
  }

  lemma ClearIsInert(v: World, w: World)
    requires ObjectEq(v.local, w.local) && ObjectEq(v.server, w.server) && v.tape == w.tape && v.now == w.now
    ensures var (v1, ok), (w1, ok') := Save(v, ClearTerminal), Save(w, ClearTerminal);
      && ok == ok' && v1.tape == w1.tape && v1.now == w1.now
      && |v.log| <= |v1.log| && |w.log| <= |w1.log| && v1.log[..|v.log|] == v.log && w1.log[..|w.log|] == w.log
      && LogEq(v1.log[|v.log|..], w1.log[|w.log|..])
      && (forall e :: e in v1.log[|v.log|..] ==> e.Wrote?)
      && (ok ==> ObjectEq(v1.local, w1.local) && ObjectEq(v1.server, w1.server) && v1.local.status.terminalError == "")
      && (ok ==> v1.local.spec == Upcoming(v).spec && v1.local.status.anchor == Upcoming(v).status.anchor
                 && v1.local.status.externalRef == Upcoming(v).status.externalRef)
  {
    hide Disturb, Apply, LogEq, EventEq, Save, WithoutTerminal;
    assert v.log[|v.log|..] == [] && w.log[|w.log|..] == [];
    LogEqNone();
    if Alive(v) {
      DisturbEq(v.server, w.server, v.tape[0].env);
      var v1, w1 := Advance(v), Advance(w);
      ClearSteps(v);
      ClearSteps(w);
      WithoutTerminalEq(v1.server, w1.server);
      var e := Wrote(ClearTerminal, v1.local.spec, v1.server, v1.now, WithoutTerminal(v1.server.status));
      var f := Wrote(ClearTerminal, w1.local.spec, w1.server, w1.now, WithoutTerminal(w1.server.status));
      assert (v.log + [e])[|v.log|..] == [e] && (w.log + [f])[|w.log|..] == [f];
      assert LogEq([e], [f]) by { LogEqOne(e, f); }
    } else {
      DeadClears(v);
      DeadClears(w);
    }
  }

  function WithoutTerminal(st: Status): Status {
    st.(terminalError := "", error := "", startedAt := None)
  }

  lemma ClearSteps(w: World)
    requires Alive(w)
    ensures var w1 := Advance(w);
      var w2 := Commit(w1, ClearTerminal, WithoutTerminal(w1.server.status));
      Save(w, ClearTerminal) ==
        if w.tape[0].reply.Landed? then (w2.(local := w2.server), true)
        else if w.tape[0].reply.LandedUnseen? then (w2, false)
        else (w1, false)
  {
  }

  lemma DeadClears(w: World)
    ensures !Alive(w) ==> Save(w, ClearTerminal) == (w, false)
  {
  }

  lemma WithoutTerminalEq(o: Object, o': Object)
    requires ObjectEq(o, o')
    ensures var c, c' := WithoutTerminal(o.status), WithoutTerminal(o'.status);
      RoutingEq(c, c') && c.terminalError == "" && c.anchor == o.status.anchor && c.externalRef == o.status.externalRef
  {
  }

  lemma LogEqOne(e: Event, f: Event)
    requires e.Wrote? && f.Wrote? && e.change == f.change && e.spec == f.spec && ObjectEq(e.before, f.before)
    requires e.at == f.at && RoutingEq(e.after, f.after)
    ensures LogEq([e], [f])
  {
  }

  lemma DisturbEq(o: Object, o': Object, env: Env)
    requires ObjectEq(o, o')
    ensures ObjectEq(Disturb(o, env), Disturb(o', env)) && Disturb(o, env).status == o.status && Disturb(o', env).status == o'.status
  {
  }

  lemma UnstalledIsInert(v: World, w: World)
    requires ObjectEq(v.local, w.local) && InFlightOrUnidentified(v.local)
    ensures ObserveUnstalled(v).1 == ObserveUnstalled(w).1
    ensures var a, b := ObserveUnstalled(v).0.log, ObserveUnstalled(w).0.log;
      && |v.log| <= |a| && |w.log| <= |b| && a[..|v.log|] == v.log && b[..|w.log|] == w.log
      && LogEq(a[|v.log|..], b[|w.log|..])
      && forall e :: e in a[|v.log|..] ==> e.Routed?
  {
    hide MappingFor, UrlReferencesExternalRef, UrlReferencesResponse, PollingConfigured, ObserveResponseDriven;
  }

  // ---------------------------------------------------------------- the simulation

  ghost predicate AllInsensitive(w: World) {
    Insensitive(w.server.spec) && Insensitive(w.local.spec) && InsensitiveTape(w.tape)
  }

  ghost predicate WorldEq(v: World, w: World) {
    && ObjectEq(v.server, w.server) && ObjectEq(v.local, w.local)
    && v.now == w.now && v.tape == w.tape && v.finalized == w.finalized
    && LogEq(v.log, w.log)
    && AllInsensitive(v)
  }

  // ---------------------------------------------------------------- the simulation, function by function

  lemma EmitEq(v: World, w: World, e: Event, f: Event)
    requires WorldEq(v, w) && EventEq(e, f)
    ensures WorldEq(Emit(v, e), Emit(w, f))
  {
    hide EventEq, ObjectEq, Insensitive;
    var a, b := v.log + [e], w.log + [f];
    forall i | 0 <= i < |a| ensures EventEq(a[i], b[i]) {
      if i < |v.log| { assert a[i] == v.log[i] && b[i] == w.log[i]; }
    }
  }

  lemma AdvanceEq(v: World, w: World)
    requires WorldEq(v, w) && Alive(v)
    ensures WorldEq(Advance(v), Advance(w))
  {
    hide LogEq, Insensitive;
  }

  lemma GetEq(v: World, w: World)
    requires WorldEq(v, w)
    ensures Get(v).1 == Get(w).1 && WorldEq(Get(v).0, Get(w).0)
  {
    hide LogEq, Insensitive, Disturb;
    if Alive(v) { AdvanceEq(v, w); }
  }

  lemma ApplyEq(c: Change, o: Object, o': Object, now: nat)
    requires ObjectEq(o, o') && Insensitive(o.spec)
    ensures var a, b := Apply(c, o, now), Apply(c, o', now);
      a.Some? == b.Some? && (a.Some? ==> RoutingEq(a.value, b.value))
  {
    hide RecordDetails, Driven, InsensitiveMapping, InsensitiveChecks;
  }

  lemma SaveEq(v: World, w: World, c: Change)
    requires WorldEq(v, w)
    ensures Save(v, c).1 == Save(w, c).1 && WorldEq(Save(v, c).0, Save(w, c).0)
  {
    hide LogEq, Insensitive, Disturb, Apply;
    if Alive(v) {
      AdvanceEq(v, w);
      var v1, w1 := Advance(v), Advance(w);
      ApplyEq(c, v1.server, w1.server, v1.now);
      var a, b := Apply(c, v1.server, v1.now), Apply(c, w1.server, w1.now);
      if a.Some? {
        EmitEq(v1, w1, Wrote(c, v1.local.spec, v1.server, v1.now, a.value), Wrote(c, w1.local.spec, w1.server, w1.now, b.value));
      }
    }
  }

  lemma UpdateLocalEq(v: World, w: World, c: Change)
    requires WorldEq(v, w)
    ensures UpdateLocal(v, c).1 == UpdateLocal(w, c).1 && WorldEq(UpdateLocal(v, c).0, UpdateLocal(w, c).0)
  {
    hide LogEq, Insensitive, Save;
    SaveEq(v, w, c);
    if Alive(v) { AdvanceEq(v, w); }
  }

  lemma RenderEq(v: World, w: World, m: Mapping)
    requires WorldEq(v, w) && InsensitiveMapping(m)
    ensures GenerateValidRequestDetails(m, v.local.status) == GenerateValidRequestDetails(m, w.local.status)
  {
    hide LogEq, Insensitive, InsensitivePolling;
    var s, t := v.local.status, w.local.status;
    assert m.render(s, Some(s.response)) == m.render(t, Some(t.response));
    assert m.render(s, CachedResponse(s)) == m.render(t, CachedResponse(t));
  }

  lemma MappingInsensitive(spec: Spec, a: Action)
    requires Insensitive(spec)
    ensures var m := MappingFor(spec, a); m.Some? ==> InsensitiveMapping(m.value)
  {
    hide InsensitiveMapping, InsensitiveChecks, InsensitiveExtracts, Driven;
  }

  lemma CacheEq(v: World, w: World, r: Response)
    requires WorldEq(v, w)
    ensures ShouldSetCache(v.local.spec, v.local.status, r) == ShouldSetCache(w.local.spec, w.local.status, r)
  {
    hide LogEq, Driven, InsensitiveChecks, InsensitiveExtracts, InsensitivePolling;
    var spec := v.local.spec;
    forall i | 0 <= i < |spec.mappings|
      ensures spec.mappings[i].render(v.local.status, Some(r)) == spec.mappings[i].render(w.local.status, Some(r))
    {
      assert InsensitiveMapping(spec.mappings[i]);
    }
  }

  lemma RecordEq(v: World, w: World, d: HttpDetails, failed: bool, reset: bool)
    requires WorldEq(v, w)
    ensures var a, b := RefreshAndRecord(v, d, failed, reset), RefreshAndRecord(w, d, failed, reset);
      a.1 == b.1 && WorldEq(a.0, b.0)
  {
    hide LogEq, Insensitive, Get, Save, ShouldSetCache;
    GetEq(v, w);
    var v1, w1 := Get(v).0, Get(w).0;
    if Get(v).1 {
      CacheEq(v1, w1, d.response);
      if failed {
        SaveEq(v1, w1, RecordError(ERR_TRANSPORT));
      } else {
        SaveEq(v1, w1, Record(d, reset, IsHTTPError(d.response.statusCode, v1.local.spec.allowed),
                              ShouldSetCache(v1.local.spec, v1.local.status, d.response)));
      }
    }
  }

  lemma ClassifyEq(v: World, w: World, mutate: Response, poll: Option<Response>, default: string)
    requires WorldEq(v, w)
    ensures Classify(v.local.spec, v.local.status, mutate, poll, default)
         == Classify(w.local.spec, w.local.status, mutate, poll, default)
  {
    hide LogEq, Driven, InsensitiveChecks, InsensitiveMapping;
  }

  lemma FailMutateEq(v: World, w: World, r: Response)
    requires WorldEq(v, w)
    ensures FailMutate(v, r).1 == FailMutate(w, r).1 && WorldEq(FailMutate(v, r).0, FailMutate(w, r).0)
  {
    hide WorldEq, Classify, Save;
    ClassifyEq(v, w, r, None, TERMINAL_MUTATE);
    var msg := Classify(v.local.spec, v.local.status, r, None, TERMINAL_MUTATE);
    if msg.Some? { SaveEq(v, w, SetTerminal(msg.value, false)); }
  }

  lemma FinishSyncEq(v: World, w: World, d: HttpDetails, failed: bool)
    requires WorldEq(v, w)
    ensures FinishSync(v, d, failed).1 == FinishSync(w, d, failed).1
    ensures WorldEq(FinishSync(v, d, failed).0, FinishSync(w, d, failed).0)
  {
    hide LogEq, AllInsensitive, RefreshAndRecord, FailMutate, Save;
    SaveEq(v, w, ExtractRef(d.response));
    var v1 := if v.local.spec.externalRef.None? then v else Save(v, ExtractRef(d.response)).0;
    var w1 := if w.local.spec.externalRef.None? then w else Save(w, ExtractRef(d.response)).0;
    RecordEq(v1, w1, d, failed, false);
    if RefreshAndRecord(v1, d, failed, false).1 {
      FailMutateEq(RefreshAndRecord(v1, d, failed, false).0, RefreshAndRecord(w1, d, failed, false).0, d.response);
    }
  }

  lemma SendMutateEq(v: World, w: World, action: Action, m: Mapping)
    requires WorldEq(v, w)
    ensures SendMutate(v, action, m).1 == SendMutate(w, action, m).1
    ensures WorldEq(SendMutate(v, action, m).0, SendMutate(w, action, m).0)
  {
    hide LogEq, AllInsensitive, Advance;
    if Alive(v) {
      AdvanceEq(v, w);
      var reply := v.tape[0].reply;
      var accepted := reply == NoAnswer(true)
        || (reply.Answer? && !IsHTTPError(reply.response.statusCode, v.local.spec.allowed));
      EmitEq(Advance(v), Advance(w), Mutate(action, m.polling.Some?, v.local.status, reply, accepted),
                                     Mutate(action, m.polling.Some?, w.local.status, reply, accepted));
    }
  }

  lemma JudgeEq(v: World, w: World, p: Polling, mutate: Response, r: Response)
    requires WorldEq(v, w) && InsensitivePolling(p)
    ensures Judge(p, v.local.status, mutate, r) == Judge(p, w.local.status, mutate, r)
  {
    hide LogEq, AllInsensitive;
  }

  lemma SleepEq(v: World, w: World, interval: nat)
    requires WorldEq(v, w)
    ensures Sleep(v, interval).1 == Sleep(w, interval).1 && WorldEq(Sleep(v, interval).0, Sleep(w, interval).0)
    ensures |Sleep(v, interval).0.tape| <= |v.tape|
  {
    hide LogEq, Insensitive, Disturb;
    if Alive(v) { AdvanceEq(v, w); }
  }

  lemma {:induction false} PollLoopEq(v: World, w: World, p: Polling, mutate: Response, deadline: int, budgetEnd: int)
    requires WorldEq(v, w) && InsensitivePolling(p)
    ensures PollLoop(v, p, mutate, deadline, budgetEnd).1 == PollLoop(w, p, mutate, deadline, budgetEnd).1
    ensures WorldEq(PollLoop(v, p, mutate, deadline, budgetEnd).0, PollLoop(w, p, mutate, deadline, budgetEnd).0)
    decreases |v.tape|
  {
    hide LogEq, AllInsensitive, Judge, Sleep, Disturb, InsensitivePolling;
    if !(!v.local.deleted && v.now > deadline) && !(v.now > budgetEnd) && Alive(v) {
      EmitEq(v, w, PollCall(v.now), PollCall(w.now));
      var v0, w0 := Emit(v, PollCall(v.now)), Emit(w, PollCall(w.now));
      AdvanceEq(v0, w0);
      var (v1, reply) := Send(v0);
      var w1 := Send(w0).0;
      if reply.Answer? {
        JudgeEq(v, w, p, mutate, reply.response);
        if Judge(p, v.local.status, mutate, reply.response).None? {
          SleepEq(v1, w1, p.interval);
          if Sleep(v1, p.interval).1 {
            PollLoopEq(Sleep(v1, p.interval).0, Sleep(w1, p.interval).0, p, mutate, deadline, budgetEnd);
          }
        }
      }
    }
  }

  lemma PollEq(v: World, w: World, m: Mapping, mutate: Response)
    requires WorldEq(v, w) && InsensitiveMapping(m)
    ensures Poll(v, m, mutate).1 == Poll(w, m, mutate).1 && WorldEq(Poll(v, m, mutate).0, Poll(w, m, mutate).0)
  {
    hide LogEq, AllInsensitive, PollLoop, IsAbsoluteUrl, EventEq;
    if m.polling.Some? {
      var p := m.polling.value;
      assert p.url(v.local.status, mutate) == p.url(w.local.status, mutate);
      var startedAt := if v.local.status.startedAt.Some? then v.local.status.startedAt.value else v.now;
      PollLoopEq(v, w, p, mutate, startedAt + p.timeout, v.now + RECONCILE_BUDGET);
    }
    var (v1, o) := if m.polling.None? then (v, Finished(NoBlock, None)) else Drive(v, m.polling.value, mutate);
    var w1 := if m.polling.None? then w else Drive(w, m.polling.value, mutate).0;
    PolledEq(v1, w1, VerdictOf(o));
  }

  lemma PolledEq(v: World, w: World, verdict: Verdict)
    requires WorldEq(v, w)
    ensures WorldEq(Emit(v, Polled(verdict, v.local.status)), Emit(w, Polled(verdict, w.local.status)))
  {
    hide LogEq, AllInsensitive;
    EmitEq(v, w, Polled(verdict, v.local.status), Polled(verdict, w.local.status));
  }

  lemma HandleOperationFailureEq(v: World, w: World, mutate: Response, failing: Response, msg: string)
    requires WorldEq(v, w)
    ensures var a, b := HandleOperationFailure(v, mutate, failing, msg), HandleOperationFailure(w, mutate, failing, msg);
      a.1 == b.1 && WorldEq(a.0, b.0)
  {
    hide WorldEq, Classify, Save;
    SaveEq(v, w, PollFailure(failing));
    if Save(v, PollFailure(failing)).1 {
      var v1, w1 := Save(v, PollFailure(failing)).0, Save(w, PollFailure(failing)).0;
      ClassifyEq(v1, w1, mutate, Some(failing), msg);
      var terminal := Classify(v1.local.spec, v1.local.status, mutate, Some(failing), msg);
      if terminal.Some? { SaveEq(v1, w1, SetTerminal(terminal.value, true)); } else { SaveEq(v1, w1, ClearAnchor); }
    }
  }

  lemma PollAndFinishEq(v: World, w: World, m: Mapping, mutate: Response)
    requires WorldEq(v, w) && InsensitiveMapping(m)
    ensures var a, b := PollAndFinish(v, m, mutate), PollAndFinish(w, m, mutate); a.1 == b.1 && WorldEq(a.0, b.0)
  {
    hide WorldEq, Poll, HandleOperationFailure, Save;
    PollEq(v, w, m, mutate);
    var (v1, o) := Poll(v, m, mutate);
    var w1 := Poll(w, m, mutate).0;
    match o {
      case Errored =>
      case Terminal(_, msg) => SaveEq(v1, w1, SetTerminal(msg, false));
      case Failure(failing, msg) => HandleOperationFailureEq(v1, w1, mutate, failing, msg);
      case StillRunning =>
      case Finished(_, poll) => SaveEq(v1, w1, Complete(mutate, poll));
    }
  }

  lemma FireEq(v: World, w: World, action: Action, m: Mapping)
    requires WorldEq(v, w) && InsensitiveMapping(m)
    ensures Fire(v, action, m).1 == Fire(w, action, m).1 && WorldEq(Fire(v, action, m).0, Fire(w, action, m).0)
  {
    hide LogEq, AllInsensitive, SendMutate, FinishSync, RefreshAndRecord, FailMutate, PollAndFinish, Save, GenerateValidRequestDetails;
    RenderEq(v, w, m);
    var g := GenerateValidRequestDetails(m, v.local.status);
    if g.EvalOk? {
      SendMutateEq(v, w, action, m);
      var (v1, reply) := SendMutate(v, action, m);
      var w1 := SendMutate(w, action, m).0;
      var d := HttpDetails(ResponseOf(reply), g.value);
      if m.polling.None? {
        FinishSyncEq(v1, w1, d, !reply.Answer?);
      } else if !reply.Answer? {
        RecordEq(v1, w1, d, true, false);
      } else if IsHTTPError(d.response.statusCode, v1.local.spec.allowed) {
        RecordEq(v1, w1, d, false, false);
        if RefreshAndRecord(v1, d, false, false).1 {
          FailMutateEq(RefreshAndRecord(v1, d, false, false).0, RefreshAndRecord(w1, d, false, false).0, d.response);
        }
      } else {
        SaveEq(v1, w1, PersistAnchor(d.response));
        if Save(v1, PersistAnchor(d.response)).1 {
          PollAndFinishEq(Save(v1, PersistAnchor(d.response)).0, Save(w1, PersistAnchor(d.response)).0, m, d.response);
        }
      }
    }
  }

  lemma DeployActionEq(v: World, w: World, action: Action)
    requires WorldEq(v, w)
    ensures DeployAction(v, action).1 == DeployAction(w, action).1 && WorldEq(DeployAction(v, action).0, DeployAction(w, action).0)
  {
    hide LogEq, Insensitive, InsensitiveTape, PollAndFinish, Fire, Save, MappingFor, InsensitiveMapping;
    MappingInsensitive(v.local.spec, action);
    var m := MappingFor(v.local.spec, action);
    if m.Some? {
      if v.local.status.anchor.None? {
        FireEq(v, w, action, m.value);
      } else if v.local.status.startedAt.Some? {
        PollAndFinishEq(v, w, m.value, v.local.status.anchor.value);
      } else {
        SaveEq(v, w, StartClock);
        if Save(v, StartClock).1 {
          PollAndFinishEq(Save(v, StartClock).0, Save(w, StartClock).0, m.value, v.local.status.anchor.value);
        }
      }
    }
  }

  // ---------------------------------------------------------------- observation and reconcile

  lemma ChecksEq(v: World, w: World, r: Response)
    requires WorldEq(v, w)
    ensures var spec, s, t := v.local.spec, v.local.status, w.local.status;
      && CheckRemoved(spec, s, r) == CheckRemoved(spec, t, r)
      && CheckExists(spec, s, r) == CheckExists(spec, t, r)
  {
    hide LogEq, Driven, InsensitiveMapping, InsensitiveExtracts;
  }

  lemma UpToDateEq(v: World, w: World, r: Response)
    requires WorldEq(v, w)
    ensures var spec, s, t := v.local.spec, v.local.status, w.local.status;
      CheckUpToDate(spec, s, r) == CheckUpToDate(spec, t, r)
  {
    hide LogEq, Driven, InsensitiveMapping, InsensitiveExtracts, MappingFor, GenerateValidRequestDetails;
    var m := MappingFor(v.local.spec, Update);
    MappingInsensitive(v.local.spec, Update);
    if m.Some? { RenderEq(v, w, m.value); }
  }

  lemma InspectEq(v: World, w: World, d: HttpDetails, failed: bool, statusGate: bool)
    requires WorldEq(v, w)
    ensures var a, b := Inspect(v, d, failed, statusGate), Inspect(w, d, failed, statusGate);
      a.1 == b.1 && WorldEq(a.0, b.0)
  {
    hide LogEq, AllInsensitive, CheckRemoved, CheckExists, CheckUpToDate, Save, MappingFor;
    ChecksEq(v, w, d.response);
    UpToDateEq(v, w, d.response);
    SaveEq(v, w, SetTerminal(ERR_NO_UPDATE_MAPPING, false));
  }

  lemma SendObserveEq(v: World, w: World)
    requires WorldEq(v, w)
    ensures SendObserve(v).1 == SendObserve(w).1 && WorldEq(SendObserve(v).0, SendObserve(w).0)
  {
    hide LogEq, AllInsensitive, Advance;
    if Alive(v) {
      AdvanceEq(v, w);
      var reply := v.tape[0].reply;
      EmitEq(Advance(v), Advance(w), ObserveCall(v.local.spec, v.local.status, reply),
                                     ObserveCall(w.local.spec, w.local.status, reply));
    }
  }

  lemma ObserveUnstalledEq(v: World, w: World)
    requires WorldEq(v, w)
    ensures ObserveUnstalled(v).1 == ObserveUnstalled(w).1 && WorldEq(ObserveUnstalled(v).0, ObserveUnstalled(w).0)
  {
    hide LogEq, Insensitive, InsensitiveTape, EventEq, SendObserve, Inspect, MappingFor, GenerateValidRequestDetails, UrlReferencesExternalRef;
    hide InsensitiveMapping, PollingConfigured, UrlReferencesResponse;
    if v.local.status.anchor.None? {
      assert Driven(v.local.spec) by { InsensitiveDriven(v.local.spec); }
      var m := MappingFor(v.local.spec, Observe);
      MappingInsensitive(v.local.spec, Observe);
      RoutedEq(v, w);
      var v0, w0 := Emit(v, Routed(true)), Emit(w, Routed(true));
      RenderEq(v0, w0, m.value);
      var g := GenerateValidRequestDetails(m.value, v.local.status);
      if v.local.status.externalRef != "" && g.EvalOk? {
        SendObserveEq(v0, w0);
        var (v1, reply) := SendObserve(v0);
        InspectEq(v1, SendObserve(w0).0, HttpDetails(ResponseOf(reply), g.value), !reply.Answer?, true);
      }
    }
  }

  lemma RoutedEq(v: World, w: World)
    requires WorldEq(v, w)
    ensures WorldEq(Emit(v, Routed(true)), Emit(w, Routed(true)))
  {
    hide LogEq, AllInsensitive;
    EmitEq(v, w, Routed(true), Routed(true));
  }

  lemma InsensitiveDriven(spec: Spec)
    requires Insensitive(spec)
    ensures Driven(spec)
  {
  }

  lemma IsUpToDateEq(v: World, w: World)
    requires WorldEq(v, w)
    ensures IsUpToDate(v).1 == IsUpToDate(w).1 && WorldEq(IsUpToDate(v).0, IsUpToDate(w).0)
  {
    hide LogEq, AllInsensitive, ObserveUnstalled, Save;
    SaveEq(v, w, ClearTerminal);
    if v.local.status.terminalError == "" {
      ObserveUnstalledEq(v, w);
    } else if Save(v, ClearTerminal).1 {
      ObserveUnstalledEq(Save(v, ClearTerminal).0, Save(w, ClearTerminal).0);
    }
  }

  lemma ObserveResourceEq(v: World, w: World)
    requires WorldEq(v, w)
    ensures ObserveResource(v).1 == ObserveResource(w).1 && WorldEq(ObserveResource(v).0, ObserveResource(w).0)
  {
    hide LogEq, AllInsensitive, IsUpToDate, UpdateLocal, RefreshAndRecord;
    var ext := v.local.externalName;
    UpdateLocalEq(v, w, Seed(ext));
    var seeds := v.local.status.externalRef == "" && ext != "" && ext != v.local.name;
    var (v1, ok) := if seeds then UpdateLocal(v, Seed(ext)) else (v, true);
    var w1 := if seeds then UpdateLocal(w, Seed(ext)).0 else w;
    if ok {
      IsUpToDateEq(v1, w1);
      var (v2, seen) := IsUpToDate(v1);
      if seen.Seen? { RecordEq(v2, IsUpToDate(w1).0, seen.details, seen.failed, seen.synced); }
    }
  }

  lemma DispatchEq(v: World, w: World, a: Answer)
    requires WorldEq(v, w)
    ensures WorldEq(Dispatch(v, a), Dispatch(w, a))
  {
    hide LogEq, AllInsensitive, DeployAction, Get, DropFinalizer;
    GetEq(v, w);
    var v1, w1 := Get(v).0, Get(w).0;
    DeployActionEq(v1, w1, Create);
    DeployActionEq(v1, w1, Update);
    DeployActionEq(v1, w1, Remove);
    DropFinalizerEq(v, w);
  }

  lemma DropFinalizerEq(v: World, w: World)
    requires WorldEq(v, w)
    ensures WorldEq(DropFinalizer(v), DropFinalizer(w))
  {
    hide LogEq, Insensitive, Disturb;
    if Alive(v) {
      AdvanceEq(v, w);
      EmitEq(Advance(v), Advance(w), Finalized(Advance(v).server.status), Finalized(Advance(w).server.status));
    }
  }

  lemma ReconcileEq(v: World, w: World)
    requires WorldEq(v, w)
    ensures WorldEq(Reconcile(v), Reconcile(w))
  {
    hide WorldEq, Get, ObserveResource, Dispatch;
    assert v.finalized == w.finalized && WorldEq(Emit(v, Began), Emit(w, Began)) by { BeganEq(v, w); }
    if !v.finalized {
      GetEq(Emit(v, Began), Emit(w, Began));
      var (v1, ok) := Get(Emit(v, Began));
      var w1 := Get(Emit(w, Began)).0;
      if ok {
        ObserveResourceEq(v1, w1);
        DispatchEq(ObserveResource(v1).0, ObserveResource(w1).0, ObserveResource(v1).1);
      }
    }
  }

  lemma BeganEq(v: World, w: World)
    requires WorldEq(v, w)
    ensures v.finalized == w.finalized && WorldEq(Emit(v, Began), Emit(w, Began))
  {
    hide LogEq, AllInsensitive;
    EmitEq(v, w, Began, Began);
  }

  /**
   Two-run theorem: over any number of reconciles, any interleaving and any crash, what is
   stored in response, cache, requestDetails, failed and error changes no call and no route.
   */
  lemma {:induction false} StoredResponseIsInert(v: World, w: World, tapes: seq<seq<Turn>>)
    requires WorldEq(v, w)
    requires forall t :: t in tapes ==> InsensitiveTape(t)
    ensures WorldEq(Run(v, tapes), Run(w, tapes))
    decreases |tapes|
  {
    hide LogEq, Insensitive, InsensitiveTape, Reconcile;
    if tapes != [] {
      var v0, w0 := v.(tape := tapes[0]), w.(tape := tapes[0]);
      ReconcileEq(v0, w0);
      forall t | t in tapes[1..] ensures InsensitiveTape(t) { assert t in tapes; }
      StoredResponseIsInert(Reconcile(v0), Reconcile(w0), tapes[1..]);
    }
  }
}
