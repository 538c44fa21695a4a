/**
 Crash masking. Once the anchor is stored, crashes, refused calls and lost acknowledgements at
 any boundary are invisible in the end: every run that settles the operation before its
 deadline reaches the same status, and none sends another mutate.
 */
module CrashMasking {
  import opened Api
  import opened Cluster
  import opened RequestMapping
  import opened RequestGen
  import opened Poller
  import opened Deploy
  import opened Observing
  import opened Reconciling

  /**
   An operation in flight: the object as the anchor write left it, the remote's final answer,
   and a time before the deadline.
   */
  datatype Job = Job(o: Object, final: Response, limit: int)

  function Base(j: Job): Status {
    j.o.status
  }

  /** The status once a failing final answer has been surfaced. */
  function Surfaced(j: Job): Status {
    Base(j).(response := j.final, requestDetails := HttpRequest("POST", "", "", None))
  }

  function ActionOf(j: Job): Action {
    if Base(j).externalRef == "" then Create else Update
  }

  predicate HasJob(j: Job) {
    var m := MappingFor(j.o.spec, ActionOf(j));
    && Base(j).anchor.Some? && Base(j).startedAt.Some? && Base(j).terminalError == ""
    && !j.o.deleted
    && (Base(j).externalRef != "" || j.o.externalName == "" || j.o.externalName == j.o.name)
    && m.Some? && m.value.polling.Some?
    && (var url := m.value.polling.value.url(Base(j), Base(j).anchor.value);
        url.EvalErr? || (url.value != "" && IsAbsoluteUrl(url.value)))
    && j.limit <= Base(j).startedAt.value + m.value.polling.value.timeout
  }

  function PollingOf(j: Job): Polling
    requires HasJob(j)
  {
    MappingFor(j.o.spec, ActionOf(j)).value.polling.value
  }

  function AnchorOf(j: Job): Response
    requires HasJob(j)
  {
    Base(j).anchor.value
  }

  /** The polling expressions do not read the stored response. */
  ghost predicate Unaffected(j: Job)
    requires HasJob(j)
  {
    var p, a, s, s' := PollingOf(j), AnchorOf(j), Base(j), Surfaced(j);
    && p.url(s, a) == p.url(s', a)
    && (forall r :: p.done(s, a, r) == p.done(s', a, r))
    && (p.error.Some? ==> forall r :: p.error.value(s, a, r) == p.error.value(s', a, r))
  }

  /** What the final answer says of the operation. */
  function Ending(j: Job): Option<Outcome>
    requires HasJob(j)
  {
    Judge(PollingOf(j), Base(j), AnchorOf(j), j.final)
  }

  /** The one status every settled run ends in. */
  function Settled(j: Job): Status
    requires HasJob(j)
  {
    match Ending(j)
    case Some(Failure(_, msg)) =>
      var st := Surfaced(j);
      var terminal := Classify(j.o.spec, st, AnchorOf(j), Some(j.final), msg);
      if terminal.Some? then
        SetTerminalError(st, terminal.value).(anchor := None, startedAt := None, observedGeneration := j.o.generation)
      else st.(anchor := None, startedAt := None)
    case _ =>
      var st := Base(j).(anchor := None, startedAt := None);
      var ref := EvalExternalRef(j.o.spec, st, AnchorOf(j), Some(j.final));
      if ref == "" then st else st.(externalRef := ref)
  }

  predicate Still(t: Turn) {
    t.env.spec.None? && t.env.externalName.None? && !t.env.delete
  }

  /** No edits or deletion; a finished operation always gives the same answer. */
  predicate Steady(j: Job, tape: seq<Turn>)
    requires HasJob(j)
  {
    forall i :: 0 <= i < |tape| ==>
      && Still(tape[i])
      && (tape[i].reply.Answer? && PollingOf(j).done(Base(j), AnchorOf(j), tape[i].reply.response) == EvalOk(true)
          ==> tape[i].reply.response == j.final)
  }

  /** The time a tape can take. */
  function Span(tape: seq<Turn>, interval: nat): nat {
    if tape == [] then 0 else tape[0].env.delay + interval + Span(tape[1..], interval)
  }

  predicate InTime(j: Job, now: nat, tape: seq<Turn>)
    requires HasJob(j)
  {
    now + Span(tape, PollingOf(j).interval) <= j.limit
  }

  ghost predicate SameObject(j: Job, o: Object) {
    o == j.o.(status := o.status, version := o.version)
  }

  /** The operation is still in flight in w: nothing but a failing answer may have been surfaced. */
  ghost predicate InFlight(j: Job, w: World)
    requires HasJob(j)
  {
    && SameObject(j, w.server)
    && (w.server.status == Base(j) || (w.server.status == Surfaced(j) && EndsIn(j, true)))
    && Steady(j, w.tape) && InTime(j, w.now, w.tape)
  }

  predicate EndsIn(j: Job, failing: bool)
    requires HasJob(j)
  {
    Ending(j).Some? && (if failing then Ending(j).value.Failure? else Ending(j).value.Finished?)
  }

  function Mutates(log: seq<Event>): nat {
    if log == [] then 0 else Mutates(log[..|log| - 1]) + if log[|log| - 1].Mutate? then 1 else 0
  }

  lemma MutatesEmit(log: seq<Event>, e: Event)
    ensures Mutates(log + [e]) == Mutates(log) + if e.Mutate? then 1 else 0
  {
    assert (log + [e])[..|log|] == log;
  }

  /** In flight, or settled in the one way there is. */
  ghost predicate Masked(j: Job, r: World)
    requires HasJob(j)
  {
    || InFlight(j, r)
    || (SameObject(j, r.server) && r.server.status == Settled(j) && (EndsIn(j, true) || EndsIn(j, false)) && Steady(j, r.tape) && InTime(j, r.now, r.tape))
  }

  lemma AdvanceMasked(j: Job, w: World)
    requires HasJob(j) && Alive(w) && SameObject(j, w.server) && Steady(j, w.tape) && InTime(j, w.now, w.tape)
    ensures var r := Advance(w);
      && SameObject(j, r.server) && r.server.status == w.server.status && Steady(j, r.tape) && InTime(j, r.now, r.tape)
      && r.server == w.server && r.local == w.local && r.log == w.log && r.finalized == w.finalized && r.tape == w.tape[1..]
      && r.now + PollingOf(j).interval + Span(r.tape, PollingOf(j).interval) <= j.limit
  {
    hide MappingFor;
    assert Still(w.tape[0]);
    assert forall i :: 0 <= i < |w.tape| - 1 ==> w.tape[1..][i] == w.tape[i + 1];
  }

  lemma GetMasked(j: Job, w: World)
    requires HasJob(j) && InFlight(j, w)
    ensures var (r, ok) := Get(w);
      InFlight(j, r) && r.log == w.log && r.finalized == w.finalized && r.server.status == w.server.status && (ok ==> r.local == r.server)
  {
    hide HasJob, Steady, InTime, EndsIn, SameObject, Advance;
    if Alive(w) { AdvanceMasked(j, w); }
  }

  lemma ApplyIgnoresTime(c: Change, o: Object, now: nat)
    requires !c.PersistAnchor? && !c.StartClock?
    ensures Apply(c, o, now) == Apply(c, o, 0)
  {
  }

  lemma CommitMasked(j: Job, w: World, c: Change, st: Status)
    requires SameObject(j, w.server)
    ensures var r := Commit(w, c, st);
      && SameObject(j, r.server) && r.server.status == st && r.now == w.now && r.tape == w.tape
      && Mutates(r.log) == Mutates(w.log) && r.finalized == w.finalized
  {
    hide Mutates;
    MutatesEmit(w.log, Wrote(c, w.local.spec, w.server, w.now, st));
  }

  /** A write: either it is not stored, or it is what Apply makes of the stored object. */
  lemma SaveMasked(j: Job, w: World, c: Change)
    requires HasJob(j) && SameObject(j, w.server) && Steady(j, w.tape) && InTime(j, w.now, w.tape)
    requires !c.PersistAnchor? && !c.StartClock?
    ensures var (r, ok) := Save(w, c);
      && SameObject(j, r.server) && Steady(j, r.tape) && InTime(j, r.now, r.tape) && Mutates(r.log) == Mutates(w.log) && r.finalized == w.finalized
      && (r.server.status == w.server.status || Some(r.server.status) == Apply(c, w.server, 0))
      && (ok ==> r.local == r.server && (Apply(c, w.server, 0).Some? ==> Some(r.server.status) == Apply(c, w.server, 0)))
  {
    hide HasJob, Steady, InTime, Advance, Apply, Mutates, Commit, SameObject;
    if Alive(w) {
      AdvanceMasked(j, w);
      var w1 := Advance(w);
      ApplyIgnoresTime(c, w1.server, w1.now);
      var after := Apply(c, w1.server, w1.now);
      if after.Some? { CommitMasked(j, w1, c, after.value); }
    }
  }

  /** A poll of the job, entered with a fresh local copy. */
  ghost predicate Entered(j: Job, w: World)
    requires HasJob(j)
  {
    InFlight(j, w) && w.local.status == w.server.status && w.local.spec == j.o.spec && !w.local.deleted
  }

  /** The outcomes a poll of the job can have: no verdict yet, or the final answer's. */
  ghost predicate Expected(j: Job, o: Outcome)
    requires HasJob(j)
  {
    o.Errored? || o.StillRunning? || (Some(o) == Ending(j) && (o.Failure? || o.Finished?))
  }

  lemma JudgeMasked(j: Job, st: Status, r: Response)
    requires HasJob(j) && Unaffected(j) && (st == Base(j) || st == Surfaced(j))
    requires PollingOf(j).done(Base(j), AnchorOf(j), r) == EvalOk(true) ==> r == j.final
    ensures var v := Judge(PollingOf(j), st, AnchorOf(j), r); v.None? || Expected(j, v.value)
  {
    hide MappingFor;
    var p, a := PollingOf(j), AnchorOf(j);
    assert p.done(st, a, r) == p.done(Base(j), a, r);
  }

  lemma {:induction false} PollLoopMasked(j: Job, w: World, deadline: int, budgetEnd: int)
    requires HasJob(j) && Unaffected(j) && Entered(j, w)
    requires deadline == Base(j).startedAt.value + PollingOf(j).timeout
    ensures var (r, o) := PollLoop(w, PollingOf(j), AnchorOf(j), deadline, budgetEnd);
      && Expected(j, o) && InFlight(j, r) && r.server == w.server && r.local == w.local && Mutates(r.log) == Mutates(w.log) && r.finalized == w.finalized
    decreases |w.tape|
  {
    hide HasJob, Steady, Judge, Ending, Disturb, Mutates, SameObject;
    var p := PollingOf(j);
    assert w.now <= deadline by { SpanInTime(j, w); }
    if !(w.now > budgetEnd) && Alive(w) {
      MutatesEmit(w.log, PollCall(w.now));
      var w0 := Emit(w, PollCall(w.now));
      AdvanceMasked(j, w0);
      var (w1, reply) := Send(w0);
      if reply.Answer? {
        SteadyAnswer(j, w);
        JudgeMasked(j, w.local.status, reply.response);
        if Judge(p, w.local.status, AnchorOf(j), reply.response).None? && Alive(w1) {
          AdvanceMasked(j, w1);
          var (w2, woke) := Sleep(w1, p.interval);
          if woke { PollLoopMasked(j, w2, deadline, budgetEnd); }
        }
      }
    }
  }

  lemma SpanInTime(j: Job, w: World)
    requires HasJob(j) && InTime(j, w.now, w.tape)
    ensures w.now <= Base(j).startedAt.value + PollingOf(j).timeout
  {
  }

  lemma SteadyAnswer(j: Job, w: World)
    requires HasJob(j) && Steady(j, w.tape) && Alive(w) && w.tape[0].reply.Answer?
    ensures PollingOf(j).done(Base(j), AnchorOf(j), w.tape[0].reply.response) == EvalOk(true) ==> w.tape[0].reply.response == j.final
  {
  }

  lemma DriveMasked(j: Job, w: World)
    requires HasJob(j) && Unaffected(j) && Entered(j, w)
    ensures var (r, o) := Drive(w, PollingOf(j), AnchorOf(j));
      && Expected(j, o)
      && InFlight(j, r) && r.server == w.server && r.local == w.local && Mutates(r.log) == Mutates(w.log) && r.finalized == w.finalized
  {
    hide MappingFor, PollLoop, IsAbsoluteUrl, Steady, Ending, SameObject, Mutates;
    assert PollingOf(j).url(w.local.status, AnchorOf(j)) == PollingOf(j).url(Base(j), AnchorOf(j));
    PollLoopMasked(j, w, Base(j).startedAt.value + PollingOf(j).timeout, w.now + RECONCILE_BUDGET);
  }

  lemma FinishMasked(j: Job, w: World)
    requires HasJob(j) && Unaffected(j) && Entered(j, w)
    ensures var r := PollAndFinish(w, MappingFor(j.o.spec, ActionOf(j)).value, AnchorOf(j)).0;
      Masked(j, r) && Mutates(r.log) == Mutates(w.log) && r.finalized == w.finalized
  {
    hide Drive, Steady, Save, Judge, SameObject, Mutates, HandleOperationFailure, MappingFor, IsAbsoluteUrl, InTime, Settled;
    DriveMasked(j, w);
    var (w1, o) := Drive(w, PollingOf(j), AnchorOf(j));
    var e := Polled(VerdictOf(o), w1.local.status);
    MutatesEmit(w1.log, e);
    var w2 := Emit(w1, e);
    if o.Failure? {
      FailureMasked(j, w2, o.msg);
    } else if o.Finished? {
      CompletionMasked(j, w2, o);
    }
  }

  lemma CompletionMasked(j: Job, w: World, o: Outcome)
    requires HasJob(j) && Entered(j, w) && o.Finished? && Some(o) == Ending(j)
    ensures o.poll == Some(j.final)
    ensures var r := Save(w, Complete(AnchorOf(j), o.poll)).0; Masked(j, r) && Mutates(r.log) == Mutates(w.log) && r.finalized == w.finalized
  {
    hide Steady, Save, Mutates, MappingFor, IsAbsoluteUrl, InTime, EvalExternalRef;
    SaveMasked(j, w, Complete(AnchorOf(j), o.poll));
  }

  lemma FailureMasked(j: Job, w: World, msg: string)
    requires HasJob(j) && Entered(j, w) && Ending(j) == Some(Failure(j.final, msg))
    ensures var r := HandleOperationFailure(w, AnchorOf(j), j.final, msg).0; Masked(j, r) && Mutates(r.log) == Mutates(w.log) && r.finalized == w.finalized
  {
    hide Steady, Save, Ending, Mutates, MappingFor, IsAbsoluteUrl, InTime, Classify;
    SaveMasked(j, w, PollFailure(j.final));
    var (w1, ok) := Save(w, PollFailure(j.final));
    if ok {
      var terminal := Classify(w1.local.spec, w1.local.status, AnchorOf(j), Some(j.final), msg);
      if terminal.Some? { SaveMasked(j, w1, SetTerminal(terminal.value, true)); } else { SaveMasked(j, w1, ClearAnchor); }
    }
  }

  /** Observing an operation in flight sends nothing, changes nothing, and routes to its action. */
  lemma ObserveMasked(j: Job, w: World)
    requires HasJob(j) && InFlight(j, w) && w.local == w.server
    ensures var (r, a) := ObserveResource(w);
      && InFlight(j, r) && r.server.status == w.server.status && Mutates(r.log) == Mutates(w.log) && r.finalized == w.finalized && !r.local.deleted
      && (a == ObserveError || (a == NotExists && ActionOf(j) == Create) || (a == Exists(false) && ActionOf(j) == Update))
  {
    hide Steady, Mutates, MappingFor, IsAbsoluteUrl, InTime, RefreshAndRecord, UpdateLocal, ObserveByMapping;
    assert IsUpToDate(w) == (w, if ActionOf(j) == Create then NotFound else IN_FLIGHT);
    RecordNothingMasked(j, w);
  }

  lemma RecordNothingMasked(j: Job, w: World)
    requires HasJob(j) && InFlight(j, w)
    ensures var (r, ok) := RefreshAndRecord(w, NO_DETAILS, false, false);
      && InFlight(j, r) && r.server.status == w.server.status && Mutates(r.log) == Mutates(w.log) && r.finalized == w.finalized
      && (ok ==> r.local == r.server) && (!w.local.deleted ==> !r.local.deleted)
  {
    hide Steady, Mutates, MappingFor, IsAbsoluteUrl, InTime, Get, Save, ShouldSetCache, RecordDetails;
    GetMasked(j, w);
    GetKeepsUndeleted(j, w);
    var (w1, ok) := Get(w);
    if ok {
      var cached := ShouldSetCache(w1.local.spec, w1.local.status, NO_RESPONSE);
      SaveMasked(j, w1, Record(NO_DETAILS, false, false, cached));
      SaveKeepsUndeleted(j, w1, Record(NO_DETAILS, false, false, cached));
      RecordNothing(w1.server.status, cached);
    }
  }

  lemma RecordNothing(st: Status, cached: bool)
    ensures RecordDetails(st, NO_DETAILS, false, false, cached) == st
  {
  }

  lemma JobUndeleted(j: Job)
    requires HasJob(j)
    ensures !j.o.deleted
  {
  }

  lemma GetKeepsUndeleted(j: Job, w: World)
    requires HasJob(j) && InFlight(j, w)
    ensures !w.local.deleted ==> !Get(w).0.local.deleted
  {
    hide HasJob, Steady, InTime, EndsIn, Advance;
    JobUndeleted(j);
    if Alive(w) { AdvanceMasked(j, w); }
  }

  lemma SaveKeepsUndeleted(j: Job, w: World, c: Change)
    requires HasJob(j) && SameObject(j, w.server) && Steady(j, w.tape) && InTime(j, w.now, w.tape)
    ensures !w.local.deleted ==> !Save(w, c).0.local.deleted
  {
    hide Steady, InTime, Advance, Apply, MappingFor, IsAbsoluteUrl;
    if Alive(w) { AdvanceMasked(j, w); }
  }

  lemma DeployMasked(j: Job, w: World)
    requires HasJob(j) && Unaffected(j) && InFlight(j, w)
    ensures var r := RefreshAndDeploy(w, ActionOf(j)); Masked(j, r) && Mutates(r.log) == Mutates(w.log) && r.finalized == w.finalized
  {
    hide Steady, Mutates, IsAbsoluteUrl, InTime, Get, PollAndFinish, Fire, MappingFor;
    GetMasked(j, w);
    var (w1, ok) := Get(w);
    if ok { FinishMasked(j, w1); }
  }

  lemma ReconcileMasked(j: Job, w: World)
    requires HasJob(j) && Unaffected(j) && InFlight(j, w)
    ensures var r := Reconcile(w); Masked(j, r) && Mutates(r.log) == Mutates(w.log) && r.finalized == w.finalized
  {
    hide Steady, Mutates, MappingFor, InTime, Get, ObserveResource, RefreshAndDeploy, SameObject, HasJob;
    if !w.finalized {
      MutatesEmit(w.log, Began);
      var w0 := Emit(w, Began);
      GetMasked(j, w0);
      var (w1, ok) := Get(w0);
      if ok {
        ObserveMasked(j, w1);
        DeployMasked(j, ObserveResource(w1).0);
      }
    }
  }

  // ---------------------------------------------------------------- runs of the operation

  /** Every tape is steady and together they end before the deadline. */
  predicate Suits(j: Job, now: nat, tapes: seq<seq<Turn>>)
    requires HasJob(j)
  {
    && (forall i :: 0 <= i < |tapes| ==> Steady(j, tapes[i]))
    && now + Total(tapes, PollingOf(j).interval) <= j.limit
  }

  function Total(tapes: seq<seq<Turn>>, interval: nat): nat {
    if tapes == [] then 0 else Span(tapes[0], interval) + Total(tapes[1..], interval)
  }

  lemma {:induction false} AttendMasked(j: Job, w: World, tapes: seq<seq<Turn>>)
    requires HasJob(j) && Unaffected(j) && SameObject(j, w.server) && Suits(j, w.now, tapes)
    requires w.server.status == Base(j) || (w.server.status == Surfaced(j) && EndsIn(j, true))
          || (w.server.status == Settled(j) && (EndsIn(j, true) || EndsIn(j, false)))
    ensures var r := Attend(w, tapes);
      && Mutates(r.log) == Mutates(w.log) && r.finalized == w.finalized
      && r.now <= w.now + Total(tapes, PollingOf(j).interval)
      && SameObject(j, r.server)
      && (r.server.status.anchor.None? ==> r.server.status == Settled(j))
      && (r.server.status.anchor.Some? ==> r.server.status == Base(j) || (r.server.status == Surfaced(j) && EndsIn(j, true)))
    decreases |tapes|
  {
    hide Steady, Mutates, MappingFor, Reconcile, SameObject, IsAbsoluteUrl, EvalExternalRef, Classify, Judge;
    if tapes != [] && w.server.status.anchor.Some? {
      var i := PollingOf(j).interval;
      var k := j.(limit := w.now + Span(tapes[0], i));
      var w0 := w.(tape := tapes[0]);
      SameJob(j, k);
      assert InFlight(k, w0);
      ReconcileMasked(k, w0);
      AttendMasked(j, Reconcile(w0), tapes[1..]);
    }
  }

  lemma SameJob(j: Job, k: Job)
    requires HasJob(j) && k == j.(limit := k.limit) && k.limit <= j.limit
    ensures HasJob(k) && PollingOf(k) == PollingOf(j) && (Unaffected(j) ==> Unaffected(k))
    ensures Settled(k) == Settled(j) && Surfaced(k) == Surfaced(j)
    ensures EndsIn(k, true) == EndsIn(j, true) && EndsIn(k, false) == EndsIn(j, false)
    ensures forall t :: Steady(j, t) ==> Steady(k, t)
    ensures forall o :: SameObject(k, o) == SameObject(j, o)
  {
    hide MappingFor, IsAbsoluteUrl, Classify, Judge;
  }

  /**
   From the stored anchor on, every two runs that settle the operation agree on the whole
   stored status, however many crashes, refusals and lost acknowledgements each went through,
   and neither sends a mutate.
   */
  lemma SettledRunsAgree(j: Job, w: World, crashed: seq<seq<Turn>>, smooth: seq<seq<Turn>>)
    requires HasJob(j) && Unaffected(j)
    requires w.server == j.o && Suits(j, w.now, crashed) && Suits(j, w.now, smooth)
    ensures Mutates(Attend(w, crashed).log) == Mutates(w.log) == Mutates(Attend(w, smooth).log)
    ensures var a, b := Attend(w, crashed).server.status, Attend(w, smooth).server.status;
      a.anchor.None? && b.anchor.None? ==> a == b
  {
    AttendMasked(j, w, crashed);
    AttendMasked(j, w, smooth);
  }

  // ---------------------------------------------------------------- and every run can settle

  function Quick(reply: Reply): Turn {
    Turn(Env(None, None, false, false, 0), reply)
  }

  /** The tape of an undisturbed reconcile that finds the operation ended. */
  function Undisturbed(j: Job): seq<Turn> {
    (if ActionOf(j) == Create then [Quick(Landed), Quick(Landed)] else [Quick(Landed), Quick(Landed), Quick(Landed), Quick(Landed)])
    + LastTurns(j)
  }

  function LastTurns(j: Job): seq<Turn> {
    [Quick(Answer(j.final)), Quick(Landed), Quick(Landed)]
  }

  /** The operation ends with an outcome, and its URL can be polled. */
  ghost predicate CanEnd(j: Job)
    requires HasJob(j)
  {
    (EndsIn(j, true) || EndsIn(j, false)) && PollingOf(j).url(Base(j), AnchorOf(j)).EvalOk?
  }

  lemma DriveEnds(j: Job, w: World)
    requires HasJob(j) && Unaffected(j) && CanEnd(j) && Entered(j, w) && w.tape == LastTurns(j)
    ensures var (r, o) := Drive(w, PollingOf(j), AnchorOf(j));
      && Some(o) == Ending(j) && r.tape == w.tape[1..] && r.server == w.server && r.local == w.local
  {
    hide MappingFor, IsAbsoluteUrl, Steady, SameObject, Judge;
    SpanInTime(j, w);
    assert Judge(PollingOf(j), w.local.status, AnchorOf(j), j.final) == Ending(j) by { JudgeSame(j, w.local.status); }
  }

  lemma JudgeSame(j: Job, st: Status)
    requires HasJob(j) && Unaffected(j) && (st == Base(j) || st == Surfaced(j))
    ensures Judge(PollingOf(j), st, AnchorOf(j), j.final) == Ending(j)
  {
    hide MappingFor;
  }

  lemma FinishEnds(j: Job, w: World)
    requires HasJob(j) && Unaffected(j) && CanEnd(j) && Entered(j, w) && w.tape == LastTurns(j)
    ensures PollAndFinish(w, MappingFor(j.o.spec, ActionOf(j)).value, AnchorOf(j)).0.server.status.anchor.None?
  {
    hide Drive, MappingFor, IsAbsoluteUrl, Steady, SameObject, Judge, Classify, EvalExternalRef, InTime;
    DriveEnds(j, w);
  }

  lemma ObserveUndisturbed(j: Job, w: World)
    requires HasJob(j) && InFlight(j, w) && w.local == w.server
    requires w.tape == Undisturbed(j)[1..]
    ensures var (r, a) := ObserveResource(w);
      a == (if ActionOf(j) == Create then NotExists else Exists(false)) && r.tape == [Quick(Landed)] + LastTurns(j)
  {
    hide Steady, MappingFor, IsAbsoluteUrl, InTime, ObserveByMapping, ShouldSetCache, RecordDetails;
    assert IsUpToDate(w) == (w, if ActionOf(j) == Create then NotFound else IN_FLIGHT);
  }

  lemma ReconcileEnds(j: Job, w: World)
    requires HasJob(j) && Unaffected(j) && CanEnd(j) && InFlight(j, w) && !w.finalized
    requires w.tape == Undisturbed(j)
    ensures Reconcile(w).server.status.anchor.None?
  {
    hide Steady, MappingFor, InTime, ObserveResource, PollAndFinish, SameObject, Fire, EndsIn, Drive, CanEnd;
    var w0 := Emit(w, Began);
    GetMasked(j, w0);
    var w1 := Get(w0).0;
    assert w1.tape == Undisturbed(j)[1..];
    ObserveUndisturbed(j, w1);
    ObserveMasked(j, w1);
    var w2 := ObserveResource(w1).0;
    GetMasked(j, w2);
    var w3 := Get(w2).0;
    assert w3.tape == LastTurns(j);
    assert w3.local == w3.server;
    LocalSpec(j, w3);
    FinishEnds(j, w3);
    var m := MappingFor(j.o.spec, ActionOf(j)).value;
    assert DeployAction(w3, ActionOf(j)) == PollAndFinish(w3, m, AnchorOf(j)) by { DeployResumes(j, w3); }
    assert Dispatch(w2, ObserveResource(w1).1) == RefreshAndDeploy(w2, ActionOf(j));
    assert Reconcile(w) == Dispatch(w2, ObserveResource(w1).1);
  }

  lemma DeployResumes(j: Job, w: World)
    requires HasJob(j) && Entered(j, w)
    ensures DeployAction(w, ActionOf(j)) == PollAndFinish(w, MappingFor(j.o.spec, ActionOf(j)).value, AnchorOf(j))
  {
    hide MappingFor, PollAndFinish, Steady, InTime, Fire, IsAbsoluteUrl;
  }

  lemma LocalSpec(j: Job, w: World)
    requires HasJob(j) && w.local == w.server
    ensures SameObject(j, w.server) ==> w.local.spec == j.o.spec && !w.local.deleted
  {
  }

  lemma {:induction false} AttendThen(w: World, tapes: seq<seq<Turn>>, last: seq<Turn>)
    ensures var r := Attend(w, tapes);
      Attend(w, tapes + [last]) == if r.server.status.anchor.None? then r else Reconcile(r.(tape := last))
    decreases |tapes|
  {
    hide Reconcile;
    if tapes == [] {
      assert [] + [last] == [last];
      var w1 := Reconcile(w.(tape := last));
      assert [last][1..] == [];
      assert Attend(w1, []) == w1;
    } else if w.server.status.anchor.Some? {
      assert (tapes + [last])[1..] == tapes[1..] + [last];
      AttendThen(Reconcile(w.(tape := tapes[0])), tapes[1..], last);
    }
  }

  lemma {:induction false} TotalAppend(tapes: seq<seq<Turn>>, last: seq<Turn>, interval: nat)
    ensures Total(tapes + [last], interval) == Total(tapes, interval) + Span(last, interval)
    decreases |tapes|
  {
    if tapes == [] {
      assert [] + [last] == [last];
      assert [last][1..] == [];
      assert Total([last], interval) == Span(last, interval) + Total([], interval);
    } else {
      assert (tapes + [last])[1..] == tapes[1..] + [last];
      TotalAppend(tapes[1..], last, interval);
    }
  }

  lemma EndsSettled(j: Job, w: World, crashed: seq<seq<Turn>>)
    requires HasJob(j) && Unaffected(j) && CanEnd(j) && w.server == j.o && !w.finalized
    requires Suits(j, w.now, crashed + [Undisturbed(j)])
    ensures var r := Attend(w, crashed + [Undisturbed(j)]);
      r.server.status == Settled(j) && Mutates(r.log) == Mutates(w.log)
  {
    hide Steady, MappingFor, Reconcile, IsAbsoluteUrl, EvalExternalRef, Classify, Judge, Undisturbed, Mutates, Attend;
    var last, interval := Undisturbed(j), PollingOf(j).interval;
    TotalAppend(crashed, last, interval);
    assert forall i :: 0 <= i < |crashed| ==> (crashed + [last])[i] == crashed[i];
    assert Steady(j, last) by { assert (crashed + [last])[|crashed|] == last; }
    AttendMasked(j, w, crashed);
    AttendMasked(j, w, crashed + [last]);
    AttendThen(w, crashed, last);
    var r := Attend(w, crashed);
    if r.server.status.anchor.Some? { ReconcileEnds(j, r.(tape := last)); }
  }

  /**
   Crash masking. However a stored operation was crashed, refused and resumed before, one
   undisturbed reconcile before the deadline brings it to the very status the crash-free
   run reaches, with no mutate sent on the way.
   */
  lemma CrashesAreMasked(j: Job, w: World, crashed: seq<seq<Turn>>)
    requires HasJob(j) && Unaffected(j) && CanEnd(j) && w.server == j.o && !w.finalized
    requires Suits(j, w.now, crashed + [Undisturbed(j)])
    ensures var r := Attend(w, crashed + [Undisturbed(j)]);
      r.server.status == Settled(j) == Attend(w, [Undisturbed(j)]).server.status && Mutates(r.log) == Mutates(w.log)
  {
    hide HasJob, Steady, Attend, Undisturbed, Settled, Mutates, Unaffected, CanEnd, Total;
    var last := Undisturbed(j);
    assert Suits(j, w.now, [] + [last]) by { SuitsLast(j, w.now, crashed, last); }
    assert [] + [last] == [last];
    EndsSettled(j, w, crashed);
    EndsSettled(j, w, []);
  }

  lemma SuitsLast(j: Job, now: nat, tapes: seq<seq<Turn>>, last: seq<Turn>)
    requires HasJob(j) && Suits(j, now, tapes + [last])
    ensures Suits(j, now, [] + [last])
  {
    hide HasJob, Steady;
    var interval := PollingOf(j).interval;
    TotalAppend(tapes, last, interval);
    TotalAppend([], last, interval);
    assert (tapes + [last])[|tapes|] == last;
  }
}
