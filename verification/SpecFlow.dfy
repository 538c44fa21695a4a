/**
 What a run inherits from its hypotheses: every spec it works with comes from the object or from
 a tape, a prompt environment lets every accepted mutate be anchored, and the log only grows.
 The lemmas follow the call tree of one reconcile.
 */
module SpecFlow {
  import opened Api
  import opened Cluster
  import opened RequestMapping
  import opened RequestGen
  import opened Poller
  import opened Deploy
  import opened Observing
  import opened Reconciling
  import opened Refinement
  import opened Verdicts

  /**
   The specs and responses a run may meet. A keyed family is one whose OBSERVE URLs all reference
   .status.externalRef; for it only what happens before the resource has an identity is tracked.
   */
  datatype Family = Family(fits: Spec -> bool, answers: Response -> bool, keyed: bool)

  /** What is assumed of a run: the family of its specs and responses, and promptness if `prompt`. */
  datatype Rule = Rule(fam: Family, prompt: bool)

  predicate Keyed(spec: Spec) {
    var m := MappingFor(spec, Observe);
    m.Some? ==> UrlReferencesExternalRef(m.value.url)
  }

  ghost predicate IsFamily(f: Family) {
    f.keyed ==> forall spec :: f.fits(spec) ==> Keyed(spec)
  }

  predicate InScope(f: Family, st: Status) {
    f.keyed ==> st.externalRef == ""
  }

  ghost predicate TapeFits(f: Family, tape: seq<Turn>) {
    forall i :: 0 <= i < |tape| ==> TurnFits(f, tape[i])
  }

  ghost predicate TurnFits(f: Family, t: Turn) {
    && (t.env.spec.Some? ==> f.fits(t.env.spec.value))
    && (t.reply.Answer? ==> f.answers(t.reply.response))
  }

  ghost predicate AnchorFits(f: Family, st: Status) {
    st.anchor.Some? ==> f.answers(st.anchor.value)
  }

  /** No accepted request goes without its answer, and what follows an answer takes effect. */
  predicate Prompt(tape: seq<Turn>) {
    forall i :: 0 <= i < |tape| ==> PromptAt(tape, i)
  }

  predicate PromptAt(tape: seq<Turn>, i: nat)
    requires i < |tape|
  {
    && tape[i].reply != NoAnswer(true)
    && (tape[i].reply.Answer? ==> i + 1 < |tape| && (tape[i + 1].reply.Landed? || tape[i + 1].reply.LandedUnseen?))
  }

  lemma PromptTail(tape: seq<Turn>)
    requires Prompt(tape) && tape != []
    ensures Prompt(tape[1..])
  {
    forall i | 0 <= i < |tape[1..]| ensures PromptAt(tape[1..], i) { assert PromptAt(tape, i + 1); }
  }

  /** A mapping that some spec of the family has for a mutate, in a keyed family for the CREATE. */
  ghost predicate Fitting(f: Family, m: Mapping) {
    exists spec, a :: a != Observe && f.fits(spec) && MappingFor(spec, a) == Some(m) && (f.keyed ==> a == Create)
  }

  /** A completion under a fitting mapping: an answer has reported success, or there is nothing to poll. */
  ghost predicate Completes(f: Family, c: Change)
    requires c.Complete?
  {
    && f.answers(c.mutate)
    && exists m :: Fitting(f, m) && (if m.polling.Some? then Reported(f, m.polling.value, c.mutate, c.poll) else c.poll == None)
  }

  ghost predicate Reported(f: Family, p: Polling, mutate: Response, poll: Option<Response>) {
    poll.Some? && f.answers(poll.value) && exists st :: ReportsEnd(p, st, mutate, poll.value, None)
  }

  /** What a change must satisfy on the status it is made from. */
  ghost predicate ChangeFits(f: Family, c: Change, st: Status) {
    && (c.PersistAnchor? ==> f.answers(c.mutate))
    && (c.Complete? && InScope(f, st) ==> Completes(f, c))
  }

  /** Nor is an empty name ever seeded. */
  ghost predicate MayWrite(f: Family, c: Change, st: Status) {
    ChangeFits(f, c, st) && (c.Seed? ==> c.ref != "")
  }

  /** A poll in scope runs under a fitting mapping, and finds no block to poll only if that has none. */
  ghost predicate PollFits(f: Family, verdict: Verdict) {
    exists m :: Fitting(f, m) && (verdict == NoBlock <==> m.polling.None?)
  }

  ghost predicate EventFits(f: Family, e: Event) {
    match e
    case Wrote(c, spec, before, _, _) => f.fits(spec) && f.fits(before.spec) && ChangeFits(f, c, before.status)
    case ObserveCall(spec, _, _) => f.fits(spec)
    case Mutate(action, _, st, _, _) => f.keyed && st.externalRef == "" ==> action == Create
    case Polled(verdict, st) => InScope(f, st) ==> PollFits(f, verdict)
    case _ => true
  }

  predicate Accepts(e: Event) {
    e.Mutate? && e.polled && e.accepted
  }

  predicate Anchors(e: Event) {
    e.Wrote? && e.change.PersistAnchor?
  }

  ghost predicate LogFits(k: Rule, log: seq<Event>) {
    && (forall i :: 0 <= i < |log| ==> EventFits(k.fam, log[i]))
    && (k.prompt ==> forall i :: 0 <= i < |log| && Accepts(log[i]) ==> i + 1 < |log| && Anchors(log[i + 1]))
  }

  ghost predicate Extends(a: seq<Event>, b: seq<Event>) {
    |a| <= |b| && b[..|a|] == a
  }

  /** The state between two reconciles: the local copy may be anything. */
  ghost predicate Between(k: Rule, w: World) {
    && IsFamily(k.fam) && k.fam.fits(w.server.spec) && AnchorFits(k.fam, w.server.status)
    && TapeFits(k.fam, w.tape)
    && (k.prompt ==> Prompt(w.tape))
    && LogFits(k, w.log)
  }

  ghost predicate Flow(k: Rule, w: World) {
    Between(k, w) && k.fam.fits(w.local.spec) && AnchorFits(k.fam, w.local.status) && Older(w)
  }

  /** The local copy is of some earlier object: identity and deletion only ever come to be. */
  predicate Older(w: World) {
    && (w.server.status.externalRef == "" ==> w.local.status.externalRef == "")
    && (w.local.deleted ==> w.server.deleted)
  }

  predicate Ages(w: World, r: World) {
    && (r.server.status.externalRef == "" ==> w.server.status.externalRef == "")
    && (r.local.status.externalRef == "" ==> w.local.status.externalRef == "")
    && (w.local.deleted ==> r.local.deleted)
  }

  ghost predicate FlowsTo(k: Rule, w: World, r: World) {
    Flow(k, r) && Extends(w.log, r.log) && Ages(w, r)
  }

  lemma Stay(k: Rule, w: World)
    requires Flow(k, w)
    ensures FlowsTo(k, w, w)
  {
  }

  lemma Then(k: Rule, a: World, b: World, c: World)
    requires FlowsTo(k, a, b) && FlowsTo(k, b, c)
    ensures FlowsTo(k, a, c)
  {
    hide Flow;
    assert c.log[..|a.log|] == c.log[..|b.log|][..|a.log|];
  }

  // ---------------------------------------------------------------- single interactions

  lemma AdvanceFlow(k: Rule, w: World)
    requires Between(k, w) && Alive(w)
    ensures var r := Advance(w);
      Between(k, r) && r.log == w.log && r.local == w.local && (Flow(k, w) ==> FlowsTo(k, w, r))
  {
    hide LogFits, Prompt;
    assert TurnFits(k.fam, w.tape[0]);
    forall i | 0 <= i < |w.tape[1..]| ensures TurnFits(k.fam, w.tape[1..][i]) { assert w.tape[1..][i] == w.tape[i + 1]; }
    if k.prompt { PromptTail(w.tape); }
    assert w.log[..|w.log|] == w.log;
  }

  lemma EmitFlow(k: Rule, w: World, e: Event)
    requires Between(k, w) && EventFits(k.fam, e) && !(k.prompt && Accepts(e))
    ensures var r := Emit(w, e); Between(k, r) && Extends(w.log, r.log) && (Flow(k, w) ==> FlowsTo(k, w, r))
  {
    hide EventFits, Accepts, Anchors, TapeFits, Prompt;
    var log := w.log + [e];
    forall i | 0 <= i < |log| ensures EventFits(k.fam, log[i]) { if i < |w.log| { assert log[i] == w.log[i]; } }
    if k.prompt {
      forall i | 0 <= i < |log| && Accepts(log[i]) ensures i + 1 < |log| && Anchors(log[i + 1]) {
        assert log[i] == w.log[i];
        assert log[i + 1] == w.log[i + 1];
      }
    }
  }

  lemma GetFlow(k: Rule, w: World)
    requires Between(k, w)
    ensures var (r, ok) := Get(w);
      && Between(k, r) && r.log == w.log && (ok ==> Flow(k, r)) && (Flow(k, w) ==> FlowsTo(k, w, r))
  {
    hide LogFits, TapeFits, Prompt, Disturb;
    assert w.log[..|w.log|] == w.log;
    if Alive(w) { AdvanceFlow(k, w); }
  }

  lemma CommitFlow(k: Rule, w: World, c: Change, st: Status)
    requires Flow(k, w) && MayWrite(k.fam, c, w.server.status) && Apply(c, w.server, w.now) == Some(st)
    ensures FlowsTo(k, w, Commit(w, c, st))
  {
    hide LogFits, TapeFits, Prompt, Apply, ChangeFits;
    ApplyFits(k, c, w.server, w.now);
    EmitFlow(k, w, Wrote(c, w.local.spec, w.server, w.now, st));
  }

  lemma ApplyFits(k: Rule, c: Change, o: Object, now: nat)
    requires MayWrite(k.fam, c, o.status) && AnchorFits(k.fam, o.status)
    ensures var st := Apply(c, o, now);
      st.Some? ==> AnchorFits(k.fam, st.value) && (st.value.externalRef == "" ==> o.status.externalRef == "")
  {
    hide EvalExternalRef, Completes;
  }

  /** What the local copy allows, the stored status allows: it is never behind. */
  lemma ChangeLater(k: Rule, w: World, c: Change)
    requires Flow(k, w) && Alive(w) && MayWrite(k.fam, c, w.local.status)
    ensures MayWrite(k.fam, c, Advance(w).server.status)
  {
    hide Between, Completes;
  }

  lemma SaveFlow(k: Rule, w: World, c: Change)
    requires Flow(k, w) && MayWrite(k.fam, c, w.local.status)
    ensures FlowsTo(k, w, Save(w, c).0)
  {
    hide LogFits, TapeFits, Prompt, Disturb, Apply, Commit, MayWrite, AnchorFits;
    Stay(k, w);
    if Alive(w) {
      AdvanceFlow(k, w);
      var w1 := Advance(w);
      var after := Apply(c, w1.server, w1.now);
      if after.Some? {
        ChangeLater(k, w, c);
        CommitFlow(k, w1, c, after.value);
        LocalFlow(k, w1, Commit(w1, c, after.value));
      }
    }
  }

  lemma LocalFlow(k: Rule, w: World, r: World)
    requires FlowsTo(k, w, r)
    ensures FlowsTo(k, w, r.(local := r.server))
  {
    hide LogFits, TapeFits, Prompt;
  }

  lemma UpdateLocalFlow(k: Rule, w: World, c: Change)
    requires Flow(k, w) && MayWrite(k.fam, c, w.local.status)
    ensures FlowsTo(k, w, UpdateLocal(w, c).0)
  {
    hide Between, Save, Disturb;
    Stay(k, w);
    SaveFlow(k, w, c);
    if Alive(w) { AdvanceFlow(k, w); }
  }

  lemma SendFlow(k: Rule, w: World)
    requires Flow(k, w)
    ensures FlowsTo(k, w, Send(w).0) && Send(w).0.local == w.local
  {
    hide Between, Disturb;
    Stay(k, w);
    if Alive(w) { AdvanceFlow(k, w); }
  }

  // ---------------------------------------------------------------- DeployAction

  lemma RecordFlow(k: Rule, w: World, d: HttpDetails, failed: bool, reset: bool)
    requires Flow(k, w)
    ensures FlowsTo(k, w, RefreshAndRecord(w, d, failed, reset).0)
  {
    hide Flow, FlowsTo, Get, Save, ShouldSetCache;
    GetFlowsTo(k, w);
    var (w1, ok) := Get(w);
    if ok {
      var spec := w1.local.spec;
      var c := if failed then RecordError(ERR_TRANSPORT)
               else Record(d, reset, IsHTTPError(d.response.statusCode, spec.allowed),
                           ShouldSetCache(spec, w1.local.status, d.response));
      SaveFlow(k, w1, c);
      Then(k, w, w1, Save(w1, c).0);
    }
  }

  lemma GetFlowsTo(k: Rule, w: World)
    requires Flow(k, w)
    ensures FlowsTo(k, w, Get(w).0) && Flow(k, Get(w).0)
  {
    hide Between, Get;
    GetFlow(k, w);
  }

  lemma FlowsFlow(k: Rule, w: World, r: World)
    requires FlowsTo(k, w, r)
    ensures Flow(k, r) && Ages(w, r)
  {
  }

  lemma FailMutateFlow(k: Rule, w: World, response: Response)
    requires Flow(k, w)
    ensures FlowsTo(k, w, FailMutate(w, response).0)
  {
    hide Flow, FlowsTo, Save, Classify;
    Stay(k, w);
    var msg := Classify(w.local.spec, w.local.status, response, None, TERMINAL_MUTATE);
    if msg.Some? { SaveFlow(k, w, SetTerminal(msg.value, false)); }
  }

  lemma FinishSyncFlow(k: Rule, w: World, d: HttpDetails, failed: bool)
    requires Flow(k, w)
    ensures FlowsTo(k, w, FinishSync(w, d, failed).0)
  {
    hide Flow, FlowsTo, Save, RefreshAndRecord, FailMutate;
    Stay(k, w);
    SaveFlow(k, w, ExtractRef(d.response));
    var w1 := if w.local.spec.externalRef.None? then w else Save(w, ExtractRef(d.response)).0;
    FlowsFlow(k, w, w1);
    RecordFlow(k, w1, d, failed, false);
    var (w2, ok) := RefreshAndRecord(w1, d, failed, false);
    Then(k, w, w1, w2);
    if ok && IsHTTPError(d.response.statusCode, w2.local.spec.allowed) {
      FlowsFlow(k, w, w2);
      FailMutateFlow(k, w2, d.response);
      Then(k, w, w2, FailMutate(w2, d.response).0);
    }
  }

  lemma {:induction false} PollLoopFlow(k: Rule, w: World, p: Polling, mutate: Response, deadline: int, budgetEnd: int)
    requires Flow(k, w)
    ensures FlowsTo(k, w, PollLoop(w, p, mutate, deadline, budgetEnd).0)
    decreases |w.tape|
  {
    hide Flow, FlowsTo, Judge, Disturb;
    Stay(k, w);
    if !(!w.local.deleted && w.now > deadline) && !(w.now > budgetEnd) && Alive(w) {
      var w0 := Emit(w, PollCall(w.now));
      PollCallFlow(k, w);
      SendFlow(k, w0);
      var (w1, reply) := Send(w0);
      Then(k, w, w0, w1);
      if reply.Answer? && Judge(p, w.local.status, mutate, reply.response).None? {
        FlowsFlow(k, w, w1);
        SleepFlow(k, w1, p.interval);
        var (w2, woke) := Sleep(w1, p.interval);
        Then(k, w, w1, w2);
        if woke {
          FlowsFlow(k, w, w2);
          PollLoopFlow(k, w2, p, mutate, deadline, budgetEnd);
          Then(k, w, w2, PollLoop(w2, p, mutate, deadline, budgetEnd).0);
        }
      }
    }
  }

  lemma PollCallFlow(k: Rule, w: World)
    requires Flow(k, w)
    ensures FlowsTo(k, w, Emit(w, PollCall(w.now))) && Flow(k, Emit(w, PollCall(w.now)))
  {
    hide Between;
    EmitFlow(k, w, PollCall(w.now));
  }

  lemma SleepFlow(k: Rule, w: World, interval: nat)
    requires Flow(k, w)
    ensures FlowsTo(k, w, Sleep(w, interval).0)
  {
    hide LogFits, TapeFits, Prompt, Disturb;
    Stay(k, w);
    if Alive(w) { AdvanceFlow(k, w); }
  }

  lemma DriveFlow(k: Rule, w: World, p: Polling, mutate: Response)
    requires Flow(k, w)
    ensures FlowsTo(k, w, Drive(w, p, mutate).0)
  {
    hide Flow, FlowsTo, PollLoop, IsAbsoluteUrl;
    Stay(k, w);
    var startedAt := if w.local.status.startedAt.Some? then w.local.status.startedAt.value else w.now;
    PollLoopFlow(k, w, p, mutate, startedAt + p.timeout, w.now + RECONCILE_BUDGET);
  }

  lemma DriveVerdict(w: World, p: Polling, mutate: Response)
    ensures VerdictOf(Drive(w, p, mutate).1) != NoBlock
  {
    hide IsAbsoluteUrl, PollLoop;
  }

  lemma PollFlow(k: Rule, w: World, m: Mapping, mutate: Response)
    requires Flow(k, w) && (InScope(k.fam, w.local.status) ==> Fitting(k.fam, m))
    ensures FlowsTo(k, w, Poll(w, m, mutate).0)
  {
    hide Flow, FlowsTo, Drive, Fitting;
    Stay(k, w);
    if m.polling.Some? { DriveFlow(k, w, m.polling.value, mutate); }
    var (w1, o) := if m.polling.None? then (w, Finished(NoBlock, None)) else Drive(w, m.polling.value, mutate);
    FlowsFlow(k, w, w1);
    if m.polling.Some? { DriveVerdict(w, m.polling.value, mutate); }
    var e := Polled(VerdictOf(o), w1.local.status);
    assert EventFits(k.fam, e) by {
      if InScope(k.fam, w1.local.status) { PollHasFit(k, m, VerdictOf(o)); }
    }
    EmitOrdinary(k, w1, e);
    Then(k, w, w1, Emit(w1, e));
  }

  lemma PollHasFit(k: Rule, m: Mapping, verdict: Verdict)
    requires Fitting(k.fam, m) && (verdict == NoBlock <==> m.polling.None?)
    ensures PollFits(k.fam, verdict)
  {
    hide Fitting;
  }

  lemma EmitOrdinary(k: Rule, w: World, e: Event)
    requires Flow(k, w) && EventFits(k.fam, e) && !Accepts(e)
    ensures FlowsTo(k, w, Emit(w, e)) && Flow(k, Emit(w, e))
  {
    hide Between, EventFits, Accepts;
    EmitFlow(k, w, e);
  }

  lemma FailureFlow(k: Rule, w: World, mutate: Response, failing: Response, msg: string)
    requires Flow(k, w)
    ensures FlowsTo(k, w, HandleOperationFailure(w, mutate, failing, msg).0)
  {
    hide Flow, FlowsTo, Save, Classify;
    SaveFlow(k, w, PollFailure(failing));
    var (w1, ok) := Save(w, PollFailure(failing));
    if ok {
      FlowsFlow(k, w, w1);
      var terminal := Classify(w1.local.spec, w1.local.status, mutate, Some(failing), msg);
      var c := if terminal.Some? then SetTerminal(terminal.value, true) else ClearAnchor;
      SaveFlow(k, w1, c);
      Then(k, w, w1, Save(w1, c).0);
    }
  }

  /** A poll that finishes has its success reported by an answer of the tape. */
  lemma PollCompletes(k: Rule, w: World, m: Mapping, mutate: Response)
    requires Flow(k, w) && (InScope(k.fam, w.local.status) ==> Fitting(k.fam, m)) && k.fam.answers(mutate)
    ensures var o := Poll(w, m, mutate).1;
      o.Finished? && InScope(k.fam, w.local.status) ==> Completes(k.fam, Complete(mutate, o.poll))
  {
    hide PollLoop, IsAbsoluteUrl, LogFits, Prompt, Fitting, ReportsEnd, Answered;
    var o := Poll(w, m, mutate).1;
    if m.polling.Some? && o.Finished? {
      var p := m.polling.value;
      var startedAt := if w.local.status.startedAt.Some? then w.local.status.startedAt.value else w.now;
      PollVerdictsAreJustified(w, p, mutate, startedAt + p.timeout, w.now + RECONCILE_BUDGET);
      AnsweredFits(k, w.tape, o.poll.value);
      assert ReportsEnd(p, w.local.status, mutate, o.poll.value, None);
      assert Reported(k.fam, p, mutate, o.poll);
    }
  }

  lemma AnsweredFits(k: Rule, tape: seq<Turn>, r: Response)
    requires TapeFits(k.fam, tape) && Answered(tape, r)
    ensures k.fam.answers(r)
  {
    var i :| 0 <= i < |tape| && tape[i].reply == Answer(r);
    assert TurnFits(k.fam, tape[i]);
  }

  lemma PollAndFinishFlow(k: Rule, w: World, m: Mapping, mutate: Response)
    requires Flow(k, w) && (InScope(k.fam, w.local.status) ==> Fitting(k.fam, m)) && k.fam.answers(mutate)
    ensures FlowsTo(k, w, PollAndFinish(w, m, mutate).0)
  {
    hide Flow, FlowsTo, Save, Poll, HandleOperationFailure, Fitting;
    PollFlow(k, w, m, mutate);
    PollCompletes(k, w, m, mutate);
    var (w1, outcome) := Poll(w, m, mutate);
    FlowsFlow(k, w, w1);
    hide Completes;
    match outcome {
      case Errored =>
      case Terminal(_, msg) =>
        SaveFlow(k, w1, SetTerminal(msg, false));
        Then(k, w, w1, Save(w1, SetTerminal(msg, false)).0);
      case Failure(failing, msg) =>
        FailureFlow(k, w1, mutate, failing, msg);
        Then(k, w, w1, HandleOperationFailure(w1, mutate, failing, msg).0);
      case StillRunning =>
      case Finished(_, poll) =>
        SaveFlow(k, w1, Complete(mutate, poll));
        Then(k, w, w1, Save(w1, Complete(mutate, poll)).0);
    }
  }

  /** Before identity, a keyed resource only ever deploys its CREATE. */
  predicate Entitled(k: Rule, st: Status, action: Action) {
    k.fam.keyed && st.externalRef == "" ==> action == Create
  }

  /** A mutate that is not both polled and accepted leaves nothing to be anchored. */
  lemma SendMutateFlow(k: Rule, w: World, action: Action, m: Mapping)
    requires Flow(k, w) && Entitled(k, w.local.status, action)
    requires var reply := SendMutate(w, action, m).1;
      m.polling.None? || !reply.Answer? || IsHTTPError(reply.response.statusCode, w.local.spec.allowed)
    ensures FlowsTo(k, w, SendMutate(w, action, m).0)
  {
    hide LogFits, TapeFits, Disturb;
    Stay(k, w);
    if Alive(w) {
      SendFlow(k, w);
      var (w1, reply) := Send(w);
      var accepted := reply == NoAnswer(true)
        || (reply.Answer? && !IsHTTPError(reply.response.statusCode, w.local.spec.allowed));
      var e := Mutate(action, m.polling.Some?, w.local.status, reply, accepted);
      if k.prompt { assert PromptAt(w.tape, 0); }
      EmitFlow(k, w1, e);
      Then(k, w, w1, Emit(w1, e));
    }
  }

  /** An accepted polled mutate is followed, in a prompt world at once, by its anchor write. */
  lemma AnchorFlow(k: Rule, w: World, action: Action, m: Mapping)
    requires Flow(k, w) && m.polling.Some? && Entitled(k, w.local.status, action)
    requires var reply := SendMutate(w, action, m).1; reply.Answer? && !IsHTTPError(reply.response.statusCode, w.local.spec.allowed)
    ensures var (w1, reply) := SendMutate(w, action, m);
      FlowsTo(k, w, Save(w1, PersistAnchor(reply.response)).0)
  {
    hide LogFits, TapeFits, Disturb, Prompt, AnchorFits, Save;
    var (w1, reply) := Send(w);
    SendFlow(k, w);
    SentFits(k, w);
    if k.prompt { PromptNext(w); }
    var e := Mutate(action, true, w.local.status, reply, true);
    SentThenAnchored(k, w1, e, reply.response);
    Then(k, w, w1, Save(Emit(w1, e), PersistAnchor(reply.response)).0);
  }

  lemma SentThenAnchored(k: Rule, w: World, e: Event, response: Response)
    requires Flow(k, w) && EventFits(k.fam, e) && e.Mutate? && k.fam.answers(response)
    requires k.prompt ==> Alive(w) && (w.tape[0].reply.Landed? || w.tape[0].reply.LandedUnseen?)
    ensures FlowsTo(k, w, Save(Emit(w, e), PersistAnchor(response)).0)
  {
    hide LogFits, TapeFits, Disturb, Prompt, AnchorFits, Save, EventFits;
    var w2 := Emit(w, e);
    if Alive(w) {
      AdvanceFlow(k, w);
      var w3 := Advance(w);
      assert Advance(w2) == Emit(w3, e);
      var f := Wrote(PersistAnchor(response), w3.local.spec, w3.server, w3.now, AnchoredNow(w3, response));
      assert AnchorFits(k.fam, AnchoredNow(w3, response)) by { AnchoredFits(k, w3, response); }
      assert EventFits(k.fam, f) by { AnchorEventFits(k, w3, f, response); }
      TwoEvents(k, w3.log, e, f);
      TwoSteps(w2, response);
      if !k.prompt { OneEvent(k, w3.log, e); }
      SendExtends(w.log, e, f);
    } else {
      OneEvent(k, w.log, e);
      SendExtends(w.log, e, e);
      DeadSaves(w2, PersistAnchor(response));
    }
  }

  lemma AnchorEventFits(k: Rule, w: World, f: Event, response: Response)
    requires Flow(k, w) && k.fam.answers(response)
    requires f.Wrote? && f.change == PersistAnchor(response) && f.spec == w.local.spec && f.before == w.server
    ensures EventFits(k.fam, f)
  {
  }

  lemma DeadSaves(w: World, c: Change)
    requires !Alive(w)
    ensures Save(w, c) == (w, false)
  {
  }

  lemma SentFits(k: Rule, w: World)
    requires Flow(k, w) && Send(w).1.Answer?
    ensures k.fam.answers(Send(w).1.response)
  {
    hide LogFits, Prompt;
    assert TurnFits(k.fam, w.tape[0]);
  }

  lemma AnchoredFits(k: Rule, w: World, response: Response)
    requires k.fam.answers(response)
    ensures AnchorFits(k.fam, AnchoredNow(w, response))
  {
  }

  function AnchoredNow(w: World, response: Response): Status {
    var st := w.server.status;
    st.(anchor := Some(response), startedAt := if st.startedAt.None? then Some(Stored(w.now)) else st.startedAt)
  }

  lemma TwoSteps(w: World, response: Response)
    requires Alive(w)
    ensures var w1 := Advance(w);
      var w2 := Commit(w1, PersistAnchor(response), AnchoredNow(w1, response));
      Save(w, PersistAnchor(response)) ==
        if w.tape[0].reply.Landed? then (w2.(local := w2.server), true)
        else if w.tape[0].reply.LandedUnseen? then (w2, false)
        else (w1, false)
  {
  }

  lemma PromptNext(w: World)
    requires Prompt(w.tape) && Send(w).1.Answer?
    ensures var w1 := Send(w).0; Alive(w1) && (w1.tape[0].reply.Landed? || w1.tape[0].reply.LandedUnseen?)
  {
    assert PromptAt(w.tape, 0);
  }

  lemma OneEvent(k: Rule, log: seq<Event>, e: Event)
    requires LogFits(k, log) && EventFits(k.fam, e) && e.Mutate? && !k.prompt
    ensures LogFits(k, log + [e])
  {
  }

  lemma TwoEvents(k: Rule, log: seq<Event>, e: Event, f: Event)
    requires LogFits(k, log) && EventFits(k.fam, e) && EventFits(k.fam, f) && Anchors(f)
    ensures LogFits(k, log + [e] + [f])
  {
  }

  lemma SendExtends(log: seq<Event>, e: Event, f: Event)
    ensures Extends(log, log + [e]) && Extends(log, log + [e] + [f])
  {
  }

  lemma FireFlow(k: Rule, w: World, action: Action, m: Mapping)
    requires Flow(k, w) && Entitled(k, w.local.status, action) && (InScope(k.fam, w.local.status) ==> Fitting(k.fam, m))
    ensures FlowsTo(k, w, Fire(w, action, m).0)
  {
    hide Flow, FlowsTo, Fitting, GenerateValidRequestDetails, SendMutate, FinishSync, RefreshAndRecord, FailMutate, PollAndFinish, Save;
    Stay(k, w);
    var g := GenerateValidRequestDetails(m, w.local.status);
    if g.EvalOk? {
      var (w1, reply) := SendMutate(w, action, m);
      SendKeepsLocal(w, action, m);
      var d := HttpDetails(ResponseOf(reply), g.value);
      if m.polling.Some? && reply.Answer? && !IsHTTPError(d.response.statusCode, w.local.spec.allowed) {
        AnchorFlow(k, w, action, m);
        SentAnswer(k, w, action, m);
        var (w2, ok) := Save(w1, PersistAnchor(d.response));
        if ok {
          FlowsFlow(k, w, w2);
          PollAndFinishFlow(k, w2, m, d.response);
          Then(k, w, w2, PollAndFinish(w2, m, d.response).0);
        }
      } else {
        SendMutateFlow(k, w, action, m);
        FlowsFlow(k, w, w1);
        if m.polling.None? {
          FinishSyncFlow(k, w1, d, !reply.Answer?);
          Then(k, w, w1, FinishSync(w1, d, !reply.Answer?).0);
        } else {
          RecordFlow(k, w1, d, !reply.Answer?, false);
          var (w2, ok) := RefreshAndRecord(w1, d, !reply.Answer?, false);
          Then(k, w, w1, w2);
          FlowsFlow(k, w, w2);
          FailMutateFlow(k, w2, d.response);
          Then(k, w, w2, FailMutate(w2, d.response).0);
        }
      }
    }
  }

  lemma SentAnswer(k: Rule, w: World, action: Action, m: Mapping)
    requires Flow(k, w) && SendMutate(w, action, m).1.Answer?
    ensures k.fam.answers(SendMutate(w, action, m).1.response)
  {
    hide Flow;
    SentFits(k, w);
  }

  lemma SendKeepsLocal(w: World, action: Action, m: Mapping)
    ensures SendMutate(w, action, m).0.local == w.local
  {
  }

  lemma ResumeFlow(k: Rule, w: World, m: Mapping, mutate: Response)
    requires Flow(k, w) && (InScope(k.fam, w.local.status) ==> Fitting(k.fam, m)) && k.fam.answers(mutate)
    ensures FlowsTo(k, w, Resume(w, m, mutate).0)
  {
    hide Flow, FlowsTo, Fitting, PollAndFinish, Save;
    if w.local.status.startedAt.Some? {
      PollAndFinishFlow(k, w, m, mutate);
    } else {
      SaveFlow(k, w, StartClock);
      var (w1, ok) := Save(w, StartClock);
      if ok {
        FlowsFlow(k, w, w1);
        PollAndFinishFlow(k, w1, m, mutate);
        Then(k, w, w1, PollAndFinish(w1, m, mutate).0);
      }
    }
  }

  lemma DeployFlow(k: Rule, w: World, action: Action)
    requires Flow(k, w) && action != Observe && Entitled(k, w.local.status, action)
    ensures FlowsTo(k, w, DeployAction(w, action).0)
  {
    hide FlowsTo, Between, Fire, Resume, MappingFor;
    Stay(k, w);
    var m := MappingFor(w.local.spec, action);
    if m.Some? {
      if InScope(k.fam, w.local.status) {
        assert action != Observe && k.fam.fits(w.local.spec) && (k.fam.keyed ==> action == Create);
        assert Fitting(k.fam, m.value);
      }
      if w.local.status.anchor.Some? { ResumeFlow(k, w, m.value, w.local.status.anchor.value); } else { FireFlow(k, w, action, m.value); }
    }
  }

  // ---------------------------------------------------------------- IsUpToDate

  lemma DetermineFlow(k: Rule, w: World, d: HttpDetails, failed: bool)
    requires Flow(k, w)
    ensures FlowsTo(k, w, DetermineIfUpToDate(w, d, failed).0)
  {
    hide Flow, FlowsTo, Save, MappingFor, CheckUpToDate;
    Stay(k, w);
    SaveFlow(k, w, SetTerminal(ERR_NO_UPDATE_MAPPING, false));
  }

  lemma InspectFlow(k: Rule, w: World, d: HttpDetails, failed: bool, statusGate: bool)
    requires Flow(k, w)
    ensures FlowsTo(k, w, Inspect(w, d, failed, statusGate).0)
  {
    hide Flow, FlowsTo, DetermineIfUpToDate, CheckRemoved, CheckExists;
    Stay(k, w);
    DetermineFlow(k, w, d, failed);
  }

  lemma SendObserveFlow(k: Rule, w: World)
    requires Flow(k, w)
    ensures FlowsTo(k, w, SendObserve(w).0)
  {
    hide LogFits, TapeFits, Prompt, Disturb;
    Stay(k, w);
    if Alive(w) {
      SendFlow(k, w);
      var (w1, reply) := Send(w);
      var e := ObserveCall(w.local.spec, w.local.status, reply);
      EmitOrdinary(k, w1, e);
      Then(k, w, w1, Emit(w1, e));
    }
  }

  lemma ByExternalRefFlow(k: Rule, w: World, m: Mapping)
    requires Flow(k, w)
    ensures FlowsTo(k, w, ObserveExternalRefDriven(w, m).0)
  {
    hide Flow, FlowsTo, SendObserve, Inspect, GenerateValidRequestDetails;
    Stay(k, w);
    var g := GenerateValidRequestDetails(m, w.local.status);
    if g.EvalOk? {
      SendObserveFlow(k, w);
      var (w1, reply) := SendObserve(w);
      FlowsFlow(k, w, w1);
      var d := HttpDetails(ResponseOf(reply), g.value);
      InspectFlow(k, w1, d, !reply.Answer?, true);
      Then(k, w, w1, Inspect(w1, d, !reply.Answer?, true).0);
    }
  }

  lemma ByResponseFlow(k: Rule, w: World, m: Mapping)
    requires Flow(k, w)
    ensures FlowsTo(k, w, ObserveResponseDriven(w, m).0)
  {
    hide Flow, FlowsTo, SendObserve, Inspect, GenerateValidRequestDetails, IsObjectValidForObservation;
    Stay(k, w);
    var g := GenerateValidRequestDetails(m, w.local.status);
    if g.EvalOk? {
      SendObserveFlow(k, w);
      var (w1, reply) := SendObserve(w);
      FlowsFlow(k, w, w1);
      var d := HttpDetails(ResponseOf(reply), g.value);
      InspectFlow(k, w1, d, !reply.Answer?, false);
      Then(k, w, w1, Inspect(w1, d, !reply.Answer?, false).0);
    }
  }

  lemma ByMappingFlow(k: Rule, w: World)
    requires Flow(k, w)
    ensures FlowsTo(k, w, ObserveByMapping(w).0)
  {
    hide Flow, FlowsTo, Save, MappingFor, ObserveExternalRefDriven, ObserveResponseDriven;
    hide PollingConfigured, UrlReferencesResponse, UrlReferencesExternalRef;
    Stay(k, w);
    SaveFlow(k, w, SetTerminal(ERR_POLLED_RESPONSE_IDENTITY, false));
    var m := MappingFor(w.local.spec, Observe);
    if m.Some? {
      var byRef, byResponse := Emit(w, Routed(true)), Emit(w, Routed(false));
      EmitOrdinary(k, w, Routed(true));
      EmitOrdinary(k, w, Routed(false));
      ByExternalRefFlow(k, byRef, m.value);
      ByResponseFlow(k, byResponse, m.value);
      Then(k, w, byRef, ObserveExternalRefDriven(byRef, m.value).0);
      Then(k, w, byResponse, ObserveResponseDriven(byResponse, m.value).0);
    }
  }

  lemma UnstalledFlow(k: Rule, w: World)
    requires Flow(k, w)
    ensures FlowsTo(k, w, ObserveUnstalled(w).0)
  {
    hide Flow, FlowsTo, ObserveByMapping;
    Stay(k, w);
    ByMappingFlow(k, w);
  }

  lemma IsUpToDateFlow(k: Rule, w: World)
    requires Flow(k, w)
    ensures FlowsTo(k, w, IsUpToDate(w).0)
  {
    hide Flow, FlowsTo, ObserveUnstalled, Save;
    Stay(k, w);
    UnstalledFlow(k, w);
    SaveFlow(k, w, ClearTerminal);
    var (w1, ok) := Save(w, ClearTerminal);
    FlowsFlow(k, w, w1);
    UnstalledFlow(k, w1);
    Then(k, w, w1, ObserveUnstalled(w1).0);
  }

  // ---------------------------------------------------------------- the reconcile

  lemma ObserveFlow(k: Rule, w: World)
    requires Flow(k, w)
    ensures FlowsTo(k, w, ObserveResource(w).0)
  {
    hide Flow, FlowsTo, UpdateLocal, IsUpToDate, RefreshAndRecord;
    Stay(k, w);
    var ext := w.local.externalName;
    if ext != "" { UpdateLocalFlow(k, w, Seed(ext)); }
    var (w1, ok) :=
      if w.local.status.externalRef == "" && ext != "" && ext != w.local.name then UpdateLocal(w, Seed(ext)) else (w, true);
    if ok {
      FlowsFlow(k, w, w1);
      IsUpToDateFlow(k, w1);
      var (w2, seen) := IsUpToDate(w1);
      Then(k, w, w1, w2);
      if seen.Seen? {
        FlowsFlow(k, w, w2);
        RecordFlow(k, w2, seen.details, seen.failed, seen.synced);
        Then(k, w, w2, RefreshAndRecord(w2, seen.details, seen.failed, seen.synced).0);
      }
    }
  }

  lemma GetKeepsStatus(w: World)
    ensures var (r, ok) := Get(w); r.server.status == w.server.status && (ok ==> r.local == r.server)
  {
  }

  lemma RefreshAndDeployFlow(k: Rule, w: World, action: Action)
    requires Flow(k, w) && action != Observe && Entitled(k, w.server.status, action)
    ensures FlowsTo(k, w, RefreshAndDeploy(w, action))
  {
    hide Flow, FlowsTo, Get, DeployAction;
    GetFlowsTo(k, w);
    GetKeepsStatus(w);
    var (w1, ok) := Get(w);
    if ok {
      DeployFlow(k, w1, action);
      Then(k, w, w1, DeployAction(w1, action).0);
    }
  }

  /** A keyed resource without identity is deleted only over its operation in flight. */
  lemma DeleteFlow(k: Rule, w: World)
    requires Flow(k, w)
    requires k.fam.keyed && w.server.status.externalRef == "" ==> w.server.status.anchor.Some?
    ensures FlowsTo(k, w, Delete(w))
  {
    hide Flow, FlowsTo, Get, DeployAction;
    GetFlowsTo(k, w);
    GetKeepsStatus(w);
    var (w1, ok) := Get(w);
    if ok {
      var action := if w1.local.status.anchor.Some? && w1.local.status.externalRef == "" then Create else Remove;
      DeployFlow(k, w1, action);
      Then(k, w, w1, DeployAction(w1, action).0);
    }
  }

  lemma DropFlow(k: Rule, w: World)
    requires Flow(k, w)
    ensures FlowsTo(k, w, DropFinalizer(w))
  {
    hide LogFits, TapeFits, Prompt, Disturb;
    Stay(k, w);
    if Alive(w) {
      AdvanceFlow(k, w);
      var w1 := Advance(w);
      EmitOrdinary(k, w1, Finalized(w1.server.status));
      Then(k, w, w1, Emit(w1, Finalized(w1.server.status)));
    }
  }

  /** A keyed resource that is said to exist has an identity, or is deleted over its operation in flight. */
  predicate AnswerFits(k: Rule, w: World, a: Answer) {
    k.fam.keyed && a.Exists? && w.server.status.externalRef == "" ==> w.server.status.anchor.Some? && w.local.deleted
  }

  lemma DispatchFlow(k: Rule, w: World, a: Answer)
    requires Flow(k, w) && AnswerFits(k, w, a)
    ensures FlowsTo(k, w, Dispatch(w, a))
  {
    hide Flow, FlowsTo, DropFinalizer, RefreshAndDeploy, Delete;
    Stay(k, w);
    match a {
      case ObserveError =>
      case NotExists => if w.local.deleted { DropFlow(k, w); } else { RefreshAndDeployFlow(k, w, Create); }
      case Exists(upToDate) => if w.local.deleted { DeleteFlow(k, w); } else if !upToDate { RefreshAndDeployFlow(k, w, Update); }
    }
  }

  // ---------------------------------------------------------------- what Observe answers before identity

  predicate SeenFits(w: World, o: Observation) {
    o.Seen? && w.server.status.externalRef == "" ==> w.server.status.anchor.Some? && w.local.deleted
  }

  lemma ByMappingAnswers(k: Rule, w: World)
    requires Flow(k, w) && k.fam.keyed && w.local.status == w.server.status
    ensures var (r, o) := ObserveByMapping(w); SeenFits(r, o)
  {
    hide FlowsTo, Between, Save, MappingFor, UrlReferencesExternalRef, UrlReferencesResponse, PollingConfigured;
    hide GenerateValidRequestDetails, SendObserve, Inspect;
    ByMappingFlow(k, w);
    FlowsFlow(k, w, ObserveByMapping(w).0);
    KeyedLocal(k, w);
  }

  lemma KeyedLocal(k: Rule, w: World)
    requires Flow(k, w) && k.fam.keyed
    ensures Keyed(w.local.spec)
  {
  }

  lemma UnstalledAnswers(k: Rule, w: World)
    requires Flow(k, w) && k.fam.keyed && w.local.status == w.server.status
    ensures var (r, o) := ObserveUnstalled(w); SeenFits(r, o)
  {
    hide Flow, ObserveByMapping;
    ByMappingAnswers(k, w);
  }

  lemma IsUpToDateAnswers(k: Rule, w: World)
    requires Flow(k, w) && k.fam.keyed && w.local.status == w.server.status
    ensures var (r, o) := IsUpToDate(w); SeenFits(r, o)
  {
    hide Flow, FlowsTo, ObserveUnstalled, Save;
    UnstalledAnswers(k, w);
    SaveFlow(k, w, ClearTerminal);
    SaveMakesLocal(w, ClearTerminal);
    var (w1, ok) := Save(w, ClearTerminal);
    FlowsFlow(k, w, w1);
    if ok { UnstalledAnswers(k, w1); }
  }

  lemma SaveMakesLocal(w: World, c: Change)
    ensures var (r, ok) := Save(w, c); ok ==> r.local == r.server
    ensures var (r, ok) := UpdateLocal(w, c); ok ==> r.local == r.server
  {
    hide Apply, Disturb;
  }

  lemma RecordRoutes(w: World, d: HttpDetails, failed: bool, reset: bool)
    ensures RoutingEq(RefreshAndRecord(w, d, failed, reset).0.server.status, w.server.status)
  {
    hide Get, Save, ShouldSetCache;
    GetKeepsStatus(w);
    var (w1, ok) := Get(w);
    if ok {
      var spec := w1.local.spec;
      var c := if failed then RecordError(ERR_TRANSPORT)
               else Record(d, reset, IsHTTPError(d.response.statusCode, spec.allowed),
                           ShouldSetCache(spec, w1.local.status, d.response));
      SaveKeepsRouting(w1, c);
    }
  }

  lemma ObserveAnswers(k: Rule, w: World)
    requires Flow(k, w) && w.local.status == w.server.status
    ensures var (r, a) := ObserveResource(w); AnswerFits(k, r, a)
  {
    hide Flow, FlowsTo, UpdateLocal, IsUpToDate, RefreshAndRecord;
    var ext := w.local.externalName;
    var (w1, ok) :=
      if w.local.status.externalRef == "" && ext != "" && ext != w.local.name then UpdateLocal(w, Seed(ext)) else (w, true);
    if k.fam.keyed && ok {
      Stay(k, w);
      if ext != "" { UpdateLocalFlow(k, w, Seed(ext)); }
      SaveMakesLocal(w, Seed(ext));
      FlowsFlow(k, w, w1);
      IsUpToDateAnswers(k, w1);
      IsUpToDateFlow(k, w1);
      var (w2, seen) := IsUpToDate(w1);
      FlowsFlow(k, w1, w2);
      if seen.Seen? {
        RecordFlow(k, w2, seen.details, seen.failed, seen.synced);
        RecordRoutes(w2, seen.details, seen.failed, seen.synced);
        FlowsFlow(k, w2, RefreshAndRecord(w2, seen.details, seen.failed, seen.synced).0);
      }
    }
  }

  // ---------------------------------------------------------------- runs

  lemma ReconcileFlow(k: Rule, w: World)
    requires Between(k, w)
    ensures var r := Reconcile(w); Between(k, r) && Extends(w.log, r.log)
  {
    hide Between, Get, ObserveResource, Dispatch, Extends;
    ExtendsSelf(w.log);
    if !w.finalized {
      EmitBetween(k, w, Began);
      var w0 := Emit(w, Began);
      GetFlow(k, w0);
      GetKeepsStatus(w0);
      var (w1, ok) := Get(w0);
      if ok {
        ObserveFlow(k, w1);
        ObserveAnswers(k, w1);
        var (w2, a) := ObserveResource(w1);
        DispatchFlow(k, w2, a);
        Then(k, w1, w2, Dispatch(w2, a));
        ExtendsThrough(w.log, w1.log, Dispatch(w2, a).log);
      }
    }
  }

  lemma EmitBetween(k: Rule, w: World, e: Event)
    requires Between(k, w) && e.Began?
    ensures Between(k, Emit(w, e)) && Extends(w.log, Emit(w, e).log)
  {
    hide Between;
    EmitFlow(k, w, e);
  }

  lemma ExtendsSelf(a: seq<Event>)
    ensures Extends(a, a)
  {
  }

  lemma ExtendsThrough(a: seq<Event>, b: seq<Event>, c: seq<Event>)
    requires Extends(a, b) && Extends(b, c)
    ensures Extends(a, c)
  {
    assert c[..|a|] == c[..|b|][..|a|];
  }

  /** Over a whole run. */
  lemma {:induction false} RunFlow(k: Rule, w: World, tapes: seq<seq<Turn>>)
    requires IsFamily(k.fam) && k.fam.fits(w.server.spec) && AnchorFits(k.fam, w.server.status) && LogFits(k, w.log)
    requires forall t :: t in tapes ==> TapeFits(k.fam, t) && (k.prompt ==> Prompt(t))
    ensures var r := Run(w, tapes);
      k.fam.fits(r.server.spec) && AnchorFits(k.fam, r.server.status) && LogFits(k, r.log) && Extends(w.log, r.log)
    decreases |tapes|
  {
    hide Reconcile, LogFits, TapeFits, Prompt, Extends, AnchorFits, IsFamily;
    ExtendsSelf(w.log);
    if tapes != [] {
      var w0 := w.(tape := tapes[0]);
      assert tapes[0] in tapes;
      ReconcileFlow(k, w0);
      forall t | t in tapes[1..] ensures t in tapes {}
      RunFlow(k, Reconcile(w0), tapes[1..]);
      ExtendsThrough(w.log, Reconcile(w0).log, Run(w, tapes).log);
    }
  }
}
