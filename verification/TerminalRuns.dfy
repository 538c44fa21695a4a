/**
 Terminal failures over whole runs: which reconcile reopens them, and which spec edits are lost.
 */
module TerminalRuns {
  import opened Api
  import opened Cluster
  import opened RequestMapping
  import opened Deploy
  import opened Observing
  import opened Reconciling
  import opened Protocol
  import opened ProtocolProofs
  import opened Refinement
  import opened Safety
  import opened SpecFlow
  import opened TerminalStall
  import Verdicts

  // ---------------------------------------------------------------- the terminal write

  predicate WritesTerminal(e: Event) {
    e.Wrote? && (e.change.SetTerminal? || e.change.ClearTerminal?)
  }

  /** A write that is neither leaves terminalError and observedGeneration alone. */
  lemma OtherWrites(b: Book, e: Event)
    requires Allowed(b, e) && e.Wrote?
    ensures e.change.SetTerminal? ==> e.after.observedGeneration == e.before.generation
    ensures e.change.ClearTerminal? ==> e.after.terminalError == ""
    ensures !WritesTerminal(e) ==>
      e.after.terminalError == b.status.terminalError && e.after.observedGeneration == b.status.observedGeneration
  {
    hide EvalExternalRef, RecordDetails, ReportsAbsence, RequestGen.ShouldSetCache;
  }

  lemma TerminalStep(b: Book, e: Event)
    requires Allowed(b, e) && Next(b, e).status.terminalError != ""
    ensures WritesTerminal(e) ==> e.change.SetTerminal? && e.before.generation == Next(b, e).status.observedGeneration
    ensures !WritesTerminal(e) ==>
      b.status.terminalError != "" && b.status.observedGeneration == Next(b, e).status.observedGeneration
  {
    hide Allowed, Settle, FateOnClear, ReportsAbsence;
    if e.Wrote? { OtherWrites(b, e); }
  }

  /** A standing terminal was put there by the last terminal write, at the generation on record. */
  lemma {:induction false} LastTerminalWrite(log: seq<Event>) returns (j: nat)
    requires Legal(log) && BookOf(log).status.terminalError != ""
    ensures j < |log| && log[j].Wrote? && log[j].change.SetTerminal?
    ensures log[j].before.generation == BookOf(log).status.observedGeneration
    ensures forall n :: j < n < |log| ==> !WritesTerminal(log[n])
  {
    hide Allowed, Next;
    var init, e := log[..|log| - 1], log[|log| - 1];
    TerminalStep(BookOf(init), e);
    if WritesTerminal(e) {
      j := |log| - 1;
    } else {
      j := LastTerminalWrite(init);
    }
  }

  // ---------------------------------------------------------------- the next reconcile

  /** The log has a clearing of the terminal after its first `from` events. */
  predicate Clears(log: seq<Event>, from: nat) {
    exists n :: from <= n < |log| && log[n].Wrote? && log[n].change.ClearTerminal?
  }

  predicate NoEdits(env: Env) {
    env.spec.None? && env.externalName.None? && !env.delete
  }

  /** The Get, the seed if there is one, and the clear if there is one, all succeed. */
  predicate Lands(t: seq<Turn>) {
    && |t| >= 3 && t[0].reply.Landed? && t[1].reply.Landed? && t[2].reply.Landed?
    && NoEdits(t[1].env)
  }

  predicate Imports(o: Object) {
    o.status.externalRef == "" && o.externalName != "" && o.externalName != o.name
  }

  /** The object once an import has been seeded. */
  function Imported(o: Object): Object {
    if Imports(o) then o.(status := o.status.(externalRef := o.externalName), version := o.version + 1) else o
  }

  /** The generation has moved past the one the terminal was recorded at, and there is something to go on with. */
  predicate Moves(o: Object) {
    o.generation > o.status.observedGeneration && !(o.deleted && NothingCreated(Imported(o).status))
  }

  function Everything(): Rule {
    Rule(Family(spec => true, r => true, false), false)
  }

  /** Any log fits the rule that assumes nothing. */
  lemma AnyLog(log: seq<Event>)
    ensures LogFits(Everything(), log)
  {
    hide EventFits;
    forall i | 0 <= i < |log| ensures EventFits(Everything().fam, log[i]) { AnyEvent(log[i]); }
  }

  lemma AnyEvent(e: Event)
    ensures EventFits(Everything().fam, e)
  {
    hide Fitting;
    var polling := Polling((st, r) => EvalErr(""), (st, a, r) => EvalOk(true), None, 0, 0);
    var plain := Mapping("", "CREATE", "", (st, r) => RenderErr(""), None);
    var polled := Mapping("", "CREATE", "", (st, r) => RenderErr(""), Some(polling));
    AnyMapping(plain);
    AnyMapping(polled);
    if e.Wrote? && e.change.Complete? && e.change.poll.Some? {
      assert Verdicts.ReportsEnd(polling, FRESH_STATUS, e.change.mutate, e.change.poll.value, None);
      assert Reported(Everything().fam, polling, e.change.mutate, e.change.poll);
      assert polled.polling.Some?;
    } else {
      assert plain.polling.None?;
    }
  }

  lemma AnyMapping(m: Mapping)
    requires m.action == "CREATE"
    ensures Fitting(Everything().fam, m)
  {
    var spec := Spec([m], {}, None, None, None, None, CustomUpToDate((s, r) => EvalOk(true)));
    assert MappingFor(spec, Create) == Some(m) by { assert FindByAction(spec.mappings, "CREATE", 0) == Some(0); }
  }

  lemma AnyWorld(w: World)
    requires Older(w)
    ensures Flow(Everything(), w)
  {
    hide LogFits;
    AnyLog(w.log);
  }

  /** What follows IsUpToDate in a reconcile only adds to the log. */
  lemma RestExtends(w: World, seen: Observation)
    requires Flow(Everything(), w)
    ensures var (w3, a) := (match seen
        case NotFound => (w, NotExists)
        case Failed => (w, ObserveError)
        case Stalled(_) => (w, ObserveError)
        case Seen(d, failed, synced, _) =>
          var (w1, recorded) := RefreshAndRecord(w, d, failed, synced);
          (w1, if recorded then Exists(synced) else ObserveError));
      Extends(w.log, Dispatch(w3, a).log)
  {
    hide Flow, RefreshAndRecord, Dispatch;
    var k := Everything();
    DispatchFlow(k, w, NotExists);
    DispatchFlow(k, w, ObserveError);
    if seen.Seen? {
      RecordFlow(k, w, seen.details, seen.failed, seen.synced);
      var (w1, recorded) := RefreshAndRecord(w, seen.details, seen.failed, seen.synced);
      FlowsFlow(k, w, w1);
      var a := if recorded then Exists(seen.synced) else ObserveError;
      DispatchFlow(k, w1, a);
      Then(k, w, w1, Dispatch(w1, a));
    }
  }

  /** The world once the reconcile has the object, its import seeded. */
  function Fetched(w: World): World
    requires Lands(w.tape)
  {
    var w0 := Advance(Emit(w, Began));
    var w1 := w0.(local := w0.server);
    if Imports(w1.local) then Save(w1, Seed(w1.local.externalName)).0 else w1
  }

  lemma FetchedIs(w: World)
    requires Lands(w.tape) && !w.finalized
    ensures var r, o := Fetched(w), Disturb(w.server, w.tape[0].env);
      && r.local == r.server == Imported(o)
      && Alive(r) && r.tape[0].reply.Landed?
      && |w.log| < |r.log| && r.log[..|w.log|] == w.log
      && (forall n :: |w.log| <= n < |r.log| ==> !WritesTerminal(r.log[n]))
      && Reconcile(w) == (
           var (w2, seen) := IsUpToDate(r);
           var (w3, a) := (match seen
             case NotFound => (w2, NotExists)
             case Failed => (w2, ObserveError)
             case Stalled(_) => (w2, ObserveError)
             case Seen(d, failed, synced, _) =>
               var (w4, recorded) := RefreshAndRecord(w2, d, failed, synced);
               (w4, if recorded then Exists(synced) else ObserveError));
           Dispatch(w3, a))
  {
    hide IsUpToDate, RefreshAndRecord, Dispatch;
    var t := w.tape;
    assert t[1..][0] == t[1] && t[1..][1..] == t[2..] && t[2..][0] == t[2];
  }

  /** A reconcile that can write clears a terminal if and only if the generation it meets has moved. */
  lemma ReconcileReopensIff(w: World)
    requires Sound(w) && !w.finalized && w.server.status.terminalError != "" && Lands(w.tape)
    ensures Clears(Reconcile(w).log, |w.log|) <==> Moves(Disturb(w.server, w.tape[0].env))
  {
    hide IsUpToDate, RefreshAndRecord, Dispatch, Fetched, Legal, BookOf, Disturb, Reconcile;
    var r, o := Fetched(w), Disturb(w.server, w.tape[0].env);
    FetchedIs(w);
    DisturbKeeps(w.server, w.tape[0].env);
    var (w2, seen) := IsUpToDate(r);
    if Moves(o) {
      ClearsNow(r);
      AnyWorld(r);
      IsUpToDateFlow(Everything(), r);
      FlowsFlow(Everything(), r, w2);
      RestExtends(w2, seen);
      var n := |r.log|;
      assert w2.log[n] == Reconcile(w).log[..|w2.log|][n];
    } else {
      StaysNow(r);
      FinalizedOnly(w2);
    }
  }

  lemma DisturbKeeps(o: Object, env: Env)
    ensures Disturb(o, env).status == o.status && Disturb(o, env).generation >= o.generation
  {
  }

  lemma ClearsNow(r: World)
    requires r.local == r.server && r.local.status.terminalError != "" && Alive(r) && r.tape[0].reply.Landed?
    requires r.local.generation > r.local.status.observedGeneration && !(r.local.deleted && NothingCreated(r.local.status))
    ensures var w2 := IsUpToDate(r).0;
      |r.log| < |w2.log| && w2.log[|r.log|].Wrote? && w2.log[|r.log|].change.ClearTerminal?
  {
    hide ObserveUnstalled;
    var (w1, ok) := Save(r, ClearTerminal);
    AnyWorld(w1);
    UnstalledFlow(Everything(), w1);
    assert w1.log[|r.log|] == ObserveUnstalled(w1).0.log[..|w1.log|][|r.log|];
  }

  lemma StaysNow(r: World)
    requires r.local.status.terminalError != "" && r.local.status.observedGeneration <= r.local.generation
    requires r.local.generation == r.local.status.observedGeneration || (r.local.deleted && NothingCreated(r.local.status))
    ensures var (w2, seen) := IsUpToDate(r); w2 == r && (seen.Stalled? || (seen.NotFound? && r.local.deleted))
  {
    hide ObserveUnstalled;
  }

  lemma FinalizedOnly(w: World)
    ensures Dispatch(w, ObserveError) == w
    ensures var log := Dispatch(w, NotExists).log;
      w.local.deleted ==> log == w.log || (|log| == |w.log| + 1 && log[..|w.log|] == w.log && log[|w.log|].Finalized?)
  {
    hide Disturb;
  }

  /**
   A terminal of any run: it was recorded at some generation g by the last terminal write, and
   the next reconcile whose Get and clear succeed removes it if and only if the generation it
   gets exceeds g (and the resource is not deleted with nothing created).
   */
  lemma TerminalReopensIff(w0: World, tapes: seq<seq<Turn>>, t: seq<Turn>) returns (j: nat)
    requires New(w0)
    requires var w := Run(w0, tapes); !w.finalized && w.server.status.terminalError != ""
    requires Lands(t)
    ensures var w := Run(w0, tapes);
      var r, o := Reconcile(w.(tape := t)), Disturb(w.server, t[0].env);
      && j < |w.log| && w.log[j].Wrote? && w.log[j].change.SetTerminal?
      && (forall n :: j < n < |w.log| ==> !WritesTerminal(w.log[n]))
      && (Clears(r.log, |w.log|) <==> o.generation > w.log[j].before.generation && !(o.deleted && NothingCreated(Imported(o).status)))
  {
    hide Run, Legal, BookOf, Reconcile, Disturb, Clears, Lands;
    assert Sound(w0) by { NewIsSound(w0); }
    RunGood(w0, tapes);
    var w := Run(w0, tapes);
    j := LastTerminalWrite(w.log);
    DisturbKeeps(w.server, t[0].env) by { assert |t| > 0 by { LandsLong(t); } }
    ReconcileReopensIff(w.(tape := t));
  }

  lemma LandsLong(t: seq<Turn>)
    requires Lands(t)
    ensures |t| >= 3
  {
  }

  // ---------------------------------------------------------------- a swallowed edit

  /** A polled resource whose OBSERVE URL is keyed on the mutate response: a config mistake. */
  predicate Misconfigured(spec: Spec) {
    var m := MappingFor(spec, Observe);
    && PollingConfigured(spec) && m.Some?
    && UrlReferencesResponse(m.value.url) && !UrlReferencesExternalRef(m.value.url)
  }

  /** The Get, then the terminal write, just before which the operator corrects the spec. */
  function EditAtTheWrite(corrected: Spec): seq<Turn> {
    [Turn(Env(None, None, false, false, 0), Landed), Turn(Env(Some(corrected), None, false, false, 0), Landed)]
  }

  /**
   The correction is lost: it is in the stored spec, yet the terminal counts as recorded for
   its generation, and every later run without another edit stalls without a single request.
   */
  lemma CorrectionIsSwallowed(w: World, corrected: Spec, tapes: seq<seq<Turn>>)
    requires New(w) && !w.finalized && !w.server.deleted && Misconfigured(w.server.spec)
    requires w.server.externalName == "" || w.server.externalName == w.server.name
    requires forall t :: t in tapes ==> Quiet(t, w.server.status)
    ensures var w1 := Run(w, [EditAtTheWrite(corrected)]);
      && w1.server.spec == corrected && w1.server.generation == w.server.generation + 1
      && w1.server.status.terminalError == ERR_POLLED_RESPONSE_IDENTITY
      && w1.server.status.observedGeneration == w1.server.generation
      && Stalling(Run(w1, tapes).server) && HttpCalls(Run(w1, tapes).log) == 0
  {
    hide Reconcile, HttpCalls, PollingConfigured, UrlReferencesResponse, UrlReferencesExternalRef;
    var t := EditAtTheWrite(corrected);
    var w0 := w.(tape := t);
    var w1 := Swallow(w0, corrected);
    assert [t][1..] == [];
    assert Run(w, [t]) == Run(Reconcile(w0), []) == w1;
    assert forall t :: Quiet(t, w.server.status) == Quiet(t, w1.server.status);
    TerminalIsStable(w1, tapes);
  }

  lemma Swallow(w: World, corrected: Spec) returns (r: World)
    requires New(w) && !w.finalized && !w.server.deleted && Misconfigured(w.server.spec)
    requires w.server.externalName == "" || w.server.externalName == w.server.name
    requires w.tape == EditAtTheWrite(corrected)
    ensures r == Reconcile(w)
    ensures r.server.spec == corrected && r.server.generation == w.server.generation + 1 && !r.server.deleted
    ensures r.server.status == w.server.status.(
      terminalError := ERR_POLLED_RESPONSE_IDENTITY, error := ERR_POLLED_RESPONSE_IDENTITY, observedGeneration := r.server.generation)
    ensures HttpCalls(r.log) == 0
  {
    hide MappingFor, PollingConfigured, UrlReferencesResponse, UrlReferencesExternalRef, HttpCalls;
    r := Reconcile(w);
    assert w.tape[1..] == [w.tape[1]];
    HttpEmit(w.log, Began);
    var w1 := Get(Emit(w, Began)).0;
    var (w2, ok) := Save(w1, SetTerminal(ERR_POLLED_RESPONSE_IDENTITY, false));
    assert ok && IsUpToDate(w1) == (w2, Stalled(ERR_POLLED_RESPONSE_IDENTITY));
    assert r == w2;
    HttpEmit(w1.log, w2.log[|w2.log| - 1]);
    assert w2.log == w1.log + [w2.log[|w2.log| - 1]];
    assert HttpCalls([]) == 0 by { NoCalls(); }
  }

  lemma NoCalls()
    ensures HttpCalls([]) == 0
  {
  }
}
