/**
 A terminal failure is a stable state: until the generation moves, no reconcile sends anything
 or changes the status, but for one import seed. The first reconcile after a spec change
 clears the terminal and the clock and keeps the anchor.
 */
module TerminalStall {
  import opened Api
  import opened Cluster
  import opened Observing
  import opened Reconciling

  /** Nothing was created: under deletion this terminal is abandoned, not stalled. */
  predicate NothingCreated(st: Status) {
    st.anchor.None? && st.externalRef == ""
  }

  predicate Stalling(o: Object) {
    && o.status.terminalError != ""
    && o.status.observedGeneration == o.generation
    && !(o.deleted && NothingCreated(o.status))
  }

  /** No spec edit, and no deletion that would bump the generation or permit to abandon. */
  predicate Quiet(tape: seq<Turn>, st: Status) {
    forall i :: 0 <= i < |tape| ==>
      && tape[i].env.spec.None?
      && (tape[i].env.delete ==> !tape[i].env.bumpsGeneration && !NothingCreated(st))
  }

  predicate IsHttp(e: Event) {
    e.ObserveCall? || e.Mutate? || e.PollCall?
  }

  function HttpCalls(log: seq<Event>): nat {
    if log == [] then 0 else HttpCalls(log[..|log| - 1]) + if IsHttp(log[|log| - 1]) then 1 else 0
  }

  lemma HttpEmit(log: seq<Event>, e: Event)
    ensures HttpCalls(log + [e]) == HttpCalls(log) + if IsHttp(e) then 1 else 0
  {
    assert (log + [e])[..|log|] == log;
  }

  /** The same status, but for an identity seeded where there was none. */
  predicate SameButSeed(st: Status, st': Status) {
    st' == st.(externalRef := st'.externalRef) && (st.externalRef != "" ==> st'.externalRef == st.externalRef)
  }

  lemma GetStalls(w: World)
    requires Stalling(w.server) && Quiet(w.tape, w.server.status)
    ensures var (r, ok) := Get(w);
      && Stalling(r.server) && r.server.status == w.server.status && r.log == w.log && r.finalized == w.finalized
      && Quiet(r.tape, r.server.status) && (ok ==> r.local == r.server)
  {
  }

  lemma SeedStalls(w: World, ref: string)
    requires Stalling(w.server) && Quiet(w.tape, w.server.status) && ref != ""
    requires w.server.status.externalRef == ""
    ensures var (r, ok) := UpdateLocal(w, Seed(ref));
      && Stalling(r.server) && SameButSeed(w.server.status, r.server.status) && r.finalized == w.finalized
      && HttpCalls(r.log) == HttpCalls(w.log) && (ok ==> r.local == r.server)
  {
    hide HttpCalls, Disturb, Quiet;
    if Alive(w) {
      DisturbStalls(w);
      var w1 := Advance(w);
      HttpEmit(w1.log, Wrote(Seed(ref), w1.local.spec, w1.server, w1.now, w1.server.status.(externalRef := ref)));
    }
  }

  lemma DisturbStalls(w: World)
    requires Alive(w) && Stalling(w.server) && Quiet(w.tape, w.server.status)
    ensures var r := Advance(w); Stalling(r.server) && r.server.status == w.server.status
  {
  }

  lemma ReconcileStalls(w: World)
    requires Stalling(w.server) && Quiet(w.tape, w.server.status)
    ensures var r := Reconcile(w);
      && Stalling(r.server) && SameButSeed(w.server.status, r.server.status)
      && HttpCalls(r.log) == HttpCalls(w.log) && r.finalized == w.finalized
  {
    hide Get, UpdateLocal, ObserveUnstalled, RefreshAndDeploy, Delete, DropFinalizer, HttpCalls, Save;
    if !w.finalized {
      HttpEmit(w.log, Began);
      GetStalls(Emit(w, Began));
      var (w1, ok) := Get(Emit(w, Began));
      if ok && w1.local.status.externalRef == "" && w1.local.externalName != "" {
        SeedStalls(w1, w1.local.externalName);
      }
    }
  }

  /** Any number of reconciles, under crashes, refused calls and quiet deletions. */
  lemma {:induction false} TerminalIsStable(w: World, tapes: seq<seq<Turn>>)
    requires Stalling(w.server)
    requires forall t :: t in tapes ==> Quiet(t, w.server.status)
    ensures var r := Run(w, tapes);
      && Stalling(r.server) && SameButSeed(w.server.status, r.server.status)
      && HttpCalls(r.log) == HttpCalls(w.log)
    decreases |tapes|
  {
    hide Reconcile;
    if tapes != [] {
      var w0 := w.(tape := tapes[0]);
      ReconcileStalls(w0);
      forall t | t in tapes[1..] ensures Quiet(t, Reconcile(w0).server.status) {
        assert t in tapes && Quiet(t, w.server.status);
      }
      TerminalIsStable(Reconcile(w0), tapes[1..]);
    }
  }

  /** The spec has moved on since the terminal was recorded. */
  predicate Reopened(o: Object) {
    && o.status.terminalError != ""
    && o.status.observedGeneration != o.generation
    && !(o.deleted && NothingCreated(o.status))
  }

  /**
   A reconcile that finds the generation moved and can write clears the terminal and the
   clock, keeps the anchor and the identity, and goes on as if the terminal had never stood.
   */
  lemma SpecChangeReopens(w: World)
    requires Reopened(w.local) && w.local.status == w.server.status
    requires Alive(w) && w.tape[0].reply.Landed?
    ensures var w1 := Save(w, ClearTerminal).0;
      && IsUpToDate(w) == ObserveUnstalled(w1)
      && w1.local.status == w1.server.status
      && w1.server.status == w.server.status.(terminalError := "", error := "", startedAt := None)
      && (w.server.status.anchor.Some? ==>
            && IsUpToDate(w).0.log == w1.log
            && IsUpToDate(w).1 == (if w.server.status.externalRef == "" && !w1.local.deleted then NotFound else IN_FLIGHT))
  {
    hide ObserveByMapping;
  }
}
