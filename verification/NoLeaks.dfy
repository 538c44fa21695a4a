/**
 When nothing leaks. As long as a resource keyed on .status.externalRef has no identity, only its
 CREATE is fired and resumed. So if CREATE keeps its polling block under an anchor, the externalRef
 expression names what it completes, and accepted CREATEs are anchored, no operation escapes the
 anchor before identity, and there is at most one.
 */
module NoLeaks {
  import opened Api
  import opened Cluster
  import opened RequestMapping
  import opened RequestGen
  import opened Poller
  import opened Reconciling
  import opened Protocol
  import opened ProtocolProofs
  import opened Safety
  import opened SpecFlow
  import opened Verdicts

  // ---------------------------------------------------------------- hypotheses

  /**
   What a fitting mapping reports as completed is named by the externalRef expression of every
   spec of the family. In a keyed family this is asked of CREATE mappings only, and of statuses
   without an identity.
   */
  ghost predicate Names(f: Family) {
    forall spec, m, st, mutate, poll | f.fits(spec) && Fitting(f, m) && m.polling.Some? && f.answers(mutate)
                                       && Reported(f, m.polling.value, mutate, poll)
                                       && InScope(f, st) && st.anchor.None? && st.startedAt.None? ::
      EvalExternalRef(spec, st, mutate, poll) != ""
  }

  /** Fitting mappings have a polling block. In a keyed family these are the CREATE mappings. */
  ghost predicate Polls(f: Family) {
    forall m :: Fitting(f, m) ==> m.polling.Some?
  }

  /** No poll in scope finds its mapping without a polling block: none was removed under an anchor. */
  predicate KeepsBlocks(f: Family, log: seq<Event>) {
    forall i :: 0 <= i < |log| && log[i].Polled? && InScope(f, log[i].status) ==> log[i].verdict != NoBlock
  }

  ghost predicate Sturdy(f: Family) {
    IsFamily(f) && Names(f)
  }

  /** Every accepted polled mutate in scope got its answer, and its anchor write landed at once. */
  predicate AllAnchored(f: Family, log: seq<Event>) {
    forall i :: 0 <= i < |log| && Accepts(log[i]) && InScope(f, log[i].status) ==> i + 1 < |log| && Anchors(log[i + 1])
  }

  ghost predicate TapesFit(f: Family, tapes: seq<seq<Turn>>) {
    forall t :: t in tapes ==> TapeFits(f, t)
  }

  ghost predicate EventsFit(f: Family, log: seq<Event>) {
    forall i :: 0 <= i < |log| ==> EventFits(f, log[i])
  }

  lemma RunEventsFit(f: Family, w: World, tapes: seq<seq<Turn>>)
    requires IsFamily(f) && New(w) && f.fits(w.server.spec) && TapesFit(f, tapes)
    ensures EventsFit(f, Run(w, tapes).log)
  {
    hide Run, IsFamily, TapeFits, EventFits;
    RunFlow(Rule(f, false), w, tapes);
  }

  // ---------------------------------------------------------------- before identity

  ghost function Resources(fits: Spec -> bool, answers: Response -> bool): Family {
    Family(fits, answers, true)
  }

  /**
   A resource keyed on .status.externalRef, before it has an identity: every mutate sent is a
   CREATE, every poll runs under a CREATE mapping of some spec of the run, and every completion
   is reported by an answer under such a mapping, or found that it has no polling block.
   */
  lemma OnlyCreateBeforeIdentity(fits: Spec -> bool, answers: Response -> bool, w: World, tapes: seq<seq<Turn>>, i: nat)
    requires forall spec :: fits(spec) ==> Keyed(spec)
    requires New(w) && fits(w.server.spec) && TapesFit(Resources(fits, answers), tapes)
    requires i < |Run(w, tapes).log| && BookOf(Run(w, tapes).log[..i]).status.externalRef == ""
    ensures var f, e := Resources(fits, answers), Run(w, tapes).log[i];
      && (e.Mutate? ==> e.action == Create)
      && (e.Polled? ==> PollFits(f, e.verdict))
      && (e.Wrote? && e.change.Complete? ==> Completes(f, e.change))
    ensures forall m :: Fitting(Resources(fits, answers), m) <==>
      exists spec :: fits(spec) && MappingFor(spec, Create) == Some(m)
  {
    hide Run, Legal, BookOf, Guard, PollFits, Completes;
    var f := Resources(fits, answers);
    RunIsLegal(w, tapes);
    RunEventsFit(f, w, tapes);
    var log := Run(w, tapes).log;
    assert EventFits(f, log[i]);
    EventAllowed(log, i);
  }

  // ---------------------------------------------------------------- operations stay accounted for

  /** In scope, an operation is leaked only for the moment between its send and its anchor write. */
  ghost predicate Tidy(f: Family, log: seq<Event>, i: nat)
    requires i <= |log|
  {
    var b := BookOf(log[..i]);
    InScope(f, b.status) ==>
      forall j :: 0 <= j < |b.ops| && Leaked(b.ops[j]) ==> j == |b.ops| - 1 && Awaits(log, i)
  }

  /** The last event of the prefix is an accepted polled mutate whose anchor write comes next. */
  predicate Awaits(log: seq<Event>, i: nat)
    requires i <= |log|
  {
    0 < i < |log| && Accepts(log[i - 1]) && Anchors(log[i])
  }

  lemma ScopeEarlier(f: Family, log: seq<Event>, j: nat, i: nat)
    requires j <= i <= |log| && Legal(log[..i]) && InScope(f, BookOf(log[..i]).status)
    ensures InScope(f, BookOf(log[..j]).status)
  {
    hide Legal, BookOf;
    assert log[..i][..j] == log[..j];
    if BookOf(log[..j]).status.externalRef != "" { IdentityStays(log[..i], j); }
  }

  lemma NoBlockNever(f: Family, log: seq<Event>, i: nat)
    requires KeepsBlocks(f, log) && i <= |log| && Legal(log[..i]) && InScope(f, BookOf(log[..i]).status)
    ensures BookOf(log[..i]).verdict != Some(NoBlock)
  {
    hide Legal, BookOf, Allowed;
    if BookOf(log[..i]).verdict.Some? {
      var j := VerdictIsPolled(log[..i]);
      assert log[..i][j] == log[j] && log[..i][..j] == log[..j];
      EventAllowed(log[..i], j);
      ScopeEarlier(f, log, j, i);
      PolledStatus(BookOf(log[..j]), log[j]);
    }
  }

  lemma PolledStatus(b: Book, e: Event)
    requires Allowed(b, e) && e.Polled?
    ensures e.status == b.status
  {
  }

  /** A clear confirms a failure or names the resource. */
  lemma ClearEnds(f: Family, b: Book, e: Event)
    requires Sturdy(f) && EventFits(f, e) && Allowed(b, e) && e.Wrote? && b.status.anchor.Some? && e.after.anchor.None?
    requires b.verdict != Some(NoBlock) && InScope(f, b.status)
    ensures !Leaked(FateOnClear(b.verdict, e.after))
  {
    hide EvalExternalRef, RecordDetails, ShouldSetCache, ReportsAbsence, Fitting, Reported, IsFamily;
    if e.change.Complete? {
      var m :| Fitting(f, m) && (if m.polling.Some? then Reported(f, m.polling.value, e.change.mutate, e.change.poll) else e.change.poll == None);
      var st := e.before.status.(anchor := None, startedAt := None);
      assert EvalExternalRef(e.before.spec, st, e.change.mutate, e.change.poll) != "";
    }
  }

  lemma AnchorSettles(b: Book, e: Event)
    requires Allowed(b, e) && Anchors(e)
    ensures Next(b, e).ops == Settle(b.ops, Anchored)
  {
    hide EvalExternalRef, RecordDetails, ShouldSetCache, ReportsAbsence, Settle;
  }

  lemma TidyStep(f: Family, b: Book, e: Event, awaiting: bool)
    requires Sturdy(f) && Allowed(b, e) && EventFits(f, e) && InScope(f, b.status) && b.verdict != Some(NoBlock)
    requires forall j :: 0 <= j < |b.ops| && Leaked(b.ops[j]) ==> j == |b.ops| - 1 && awaiting
    requires awaiting ==> Anchors(e)
    ensures var ops := Next(b, e).ops;
      forall j :: 0 <= j < |ops| && Leaked(ops[j]) ==> j == |ops| - 1 && Accepts(e)
  {
    hide Guard, Apply, ReportsAbsence, FateOnClear, EventFits, Sturdy;
    if awaiting {
      AnchorSettles(b, e);
    } else if e.Wrote? {
      WroteBefore(b, e);
      if b.status.anchor.Some? && e.after.anchor.None? { ClearEnds(f, b, e); }
    }
  }

  lemma MutateStatus(b: Book, e: Event)
    requires Allowed(b, e) && Accepts(e)
    ensures e.status == b.status
  {
    hide Guard;
  }

  lemma {:induction false} StaysTidy(f: Family, log: seq<Event>, i: nat)
    requires Sturdy(f) && Legal(log) && EventsFit(f, log) && AllAnchored(f, log) && KeepsBlocks(f, log) && i <= |log|
    ensures Tidy(f, log, i)
    decreases i
  {
    hide Legal, Allowed, EventFits, Accepts, Anchors, Guard, Leaked, Sturdy, KeepsBlocks;
    PrefixLegal(log, i);
    if i == 0 {
      assert log[..0] == [];
    } else if InScope(f, BookOf(log[..i]).status) {
      var init, e := log[..i - 1], log[i - 1];
      assert log[..i] == init + [e];
      PrefixLegal(log, i - 1);
      EventAllowed(log, i - 1);
      Extend(init, e);
      ScopeEarlier(f, log, i - 1, i);
      StaysTidy(f, log, i - 1);
      NoBlockNever(f, log, i - 1);
      assert EventFits(f, e);
      TidyStep(f, BookOf(init), e, Awaits(log, i - 1));
      if Accepts(e) { MutateStatus(BookOf(init), e); }
    }
  }

  lemma PrefixLegal(log: seq<Event>, i: nat)
    requires Legal(log) && i <= |log|
    ensures Legal(log[..i])
  {
    hide Allowed, BookOf;
    if i < |log| { EventAllowed(log, i); } else { assert log[..i] == log; }
  }

  lemma {:induction false} CountLast(ops: seq<Fate>, p: Fate -> bool)
    requires forall j :: 0 <= j < |ops| - 1 ==> !p(ops[j])
    ensures Count(ops, p) <= 1
  {
    if ops != [] { CountNone(ops[..|ops| - 1], p); }
  }

  lemma OneLive(b: Book)
    requires Safe(b) && b.status.externalRef == ""
    requires forall j :: 0 <= j < |b.ops| && Leaked(b.ops[j]) ==> j == |b.ops| - 1
    ensures Count(b.ops, MayLive) <= 1
  {
    hide Count;
    UnidentifiedCount(b);
    CountLast(b.ops, Leaked);
    if b.status.anchor.Some? { CountNone(b.ops, Leaked); }
  }

  // ---------------------------------------------------------------- theorems

  /**
   At most one operation before identity, with nothing left to the auditor's judgement. The
   hypotheses: every OBSERVE URL is keyed on externalRef; what a CREATE mapping reports as
   completed, the externalRef expression names; no CREATE mapping loses its polling block under
   an anchor; every CREATE accepted before identity is anchored. UPDATE and REMOVE are free. Then
   at every instant before identity no operation has leaked but one whose anchor write is the
   next event, and at most one may be running or have succeeded.
   */
  lemma AtMostOneLive(fits: Spec -> bool, answers: Response -> bool, w: World, tapes: seq<seq<Turn>>, i: nat)
    requires Sturdy(Resources(fits, answers))
    requires New(w) && fits(w.server.spec) && TapesFit(Resources(fits, answers), tapes)
    requires var log := Run(w, tapes).log;
      AllAnchored(Resources(fits, answers), log) && KeepsBlocks(Resources(fits, answers), log)
    requires i <= |Run(w, tapes).log| && BookOf(Run(w, tapes).log[..i]).status.externalRef == ""
    ensures var log := Run(w, tapes).log;
      var ops := BookOf(log[..i]).ops;
      && (forall j :: 0 <= j < |ops| && Leaked(ops[j]) ==> j == |ops| - 1 && Awaits(log, i))
      && Count(ops, MayLive) <= 1
  {
    hide Run, Legal, BookOf, EventsFit, Names, TapesFit, AllAnchored, KeepsBlocks, Count, Leaked, Awaits;
    var f := Resources(fits, answers);
    RunIsLegal(w, tapes);
    RunEventsFit(f, w, tapes);
    var log := Run(w, tapes).log;
    StaysTidy(f, log, i);
    PrefixSafe(w, tapes, i);
    OneLive(BookOf(log[..i]));
  }

  /** When all fitting mappings poll, no poll finds its block gone. */
  lemma PollingSpecsKeepBlocks(f: Family, w: World, tapes: seq<seq<Turn>>)
    requires IsFamily(f) && Polls(f) && New(w) && f.fits(w.server.spec) && TapesFit(f, tapes)
    ensures KeepsBlocks(f, Run(w, tapes).log)
  {
    hide Run, IsFamily, TapesFit, Fitting;
    RunEventsFit(f, w, tapes);
    var log := Run(w, tapes).log;
    forall i | 0 <= i < |log| && log[i].Polled? && InScope(f, log[i].status) ensures log[i].verdict != NoBlock {
      assert EventFits(f, log[i]);
    }
  }

  /** On prompt tapes every accepted mutate is anchored. */
  lemma PromptTapesAnchor(f: Family, w: World, tapes: seq<seq<Turn>>)
    requires w.log == [] && w.server.status.anchor.None? && (forall t :: t in tapes ==> Prompt(t))
    ensures AllAnchored(f, Run(w, tapes).log)
  {
    hide Run, Prompt;
    RunFlow(Rule(Family(spec => true, r => true, false), true), w, tapes);
  }

  /** The same with hypotheses on specs, answers and tapes alone. */
  lemma AtMostOneOnPromptTapes(fits: Spec -> bool, answers: Response -> bool, w: World, tapes: seq<seq<Turn>>, i: nat)
    requires Sturdy(Resources(fits, answers)) && Polls(Resources(fits, answers))
    requires New(w) && fits(w.server.spec) && TapesFit(Resources(fits, answers), tapes)
    requires forall t :: t in tapes ==> Prompt(t)
    requires i <= |Run(w, tapes).log| && BookOf(Run(w, tapes).log[..i]).status.externalRef == ""
    ensures Count(BookOf(Run(w, tapes).log[..i]).ops, MayLive) <= 1
  {
    hide Run, Names, Polls, IsFamily, TapesFit, Prompt, AllAnchored, KeepsBlocks, BookOf, Count;
    PromptTapesAnchor(Resources(fits, answers), w, tapes);
    PollingSpecsKeepBlocks(Resources(fits, answers), w, tapes);
    AtMostOneLive(fits, answers, w, tapes, i);
  }

  /**
   Nothing leaks at all, before identity or after, when the same is asked of every mapping that
   UPDATE and REMOVE resolve to; the OBSERVE URL is then free.
   */
  lemma NothingLeaks(fits: Spec -> bool, answers: Response -> bool, w: World, tapes: seq<seq<Turn>>)
    requires Sturdy(Family(fits, answers, false))
    requires New(w) && fits(w.server.spec) && TapesFit(Family(fits, answers, false), tapes)
    requires var log := Run(w, tapes).log;
      AllAnchored(Family(fits, answers, false), log) && KeepsBlocks(Family(fits, answers, false), log)
    ensures Count(BookOf(Run(w, tapes).log).ops, Leaked) == 0
  {
    hide Run, Legal, BookOf, EventsFit, Names, TapesFit, AllAnchored, KeepsBlocks, Count, Leaked;
    var f := Family(fits, answers, false);
    RunIsLegal(w, tapes);
    RunEventsFit(f, w, tapes);
    var log := Run(w, tapes).log;
    StaysTidy(f, log, |log|);
    assert log[..|log|] == log;
    CountNone(BookOf(log).ops, Leaked);
  }

  /** For one spec, the hypotheses speak of its OBSERVE URL, its CREATE mapping and its externalRef only. */
  lemma OneSpec(spec: Spec, create: Mapping, answers: Response -> bool)
    requires Keyed(spec) && MappingFor(spec, Create) == Some(create) && create.polling.Some?
    requires forall st: Status, mutate, poll, seen | st.externalRef == "" && answers(mutate) && answers(poll)
                                             && ReportsEnd(create.polling.value, seen, mutate, poll, None) ::
      EvalExternalRef(spec, st, mutate, Some(poll)) != ""
    ensures var f := Resources(s => s == spec, answers); Sturdy(f) && Polls(f)
  {
    hide EvalExternalRef, ReportsEnd, Keyed, MappingFor;
    var f := Resources(s => s == spec, answers);
    assert forall m :: Fitting(f, m) ==> m == create;
    forall m, st: Status, mutate, poll | Fitting(f, m) && answers(mutate) && Reported(f, m.polling.value, mutate, poll) && st.externalRef == ""
      ensures EvalExternalRef(spec, st, mutate, poll) != ""
    {
      var seen :| ReportsEnd(m.polling.value, seen, mutate, poll.value, None);
      assert poll == Some(poll.value);
    }
  }
}
