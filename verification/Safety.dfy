/**
 The safety theorems: what holds of every run that starts from a new resource, for every
 spec, every sequence of edits and deletions, every crash and every answer of the remote side.
 */
module Safety {
  import opened Api
  import opened Cluster
  import opened RequestMapping
  import opened RequestGen
  import opened Poller
  import opened Deploy
  import opened Observing
  import opened Reconciling
  import opened Protocol
  import opened ProtocolProofs
  import opened Refinement

  /** A resource nothing has happened to yet. */
  ghost predicate New(w: World) {
    w.log == [] && w.server.status == FRESH_STATUS && w.server.generation >= 0
  }

  lemma NewIsSound(w: World)
    requires New(w)
    ensures Sound(w)
  {
  }

  /** Every run is legal, and the books of its log show the stored status. */
  lemma RunIsLegal(w: World, tapes: seq<seq<Turn>>)
    requires New(w)
    ensures var r := Run(w, tapes);
      Legal(r.log) && Safe(BookOf(r.log)) && BookOf(r.log).status == r.server.status
  {
    hide Run;
    RunGood(w, tapes);
    LegalIsSafe(Run(w, tapes).log);
  }

  // ---------------------------------------------------------------- the operation ledger

  function AnchorWrites(log: seq<Event>): nat {
    if log == [] then 0 else
      var e := log[|log| - 1];
      AnchorWrites(log[..|log| - 1]) + if e.Wrote? && e.before.status.anchor.None? && e.after.anchor.Some? then 1 else 0
  }

  lemma {:induction false} AnchorsBalance(log: seq<Event>)
    requires Legal(log)
    ensures AnchorWrites(log) == AnchorClears(log) + if BookOf(log).status.anchor.Some? then 1 else 0
  {
    hide Guard, Apply, ReportsAbsence;
    if log != [] {
      var init, e := log[..|log| - 1], log[|log| - 1];
      AnchorsBalance(init);
      if e.Wrote? { WroteBefore(BookOf(init), e); }
    }
  }

  /**
   Polled mutates are conserved: each one sent is exactly one of an anchor cleared, the anchor
   held now, or a send that ended before the anchor write.
   */
  lemma OperationLedger(w: World, tapes: seq<seq<Turn>>)
    requires New(w)
    ensures var r := Run(w, tapes);
      var held := if r.server.status.anchor.Some? then 1 else 0;
      && AnchorWrites(r.log) == AnchorClears(r.log) + held
      && PolledMutates(r.log) == AnchorClears(r.log) + held + Count(BookOf(r.log).ops, NeverAnchored)
  {
    hide Run, Legal, BookOf, AnchorWrites, AnchorClears, PolledMutates, Count;
    RunIsLegal(w, tapes);
    AnchorsBalance(Run(w, tapes).log);
    LedgerBalances(Run(w, tapes).log);
  }

  /** Neither a new reconcile nor an anchor write or clear lies between i and j. */
  predicate SameOperation(log: seq<Event>, i: nat, j: nat)
    requires i <= j <= |log|
  {
    forall k :: i <= k < j ==>
      !log[k].Began? && !(log[k].Wrote? && log[k].before.status.anchor.Some? != log[k].after.anchor.Some?)
  }

  predicate AcceptedSend(e: Event, response: Response) {
    e.Mutate? && e.polled && e.accepted && e.reply == Answer(response)
  }

  /** An event that keeps a response pending is no polled mutate, and ends neither reconcile nor operation. */
  lemma PendingStep(b: Book, e: Event)
    requires Safe(b) && Allowed(b, e) && Next(b, e).pending.Some?
    ensures e.Mutate? && e.polled ==> AcceptedSend(e, Next(b, e).pending.value)
    ensures !(e.Mutate? && e.polled) ==> b.pending == Next(b, e).pending && !e.Began?
    ensures e.Wrote? ==> e.before.status.anchor.Some? == e.after.anchor.Some?
  {
    hide Guard, Apply, ReportsAbsence, Settle, FateOnClear;
  }

  /** A pending response is the answer to the latest polled mutate, sent by this very reconcile. */
  lemma {:induction false} PendingIsLatestSend(log: seq<Event>) returns (i: nat)
    requires Legal(log) && BookOf(log).pending.Some?
    ensures i < |log| && AcceptedSend(log[i], BookOf(log).pending.value)
    ensures SameOperation(log, i, |log|)
    ensures forall k :: i < k < |log| ==> !(log[k].Mutate? && log[k].polled)
  {
    hide Safe, Allowed, Next, AcceptedSend;
    var init, e := log[..|log| - 1], log[|log| - 1];
    LegalIsSafe(init);
    PendingStep(BookOf(init), e);
    if e.Mutate? && e.polled {
      i := |log| - 1;
    } else {
      i := PendingIsLatestSend(init);
    }
  }

  /** An event that keeps a verdict neither polls, nor begins a reconcile, nor clears an anchor. */
  lemma VerdictStep(b: Book, e: Event)
    requires Allowed(b, e) && Next(b, e).verdict.Some?
    ensures e.Polled? ==> Next(b, e).verdict == Some(e.verdict)
    ensures !e.Polled? ==> b.verdict == Next(b, e).verdict && !e.Began?
    ensures e.Wrote? ==> !(e.before.status.anchor.Some? && e.after.anchor.None?)
  {
    hide Guard, Apply, ReportsAbsence, Settle, FateOnClear;
  }

  /** A verdict on the books was reached by a poll of this very reconcile. */
  lemma {:induction false} VerdictIsPolled(log: seq<Event>) returns (i: nat)
    requires Legal(log) && BookOf(log).verdict.Some?
    ensures i < |log| && log[i].Polled? && log[i].verdict == BookOf(log).verdict.value
    ensures forall k :: i < k < |log| ==> !log[k].Began? && !log[k].Polled?
    ensures forall k :: i < k < |log| && log[k].Wrote? ==> !(log[k].before.status.anchor.Some? && log[k].after.anchor.None?)
  {
    hide Allowed, Next;
    var init, e := log[..|log| - 1], log[|log| - 1];
    VerdictStep(BookOf(init), e);
    if e.Polled? {
      i := |log| - 1;
    } else {
      i := VerdictIsPolled(init);
    }
  }

  /**
   The anchor is written only with the answer of an accepted mutate the same reconcile has just
   sent, under a clock of its own.
   */
  lemma AnchorIsFresh(w: World, tapes: seq<seq<Turn>>, i: nat) returns (j: nat)
    requires New(w)
    requires var log := Run(w, tapes).log;
      i < |log| && log[i].Wrote? && log[i].before.status.anchor.None? && log[i].after.anchor.Some?
    ensures var log := Run(w, tapes).log;
      && j < i && AcceptedSend(log[j], log[i].after.anchor.value) && SameOperation(log, j, i)
      && (forall k :: j < k < i ==> !(log[k].Mutate? && log[k].polled))
      && log[i].after.startedAt == Some(Stored(log[i].at))
  {
    hide Run, Legal, BookOf, Safe, Allowed;
    RunIsLegal(w, tapes);
    var log := Run(w, tapes).log;
    EventAllowed(log, i);
    LegalIsSafe(log[..i]);
    AnchorWriteAllowed(BookOf(log[..i]), log[i]);
    j := PendingIsLatestSend(log[..i]);
    assert forall k :: j <= k < i ==> log[..i][k] == log[k];
  }

  lemma AnchorWriteAllowed(b: Book, e: Event)
    requires Safe(b) && Allowed(b, e) && e.Wrote? && e.before.status.anchor.None? && e.after.anchor.Some?
    ensures b.pending == e.after.anchor && e.after.startedAt == Some(Stored(e.at))
  {
    hide EvalExternalRef, RecordDetails, ReportsAbsence, ShouldSetCache;
  }

  /**
   The anchor is cleared only after the same reconcile polled the operation to its end: it
   completed, it is confirmed failed, or its mapping has no polling block any more. Never on a
   timeout, a bad polling URL, or any other poll verdict.
   */
  lemma ClearsOnlyAtTheEnd(w: World, tapes: seq<seq<Turn>>, i: nat) returns (j: nat)
    requires New(w)
    requires var log := Run(w, tapes).log;
      i < |log| && log[i].Wrote? && log[i].before.status.anchor.Some? && log[i].after.anchor.None?
    ensures var log := Run(w, tapes).log;
      && j < i && log[j].Polled? && Ends(Some(log[j].verdict))
      && (forall k :: j < k < i ==> !log[k].Began? && !log[k].Polled?)
  {
    hide Run, Legal, BookOf, Allowed;
    RunIsLegal(w, tapes);
    var log := Run(w, tapes).log;
    EventAllowed(log, i);
    WroteBefore(BookOf(log[..i]), log[i]);
    WriteEffect(BookOf(log[..i]), log[i]);
    j := VerdictIsPolled(log[..i]);
    assert forall k :: j <= k < i ==> log[..i][k] == log[k];
  }

  // ---------------------------------------------------------------- at most one CREATE

  /** The ways an accepted operation can escape the anchor without having been disproved. */
  predicate Leaked(f: Fate) {
    f == Lost || f == Blank || f == Released
  }

  /** Neither refused nor confirmed failed: the operation runs, or has succeeded. */
  predicate MayLive(f: Fate) {
    f != Rejected && f != Dead
  }

  lemma {:induction false} CountMayLive(ops: seq<Fate>)
    ensures Count(ops, MayLive) == Count(ops, Leaked) + Count(ops, f => f == Anchored) + Count(ops, f => f == Identified)
  {
    if ops != [] { CountMayLive(ops[..|ops| - 1]); }
  }

  lemma {:induction false} CountNone(ops: seq<Fate>, p: Fate -> bool)
    requires forall i :: 0 <= i < |ops| ==> !p(ops[i])
    ensures Count(ops, p) == 0
  {
    if ops != [] { CountNone(ops[..|ops| - 1], p); }
  }

  lemma UnidentifiedCount(b: Book)
    requires Safe(b) && b.status.externalRef == ""
    ensures Count(b.ops, MayLive) == Count(b.ops, Leaked) + if b.status.anchor.Some? then 1 else 0
  {
    var ops := b.ops;
    CountMayLive(ops);
    CountNone(ops, f => f == Identified);
    if b.status.anchor.Some? {
      CountNone(ops[..|ops| - 1], f => f == Anchored);
    } else {
      CountNone(ops, f => f == Anchored);
    }
  }

  /**
   At every instant before the resource has an identity, the operations that may be running or
   may have succeeded are the anchored one and the leaked ones. Without a leak there is at most
   one, through timeouts, bad polling URLs, terminal stalls and any number of spec edits.
   */
  lemma AtMostOneOperation(w: World, tapes: seq<seq<Turn>>, i: nat)
    requires New(w) && i <= |Run(w, tapes).log|
    ensures var b := BookOf(Run(w, tapes).log[..i]);
      b.status.externalRef == "" ==>
        && Count(b.ops, MayLive) == Count(b.ops, Leaked) + (if b.status.anchor.Some? then 1 else 0)
        && (Count(b.ops, MayLive) <= 1 <==> Count(b.ops, Leaked) == 0 || (Count(b.ops, Leaked) == 1 && b.status.anchor.None?))
  {
    hide Run, Legal, BookOf, Safe, Count;
    PrefixSafe(w, tapes, i);
    var b := BookOf(Run(w, tapes).log[..i]);
    if b.status.externalRef == "" { UnidentifiedCount(b); }
  }

  lemma PrefixSafe(w: World, tapes: seq<seq<Turn>>, i: nat)
    requires New(w) && i <= |Run(w, tapes).log|
    ensures Legal(Run(w, tapes).log[..i]) && Safe(BookOf(Run(w, tapes).log[..i]))
  {
    hide Run, Legal, BookOf, Safe, Allowed;
    RunIsLegal(w, tapes);
    var log := Run(w, tapes).log;
    if i < |log| { EventAllowed(log, i); } else { assert log[..i] == log; }
    LegalIsSafe(log[..i]);
  }

  /**
   A mutate that goes out before the resource has an identity finds every earlier operation
   ended: none may still be live if and only if none has leaked.
   */
  lemma EarlierOperationsEnded(w: World, tapes: seq<seq<Turn>>, i: nat)
    requires New(w)
    requires var log := Run(w, tapes).log; i < |log| && log[i].Mutate? && log[i].status.externalRef == ""
    ensures var b := BookOf(Run(w, tapes).log[..i]);
      Count(b.ops, MayLive) == 0 <==> Count(b.ops, Leaked) == 0
  {
    hide Run, Legal, BookOf, Safe, Count;
    PrefixSafe(w, tapes, i);
    var log := Run(w, tapes).log;
    RunIsLegal(w, tapes);
    EventAllowed(log, i);
    UnidentifiedCount(BookOf(log[..i]));
  }

  // ---------------------------------------------------------------- deletion

  /**
   While deletion is requested and an operation is anchored, Observe never answers not-existing;
   so the finalizer is never dropped over an anchor.
   */
  lemma DeletionHoldsOperation(w: World)
    requires Good(w)
    ensures var (r, a) := ObserveResource(w);
      Alive(r) && r.local.deleted && r.server.status.anchor.Some? ==> !a.NotExists?
  {
    hide ObserveResource;
    ObserveResourceGood(w);
  }

  /**
   Over whole runs: the finalizer is dropped with no anchor, and over an identity only after
   absence was reported; no mutate of any kind is sent over an anchor or a terminal; a REMOVE
   without an identity is sent only on the response-driven path.
   */
  lemma DeletionSafety(w: World, tapes: seq<seq<Turn>>, i: nat)
    requires New(w) && i < |Run(w, tapes).log|
    ensures var log, e := Run(w, tapes).log, Run(w, tapes).log[i];
      && (e.Finalized? ==> e.status.anchor.None? && (e.status.externalRef != "" ==> BookOf(log[..i]).absent))
      && (e.Mutate? ==> e.status.anchor.None? && e.status.terminalError == "")
      && (e.Mutate? && e.action == Remove && BookOf(log[..i]).routed == Some(true) ==> e.status.externalRef != "")
  {
    hide Run, Legal, BookOf, Guard;
    RunIsLegal(w, tapes);
    EventAllowed(Run(w, tapes).log, i);
  }

  // ---------------------------------------------------------------- identity

  lemma {:induction false} IdentityStays(log: seq<Event>, i: nat)
    requires Legal(log) && i <= |log| && BookOf(log[..i]).status.externalRef != ""
    ensures BookOf(log).status.externalRef != ""
    decreases |log|
  {
    hide Allowed;
    if i == |log| {
      assert log[..i] == log;
    } else {
      var init, e := log[..|log| - 1], log[|log| - 1];
      assert init[..i] == log[..i];
      IdentityStays(init, i);
      if e.Wrote? { WriteEffect(BookOf(init), e); }
    }
  }

  /** Once set, externalRef never returns to empty. */
  lemma IdentityIsMonotone(w: World, tapes: seq<seq<Turn>>, i: nat)
    requires New(w) && i <= |Run(w, tapes).log|
    requires BookOf(Run(w, tapes).log[..i]).status.externalRef != ""
    ensures Run(w, tapes).server.status.externalRef != ""
  {
    hide Run, Legal, BookOf;
    RunIsLegal(w, tapes);
    IdentityStays(Run(w, tapes).log, i);
  }

  /** An absence on the books was reported by this reconcile's OBSERVE response. */
  lemma {:induction false} AbsenceIsReported(log: seq<Event>) returns (i: nat)
    requires BookOf(log).absent
    ensures i < |log| && log[i].ObserveCall? && ReportsAbsence(log[i].spec, log[i].status, ResponseOf(log[i].reply))
    ensures forall k :: i < k < |log| ==> !log[k].Began? && !log[k].ObserveCall?
  {
    hide ReportsAbsence, Settle, FateOnClear;
    var init, e := log[..|log| - 1], log[|log| - 1];
    if e.ObserveCall? {
      i := |log| - 1;
    } else {
      i := AbsenceIsReported(init);
    }
  }

  /** With an identity, CREATE is sent only if this reconcile's own checks reported absence. */
  lemma IdentityGuardsCreate(w: World, tapes: seq<seq<Turn>>, i: nat) returns (j: nat)
    requires New(w)
    requires var log := Run(w, tapes).log;
      i < |log| && log[i].Mutate? && log[i].action == Create && log[i].status.externalRef != ""
    ensures var log := Run(w, tapes).log;
      && j < i && log[j].ObserveCall? && ReportsAbsence(log[j].spec, log[j].status, ResponseOf(log[j].reply))
      && (forall k :: j < k < i ==> !log[k].Began? && !log[k].ObserveCall?)
  {
    hide Run, Legal, BookOf, Guard, ReportsAbsence;
    RunIsLegal(w, tapes);
    var log := Run(w, tapes).log;
    EventAllowed(log, i);
    j := AbsenceIsReported(log[..i]);
    assert forall k :: j <= k < i ==> log[..i][k] == log[k];
  }

  /**
   The ways an identity changes: an import seeds it where there was none, from an external name
   that is not the default one; otherwise the externalRef expression has yielded it.
   */
  lemma IdentityIsEarned(w: World, tapes: seq<seq<Turn>>, i: nat)
    requires New(w) && i < |Run(w, tapes).log|
    requires var e := Run(w, tapes).log[i]; e.Wrote? && e.after.externalRef != e.before.status.externalRef
    ensures var e := Run(w, tapes).log[i];
      var o := e.before;
      || (o.status.externalRef == "" && e.after.externalRef == o.externalName != o.name)
      || exists st, mutate, poll :: e.after.externalRef == EvalExternalRef(o.spec, st, mutate, poll) != ""
  {
    hide Run, Legal, BookOf;
    RunIsLegal(w, tapes);
    EventAllowed(Run(w, tapes).log, i);
    EarnedWrite(BookOf(Run(w, tapes).log[..i]), Run(w, tapes).log[i]);
  }

  lemma EarnedWrite(b: Book, e: Event)
    requires Allowed(b, e) && e.Wrote? && e.after.externalRef != e.before.status.externalRef
    ensures var o := e.before;
      || (o.status.externalRef == "" && e.after.externalRef == o.externalName != o.name)
      || exists st, mutate, poll :: e.after.externalRef == EvalExternalRef(o.spec, st, mutate, poll) != ""
  {
    hide EvalExternalRef, RecordDetails, ShouldSetCache, ReportsAbsence;
    match e.change {
      case ExtractRef(response) => assert e.after.externalRef == EvalExternalRef(e.before.spec, e.before.status, response, None);
      case Complete(mutate, poll) =>
        var st := e.before.status.(anchor := None, startedAt := None);
        assert e.after.externalRef == EvalExternalRef(e.before.spec, st, mutate, poll);
      case _ =>
    }
  }

  // ---------------------------------------------------------------- the clock

  /** The clock belongs to the anchor, and every poll runs on the stored clock. */
  lemma ClockPairing(w: World, tapes: seq<seq<Turn>>, i: nat)
    requires New(w) && i < |Run(w, tapes).log|
    ensures var r := Run(w, tapes);
      var st, e := BookOf(r.log[..i]).status, r.log[i];
      && (r.server.status.startedAt.Some? ==> r.server.status.anchor.Some?)
      && (st.startedAt.Some? ==> st.anchor.Some?)
      && (e.Polled? ==> e.status == st && st.startedAt.Some?)
      && (e.PollCall? ==> st.startedAt.Some? && st.anchor.Some?)
  {
    hide Run, Legal, BookOf, Guard;
    RunIsLegal(w, tapes);
    EventAllowed(Run(w, tapes).log, i);
    LegalIsSafe(Run(w, tapes).log[..i]);
  }

  /** A write that neither clears a terminal nor the anchor. */
  predicate KeepsClock(e: Event) {
    !(e.Wrote? && (e.change.ClearTerminal? || (e.before.status.anchor.Some? && e.after.anchor.None?)))
  }

  lemma {:induction false} ClockStays(log: seq<Event>, i: nat)
    requires Legal(log) && i <= |log| && BookOf(log[..i]).status.startedAt.Some?
    requires forall k :: i <= k < |log| ==> KeepsClock(log[k])
    ensures BookOf(log).status.startedAt == BookOf(log[..i]).status.startedAt
    decreases |log|
  {
    hide Allowed, Legal;
    if i == |log| {
      assert log[..i] == log;
    } else {
      var init, e := log[..|log| - 1], log[|log| - 1];
      assert init[..i] == log[..i];
      EventAllowed(log, |log| - 1);
      ClockStays(init, i);
      LegalIsSafe(init);
      if e.Wrote? { ClockKept(BookOf(init), e); }
    }
  }

  lemma ClockKept(b: Book, e: Event)
    requires Safe(b) && Allowed(b, e) && e.Wrote? && KeepsClock(e) && b.status.startedAt.Some?
    ensures e.after.startedAt == b.status.startedAt
  {
    hide EvalExternalRef, RecordDetails, ShouldSetCache, ReportsAbsence;
  }

  predicate StartsClock(e: Event) {
    e.Wrote? && (e.change.StartClock? || e.change.PersistAnchor?)
  }

  lemma StartFindsNoClock(b: Book, e: Event)
    requires Safe(b) && Allowed(b, e) && StartsClock(e)
    ensures b.status.startedAt.None? && e.after.startedAt.Some?
  {
  }

  /**
   The clock starts exactly once per operation and terminal: between two starts lies the
   clearing of a terminal or of the anchor.
   */
  lemma ClockStartsOnce(w: World, tapes: seq<seq<Turn>>, i: nat, j: nat) returns (k: nat)
    requires New(w) && i < j < |Run(w, tapes).log|
    requires var log := Run(w, tapes).log;
      StartsClock(log[i]) && StartsClock(log[j])
    ensures i < k < j && !KeepsClock(Run(w, tapes).log[k])
  {
    hide Run, Legal, BookOf, Safe, Allowed;
    RunIsLegal(w, tapes);
    var log := Run(w, tapes).log;
    EventAllowed(log, i);
    EventAllowed(log, j);
    LegalIsSafe(log[..i]);
    LegalIsSafe(log[..j]);
    StartFindsNoClock(BookOf(log[..i]), log[i]);
    StartFindsNoClock(BookOf(log[..j]), log[j]);
    assert log[..i + 1][..i] == log[..i];
    Extend(log[..i], log[i]);
    assert log[..i + 1] == log[..i] + [log[i]];
    assert BookOf(log[..i + 1]).status.startedAt.Some?;
    assert log[..j][..i + 1] == log[..i + 1];
    k := i + 1;
    while k < j && KeepsClock(log[k])
      invariant i < k <= j
      invariant forall n :: i < n < k ==> KeepsClock(log[n])
    {
      k := k + 1;
    }
    if k == j {
      ClockStays(log[..j], i + 1);
      assert false;
    }
  }
}
