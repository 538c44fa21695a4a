/** What every legal log guarantees. */
module ProtocolProofs {
  import opened Api
  import opened Cluster
  import opened RequestGen
  import opened Protocol

  /** The invariant of the protocol. */
  ghost predicate Safe(b: Book) {
    var st := b.status;
    && (st.startedAt.Some? ==> st.anchor.Some?)
    && (b.pending.Some? ==> st.anchor.None? && b.ops != [] && b.ops[|b.ops| - 1] == Lost)
    && (st.anchor.Some? <==> b.ops != [] && b.ops[|b.ops| - 1] == Anchored)
    && (forall i :: 0 <= i < |b.ops| - 1 ==> b.ops[i] != Anchored)
    && (st.externalRef == "" ==> forall i :: 0 <= i < |b.ops| ==> b.ops[i] != Identified)
  }

  lemma SafeStep(b: Book, e: Event)
    requires Safe(b) && Allowed(b, e)
    ensures Safe(Next(b, e))
  {
    hide EvalExternalRef, RecordDetails, ShouldSetCache, ReportsAbsence;
    if e.Wrote? {
      WriteEffect(b, e);
    }
  }

  /** The poll verdicts that end an operation: completed, confirmed failed, or nothing to poll. */
  predicate Ends(verdict: Option<Verdict>) {
    verdict == Some(OpFailed) || verdict == Some(Completed) || verdict == Some(NoBlock)
  }

  /** What one allowed write does to anchor, clock and identity. */
  lemma WriteEffect(b: Book, e: Event)
    requires Allowed(b, e) && e.Wrote?
    ensures var st, after := b.status, e.after;
      && (st.externalRef != "" ==> after.externalRef != "")
      && (st.anchor.None? && after.anchor.Some? ==> b.pending == after.anchor && after.startedAt.Some?)
      && (st.anchor.Some? && after.anchor.Some? ==> st.anchor == after.anchor)
      && (st.anchor.Some? && after.anchor.None? ==> after.startedAt.None? && Ends(b.verdict))
      && (after.startedAt.Some? ==> after.anchor.Some? || st.startedAt.Some?)
  {
    hide EvalExternalRef, RecordDetails, ShouldSetCache, ReportsAbsence;
  }

  lemma {:induction false} LegalIsSafe(log: seq<Event>)
    requires Legal(log)
    ensures Safe(BookOf(log))
  {
    hide Allowed, Next;
    if log != [] {
      LegalIsSafe(log[..|log| - 1]);
      SafeStep(BookOf(log[..|log| - 1]), log[|log| - 1]);
    }
  }

  // ---------------------------------------------------------------- reading single events

  lemma {:induction false} EventAllowed(log: seq<Event>, i: nat)
    requires Legal(log) && i < |log|
    ensures Legal(log[..i]) && Allowed(BookOf(log[..i]), log[i])
    decreases |log|
  {
    hide Allowed, Next;
    var init := log[..|log| - 1];
    if i < |log| - 1 {
      EventAllowed(init, i);
      assert init[..i] == log[..i];
    }
  }

  // ---------------------------------------------------------------- the ledger

  /** Mutates sent through polling mappings. */
  function PolledMutates(log: seq<Event>): nat {
    if log == [] then 0 else
      var e := log[|log| - 1];
      PolledMutates(log[..|log| - 1]) + if e.Mutate? && e.polled then 1 else 0
  }

  /** Writes that cleared the anchor. */
  function AnchorClears(log: seq<Event>): nat {
    if log == [] then 0 else
      var e := log[|log| - 1];
      AnchorClears(log[..|log| - 1]) + if e.Wrote? && e.before.status.anchor.Some? && e.after.anchor.None? then 1 else 0
  }

  predicate NeverAnchored(f: Fate) {
    f == Rejected || f == Lost
  }

  predicate Cleared(f: Fate) {
    f == Identified || f == Blank || f == Dead || f == Released
  }

  function Count(ops: seq<Fate>, p: Fate -> bool): nat {
    if ops == [] then 0 else Count(ops[..|ops| - 1], p) + if p(ops[|ops| - 1]) then 1 else 0
  }

  lemma CountSettle(ops: seq<Fate>, f: Fate, p: Fate -> bool)
    requires ops != []
    ensures Count(Settle(ops, f), p) + (if p(ops[|ops| - 1]) then 1 else 0) == Count(ops, p) + if p(f) then 1 else 0
  {
    assert Settle(ops, f)[..|ops| - 1] == ops[..|ops| - 1];
  }

  lemma CountPush(ops: seq<Fate>, f: Fate, p: Fate -> bool)
    ensures Count(ops + [f], p) == Count(ops, p) + if p(f) then 1 else 0
  {
    assert (ops + [f])[..|ops|] == ops;
  }

  /** The auditor's fates account for every polled mutate and every anchor clear in the log. */
  lemma {:induction false} LedgerBalances(log: seq<Event>)
    requires Legal(log)
    ensures var b := BookOf(log);
      && PolledMutates(log) == |b.ops| == AnchorClears(log) + (if b.status.anchor.Some? then 1 else 0) + Count(b.ops, NeverAnchored)
      && AnchorClears(log) == Count(b.ops, Cleared)
  {
    hide Apply, Guard, ReportsAbsence;
    if log != [] {
      var init, e := log[..|log| - 1], log[|log| - 1];
      LedgerBalances(init);
      LegalIsSafe(init);
      LegalIsSafe(log);
      LedgerStep(BookOf(init), e);
    }
  }

  lemma LedgerStep(b: Book, e: Event)
    requires Safe(b) && Allowed(b, e)
    ensures var b' := Next(b, e);
      var clears := if e.Wrote? && e.before.status.anchor.Some? && e.after.anchor.None? then 1 else 0;
      var sent := if e.Mutate? && e.polled then 1 else 0;
      && |b'.ops| == |b.ops| + sent
      && Count(b'.ops, Cleared) == Count(b.ops, Cleared) + clears
      && Count(b'.ops, NeverAnchored) + (if b'.status.anchor.Some? then 1 else 0) + clears
         == Count(b.ops, NeverAnchored) + (if b.status.anchor.Some? then 1 else 0) + sent
  {
    hide Apply, Guard, ReportsAbsence, Count;
    if e.Wrote? {
      hide Allowed;
      WriteEffect(b, e);
      assert e.before.status == b.status by { WroteBefore(b, e); }
      if b.ops != [] {
        CountSettle(b.ops, Anchored, Cleared);
        CountSettle(b.ops, Anchored, NeverAnchored);
        CountSettle(b.ops, FateOnClear(b.verdict, e.after), Cleared);
        CountSettle(b.ops, FateOnClear(b.verdict, e.after), NeverAnchored);
      }
    } else if e.Mutate? {
      CountPush(b.ops, Lost, Cleared);
      CountPush(b.ops, Lost, NeverAnchored);
      CountPush(b.ops, Rejected, Cleared);
      CountPush(b.ops, Rejected, NeverAnchored);
    }
  }

  lemma WroteBefore(b: Book, e: Event)
    requires Allowed(b, e) && e.Wrote?
    ensures e.before.status == b.status
  {
  }
}
