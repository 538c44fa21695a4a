/** The attempt ledger of the disposable machine, and the cap that follows from it. */
module DisposableProofs {
  import opened Api
  import opened Disposable

  /** The int32 a counter shows after n increments from zero. */
  function Wrap32(n: int): (r: int)
    ensures 0 <= n <= 0x7fff_ffff ==> r == n
  {
    (n + 0x8000_0000) % 0x1_0000_0000 - 0x8000_0000
  }

  lemma WrapNext(n: int)
    ensures Wrap32(n + 1) == Increment32(Wrap32(n))
  {
  }

  function Held(st: DisposableStatus): nat {
    if st.anchor.Some? then 1 else 0
  }

  function Cap(limit: int): nat {
    if limit > 0 then limit else 0
  }

  predicate OneOff(spec: DisposableSpec) {
    !spec.loop && (spec.limit.Some? ==> -0x8000_0000 <= spec.limit.value <= 0x7fff_ffff)
  }

  /** Requests accounted for by counted failures; `debt` have been sent but not booked yet. */
  function Counted(w: World, debt: nat): int {
    w.sent + w.phantoms - w.lost - Held(w.server.status) - debt
  }

  predicate Ledger(w: World, debt: nat) {
    var spec, st := w.server.spec, w.server.status;
    && OneOff(spec)
    && (st.anchor.Some? ==> spec.polling.Some?)
    && (st.synced ==> st.failed == 0 && st.anchor.None?)
    && (!st.synced ==> Counted(w, debt) >= 0 && st.failed == Wrap32(Counted(w, debt)))
    && (spec.limit.Some? ==> Counted(w, debt) + Held(st) <= Cap(spec.limit.value))
  }

  ghost predicate InSync(w: World) {
    w.local.status == w.server.status && w.local.spec == w.server.spec
  }

  /** The next failure may be counted. */
  predicate Room(w: World) {
    var spec, st := w.server.spec, w.server.status;
    !st.synced && st.anchor.None? && !LimitReached(spec, st)
  }

  lemma AdvanceKeeps(w: World, debt: nat)
    requires Alive(w) && Ledger(w, debt)
    ensures var r := Advance(w);
      && Ledger(r, debt) && r.server.status == w.server.status && r.server.spec == w.server.spec
      && (InSync(w) ==> InSync(r)) && (Room(w) ==> Room(r))
      && r.sent == w.sent && r.phantoms == w.phantoms && r.lost == w.lost
  {
  }

  lemma GetKeeps(w: World, debt: nat)
    requires Ledger(w, debt)
    ensures var (r, ok) := Get(w);
      && Ledger(r, debt) && r.server.status == w.server.status && (ok ==> InSync(r)) && (Room(w) ==> Room(r))
      && r.finalized == w.finalized && r.sent == w.sent && r.server.spec == w.server.spec
  {
    if Alive(w) { AdvanceKeeps(w, debt); }
  }

  lemma ApplyEffect(c: Change, st: DisposableStatus, now: nat)
    ensures var st' := Apply(c, st, now);
      && st'.anchor == st.anchor
      && (if c.Synced? then st'.synced && st'.failed == 0 else !st'.synced && st'.failed == Increment32(st.failed))
  {
  }

  /** Recording how a trigger ended settles the debt. */
  lemma ConcludeSettles(w: World, c: Change, sent: bool)
    requires Ledger(w, if sent then 1 else 0) && Room(w) && (c.Synced? ==> sent)
    ensures var r := Conclude(w, c, sent); Ledger(r, 0) && r.sent == w.sent && r.server.spec == w.server.spec
  {
    hide Apply, Advance, Increment32, Wrap32;
    if Alive(w) {
      var w1 := Advance(w);
      AdvanceKeeps(w, if sent then 1 else 0);
      WrapNext(Counted(w, if sent then 1 else 0));
      ApplyEffect(c, w1.server.status, w1.now);
    }
  }

  /** A write that touches neither the counter nor the anchor. */
  lemma PersistKeeps(w: World, st: DisposableStatus)
    requires Ledger(w, 0) && InSync(w)
    requires st == w.local.status.(lastReconcile := st.lastReconcile)
    ensures var (r, saved) := Persist(w, st);
      && Ledger(r, 0) && r.sent == w.sent && r.server.spec == w.server.spec && r.finalized == w.finalized
      && (st == w.local.status ==> r.server.status == st) && (saved.Stored? ==> InSync(r))
  {
    hide Disturb;
    if Alive(w) { AdvanceKeeps(w, 0); }
  }

  lemma PersistErrorSettles(w: World, st: DisposableStatus)
    requires Ledger(w, 0) && InSync(w) && w.server.status.anchor.Some?
    requires st.anchor.None? && !st.synced && st.failed == Increment32(w.local.status.failed)
    ensures var r := Persist(w, st).0; Ledger(r, 0) && r.sent == w.sent && r.server.spec == w.server.spec
  {
    if Alive(w) {
      AdvanceKeeps(w, 0);
      WrapNext(Counted(w, 0));
    }
  }

  lemma FinalizeErrorSettles(w: World, msg: string, failing: Option<Response>)
    requires Ledger(w, 0) && InSync(w) && w.server.status.anchor.Some?
    ensures var r := FinalizeError(w, msg, failing); Ledger(r, 0) && r.sent == w.sent && r.server.spec == w.server.spec
  {
    hide Persist;
    var st := if failing.Some? then w.local.status.(response := failing.value) else w.local.status;
    PersistErrorSettles(w, Release(CountError(st, msg).(lastReconcile := Some(Cluster.Stored(w.now)))));
  }

  lemma FinalizeSuccessSettles(w: World, poll: Response)
    requires Ledger(w, 0) && InSync(w) && w.server.status.anchor.Some?
    ensures var r := FinalizeSuccess(w, poll); Ledger(r, 0) && r.sent == w.sent && r.server.spec == w.server.spec
  {
    var expected := IsExpected(w.local.spec, poll);
    if expected.EvalOk? {
      var st := Release(w.local.status.(response := poll, lastReconcile := Some(Cluster.Stored(w.now))));
      if expected.value {
        if Alive(w) { AdvanceKeeps(w, 0); }
      } else {
        PersistErrorSettles(w, CountError(st, UNEXPECTED));
      }
    }
  }

  lemma {:induction false} PollLoopKeeps(w: World, p: OperationPolling, trigger: Response, deadline: int, budgetEnd: int)
    requires Ledger(w, 0) && InSync(w)
    ensures var (r, o) := PollLoop(w, p, trigger, deadline, budgetEnd);
      Ledger(r, 0) && InSync(r) && r.server.status == w.server.status && r.sent == w.sent && r.server.spec == w.server.spec && r.local == w.local
    decreases |w.tape|
  {
    hide Judge, Ledger, Disturb;
    if w.now <= deadline && w.now <= budgetEnd && Alive(w) {
      AdvanceKeeps(w, 0);
      var w1, reply := Advance(w), w.tape[0].reply;
      if reply.response.Some? && Judge(p, w.local.status, trigger, reply.response.value).None? && Alive(w1) {
        AdvanceKeeps(w1, 0);
        var (w2, woke) := Sleep(w1, p.interval);
        LedgerIgnoresTime(Advance(w1), w2);
        if woke { PollLoopKeeps(w2, p, trigger, deadline, budgetEnd); }
      }
    }
  }

  lemma LedgerIgnoresTime(a: World, b: World)
    requires Ledger(a, 0) && b == a.(now := b.now)
    ensures Ledger(b, 0)
  {
  }

  lemma DriveKeeps(w: World, p: OperationPolling, trigger: Response)
    requires Ledger(w, 0) && InSync(w) && w.server.status.anchor.Some?
    ensures var r := DrivePolling(w, p, trigger); Ledger(r, 0) && r.sent == w.sent && r.server.spec == w.server.spec
  {
    hide PollLoop, FinalizeError, FinalizeSuccess, IsAbsoluteUrl, Ledger, Persist;
    var url := p.url(w.local.status, trigger);
    if url.EvalOk? {
      if !IsAbsoluteUrl(url.value) {
        FinalizeErrorSettles(w, INVALID_URL, None);
      } else {
        var startedAt := if w.local.status.startedAt.Some? then w.local.status.startedAt.value else w.now;
        PollLoopKeeps(w, p, trigger, startedAt + p.timeout, w.now + Poller.RECONCILE_BUDGET);
        var (w1, outcome) := PollLoop(w, p, trigger, startedAt + p.timeout, w.now + Poller.RECONCILE_BUDGET);
        match outcome {
          case Errored =>
          case OverBudget => PersistKeeps(w1, w1.local.status.(lastReconcile := Some(Cluster.Stored(w1.now))));
          case OpFailed(failing, msg) => FinalizeErrorSettles(w1, msg, failing);
          case Completed(poll) => FinalizeSuccessSettles(w1, poll);
        }
      }
    }
  }

  lemma BeginPollingSettles(w: World, p: OperationPolling, d: HttpDetails)
    requires Ledger(w, 1) && InSync(w) && Room(w) && w.server.spec.polling.Some?
    ensures var r := BeginPolling(w, p, d); Ledger(r, 0) && r.sent == w.sent && r.server.spec == w.server.spec
  {
    hide DrivePolling;
    if Alive(w) {
      AdvanceKeeps(w, 1);
      var st := w.local.status;
      var anchored := st.(
        anchor := Some(d.response), startedAt := if st.startedAt.None? then Some(Cluster.Stored(w.now)) else st.startedAt,
        requestDetails := d.request, lastReconcile := Some(Cluster.Stored(w.now)));
      var (w1, saved) := Persist(w, anchored);
      if saved.Stored? { DriveKeeps(w1, p, d.response); }
    }
  }

  lemma HandleResponseSettles(w: World, d: HttpDetails)
    requires Ledger(w, 1) && InSync(w) && Room(w)
    ensures var r := HandleResponse(w, d); Ledger(r, 0) && r.sent == w.sent && r.server.spec == w.server.spec
  {
    hide Conclude, BeginPolling;
    var spec := w.local.spec;
    if IsHTTPError(d.response.statusCode, spec.allowed) {
      ConcludeSettles(w, HttpError("HTTP error status", d), true);
    } else if spec.polling.Some? {
      BeginPollingSettles(w, spec.polling.value, d);
    } else {
      var expected := IsExpected(spec, d.response);
      if expected.EvalOk? { ConcludeSettles(w, if expected.value then Synced(d) else Unexpected(UNEXPECTED, d), true); }
    }
  }

  lemma SendTriggerOwes(w: World)
    requires Ledger(w, 0) && InSync(w) && Room(w)
    ensures var (r, reply) := SendTrigger(w);
      && Ledger(r, if reply.Some? then 1 else 0) && InSync(r) && Room(r)
      && r.sent == w.sent + (if reply.Some? then 1 else 0) && r.server.spec == w.server.spec
  {
    if Alive(w) {
      AdvanceKeeps(w, 0);
      if Alive(Advance(w)) { AdvanceKeeps(Advance(w), 0); }
    }
  }

  lemma TriggerSettles(w: World)
    requires Ledger(w, 0) && InSync(w) && Room(w)
    ensures Ledger(Trigger(w), 0) && w.sent <= Trigger(w).sent <= w.sent + 1 && Trigger(w).server.spec == w.server.spec
  {
    hide SendTrigger, Get, Conclude, HandleResponse;
    SendTriggerOwes(w);
    var (w1, reply) := SendTrigger(w);
    GetKeeps(w1, if reply.Some? then 1 else 0);
    var (w2, ok) := Get(w1);
    if ok {
      if reply.None? {
        ConcludeSettles(w2, TransportError("secret not resolved", NO_REQUEST), false);
      } else if reply.value.response.None? {
        ConcludeSettles(w2, TransportError("no response", w.local.spec.request), true);
      } else {
        HandleResponseSettles(w2, HttpDetails(reply.value.response.value, w.local.spec.request));
      }
    }
  }

  /** One DeployAction keeps the books; it sends at most once, and never over an anchor or a spent limit. */
  lemma DeployActionSettles(w: World)
    requires Ledger(w, 0) && InSync(w)
    ensures var r := DeployAction(w);
      && Ledger(r, 0) && w.sent <= r.sent <= w.sent + 1 && r.server.spec == w.server.spec
      && (w.server.status.anchor.Some? || Spent(w) ==> r.sent == w.sent)
      && (Spent(w) ==> r.server.status == w.server.status)
  {
    hide Trigger, DrivePolling, Ledger;
    LedgerFacts(w);
    var spec, st := w.local.spec, w.local.status;
    if !st.synced && !LimitReached(spec, st) {
      if st.anchor.Some? { DriveKeeps(w, spec.polling.value, st.anchor.value); } else { TriggerSettles(w); }
    }
  }

  lemma LedgerFacts(w: World)
    requires Ledger(w, 0)
    ensures !w.server.spec.loop && (w.server.status.anchor.Some? ==> w.server.spec.polling.Some?)
  {
  }

  // ---------------------------------------------------------------- the reconcile

  /** Synced, or out of retries: there is nothing left to do. */
  predicate Spent(w: World) {
    w.server.status.synced || LimitReached(w.server.spec, w.server.status)
  }

  /** Observing changes no status field and sends nothing. */
  lemma TouchKeeps(w: World)
    requires Ledger(w, 0)
    ensures var (r, ok) := Touch(w);
      && Ledger(r, 0) && r.server.status == w.server.status && r.sent == w.sent && r.server.spec == w.server.spec
      && (ok ==> InSync(r)) && r.finalized == w.finalized
  {
    hide Ledger, Get, Persist;
    GetKeeps(w, 0);
    var (w1, ok) := Get(w);
    if ok { PersistKeeps(w1, w1.local.status); }
  }

  lemma ObserveKeeps(w: World)
    requires Ledger(w, 0) && InSync(w)
    ensures var (r, a) := ObserveDisposable(w);
      && Ledger(r, 0) && r.server.status == w.server.status && r.sent == w.sent && r.server.spec == w.server.spec
      && (!a.ObserveError? ==> InSync(r))
  {
    hide Touch, IsExpected, Ledger;
    TouchKeeps(w);
    if Alive(w) {
      AdvanceKeeps(w, 0);
      TouchKeeps(Advance(w));
    }
  }

  lemma ReconcileKeeps(w: World)
    requires Ledger(w, 0)
    ensures var r := Reconcile(w);
      && Ledger(r, 0) && w.sent <= r.sent <= w.sent + 1 && r.server.spec == w.server.spec
      && (w.server.status.anchor.Some? || Spent(w) ==> r.sent == w.sent)
      && (Spent(w) ==> r.server.status == w.server.status)
  {
    hide Get, ObserveDisposable, DeployAction, Ledger;
    if !w.finalized {
      GetKeeps(w, 0);
      GetKeepsSpec(w);
      var (w1, ok) := Get(w);
      if ok {
        ObserveKeeps(w1);
        var (w2, a) := ObserveDisposable(w1);
        if !a.ObserveError? { DeployActionSettles(w2); }
        LedgerIgnoresFinalizer(w2);
      }
    }
  }

  lemma GetKeepsSpec(w: World)
    ensures Get(w).0.server.spec == w.server.spec
  {
  }

  lemma LedgerIgnoresFinalizer(w: World)
    ensures Ledger(w, 0) ==> Ledger(w.(finalized := true), 0)
  {
  }

  /** A resource no request has been sent for. */
  predicate Untouched(w: World) {
    w.server.status == UNSYNCED && OneOff(w.server.spec) && w.sent == 0 && w.phantoms == 0 && w.lost == 0
  }

  lemma {:induction false} RunKeeps(w: World, tapes: seq<seq<Turn>>)
    requires Ledger(w, 0)
    ensures Ledger(Run(w, tapes), 0) && Run(w, tapes).server.spec == w.server.spec
    decreases |tapes|
  {
    hide Reconcile, Ledger;
    if tapes != [] {
      var w0 := w.(tape := tapes[0]);
      assert Ledger(w0, 0) by { LedgerIgnoresTape(w, tapes[0]); }
      ReconcileKeeps(w0);
      RunKeeps(Reconcile(w0), tapes[1..]);
    }
  }

  lemma LedgerIgnoresTape(w: World, tape: seq<Turn>)
    ensures Ledger(w, 0) ==> Ledger(w.(tape := tape), 0)
  {
  }

  // ---------------------------------------------------------------- theorems

  /**
   The ledger of a one-off request, after any run: until it is synced, every request sent and
   every phantom is a counted failure (on an int32), the operation in flight, or a lost one.
   */
  lemma AttemptLedger(w: World, tapes: seq<seq<Turn>>)
    requires Untouched(w)
    ensures var r := Run(w, tapes);
      var owed := r.sent + r.phantoms - r.lost - Held(r.server.status);
      !r.server.status.synced ==>
        && owed >= 0 && r.server.status.failed == Wrap32(owed)
        && (r.sent + r.phantoms <= 0x7fff_ffff ==> r.sent + r.phantoms == r.server.status.failed + Held(r.server.status) + r.lost)
  {
    hide Run;
    RunKeeps(w, tapes);
  }

  /** With a limit, no run sends more requests than the limit and the losses allow. */
  lemma AttemptCap(w: World, tapes: seq<seq<Turn>>, limit: int)
    requires Untouched(w) && w.server.spec.limit == Some(limit)
    ensures var r := Run(w, tapes);
      && r.sent + r.phantoms <= Cap(limit) + r.lost
      && (r.lost == 0 ==> r.sent <= Cap(limit))
  {
    hide Run;
    RunKeeps(w, tapes);
  }

  /** Once synced, or once the limit is reached, no run sends anything or changes the status. */
  lemma {:induction false} SpentIsFinal(w: World, tapes: seq<seq<Turn>>)
    requires Ledger(w, 0) && Spent(w)
    ensures Run(w, tapes).sent == w.sent && Run(w, tapes).server.status == w.server.status
    decreases |tapes|
  {
    hide Reconcile, Ledger;
    if tapes != [] {
      var w0 := w.(tape := tapes[0]);
      LedgerIgnoresTape(w, tapes[0]);
      ReconcileKeeps(w0);
      SpentIsFinal(Reconcile(w0), tapes[1..]);
    }
  }

  /** An operation in flight is polled, never fired again. */
  lemma InFlightIsNotRefired(w: World)
    requires Ledger(w, 0) && w.server.status.anchor.Some?
    ensures Reconcile(w).sent == w.sent
  {
    hide Reconcile, Ledger;
    ReconcileKeeps(w);
  }

  /** An unsynced resource that waits for the time of its next retry. */
  predicate Waiting(spec: DisposableSpec, st: DisposableStatus, now: int) {
    NeedsRetry(spec, st) && spec.nextReconcile.Some? && !Due(st, spec.nextReconcile.value, now)
  }

  /** Observe does not lead to a deployment while a retry waits. */
  lemma WaitingIsUpToDate(w: World)
    requires !w.local.deleted && !w.local.status.synced && Waiting(w.local.spec, w.local.status, w.now)
    ensures ObserveDisposable(w) == (w, Exists(true))
  {
  }

  lemma DeletedIsGone(w: World)
    requires w.local.deleted
    ensures ObserveDisposable(w) == (w, NotExists)
  {
  }

  /**
   A trigger goes out only for a resource that, as the reconcile gets it, is neither deleted nor
   synced nor out of retries, has no operation in flight, and whose next retry, if it has one,
   is due.
   */
  lemma SendsOnlyWhenDue(w: World)
    requires Ledger(w, 0)
    ensures Reconcile(w).sent > w.sent ==>
      && Alive(w)
      && var o, now := Disturb(w.server, w.tape[0].env), w.now + w.tape[0].env.delay;
      && !o.deleted && !o.status.synced && o.status.anchor.None?
      && !LimitReached(o.spec, o.status) && !Waiting(o.spec, o.status, now)
  {
    hide ObserveDisposable, DeployAction, Ledger, Reconcile, Waiting, Due;
    ReconcileKeeps(w);
    if Reconcile(w).sent > w.sent && Alive(w) {
      var o, now := Disturb(w.server, w.tape[0].env), w.now + w.tape[0].env.delay;
      AdvanceKeeps(w, 0);
      if w.tape[0].reply.ack.Landed? {
        if o.deleted { SendsNothing(w); } else if !o.status.synced && Waiting(o.spec, o.status, now) { SendsNothing(w); }
      }
      SendsAfterGet(w);
    } else {
      DeadSendsNothing(w);
    }
  }

  lemma SendsNothing(w: World)
    requires Alive(w) && w.tape[0].reply.ack.Landed?
    requires var o := Disturb(w.server, w.tape[0].env);
      o.deleted || (!o.status.synced && Waiting(o.spec, o.status, w.now + w.tape[0].env.delay))
    ensures Reconcile(w).sent == w.sent
  {
    hide ObserveDisposable, DeployAction, Due, NeedsRetry;
    if !w.finalized {
      var w1 := Get(w).0;
      if w1.local.deleted { DeletedIsGone(w1); } else { WaitingIsUpToDate(w1); }
    }
  }

  lemma SendsAfterGet(w: World)
    ensures Alive(w) && !w.tape[0].reply.ack.Landed? ==> Reconcile(w).sent == w.sent
  {
    hide ObserveDisposable, DeployAction;
  }

  lemma DeadSendsNothing(w: World)
    ensures !Alive(w) ==> Reconcile(w).sent == w.sent
  {
    hide ObserveDisposable, DeployAction;
  }

  ghost predicate ReportsEnd(p: OperationPolling, st: DisposableStatus, trigger: Response, poll: Response, failure: Option<string>) {
    && p.done(st, trigger, poll) == EvalOk(true)
    && (if p.error.None? then failure == None else p.error.value(st, trigger, poll) == EvalOk(failure))
  }

  /** The verdicts of the poll loop: a timeout only after the deadline, an end only on an answer that reports it. */
  lemma {:induction false} PollVerdicts(w: World, p: OperationPolling, trigger: Response, deadline: int, budgetEnd: int)
    ensures var (r, o) := PollLoop(w, p, trigger, deadline, budgetEnd);
      match o
      case Errored => true
      case OverBudget => r.now > budgetEnd && r.now <= deadline
      case OpFailed(None, _) => r.now > deadline
      case OpFailed(Some(failing), msg) => ReportsEnd(p, w.local.status, trigger, failing, Some(msg))
      case Completed(poll) => ReportsEnd(p, w.local.status, trigger, poll, None)
    decreases |w.tape|
  {
    hide Disturb;
    if w.now <= deadline && w.now <= budgetEnd && Alive(w) {
      var w1, reply := Advance(w), w.tape[0].reply;
      if reply.response.Some? && Judge(p, w.local.status, trigger, reply.response.value).None? {
        var (w2, woke) := Sleep(w1, p.interval);
        if woke { PollVerdicts(w2, p, trigger, deadline, budgetEnd); }
      }
    }
  }

  // ---------------------------------------------------------------- without losses

  /** Nobody else writes, every API call succeeds, and expectedResponse yields a boolean. */
  ghost predicate Reliable(w: World) {
    && w.local == w.server
    && (forall i :: 0 <= i < |w.tape| ==> !w.tape[i].env.touch && !w.tape[i].env.delete && w.tape[i].reply.ack.Landed?)
    && (forall r :: IsExpected(w.server.spec, r).EvalOk?)
  }

  /** Unless the process died on the way, nothing was lost from w to r. */
  ghost predicate NoLoss(w: World, r: World) {
    && |r.tape| <= |w.tape|
    && (Alive(r) ==> r.lost == w.lost && r.phantoms == w.phantoms)
  }

  lemma AdvanceReliable(w: World)
    requires Reliable(w) && Alive(w)
    ensures Reliable(Advance(w))
  {
  }

  lemma PersistReliable(w: World, st: DisposableStatus)
    requires Reliable(w)
    ensures var (r, saved) := Persist(w, st);
      NoLoss(w, r) && r.lost == w.lost && r.phantoms == w.phantoms && (Alive(r) ==> saved.Stored?) && (saved.Stored? ==> Reliable(r))
  {
  }

  lemma ConcludeReliable(w: World, c: Change)
    requires Reliable(w)
    ensures NoLoss(w, Conclude(w, c, true))
  {
    hide Apply;
  }

  lemma FinalizeReliable(w: World, msg: string, failing: Option<Response>, poll: Response)
    requires Reliable(w)
    ensures NoLoss(w, FinalizeError(w, msg, failing)) && NoLoss(w, FinalizeSuccess(w, poll))
  {
    hide Persist, Reliable, IsExpected;
    var now := Cluster.Stored(w.now);
    var failed := if failing.Some? then w.local.status.(response := failing.value) else w.local.status;
    PersistReliable(w, Release(CountError(failed, msg).(lastReconcile := Some(now))));
    var st := Release(w.local.status.(response := poll, lastReconcile := Some(now)));
    PersistReliable(w, SetSynced(st));
    PersistReliable(w, CountError(st, UNEXPECTED));
  }

  lemma {:induction false} PollLoopReliable(w: World, p: OperationPolling, trigger: Response, deadline: int, budgetEnd: int)
    requires Reliable(w)
    ensures var r := PollLoop(w, p, trigger, deadline, budgetEnd).0;
      Reliable(r) && |r.tape| <= |w.tape| && r.lost == w.lost && r.phantoms == w.phantoms
    decreases |w.tape|
  {
    hide Judge, IsExpected;
    if w.now <= deadline && w.now <= budgetEnd && Alive(w) {
      AdvanceReliable(w);
      var w1, reply := Advance(w), w.tape[0].reply;
      if reply.response.Some? && Judge(p, w.local.status, trigger, reply.response.value).None? && Alive(w1) {
        AdvanceReliable(w1);
        var (w2, woke) := Sleep(w1, p.interval);
        if woke { PollLoopReliable(w2, p, trigger, deadline, budgetEnd); }
      }
    }
  }

  lemma DriveReliable(w: World, p: OperationPolling, trigger: Response)
    requires Reliable(w)
    ensures NoLoss(w, DrivePolling(w, p, trigger))
  {
    hide PollLoop, FinalizeError, FinalizeSuccess, IsAbsoluteUrl, Reliable, Persist;
    var url := p.url(w.local.status, trigger);
    if url.EvalOk? {
      if !IsAbsoluteUrl(url.value) {
        FinalizeReliable(w, INVALID_URL, None, trigger);
      } else {
        var startedAt := if w.local.status.startedAt.Some? then w.local.status.startedAt.value else w.now;
        PollLoopReliable(w, p, trigger, startedAt + p.timeout, w.now + Poller.RECONCILE_BUDGET);
        var (w1, outcome) := PollLoop(w, p, trigger, startedAt + p.timeout, w.now + Poller.RECONCILE_BUDGET);
        PersistReliable(w1, w1.local.status.(lastReconcile := Some(Cluster.Stored(w1.now))));
        FinalizeReliable(w1, if outcome.OpFailed? then outcome.msg else "", if outcome.OpFailed? then outcome.failing else None,
                         if outcome.Completed? then outcome.poll else trigger);
      }
    }
  }

  lemma HandleResponseReliable(w: World, d: HttpDetails)
    requires Reliable(w)
    ensures NoLoss(w, HandleResponse(w, d))
  {
    hide Conclude, DrivePolling, IsHTTPError, Persist, IsExpected;
    var spec, st := w.local.spec, w.local.status;
    if IsHTTPError(d.response.statusCode, spec.allowed) {
      ConcludeReliable(w, HttpError("HTTP error status", d));
    } else if spec.polling.Some? {
      var anchored := st.(
        anchor := Some(d.response), startedAt := if st.startedAt.None? then Some(Cluster.Stored(w.now)) else st.startedAt,
        requestDetails := d.request, lastReconcile := Some(Cluster.Stored(w.now)));
      PersistReliable(w, anchored);
      var (w1, saved) := Persist(w, anchored);
      if saved.Stored? { DriveReliable(w1, spec.polling.value, d.response); }
    } else {
      assert IsExpected(spec, d.response).EvalOk?;
      ConcludeReliable(w, if IsExpected(spec, d.response).value then Synced(d) else Unexpected(UNEXPECTED, d));
    }
  }

  lemma TriggerReliable(w: World)
    requires Reliable(w)
    ensures NoLoss(w, Trigger(w))
  {
    hide HandleResponse, Conclude, IsExpected, Ledger;
    if Alive(w) && Alive(Advance(w)) && Alive(Advance(Advance(w))) {
      AdvanceReliable(w);
      AdvanceReliable(Advance(w));
      var (w1, reply) := SendTrigger(w);
      AdvanceReliable(w1);
      var (w2, ok) := Get(w1);
      assert ok && Reliable(w2);
      if reply.value.response.Some? {
        HandleResponseReliable(w2, HttpDetails(reply.value.response.value, w.local.spec.request));
      } else {
        ConcludeReliable(w2, TransportError("no response", w.local.spec.request));
      }
    } else {
      DeadTrigger(w);
    }
  }

  lemma DeadTrigger(w: World)
    requires |w.tape| <= 2
    ensures !Alive(Trigger(w))
  {
    hide HandleResponse;
  }

  /** No other writer, and no call to the API server fails. */
  predicate Calm(tape: seq<Turn>) {
    forall i :: 0 <= i < |tape| ==> !tape[i].env.touch && !tape[i].env.delete && tape[i].reply.ack.Landed?
  }

  ghost predicate Decisive(spec: DisposableSpec) {
    forall r :: IsExpected(spec, r).EvalOk?
  }

  lemma ObserveReliable(w: World)
    requires Reliable(w)
    ensures var (r, a) := ObserveDisposable(w);
      |r.tape| <= |w.tape| && r.lost == w.lost && r.phantoms == w.phantoms && (!a.ObserveError? ==> Reliable(r))
  {
    hide IsExpected, Touch;
    TouchReliable(w);
    if Alive(w) {
      AdvanceReliable(w);
      TouchReliable(Advance(w));
    }
  }

  lemma TouchReliable(w: World)
    requires Reliable(w)
    ensures var (r, ok) := Touch(w);
      |r.tape| <= |w.tape| && r.lost == w.lost && r.phantoms == w.phantoms && (ok ==> Reliable(r))
  {
    hide Persist, IsExpected;
    if Alive(w) {
      AdvanceReliable(w);
      var w1 := Get(w).0;
      PersistReliable(w1, w1.local.status);
    }
  }

  lemma DeployReliable(w: World)
    requires Reliable(w)
    ensures NoLoss(w, Deploy(w))
  {
    hide Trigger, DrivePolling, Reliable;
    TriggerReliable(w);
    if w.local.spec.polling.Some? && w.local.status.anchor.Some? {
      DriveReliable(w, w.local.spec.polling.value, w.local.status.anchor.value);
    }
  }

  lemma ReconcileReliable(w: World)
    requires Calm(w.tape) && Decisive(w.server.spec)
    ensures NoLoss(w, Reconcile(w))
  {
    hide ObserveDisposable, Deploy, IsExpected;
    if !w.finalized && Alive(w) {
      var w1 := Get(w).0;
      assert Reliable(w1);
      ObserveReliable(w1);
      var (w2, a) := ObserveDisposable(w1);
      if !a.ObserveError? { DeployReliable(w2); }
    }
  }

  /** A run of calm tapes in which no process dies. */
  predicate Calmly(w: World, tapes: seq<seq<Turn>>)
    decreases |tapes|
  {
    tapes == [] || (
      var r := Reconcile(w.(tape := tapes[0]));
      Calm(tapes[0]) && Alive(r) && Calmly(r, tapes[1..]))
  }

  lemma {:induction false} CalmRunLosesNothing(w: World, tapes: seq<seq<Turn>>)
    requires Ledger(w, 0) && Decisive(w.server.spec) && Calmly(w, tapes)
    ensures Run(w, tapes).lost == w.lost && Run(w, tapes).phantoms == w.phantoms
    decreases |tapes|
  {
    hide Reconcile, Ledger, Decisive, Calm;
    if tapes != [] {
      var w0 := w.(tape := tapes[0]);
      LedgerIgnoresTape(w, tapes[0]);
      ReconcileKeeps(w0);
      ReconcileReliable(w0);
      CalmRunLosesNothing(Reconcile(w0), tapes[1..]);
    }
  }

  /**
   When the status writes succeed and expectedResponse yields booleans, the counter is exact:
   until synced, requests sent = status.failed + (1 if anchored), and no run exceeds the limit.
   */
  lemma ExactAttempts(w: World, tapes: seq<seq<Turn>>)
    requires Untouched(w) && Decisive(w.server.spec) && Calmly(w, tapes)
    ensures var r := Run(w, tapes);
      && (!r.server.status.synced ==> r.server.status.failed == Wrap32(r.sent - Held(r.server.status)))
      && (w.server.spec.limit.Some? ==> r.sent <= Cap(w.server.spec.limit.value))
      && (w.server.spec.limit.Some? && !r.server.status.synced ==> r.sent == r.server.status.failed + Held(r.server.status))
  {
    hide Run, Calmly, Decisive;
    CalmRunLosesNothing(w, tapes);
    AttemptLedger(w, tapes);
    if w.server.spec.limit.Some? { AttemptCap(w, tapes, w.server.spec.limit.value); }
  }

  // ---------------------------------------------------------------- the losses are real

  function Fine(response: Response): Turn {
    Turn(Env(false, false, 0), Reply(Landed, Some(response), true))
  }

  /** Get, resolve secrets, send, Get: a reconcile that goes as well as it can. */
  function Smooth(response: Response): seq<Turn> {
    [Fine(response), Fine(response), Fine(response), Fine(response)]
  }

  /** A request without polling whose expectedResponse expression fails on this response. */
  ghost predicate Undecidable(w: World, response: Response) {
    var spec, st := w.server.spec, w.server.status;
    && !w.finalized && !w.server.deleted && !st.synced && st.failed == 0
    && spec.valid && spec.polling.None? && (spec.limit.Some? ==> spec.limit.value > 0)
    && !IsHTTPError(response.statusCode, spec.allowed)
    && IsExpected(spec, response).EvalErr?
  }

  lemma UndecidableStep(w: World, response: Response)
    requires Undecidable(w, response) && w.tape == Smooth(response)
    ensures var r := Reconcile(w);
      r.server == w.server && r.finalized == w.finalized && r.sent == w.sent + 1 && r.lost == w.lost + 1
  {
    hide IsExpected, IsHTTPError;
    var w1 := w.(local := w.server, tape := w.tape[1..]);
    assert Get(w) == (w1, true);
    assert ObserveDisposable(w1) == (w1, NotExists);
    var w2 := w1.(tape := w.tape[1..][1..][1..], sent := w.sent + 1);
    assert SendTrigger(w1) == (w2, Some(Reply(Landed, Some(response), true)));
    var w3 := w2.(tape := w2.tape[1..]);
    assert Get(w2) == (w3, true);
    assert HandleResponse(w3, HttpDetails(response, w.server.spec.request)) == w3.(lost := w3.lost + 1);
  }

  function Times(n: nat, tape: seq<Turn>): seq<seq<Turn>> {
    if n == 0 then [] else [tape] + Times(n - 1, tape)
  }

  /**
   No limit stops a request whose expectedResponse expression fails: with every write
   succeeding, n reconciles send n requests and count no failure.
   */
  lemma {:induction false} UndecidableNeverStops(w: World, response: Response, n: nat)
    requires Undecidable(w, response)
    ensures var r := Run(w, Times(n, Smooth(response)));
      r.sent == w.sent + n && r.server.status == w.server.status
    decreases n
  {
    hide Reconcile;
    if n > 0 {
      var tape := Smooth(response);
      var w0 := w.(tape := tape);
      UndecidableStep(w0, response);
      assert Times(n, tape)[0] == tape && Times(n, tape)[1..] == Times(n - 1, tape);
      UndecidableNeverStops(Reconcile(w0), response, n - 1);
    }
  }
}
