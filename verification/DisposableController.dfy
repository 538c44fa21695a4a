/**
 The disposable controller as it is written: guards on the status, then sends, then writes, on
 an in-memory copy. Each method moves its world exactly as the function it names says.
 */
module DisposableController {
  import opened Api
  import opened Disposable
  import opened DisposableProofs
  import Cluster
  import Poller

  class External {
    var server: DisposableObject
    var local: DisposableObject
    var now: nat
    var tape: seq<Turn>
    var finalized: bool
    ghost var sent: nat
    ghost var phantoms: nat
    ghost var lost: nat

    constructor (o: DisposableObject)
      ensures World() == Disposable.World.World(o, o, 0, [], false, 0, 0, 0)
    {
      server, local, now, tape, finalized, sent, phantoms, lost := o, o, 0, [], false, 0, 0, 0;
    }

    ghost function World(): World
      reads this
    {
      Disposable.World.World(server, local, now, tape, finalized, sent, phantoms, lost)
    }

    // -------------------------------------------------------------- single interactions

    method Take() returns (reply: Reply)
      requires tape != []
      modifies this
      ensures reply == old(tape)[0].reply && World() == Advance(old(World()))
    {
      var turn := tape[0];
      server, now, tape := Disturb(server, turn.env), now + turn.env.delay, tape[1..];
      return turn.reply;
    }

    method Get() returns (ok: bool)
      modifies this
      ensures (World(), ok) == Disposable.Get(old(World()))
    {
      if tape == [] { return false; }
      var reply := Take();
      if reply.ack.Landed? { local := server; }
      return reply.ack.Landed?;
    }

    method Store(st: DisposableStatus, reply: Reply) returns (saved: Saved)
      modifies this
      ensures (World(), saved) == Disposable.Store(old(World()), st, reply)
    {
      if reply.ack.Refused? { return NotStored; }
      server := server.(status := st, version := server.version + 1);
      if reply.ack.LandedUnseen? { return StoredUnseen; }
      local := server;
      return Stored;
    }

    method Save(c: Change) returns (saved: Saved)
      modifies this
      ensures (World(), saved) == Disposable.Save(old(World()), c)
    {
      hide Apply, Disposable.Store;
      if tape == [] { return NotStored; }
      var reply := Take();
      saved := Store(Apply(c, server.status, now), reply);
    }

    method PersistStatus(st: DisposableStatus) returns (saved: Saved)
      modifies this
      ensures (World(), saved) == Persist(old(World()), st)
    {
      hide Disposable.Store;
      if tape == [] { return NotStored; }
      var reply := Take();
      if server.version != local.version { return NotStored; }
      saved := Store(st, reply);
    }

    // -------------------------------------------------------------- polling

    method FinalizeError(msg: string, failing: Option<Response>)
      modifies this
      ensures World() == Disposable.FinalizeError(old(World()), msg, failing)
    {
      hide Persist;
      var st := local.status;
      if failing.Some? { st := st.(response := failing.value); }
      st := CountError(st, msg);
      st := st.(lastReconcile := Some(Cluster.Stored(now)));
      st := st.(anchor := None, startedAt := None);
      var saved := PersistStatus(st);
    }

    method FinalizeSuccess(poll: Response)
      modifies this
      ensures World() == Disposable.FinalizeSuccess(old(World()), poll)
    {
      hide Persist, IsExpected;
      var expected := IsExpected(local.spec, poll);
      if expected.EvalErr? { return; }
      var st := local.status.(response := poll);
      st := st.(lastReconcile := Some(Cluster.Stored(now)));
      st := st.(anchor := None, startedAt := None);
      if expected.value { st := SetSynced(st); } else { st := CountError(st, UNEXPECTED); }
      var saved := PersistStatus(st);
    }

    method PollOperation(p: OperationPolling, trigger: Response, deadline: int) returns (o: Outcome)
      modifies this
      ensures (World(), o) == PollLoop(old(World()), p, trigger, deadline, old(now) + Poller.RECONCILE_BUDGET)
    {
      hide Judge, Disturb;
      var budgetEnd := now + Poller.RECONCILE_BUDGET;
      ghost var run := PollLoop(World(), p, trigger, deadline, budgetEnd);
      while true
        invariant PollLoop(World(), p, trigger, deadline, budgetEnd) == run
        decreases |tape|
      {
        if now > deadline { return OpFailed(None, TIMEOUT); }
        if now > budgetEnd { return OverBudget; }
        if tape == [] { return Errored; }
        var reply := Take();
        if reply.response.None? { return Errored; }
        var verdict := Judge(p, local.status, trigger, reply.response.value);
        if verdict.Some? { return verdict.value; }
        if tape == [] { return Errored; }
        reply := Take();
        now := now + p.interval;
        if !reply.woke { return Errored; }
      }
    }

    method DrivePolling(p: OperationPolling, trigger: Response)
      modifies this
      ensures World() == Disposable.DrivePolling(old(World()), p, trigger)
    {
      hide Persist, Disposable.FinalizeError, Disposable.FinalizeSuccess, PollLoop, IsAbsoluteUrl;
      var url := p.url(local.status, trigger);
      if url.EvalErr? { return; }
      if !IsAbsoluteUrl(url.value) {
        FinalizeError(INVALID_URL, None);
        return;
      }
      var startedAt := if local.status.startedAt.Some? then local.status.startedAt.value else now;
      var outcome := PollOperation(p, trigger, startedAt + p.timeout);
      match outcome {
        case Errored =>
        case OverBudget => var saved := PersistStatus(local.status.(lastReconcile := Some(Cluster.Stored(now))));
        case OpFailed(failing, msg) => FinalizeError(msg, failing);
        case Completed(poll) => FinalizeSuccess(poll);
      }
    }

    // -------------------------------------------------------------- DeployAction

    method SetResourceStatus(c: Change, requested: bool)
      modifies this
      ensures World() == Conclude(old(World()), c, requested)
    {
      hide Disposable.Save;
      var saved := Save(c);
      if requested && saved.NotStored? { lost := lost + 1; }
      if !requested && !saved.NotStored? { phantoms := phantoms + 1; }
    }

    method BeginPolling(p: OperationPolling, d: HttpDetails)
      modifies this
      ensures World() == Disposable.BeginPolling(old(World()), p, d)
    {
      hide Persist, Disposable.DrivePolling;
      var st := local.status.(anchor := Some(d.response));
      if st.startedAt.None? { st := st.(startedAt := Some(Cluster.Stored(now))); }
      st := st.(requestDetails := d.request);
      st := st.(lastReconcile := Some(Cluster.Stored(now)));
      var saved := PersistStatus(st);
      if saved.NotStored? { lost := lost + 1; }
      if saved.Stored? { DrivePolling(p, d.response); }
    }

    method HandleHttpResponse(d: HttpDetails)
      modifies this
      ensures World() == HandleResponse(old(World()), d)
    {
      hide Conclude, Disposable.BeginPolling, IsExpected, IsHTTPError;
      if IsHTTPError(d.response.statusCode, local.spec.allowed) {
        SetResourceStatus(HttpError("HTTP error status", d), true);
        return;
      }
      if local.spec.polling.Some? {
        BeginPolling(local.spec.polling.value, d);
        return;
      }
      var expected := IsExpected(local.spec, d.response);
      if expected.EvalErr? {
        lost := lost + 1;
      } else if expected.value {
        SetResourceStatus(Synced(d), true);
      } else {
        SetResourceStatus(Unexpected(UNEXPECTED, d), true);
      }
    }

    method SendHttpRequest() returns (reply: Option<Reply>)
      modifies this
      ensures (World(), reply) == SendTrigger(old(World()))
    {
      hide Disturb;
      if tape == [] { return None; }
      var resolved := Take();
      if !resolved.ack.Landed? || tape == [] { return None; }
      sent := sent + 1;
      var answered := Take();
      return Some(answered);
    }

    method DeployAction()
      modifies this
      ensures World() == Disposable.DeployAction(old(World()))
    {
      hide Disposable.DrivePolling, Disposable.Get, SendTrigger, Conclude, HandleResponse;
      var request := local.spec.request;
      if local.status.synced && !local.spec.loop { return; }
      if LimitReached(local.spec, local.status) { return; }
      if local.spec.polling.Some? && local.status.anchor.Some? {
        DrivePolling(local.spec.polling.value, local.status.anchor.value);
        return;
      }
      var reply := SendHttpRequest();
      var ok := Get();
      if !ok {
        if reply.Some? { lost := lost + 1; }
        return;
      }
      if reply.None? {
        SetResourceStatus(TransportError("secret not resolved", NO_REQUEST), false);
      } else if reply.value.response.None? {
        SetResourceStatus(TransportError("no response", request), true);
      } else {
        HandleHttpResponse(HttpDetails(reply.value.response.value, request));
      }
    }

    // -------------------------------------------------------------- Observe and the reconciler

    method UpdateConditions() returns (ok: bool)
      modifies this
      ensures (World(), ok) == Touch(old(World()))
    {
      hide Disposable.Get, Persist;
      ok := Get();
      if !ok { return; }
      var saved := PersistStatus(local.status);
      return saved.Stored?;
    }

    method ValidateStoredResponse() returns (expected: Eval<bool>)
      modifies this
      ensures old(local.status.response.statusCode) == 0 ==> expected == EvalOk(false) && World() == old(World())
      ensures old(local.status.response.statusCode) != 0 && old(tape) == [] ==> expected.EvalErr? && World() == old(World())
      ensures old(local.status.response.statusCode) != 0 && old(tape) != [] ==>
        var reply := old(tape)[0].reply;
        && World() == Advance(old(World()))
        && if reply.response.None? then expected.EvalErr?
           else expected == IsExpected(local.spec, local.status.response.(body := reply.response.value.body))
    {
      hide IsExpected, Disturb;
      if local.status.response.statusCode == 0 { return EvalOk(false); }
      if tape == [] { return EvalErr(""); }
      var reply := Take();
      if reply.response.None? { return EvalErr(""); }
      return IsExpected(local.spec, local.status.response.(body := reply.response.value.body));
    }

    method Observe() returns (a: Answer)
      modifies this
      ensures (World(), a) == ObserveDisposable(old(World()))
    {
      hide Touch, IsExpected, Disturb;
      var spec, st := local.spec, local.status;
      if local.deleted { return NotExists; }
      var needsRetry := NeedsRetry(spec, st);
      if !st.synced && st.error != "" && LimitReached(spec, st) {
        var ok := UpdateConditions();
        return if ok then Exists(true) else ObserveError;
      }
      var isUpToDate := true;
      if needsRetry {
        if spec.nextReconcile.Some? {
          if Due(st, spec.nextReconcile.value, now) { isUpToDate := false; }
        } else {
          isUpToDate := false;
        }
      }
      var isAvailable := isUpToDate;
      if !st.synced {
        if needsRetry && isUpToDate { return Exists(true); }
        return NotExists;
      }
      var expected := ValidateStoredResponse();
      if expected.EvalErr? { return ObserveError; }
      if !expected.value {
        var waiting := spec.nextReconcile.Some? && !Due(st, spec.nextReconcile.value, now);
        return if isAvailable then Exists(waiting) else NotExists;
      }
      if spec.loop && spec.limit.None? { isUpToDate := false; }
      if !needsRetry && spec.nextReconcile.Some? && Due(st, spec.nextReconcile.value, now) { isUpToDate := false; }
      if !isAvailable { return NotExists; }
      var ok := UpdateConditions();
      return if ok then Exists(isUpToDate) else ObserveError;
    }

    method Reconcile()
      modifies this
      ensures World() == Disposable.Reconcile(old(World()))
    {
      hide Disposable.Get, ObserveDisposable, Disposable.DeployAction;
      if finalized { return; }
      var ok := Get();
      if !ok { return; }
      var a := Observe();
      match a {
        case ObserveError =>
        case NotExists => if local.deleted { finalized := true; } else if local.spec.valid { DeployAction(); }
        case Exists(upToDate) => if !local.deleted && !upToDate && local.spec.valid { DeployAction(); }
      }
    }

    /** A whole run of a one-off request, and the ledger and cap it keeps to. */
    method Run(tapes: seq<seq<Turn>>)
      requires Untouched(World())
      modifies this
      ensures World() == Disposable.Run(old(World()), tapes)
      ensures Ledger(World(), 0)
      ensures server.spec.limit.Some? ==> sent + phantoms <= Cap(server.spec.limit.value) + lost
    {
      hide Disposable.Reconcile;
      ghost var start := World();
      RunKeeps(start, tapes);
      for i := 0 to |tapes|
        invariant Disposable.Run(World(), tapes[i..]) == Disposable.Run(start, tapes)
      {
        assert tapes[i..][0] == tapes[i] && tapes[i..][1..] == tapes[i + 1..];
        tape := tapes[i];
        Reconcile();
      }
      assert tapes[|tapes|..] == [];
    }
  }
}
