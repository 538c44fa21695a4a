/**
 How many poll GETs there can be: per call, bounded by the per-reconcile budget; over all the
 reconciles of one operation, bounded by its timeout.
 */
module PollBound {
  import opened Api
  import opened Cluster
  import opened RequestMapping
  import opened RequestGen
  import opened Poller
  import opened Deploy
  import opened Observing
  import opened Reconciling
  import opened Refinement

  function Gets(log: seq<Event>): nat {
    if log == [] then 0 else Gets(log[..|log| - 1]) + if log[|log| - 1].PollCall? then 1 else 0
  }

  lemma GetsEmit(log: seq<Event>, e: Event)
    ensures Gets(log + [e]) == Gets(log) + if e.PollCall? then 1 else 0
  {
    assert (log + [e])[..|log|] == log;
  }

  /** From `log` to `log'`, `n` GETs were added, all at times in from..last. */
  ghost predicate Added(log: seq<Event>, log': seq<Event>, n: nat, from: int, last: int) {
    && |log| <= |log'| && log'[..|log|] == log
    && Gets(log') == Gets(log) + n
    && forall i :: |log| <= i < |log'| && log'[i].PollCall? ==> from <= log'[i].at <= last
  }

  lemma AddedNothing(log: seq<Event>, from: int, last: int)
    ensures Added(log, log, 0, from, last)
  {
    assert log[..|log|] == log;
  }

  lemma AddedEvent(log: seq<Event>, e: Event, from: int, last: int)
    requires e.PollCall? ==> from <= e.at <= last
    ensures Added(log, log + [e], if e.PollCall? then 1 else 0, from, last)
  {
    GetsEmit(log, e);
  }

  lemma AddedTransitive(a: seq<Event>, b: seq<Event>, c: seq<Event>, m: nat, n: nat, from: int, mid: int, last: int)
    requires Added(a, b, m, from, mid) && Added(b, c, n, mid, last) && from <= mid <= last
    ensures Added(a, c, m + n, from, last)
  {
    assert c[..|a|] == c[..|b|][..|a|];
    forall i | |a| <= i < |c| && c[i].PollCall? ensures from <= c[i].at <= last {
      if i < |b| { assert c[i] == c[..|b|][i]; }
    }
  }

  /** `n` calls at least `interval` apart fit between `from` and `last`. */
  predicate Spread(n: nat, interval: nat, from: int, last: int) {
    from <= last && (n >= 1 ==> (n - 1) * interval <= last - from)
  }

  lemma SpreadOne(n: nat, interval: nat, from: int, next: int, last: int)
    requires Spread(n, interval, next, last) && from + interval <= next
    ensures Spread(n + 1, interval, from, last)
  {
    if n >= 1 { assert n * interval == (n - 1) * interval + interval; }
  }

  lemma AdvanceNow(w: World)
    requires Alive(w)
    ensures w.now <= Advance(w).now && Advance(w).log == w.log && Advance(w).local == w.local
  {
  }

  /**
   The loop: its GETs are `interval` apart, none is sent after the budget or, unless the
   resource is being deleted, after the deadline.
   */
  lemma {:induction false} PollLoopGets(w: World, p: Polling, mutate: Response, deadline: int, budgetEnd: int)
    returns (n: nat, last: int)
    ensures var r := PollLoop(w, p, mutate, deadline, budgetEnd).0;
      && Added(w.log, r.log, n, w.now, last) && Spread(n, p.interval, w.now, last)
      && last <= r.now && r.local == w.local
      && (n >= 1 ==> last <= budgetEnd && (!w.local.deleted ==> last <= deadline))
    decreases |w.tape|
  {
    hide Gets, Judge, Disturb, Added;
    AddedNothing(w.log, w.now, w.now);
    n, last := 0, w.now;
    if !(!w.local.deleted && w.now > deadline) && !(w.now > budgetEnd) && Alive(w) {
      AddedEvent(w.log, PollCall(w.now), w.now, w.now);
      n := 1;
      var w0 := Emit(w, PollCall(w.now));
      AdvanceNow(w0);
      var (w1, reply) := Send(w0);
      if reply.Answer? && Judge(p, w.local.status, mutate, reply.response).None? {
        if Alive(w1) { AdvanceNow(w1); }
        var (w2, woke) := Sleep(w1, p.interval);
        if woke {
          var m, end := PollLoopGets(w2, p, mutate, deadline, budgetEnd);
          last := FirstGet(w.log, w0.log, PollLoop(w2, p, mutate, deadline, budgetEnd).0.log, m, p.interval, w.now, w2.now, end);
          n := m + 1;
        }
      }
    }
  }

  /** One GET at `from`, then m more from `next` on. */
  lemma FirstGet(a: seq<Event>, b: seq<Event>, c: seq<Event>, m: nat, interval: nat, from: int, next: int, end: int) returns (last: int)
    requires Added(a, b, 1, from, from) && Added(b, c, m, next, end) && Spread(m, interval, next, end) && from + interval <= next
    ensures Added(a, c, m + 1, from, last) && Spread(m + 1, interval, from, last)
    ensures last == if m == 0 then from else end
  {
    hide Added;
    AddedFrom(b, c, m, from, next, end);
    if m == 0 {
      AddedUntil(b, c, from, end);
      AddedTransitive(a, b, c, 1, 0, from, from, from);
      last := from;
    } else {
      AddedTransitive(a, b, c, 1, m, from, from, end);
      SpreadOne(m, interval, from, next, end);
      last := end;
    }
  }

  lemma AddedFrom(log: seq<Event>, log': seq<Event>, n: nat, from: int, from': int, last: int)
    requires Added(log, log', n, from', last) && from <= from'
    ensures Added(log, log', n, from, last)
  {
  }

  lemma NoGets(log: seq<Event>, k: nat)
    requires k <= |log| && Gets(log) == Gets(log[..k])
    ensures forall i :: k <= i < |log| ==> !log[i].PollCall?
    decreases |log|
  {
    if k < |log| {
      GetsMonotone(log[..|log| - 1], k);
      assert log[..|log| - 1][..k] == log[..k];
      NoGets(log[..|log| - 1], k);
    }
  }

  lemma GetsMonotone(log: seq<Event>, k: nat)
    requires k <= |log|
    ensures Gets(log[..k]) <= Gets(log)
    decreases |log|
  {
    if k < |log| {
      GetsMonotone(log[..|log| - 1], k);
      assert log[..|log| - 1][..k] == log[..k];
    } else {
      assert log[..k] == log;
    }
  }

  lemma AddedUntil(log: seq<Event>, log': seq<Event>, from: int, last: int)
    requires Added(log, log', 0, from, last)
    ensures Added(log, log', 0, from, from)
  {
    NoGets(log', |log|);
  }

  lemma Monotone(a: int, b: int, c: nat)
    ensures a <= b ==> a * c <= b * c
  {
  }

  lemma Quotient(n: int, interval: nat, room: int)
    requires interval >= 1 && n * interval <= room
    ensures n <= room / interval
  {
    var q := room / interval;
    assert room == q * interval + room % interval;
    assert (q + 1) * interval == q * interval + interval;
    Monotone(q + 1, n, interval);
  }

  /** One Poll: at most budget/interval + 1 GETs, none past the deadline of an undeleted resource. */
  lemma PollGets(w: World, m: Mapping, mutate: Response) returns (n: nat, last: int)
    ensures var r := Poll(w, m, mutate).0;
      && Added(w.log, r.log, n, w.now, last) && last <= r.now && r.local == w.local && w.now <= last
      && (n >= 1 ==> m.polling.Some? && Spread(n, m.polling.value.interval, w.now, last) && last <= w.now + RECONCILE_BUDGET)
      && (n >= 1 && m.polling.value.interval >= 1 ==> n <= RECONCILE_BUDGET / m.polling.value.interval + 1)
      && (n >= 1 && !w.local.deleted && w.local.status.startedAt.Some? ==>
            last <= w.local.status.startedAt.value + m.polling.value.timeout)
  {
    hide PollLoop, Gets, Added, IsAbsoluteUrl, Spread;
    n, last := 0, w.now;
    AddedNothing(w.log, w.now, w.now);
    if m.polling.Some? {
      var p := m.polling.value;
      var startedAt := if w.local.status.startedAt.Some? then w.local.status.startedAt.value else w.now;
      var k, end := PollLoopGets(w, p, mutate, startedAt + p.timeout, w.now + RECONCILE_BUDGET);
      if Drive(w, p, mutate) == PollLoop(w, p, mutate, startedAt + p.timeout, w.now + RECONCILE_BUDGET) {
        n, last := k, end;
        BudgetBound(n, p.interval, w.now, last);
      }
    }
    var (w1, o) := if m.polling.None? then (w, Finished(NoBlock, None)) else Drive(w, m.polling.value, mutate);
    var e := Polled(VerdictOf(o), w1.local.status);
    AddedEvent(w1.log, e, last, last);
    AddedTransitive(w.log, w1.log, w1.log + [e], n, 0, w.now, last, last);
  }

  lemma BudgetBound(n: nat, interval: nat, from: int, last: int)
    requires Spread(n, interval, from, last)
    ensures from <= last
    ensures n >= 1 && interval >= 1 && last <= from + RECONCILE_BUDGET ==> n <= RECONCILE_BUDGET / interval + 1
  {
    if n >= 1 && interval >= 1 && last <= from + RECONCILE_BUDGET { Quotient(n - 1, interval, RECONCILE_BUDGET); }
  }
  // ---------------------------------------------------------------- all reconciles of one operation

  /** Every polling mapping polls at most each `interval` and gives up after `timeout`. */
  predicate Bounded(spec: Spec, interval: nat, timeout: int) {
    forall i :: 0 <= i < |spec.mappings| && spec.mappings[i].polling.Some? ==>
      interval <= spec.mappings[i].polling.value.interval && spec.mappings[i].polling.value.timeout <= timeout
  }

  /** One undeleted operation under one spec, its clock started at `start`. */
  datatype Operation = Operation(spec: Spec, start: int, interval: nat, timeout: int)

  /** The object holds the operation, or the operation is over. */
  ghost predicate Holds(op: Operation, o: Object) {
    && o.spec == op.spec && !o.deleted && Bounded(o.spec, op.interval, op.timeout)
    && (o.status.anchor.Some? ==> o.status.startedAt == Some(op.start))
    && (o.status.anchor.Some? && o.status.terminalError != "" ==> o.status.observedGeneration == o.generation)
  }

  /** No spec edit and no deletion request. */
  predicate Unedited(tape: seq<Turn>) {
    forall i :: 0 <= i < |tape| ==> tape[i].env.spec.None? && !tape[i].env.delete
  }

  /** No GET was sent from w to r, and the operation is still held. */
  ghost predicate Idle(op: Operation, w: World, r: World) {
    Gets(r.log) == Gets(w.log) && w.now <= r.now && Holds(op, r.server) && Unedited(r.tape)
  }

  lemma GetIdle(op: Operation, w: World)
    requires Holds(op, w.server) && Unedited(w.tape)
    ensures var (r, ok) := Get(w);
      Idle(op, w, r) && r.server.status == w.server.status && (ok ==> r.local == r.server)
  {
    hide Gets, Bounded;
  }

  /** The writes of a reconcile that neither anchors nor restarts a clock. */
  predicate Ordinary(c: Change) {
    !c.PersistAnchor? && !c.StartClock? && !c.ClearTerminal?
  }

  lemma ApplyOrdinary(op: Operation, c: Change, o: Object, now: nat)
    requires Ordinary(c) && Holds(op, o)
    ensures var st := Apply(c, o, now); st.Some? ==> Holds(op, o.(status := st.value, version := o.version + 1))
  {
    hide EvalExternalRef, RecordDetails, Bounded;
  }

  lemma SaveIdle(op: Operation, w: World, c: Change)
    requires Ordinary(c) && Holds(op, w.server) && Unedited(w.tape)
    ensures var (r, ok) := Save(w, c); Idle(op, w, r) && (ok ==> r.local == r.server)
  {
    hide Gets, Holds, Unedited, Apply, Disturb;
    if Alive(w) {
      TurnKeepsServer(w);
      var w1 := Advance(w);
      ApplyOrdinary(op, c, w1.server, w1.now);
      var after := Apply(c, w1.server, w1.now);
      if after.Some? { GetsEmit(w1.log, Wrote(c, w1.local.spec, w1.server, w1.now, after.value)); }
    }
  }

  lemma RecordIdle(op: Operation, w: World, d: HttpDetails, failed: bool, reset: bool)
    requires Holds(op, w.server) && Unedited(w.tape)
    ensures Idle(op, w, RefreshAndRecord(w, d, failed, reset).0)
  {
    hide Gets, Save, ShouldSetCache, Get, Holds;
    GetIdle(op, w);
    var (w1, ok) := Get(w);
    if ok {
      var spec := w1.local.spec;
      SaveIdle(op, w1, RecordError(ERR_TRANSPORT));
      SaveIdle(op, w1, Record(d, reset, IsHTTPError(d.response.statusCode, spec.allowed),
                              ShouldSetCache(spec, w1.local.status, d.response)));
    }
  }

  lemma SeedIdle(op: Operation, w: World, ref: string)
    requires Holds(op, w.server) && Unedited(w.tape)
    ensures var (r, ok) := UpdateLocal(w, Seed(ref)); Idle(op, w, r) && (ok ==> r.local == r.server)
  {
    hide Gets, Save, Bounded;
    SaveIdle(op, w, Seed(ref));
  }

  lemma ObserveIdle(op: Operation, w: World)
    requires Holds(op, w.server) && Unedited(w.tape) && w.local == w.server && w.server.status.anchor.Some?
    ensures var (r, a) := ObserveResource(w); Idle(op, w, r)
    ensures ObserveResource(w).1 != Exists(true) && (w.server.status.terminalError != "" ==> ObserveResource(w).1.ObserveError?)
  {
    hide Gets, UpdateLocal, RefreshAndRecord, ObserveByMapping, Save;
    var ext := w.local.externalName;
    SeedIdle(op, w, ext);
    SeedKeeps(w, ext);
    var (w1, ok) :=
      if w.local.status.externalRef == "" && ext != "" && ext != w.local.name then UpdateLocal(w, Seed(ext)) else (w, true);
    if ok { RecordIdle(op, w1, NO_DETAILS, false, false); }
  }

  lemma SeedKeeps(w: World, ref: string)
    ensures var r := UpdateLocal(w, Seed(ref)).0.server.status; r == w.server.status.(externalRef := r.externalRef)
  {
    hide Disturb;
    if Alive(w) { AdvanceStatus(w); }
  }

  lemma AdvanceStatus(w: World)
    requires Alive(w)
    ensures Advance(w).server.status == w.server.status
  {
  }

  lemma FailureIdle(op: Operation, w: World, mutate: Response, failing: Response, msg: string)
    requires Holds(op, w.server) && Unedited(w.tape)
    ensures Idle(op, w, HandleOperationFailure(w, mutate, failing, msg).0)
  {
    hide Gets, Save, Classify, Holds;
    SaveIdle(op, w, PollFailure(failing));
    var (w1, ok) := Save(w, PollFailure(failing));
    if ok {
      var terminal := Classify(w1.local.spec, w1.local.status, mutate, Some(failing), msg);
      if terminal.Some? { SaveIdle(op, w1, SetTerminal(terminal.value, true)); } else { SaveIdle(op, w1, ClearAnchor); }
    }
  }

  /** From w to r, `n` GETs were sent, all of them in time, the last at `last`. */
  ghost predicate Sent(op: Operation, w: World, r: World, n: nat, rounds: nat, last: int) {
    && Gets(r.log) == Gets(w.log) + n && w.now <= r.now
    && Holds(op, r.server)
    && (n >= 1 ==> w.now <= last <= op.start + op.timeout && last <= r.now && (n - rounds) * op.interval <= last - w.now)
  }

  lemma PollKeepsServer(w: World, m: Mapping, mutate: Response)
    ensures var r := Poll(w, m, mutate).0; Unedited(w.tape) ==> Unedited(r.tape)
    ensures forall op :: Holds(op, w.server) && Unedited(w.tape) ==> Holds(op, Poll(w, m, mutate).0.server)
  {
    hide PollLoop, IsAbsoluteUrl, Holds;
    if m.polling.Some? {
      var p := m.polling.value;
      var startedAt := if w.local.status.startedAt.Some? then w.local.status.startedAt.value else w.now;
      LoopKeepsServer(w, p, mutate, startedAt + p.timeout, w.now + RECONCILE_BUDGET);
    }
  }

  lemma {:induction false} LoopKeepsServer(w: World, p: Polling, mutate: Response, deadline: int, budgetEnd: int)
    ensures var r := PollLoop(w, p, mutate, deadline, budgetEnd).0; Unedited(w.tape) ==> Unedited(r.tape)
    ensures forall op :: Holds(op, w.server) && Unedited(w.tape) ==> Holds(op, PollLoop(w, p, mutate, deadline, budgetEnd).0.server)
    decreases |w.tape|
  {
    hide Judge, Holds, Disturb;
    if !(!w.local.deleted && w.now > deadline) && !(w.now > budgetEnd) && Alive(w) {
      var (w1, reply) := Send(Emit(w, PollCall(w.now)));
      TurnKeepsServer(w);
      if reply.Answer? && Judge(p, w.local.status, mutate, reply.response).None? {
        var (w2, woke) := Sleep(w1, p.interval);
        if Alive(w1) { TurnKeepsServer(w1); }
        if woke { LoopKeepsServer(w2, p, mutate, deadline, budgetEnd); }
      }
    }
  }

  lemma TurnKeepsServer(w: World)
    requires Alive(w)
    ensures Unedited(w.tape) ==> Unedited(Advance(w).tape)
    ensures forall op :: Holds(op, w.server) && Unedited(w.tape) ==> Holds(op, Advance(w).server)
  {
    hide Bounded;
    assert forall i :: 0 <= i < |w.tape| - 1 ==> w.tape[1..][i] == w.tape[i + 1];
  }

  lemma FinishGets(op: Operation, w: World, m: Mapping, mutate: Response) returns (n: nat, last: int)
    requires Holds(op, w.server) && Unedited(w.tape) && w.local == w.server && w.server.status.anchor.Some?
    requires m in w.server.spec.mappings
    ensures Sent(op, w, PollAndFinish(w, m, mutate).0, n, 1, last)
  {
    hide Poll, HandleOperationFailure, Gets, Save;
    n, last := PollGets(w, m, mutate);
    PollKeepsServer(w, m, mutate);
    var (w1, outcome) := Poll(w, m, mutate);
    if n >= 1 { MonotoneRight(op.interval, m.polling.value.interval, n - 1); }
    match outcome {
      case Errored =>
      case Terminal(_, msg) => SaveIdle(op, w1, SetTerminal(msg, false));
      case Failure(failing, msg) => FailureIdle(op, w1, mutate, failing, msg);
      case StillRunning =>
      case Finished(_, poll) => SaveIdle(op, w1, Complete(mutate, poll));
    }
  }

  lemma MonotoneRight(a: nat, b: nat, c: nat)
    ensures a <= b ==> c * a <= c * b
  {
  }

  lemma DeployGets(op: Operation, w: World, action: Action) returns (n: nat, last: int)
    requires Holds(op, w.server) && Unedited(w.tape) && w.server.status.anchor.Some?
    ensures Sent(op, w, RefreshAndDeploy(w, action), n, 1, last)
  {
    hide Get, PollAndFinish, Gets, Fire, Holds;
    GetIdle(op, w);
    var (w1, ok) := Get(w);
    n, last := 0, 0;
    if ok {
      var m := MappingFor(w1.local.spec, action);
      if m.Some? {
        assert w1.local.status.startedAt.Some? && m.value in w1.server.spec.mappings by { HoldsClock(op, w1.server); }
        n, last := FinishGets(op, w1, m.value, w1.local.status.anchor.value);
      }
    }
  }

  lemma HoldsClock(op: Operation, o: Object)
    requires Holds(op, o) && o.status.anchor.Some?
    ensures o.status.startedAt.Some? && !o.deleted
  {
  }

  lemma ReconcileGets(op: Operation, w: World) returns (n: nat, last: int)
    requires Holds(op, w.server) && Unedited(w.tape) && w.server.status.anchor.Some?
    ensures Sent(op, w, Reconcile(w), n, 1, last)
  {
    hide Get, ObserveResource, RefreshAndDeploy, Gets, Holds;
    n, last := 0, 0;
    if !w.finalized {
      GetsEmit(w.log, Began);
      var w0 := Emit(w, Began);
      GetIdle(op, w0);
      var (w1, ok) := Get(w0);
      if ok {
        ObserveIdle(op, w1);
        var (w2, a) := ObserveResource(w1);
        ObserveAnchored(op, w1);
        if !a.ObserveError? { n, last := DeployGets(op, w2, if a.NotExists? then Create else Update); }
      }
    }
  }

  lemma ObserveAnchored(op: Operation, w: World)
    requires Holds(op, w.server) && w.local == w.server && w.server.status.anchor.Some? && Unedited(w.tape)
    ensures var (r, a) := ObserveResource(w); !a.ObserveError? ==> !r.local.deleted && r.server.status.anchor.Some?
  {
    hide Gets, UpdateLocal, RefreshAndRecord, ObserveByMapping, Save;
    var ext := w.local.externalName;
    SeedIdle(op, w, ext);
    SeedKeeps(w, ext);
    var (w1, ok) :=
      if w.local.status.externalRef == "" && ext != "" && ext != w.local.name then UpdateLocal(w, Seed(ext)) else (w, true);
    if ok { RecordKeepsAnchor(op, w1, NO_DETAILS, false, false); }
  }

  lemma RecordKeepsAnchor(op: Operation, w: World, d: HttpDetails, failed: bool, reset: bool)
    requires Holds(op, w.server) && Unedited(w.tape)
    ensures var (r, ok) := RefreshAndRecord(w, d, failed, reset);
      r.server.status.anchor == w.server.status.anchor && (ok ==> !r.local.deleted)
  {
    hide RecordDetails, ShouldSetCache, Holds, Get, Save;
    GetIdle(op, w);
    HoldsUndeleted(op, Get(w).0.server);
    var (w1, ok) := Get(w);
    if ok {
      var spec := w1.local.spec;
      var c := if failed then RecordError(ERR_TRANSPORT)
               else Record(d, reset, IsHTTPError(d.response.statusCode, spec.allowed), ShouldSetCache(spec, w1.local.status, d.response));
      SaveIdle(op, w1, c);
      HoldsUndeleted(op, Save(w1, c).0.server);
      SaveKeepsRouting(w1, c);
    }
  }

  lemma HoldsUndeleted(op: Operation, o: Object)
    requires Holds(op, o)
    ensures !o.deleted
  {
  }

  /**
   All reconciles of one undeleted operation under a fixed spec: each may spend one GET, and
   beyond these the GETs share the operation's timeout. None is sent after the deadline.
   */
  lemma {:induction false} AttendGets(op: Operation, w: World, tapes: seq<seq<Turn>>) returns (n: nat, last: int)
    requires op.interval >= 1 && Holds(op, w.server)
    requires forall t :: t in tapes ==> Unedited(t)
    ensures Sent(op, w, Attend(w, tapes), n, |tapes|, last)
    decreases |tapes|
  {
    hide Reconcile, Gets, Holds;
    n, last := 0, 0;
    if tapes != [] && w.server.status.anchor.Some? {
      var w0 := w.(tape := tapes[0]);
      var m, end := ReconcileGets(op, w0);
      var k, end' := AttendGets(op, Reconcile(w0), tapes[1..]);
      n, last := m + k, if k >= 1 then end' else end;
      SumSpread(m, k, |tapes|, op.interval);
    }
  }

  lemma SumSpread(m: nat, k: nat, rounds: nat, interval: nat)
    requires rounds >= 1
    ensures (m + k - rounds) * interval == (m - 1) * interval + (k - (rounds - 1)) * interval
    ensures (m - rounds) * interval <= (m - 1) * interval
    ensures (k - rounds) * interval <= (k - (rounds - 1)) * interval
  {
  }

  /** The bound in numbers, counted from the clock's start. */
  lemma OperationGetBound(op: Operation, w: World, tapes: seq<seq<Turn>>)
    requires op.interval >= 1 && op.timeout >= 0 && Holds(op, w.server) && op.start <= w.now
    requires forall t :: t in tapes ==> Unedited(t)
    ensures Gets(Attend(w, tapes).log) <= Gets(w.log) + |tapes| + op.timeout / op.interval
  {
    hide Attend, Gets, Holds;
    var n, last := AttendGets(op, w, tapes);
    if n >= 1 { Quotient(n - |tapes|, op.interval, op.timeout); }
  }
}
