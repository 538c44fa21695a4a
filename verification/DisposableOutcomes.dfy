/**
 What a reconcile of a one-off request comes to, case by case, when nobody interferes: which
 answer of the trigger or of a poll counts as what, and when the trigger is sent at all. The
 conditions are written out in terms of the spec's own functions.
 */
module DisposableOutcomes {
  import opened Api
  import opened Disposable
  import opened DisposableProofs
  import Cluster
  import Poller
  import Terms

  // ---------------------------------------------------------------- the conditions

  /** Nobody else writes, and the first n calls to the API server succeed. */
  predicate Serene(tape: seq<Turn>, n: nat) {
    && n <= |tape|
    && (forall i :: 0 <= i < |tape| ==> !tape[i].env.touch && !tape[i].env.delete)
    && forall i :: 0 <= i < n ==> tape[i].reply.ack.Landed?
  }

  predicate HttpError(spec: DisposableSpec, r: Response) {
    400 <= r.statusCode < 600 && r.statusCode !in spec.allowed
  }

  /** expectedResponse is unset, or true of the answer. */
  predicate Succeeds(spec: DisposableSpec, r: Response) {
    spec.expected.None? || (r.statusCode != 0 && spec.expected.value(r) == EvalOk(true))
  }

  predicate Fails(spec: DisposableSpec, r: Response) {
    spec.expected.Some? && (r.statusCode == 0 || spec.expected.value(r) == EvalOk(false))
  }

  predicate Spent(spec: DisposableSpec, st: DisposableStatus) {
    (st.synced && !spec.loop) || (spec.limit.Some? && st.failed >= spec.limit.value)
  }

  predicate SuccessOnRecord(st: DisposableStatus) {
    st.synced && st.failed == 0 && st.error == ""
  }

  /** One more failure is on record. */
  predicate FailureOnRecord(st: DisposableStatus, before: DisposableStatus) {
    !st.synced && st.failed == Increment32(before.failed) && st.error != ""
  }

  /** Answer, request and time are on record; an operation in flight is left alone. */
  predicate Noted(st: DisposableStatus, before: DisposableStatus, d: HttpDetails, now: nat) {
    var r := d.response;
    && st.response.statusCode == (if r.statusCode != 0 then r.statusCode else before.response.statusCode)
    && st.response.headers == (if r.headers.Some? then r.headers else before.response.headers)
    && st.response.body == (if r.body != "" then r.body else before.response.body)
    && st.requestDetails == (if d.request.verb != "" then d.request else before.requestDetails)
    && st.lastReconcile == Some(InSeconds(now))
    && st.anchor == before.anchor && st.startedAt == before.startedAt
  }

  /** The answer is the anchor of an operation in flight, under its clock. */
  predicate Anchored(st: DisposableStatus, before: DisposableStatus, d: HttpDetails, now: nat) {
    st == before.(
      anchor := Some(d.response), startedAt := if before.startedAt.None? then Some(InSeconds(now)) else before.startedAt,
      requestDetails := d.request, lastReconcile := Some(InSeconds(now)))
  }

  /** Timestamps are stored in whole seconds. */
  function InSeconds(t: nat): nat {
    t - t % 1_000_000_000
  }

  /** The time the first n turns take. */
  function Delay(tape: seq<Turn>, n: nat): nat
    requires n <= |tape|
  {
    if n == 0 then 0 else Delay(tape, n - 1) + tape[n - 1].env.delay
  }

  // ---------------------------------------------------------------- the trigger

  /** A fetched resource whose trigger is to be sent. */
  ghost predicate Triggers(w: World) {
    && w.local == w.server
    && !Spent(w.server.spec, w.server.status)
    && !(w.server.spec.polling.Some? && w.server.status.anchor.Some?)
  }

  /**
   The trigger is answered. An HTTP error is a failure. Without polling expectedResponse decides:
   success, failure, or, if its expression is broken, nothing on record. With polling the answer
   becomes the anchor.
   */
  lemma TriggerAnswered(w: World, r: Response)
    requires Triggers(w) && Serene(w.tape, 4) && w.tape[1].reply.response == Some(r)
    ensures var spec, before, after := w.server.spec, w.server.status, DeployAction(w);
      var st, d, now := after.server.status, HttpDetails(r, spec.request), w.now + Delay(w.tape, 4);
      && after.sent == w.sent + 1
      && (HttpError(spec, r) ==>
            FailureOnRecord(st, before) && Noted(st, before, d, now) && after.lost == w.lost)
      && (!HttpError(spec, r) && spec.polling.None? && Succeeds(spec, r) ==>
            SuccessOnRecord(st) && Noted(st, before, d, now) && after.lost == w.lost)
      && (!HttpError(spec, r) && spec.polling.None? && Fails(spec, r) ==>
            FailureOnRecord(st, before) && Noted(st, before, d, now) && after.lost == w.lost)
      && (!HttpError(spec, r) && spec.polling.None? && !Succeeds(spec, r) && !Fails(spec, r) ==>
            st == before && after.lost == w.lost + 1)
      && (!HttpError(spec, r) && spec.polling.Some? && |w.tape| == 4 ==>
            Anchored(st, before, d, w.now + Delay(w.tape, 3)) && after.lost == w.lost)
  {
    hide DeployAction, HandleResponse, HttpError, Succeeds, Fails, FailureOnRecord, SuccessOnRecord, Noted, Anchored, Delay, InSeconds;
    SentAndFetched(w, r);
    var w2, d := Fetched(w), HttpDetails(r, w.server.spec.request);
    AnswerHandled(w2, d);
  }

  /** The object is fetched anew, its trigger sent. */
  function Fetched(w: World): World
    requires |w.tape| >= 3
  {
    w.(local := w.server, now := w.now + Delay(w.tape, 3), tape := w.tape[3..], sent := w.sent + 1)
  }

  lemma SentAndFetched(w: World, r: Response)
    requires Triggers(w) && Serene(w.tape, 4) && w.tape[1].reply.response == Some(r)
    ensures DeployAction(w) == HandleResponse(Fetched(w), HttpDetails(r, w.server.spec.request))
    ensures Serene(w.tape[3..], 1) && Delay(w.tape, 4) == Delay(w.tape, 3) + w.tape[3..][0].env.delay
  {
    hide HandleResponse;
    var t := w.tape;
    assert t[1..][0] == t[1] && t[1..][1..] == t[2..] && t[2..][0] == t[2] && t[2..][1..] == t[3..];
    assert Delay(t, 3) == Delay(t, 2) + t[2].env.delay && Delay(t, 2) == Delay(t, 1) + t[1].env.delay && Delay(t, 1) == t[0].env.delay;
    assert SendTrigger(w).1 == Some(t[1].reply) && SendTrigger(w).0.tape == t[2..];
    assert Get(SendTrigger(w).0) == (Fetched(w), true);
    assert forall i :: 0 <= i < |t| - 3 ==> t[3..][i] == t[i + 3];
  }

  lemma AnswerHandled(w: World, d: HttpDetails)
    requires w.local == w.server && Serene(w.tape, 1)
    ensures var spec, r, before, after := w.server.spec, d.response, w.server.status, HandleResponse(w, d);
      var st, now := after.server.status, w.now + w.tape[0].env.delay;
      && after.sent == w.sent
      && (HttpError(spec, r) ==>
            FailureOnRecord(st, before) && Noted(st, before, d, now) && after.lost == w.lost)
      && (!HttpError(spec, r) && spec.polling.None? && Succeeds(spec, r) ==>
            SuccessOnRecord(st) && Noted(st, before, d, now) && after.lost == w.lost)
      && (!HttpError(spec, r) && spec.polling.None? && Fails(spec, r) ==>
            FailureOnRecord(st, before) && Noted(st, before, d, now) && after.lost == w.lost)
      && (!HttpError(spec, r) && spec.polling.None? && !Succeeds(spec, r) && !Fails(spec, r) ==>
            st == before && after.lost == w.lost + 1)
      && (!HttpError(spec, r) && spec.polling.Some? && |w.tape| == 1 ==>
            Anchored(st, before, d, w.now) && after.lost == w.lost)
  {
    hide DrivePolling, Conclude, BeginPolling;
    var spec, r := w.server.spec, d.response;
    ConcludeLands(w, Change.HttpError("HTTP error status", d));
    ConcludeLands(w, Synced(d));
    ConcludeLands(w, Unexpected(UNEXPECTED, d));
    if spec.polling.Some? {
      BeginKeepsCount(w, spec.polling.value, d);
      if |w.tape| == 1 { BeginsOnly(w, spec.polling.value, d); }
    }
  }

  lemma ConcludeLands(w: World, c: Change)
    requires w.local == w.server && Serene(w.tape, 1)
    ensures var r, before, now := Conclude(w, c, true), w.server.status, w.now + w.tape[0].env.delay;
      var st := r.server.status;
      && r.sent == w.sent && r.lost == w.lost
      && (c.HttpError? && c.msg != "" ==> FailureOnRecord(st, before) && Noted(st, before, c.details, now))
      && (c.Unexpected? && c.msg != "" ==> FailureOnRecord(st, before) && Noted(st, before, c.details, now))
      && (c.TransportError? && c.msg != "" ==>
            FailureOnRecord(st, before) && Noted(st, before, HttpDetails(NO_RESPONSE, c.request), now))
      && (c.Synced? ==> SuccessOnRecord(st) && Noted(st, before, c.details, now))
  {
  }

  lemma BeginKeepsCount(w: World, p: OperationPolling, d: HttpDetails)
    ensures BeginPolling(w, p, d).sent == w.sent
  {
    hide DrivePolling;
    var st := w.local.status;
    var anchored := st.(
      anchor := Some(d.response), startedAt := if st.startedAt.None? then Some(Cluster.Stored(w.now)) else st.startedAt,
      requestDetails := d.request, lastReconcile := Some(Cluster.Stored(w.now)));
    DriveKeepsCount(Persist(w, anchored).0, p, d.response);
  }

  lemma DriveKeepsCount(w: World, p: OperationPolling, trigger: Response)
    ensures DrivePolling(w, p, trigger).sent == w.sent
  {
    hide PollLoop, IsAbsoluteUrl;
    var startedAt := if w.local.status.startedAt.Some? then w.local.status.startedAt.value else w.now;
    LoopKeepsCount(w, p, trigger, startedAt + p.timeout, w.now + Poller.RECONCILE_BUDGET);
  }

  lemma {:induction false} LoopKeepsCount(w: World, p: OperationPolling, trigger: Response, deadline: int, budgetEnd: int)
    ensures PollLoop(w, p, trigger, deadline, budgetEnd).0.sent == w.sent
    decreases |w.tape|
  {
    hide Judge, Disturb;
    if w.now <= deadline && w.now <= budgetEnd && Alive(w) {
      var w1, reply := Advance(w), w.tape[0].reply;
      if reply.response.Some? && Judge(p, w.local.status, trigger, reply.response.value).None? {
        var (w2, woke) := Sleep(w1, p.interval);
        if woke { LoopKeepsCount(w2, p, trigger, deadline, budgetEnd); }
      }
    }
  }

  /** Someone wrote the object after it was fetched: the answer is not anchored, and its operation is lost. */
  lemma MovedIsNotAnchored(w: World, p: OperationPolling, d: HttpDetails)
    requires w.local.version == w.server.version && Alive(w) && w.tape[0].env.touch
    ensures var after := BeginPolling(w, p, d);
      after.server == Disturb(w.server, w.tape[0].env) && after.server.status == w.server.status && after.lost == w.lost + 1
  {
    hide DrivePolling;
  }

  lemma BeginsOnly(w: World, p: OperationPolling, d: HttpDetails)
    requires w.local == w.server && Serene(w.tape, 1) && |w.tape| == 1
    ensures Anchored(BeginPolling(w, p, d).server.status, w.server.status, d, w.now) && BeginPolling(w, p, d).lost == w.lost
  {
    hide DrivePolling;
    var st := w.local.status;
    var anchored := st.(
      anchor := Some(d.response), startedAt := if st.startedAt.None? then Some(Cluster.Stored(w.now)) else st.startedAt,
      requestDetails := d.request, lastReconcile := Some(Cluster.Stored(w.now)));
    DeadPolls(Persist(w, anchored).0, p, d.response);
  }

  /** A dead process changes nothing. */
  lemma DeadPolls(w: World, p: OperationPolling, trigger: Response)
    requires !Alive(w)
    ensures var r := DrivePolling(w, p, trigger); r.server == w.server && r.sent == w.sent && r.lost == w.lost
  {
    hide IsAbsoluteUrl;
  }

  /** The trigger gets no answer: a failure, with the request on record. */
  lemma TriggerUnanswered(w: World)
    requires Triggers(w) && Serene(w.tape, 4) && w.tape[1].reply.response.None?
    ensures var before, after := w.server.status, DeployAction(w);
      && after.sent == w.sent + 1 && after.lost == w.lost
      && FailureOnRecord(after.server.status, before)
      && Noted(after.server.status, before, HttpDetails(NO_RESPONSE, w.server.spec.request), w.now + Delay(w.tape, 4))
  {
    hide HandleResponse, Conclude;
    var t := w.tape;
    assert t[1..][0] == t[1] && t[1..][1..] == t[2..] && t[2..][0] == t[2] && t[2..][1..] == t[3..];
    assert Delay(t, 3) == Delay(t, 2) + t[2].env.delay && Delay(t, 2) == Delay(t, 1) + t[1].env.delay && Delay(t, 1) == t[0].env.delay;
    assert SendTrigger(w).1 == Some(t[1].reply) && SendTrigger(w).0.tape == t[2..];
    assert Get(SendTrigger(w).0) == (Fetched(w), true);
    assert forall i :: 0 <= i < |t| - 3 ==> t[3..][i] == t[i + 3];
    ConcludeLands(Fetched(w), TransportError("no response", w.server.spec.request));
  }

  /** The secrets of the trigger cannot be resolved: nothing is sent, and a failure is counted all the same. */
  lemma SecretsUnresolved(w: World)
    requires Triggers(w) && |w.tape| >= 3 && Serene(w.tape[1..], 2)
    requires !w.tape[0].env.touch && !w.tape[0].env.delete && !w.tape[0].reply.ack.Landed?
    ensures var before, after := w.server.status, DeployAction(w);
      && after.sent == w.sent && after.phantoms == w.phantoms + 1 && after.lost == w.lost
      && FailureOnRecord(after.server.status, before)
      && Noted(after.server.status, before, HttpDetails(NO_RESPONSE, NO_REQUEST), w.now + Delay(w.tape, 3))
  {
    hide HandleResponse;
    var t := w.tape;
    assert t[1..][0] == t[1] && t[1..][1..] == t[2..] && t[1..][1] == t[2] && t[2..][0] == t[2];
    assert Delay(t, 3) == Delay(t, 2) + t[2].env.delay && Delay(t, 2) == Delay(t, 1) + t[1].env.delay && Delay(t, 1) == t[0].env.delay;
    var w1 := SendTrigger(w).0;
    assert SendTrigger(w).1.None? && w1.tape == t[1..] && w1.server == w.server;
    var w2 := Get(w1).0;
    assert w2.tape == t[2..] && w2.local == w2.server == w.server;
  }

  // ---------------------------------------------------------------- the poll loop

  /** Round i: an answer that is not done, then a sleep that runs out. */
  predicate Waits(w: World, p: OperationPolling, trigger: Response, i: nat) {
    && 2 * i + 1 < |w.tape|
    && w.tape[2 * i].reply.response.Some?
    && p.done(w.local.status, trigger, w.tape[2 * i].reply.response.value) == EvalOk(false)
    && w.tape[2 * i + 1].reply.woke
  }

  /** The time of the clock check of round i. */
  function TimeAt(w: World, interval: nat, i: nat): nat
    requires 2 * i <= |w.tape|
  {
    if i == 0 then w.now
    else TimeAt(w, interval, i - 1) + w.tape[2 * i - 2].env.delay + w.tape[2 * i - 1].env.delay + interval
  }

  /** What the clock and the answer of round k make the loop stop with. */
  ghost predicate StopsWith(w: World, p: OperationPolling, trigger: Response, deadline: int, budgetEnd: int, k: nat, o: Outcome)
    requires 2 * k <= |w.tape|
  {
    var now := TimeAt(w, p.interval, k);
    if now > deadline then o == OpFailed(None, TIMEOUT)
    else if now > budgetEnd then o == OverBudget
    else if 2 * k == |w.tape| || w.tape[2 * k].reply.response.None? then o == Errored
    else
      var poll := w.tape[2 * k].reply.response.value;
      match p.done(w.local.status, trigger, poll)
      case EvalErr(_) => o == Errored
      case EvalOk(false) => o == Errored
      case EvalOk(true) =>
        if p.error.None? then o == Completed(poll)
        else
          match p.error.value(w.local.status, trigger, poll)
          case EvalErr(_) => o == Errored
          case EvalOk(None) => o == Completed(poll)
          case EvalOk(Some(msg)) => o == OpFailed(Some(poll), msg)
  }

  /** The loop stops in the first round that is not a waiting one, with what that round says. */
  lemma {:induction false} LoopStops(w: World, p: OperationPolling, trigger: Response, deadline: int, budgetEnd: int) returns (k: nat)
    ensures 2 * k <= |w.tape|
    ensures forall i :: 0 <= i < k ==>
      Waits(w, p, trigger, i) && TimeAt(w, p.interval, i) <= deadline && TimeAt(w, p.interval, i) <= budgetEnd
    ensures Waits(w, p, trigger, k) ==> TimeAt(w, p.interval, k) > deadline || TimeAt(w, p.interval, k) > budgetEnd
    ensures StopsWith(w, p, trigger, deadline, budgetEnd, k, PollLoop(w, p, trigger, deadline, budgetEnd).1)
    decreases |w.tape|
  {
    hide Disturb, StopsWith, Waits, TimeAt;
    k := 0;
    StartTime(w, p.interval);
    if w.now <= deadline && w.now <= budgetEnd && Waits(w, p, trigger, 0) {
      var w2 := NextRound(w, p, trigger, deadline, budgetEnd);
      var n := LoopStops(w2, p, trigger, deadline, budgetEnd);
      k := n + 1;
      RoundsShift(w, w2, p, trigger, n + 1);
      ShiftStops(w, w2, p, trigger, deadline, budgetEnd, n, PollLoop(w2, p, trigger, deadline, budgetEnd).1);
      forall i | 0 <= i < k
        ensures Waits(w, p, trigger, i) && TimeAt(w, p.interval, i) <= deadline && TimeAt(w, p.interval, i) <= budgetEnd
      {
        if i > 0 { assert Waits(w2, p, trigger, i - 1); }
      }
    } else {
      StopsAtOnce(w, p, trigger, deadline, budgetEnd);
    }
  }

  lemma StartTime(w: World, interval: nat)
    ensures TimeAt(w, interval, 0) == w.now
  {
  }

  lemma NextRound(w: World, p: OperationPolling, trigger: Response, deadline: int, budgetEnd: int) returns (w2: World)
    requires w.now <= deadline && w.now <= budgetEnd && Waits(w, p, trigger, 0)
    ensures |w.tape| >= 2 && w2.tape == w.tape[2..] && w2.local == w.local
    ensures w2.now == w.now + w.tape[0].env.delay + w.tape[1].env.delay + p.interval
    ensures PollLoop(w, p, trigger, deadline, budgetEnd) == PollLoop(w2, p, trigger, deadline, budgetEnd)
  {
    hide Disturb;
    var w1 := Advance(w);
    assert w1.tape[0] == w.tape[1];
    w2 := Sleep(w1, p.interval).0;
    assert Sleep(w1, p.interval).1;
  }

  lemma StopsAtOnce(w: World, p: OperationPolling, trigger: Response, deadline: int, budgetEnd: int)
    requires !Waits(w, p, trigger, 0) || w.now > deadline || w.now > budgetEnd
    ensures StopsWith(w, p, trigger, deadline, budgetEnd, 0, PollLoop(w, p, trigger, deadline, budgetEnd).1)
  {
    hide Disturb;
    if Alive(w) && |w.tape| > 1 { assert Advance(w).tape[0] == w.tape[1]; }
  }

  /** The loop itself touches nothing but clock and tape when nobody interferes. */
  lemma {:induction false} LoopLeaves(w: World, p: OperationPolling, trigger: Response, deadline: int, budgetEnd: int)
    requires Serene(w.tape, |w.tape|)
    ensures var r := PollLoop(w, p, trigger, deadline, budgetEnd).0;
      && Serene(r.tape, |r.tape|) && r.server == w.server && r.local == w.local && r.sent == w.sent && r.lost == w.lost
    decreases |w.tape|
  {
    hide Judge, Serene;
    if w.now <= deadline && w.now <= budgetEnd && Alive(w) {
      SereneTail(w);
      var w1, reply := Advance(w), w.tape[0].reply;
      if reply.response.Some? && Judge(p, w.local.status, trigger, reply.response.value).None? && Alive(w1) {
        SereneTail(w1);
        var (w2, woke) := Sleep(w1, p.interval);
        if woke { LoopLeaves(w2, p, trigger, deadline, budgetEnd); }
      }
    }
  }

  lemma SereneTail(w: World)
    requires Serene(w.tape, |w.tape|) && Alive(w)
    ensures var r := Advance(w); r.server == w.server && Serene(r.tape, |r.tape|) && w.tape[0].reply.ack.Landed?
  {
    assert forall i :: 0 <= i < |w.tape| - 1 ==> w.tape[1..][i] == w.tape[i + 1];
  }

  lemma {:induction false} RoundsShift(w: World, w2: World, p: OperationPolling, trigger: Response, n: nat)
    requires |w.tape| >= 2 && w2.tape == w.tape[2..] && w2.local == w.local
    requires w2.now == w.now + w.tape[0].env.delay + w.tape[1].env.delay + p.interval
    ensures forall i :: 0 <= i <= n && 2 * i <= |w2.tape| ==> TimeAt(w, p.interval, i + 1) == TimeAt(w2, p.interval, i)
    ensures forall i: nat :: Waits(w, p, trigger, i + 1) <==> Waits(w2, p, trigger, i)
  {
    if n > 0 { RoundsShift(w, w2, p, trigger, n - 1); }
    assert forall j :: 0 <= j < |w2.tape| ==> w2.tape[j] == w.tape[j + 2];
    if 2 * n <= |w2.tape| {
      if n == 0 {
        assert TimeAt(w, p.interval, 1) == TimeAt(w, p.interval, 0) + w.tape[0].env.delay + w.tape[1].env.delay + p.interval;
      } else {
        assert w2.tape[2 * n - 2] == w.tape[2 * (n + 1) - 2] && w2.tape[2 * n - 1] == w.tape[2 * (n + 1) - 1];
        assert TimeAt(w, p.interval, n) == TimeAt(w2, p.interval, n - 1);
      }
    }
  }

  lemma ShiftStops(w: World, w2: World, p: OperationPolling, trigger: Response, deadline: int, budgetEnd: int, n: nat, o: Outcome)
    requires |w.tape| >= 2 && w2.tape == w.tape[2..] && w2.local == w.local && 2 * n <= |w2.tape|
    requires TimeAt(w, p.interval, n + 1) == TimeAt(w2, p.interval, n)
    requires StopsWith(w2, p, trigger, deadline, budgetEnd, n, o)
    ensures StopsWith(w, p, trigger, deadline, budgetEnd, n + 1, o)
  {
    hide TimeAt;
    if 2 * n < |w2.tape| { assert w2.tape[2 * n] == w.tape[2 * (n + 1)]; }
  }

  // ---------------------------------------------------------------- the operation in flight

  /** A fetched resource with an operation in flight and retries left. */
  ghost predicate InFlight(w: World, p: OperationPolling, trigger: Response) {
    && w.local == w.server && !Spent(w.server.spec, w.server.status)
    && w.server.spec.polling == Some(p) && w.server.status.anchor == Some(trigger)
  }

  /** The operation is over: its last answer is the stored response, and anchor and clock are gone. */
  predicate Ended(st: DisposableStatus, before: DisposableStatus, r: Response, now: nat) {
    && st.response == r && st.anchor.None? && st.startedAt.None? && st.requestDetails == before.requestDetails
    && st.lastReconcile == Some(InSeconds(now))
  }

  /** Where the operation's clock stands. */
  function Deadline(w: World, p: OperationPolling): int {
    (if w.server.status.startedAt.Some? then w.server.status.startedAt.value else w.now) + p.timeout
  }

  lemma SuccessFinalized(w: World, poll: Response)
    requires w.local == w.server && Serene(w.tape, |w.tape|)
    ensures var spec, before, after := w.server.spec, w.server.status, FinalizeSuccess(w, poll);
      var st := after.server.status;
      && after.sent == w.sent && after.lost == w.lost
      && (Alive(w) && Succeeds(spec, poll) ==> SuccessOnRecord(st) && Ended(st, before, poll, w.now))
      && (Alive(w) && Fails(spec, poll) ==> FailureOnRecord(st, before) && Ended(st, before, poll, w.now))
      && (!Alive(w) || (!Succeeds(spec, poll) && !Fails(spec, poll)) ==> st == before)
  {
    hide Serene;
    if Alive(w) { SereneTail(w); }
  }

  lemma FailureFinalized(w: World, msg: string, failing: Option<Response>)
    requires w.local == w.server && Serene(w.tape, |w.tape|)
    ensures var before, after := w.server.status, FinalizeError(w, msg, failing);
      var st := after.server.status;
      && after.sent == w.sent && after.lost == w.lost
      && (Alive(w) ==>
            && !st.synced && st.failed == Increment32(before.failed) && st.error == msg
            && Ended(st, before, if failing.Some? then failing.value else before.response, w.now))
      && (!Alive(w) ==> st == before)
  {
    hide Serene;
    if Alive(w) { SereneTail(w); }
  }

  /**
   How an operation in flight ends, when nobody interferes and the last write has its turn. The
   answer reported as complete is judged by expectedResponse; a failure, a timeout and a bad URL
   count as failures; all but a broken expectedResponse clear the anchor and its clock. Nothing is
   sent on the way.
   */
  lemma OperationEnds(w: World, p: OperationPolling, trigger: Response)
    requires InFlight(w, p, trigger) && Serene(w.tape, |w.tape|)
    requires p.url(w.server.status, trigger).EvalOk? && Terms.Absolute(p.url(w.server.status, trigger).value)
    ensures var (w1, o) := PollLoop(w, p, trigger, Deadline(w, p), w.now + 120 * 1_000_000_000);
      var spec, before, after := w.server.spec, w.server.status, DeployAction(w);
      var st := after.server.status;
      && after.sent == w.sent && after.lost == w.lost
      && (Alive(w1) && o.Completed? && Succeeds(spec, o.poll) ==>
            SuccessOnRecord(st) && Ended(st, before, o.poll, w1.now))
      && (Alive(w1) && o.Completed? && Fails(spec, o.poll) ==>
            FailureOnRecord(st, before) && Ended(st, before, o.poll, w1.now))
      && (o.Completed? && !Succeeds(spec, o.poll) && !Fails(spec, o.poll) ==> st == before)
      && (Alive(w1) && o.OpFailed? ==>
            && !st.synced && st.failed == Increment32(before.failed) && st.error == o.msg
            && Ended(st, before, if o.failing.Some? then o.failing.value else before.response, w1.now))
      && (Alive(w1) && o.OverBudget? ==> st == before.(lastReconcile := Some(InSeconds(w1.now))))
      && (o.Errored? || !Alive(w1) ==> st == before)
  {
    hide PollLoop, IsAbsoluteUrl, Trigger, Serene, FinalizeSuccess, FinalizeError, SuccessOnRecord, FailureOnRecord, Ended, Succeeds, Fails;
    Terms.AbsoluteIff(p.url(w.server.status, trigger).value);
    LoopLeaves(w, p, trigger, Deadline(w, p), w.now + Poller.RECONCILE_BUDGET);
    var (w1, o) := PollLoop(w, p, trigger, Deadline(w, p), w.now + Poller.RECONCILE_BUDGET);
    match o {
      case Errored =>
      case OverBudget => if Alive(w1) { SereneTail(w1); }
      case OpFailed(failing, msg) => FailureFinalized(w1, msg, failing);
      case Completed(poll) => SuccessFinalized(w1, poll);
    }
  }

  /** A URL that cannot be evaluated changes nothing; one that is not absolute is a failure. */
  lemma BadUrls(w: World, p: OperationPolling, trigger: Response)
    requires InFlight(w, p, trigger) && Serene(w.tape, 1)
    ensures var url, before, after := p.url(w.server.status, trigger), w.server.status, DeployAction(w);
      && (url.EvalErr? ==> after == w)
      && (url.EvalOk? && !Terms.Absolute(url.value) ==>
            FailureOnRecord(after.server.status, before) && Ended(after.server.status, before, before.response, w.now) && after.sent == w.sent)
  {
    hide PollLoop, IsAbsoluteUrl, Trigger;
    if p.url(w.server.status, trigger).EvalOk? { Terms.AbsoluteIff(p.url(w.server.status, trigger).value); }
  }

  // ---------------------------------------------------------------- when a resource is deployed

  /** The time of the next reconcile has come; where none was recorded, it counts from now. */
  predicate TimeHasCome(st: DisposableStatus, nextReconcile: int, now: int) {
    if st.lastReconcile.Some? then st.lastReconcile.value + nextReconcile <= now else nextReconcile <= 0
  }

  /** Out of retries, with the failure on record. */
  predicate Exhausted(spec: DisposableSpec, st: DisposableStatus) {
    st.error != "" && spec.limit.Some? && st.failed >= spec.limit.value
  }

  /** A failure was counted, retries are left, and the time of the next one has not come. */
  predicate Resting(spec: DisposableSpec, st: DisposableStatus, now: int) {
    && spec.limit.Some? && st.failed != 0 && st.failed < spec.limit.value
    && spec.nextReconcile.Some? && !TimeHasCome(st, spec.nextReconcile.value, now)
  }

  /** A resource that is not synced is deployed unless it is exhausted or resting; a deleted one never. */
  lemma UnsyncedIsDeployed(w: World)
    requires !w.finalized && Serene(w.tape, |w.tape|) && |w.tape| >= 3 && !w.server.status.synced && w.server.spec.valid
    ensures var o, now := w.server, w.now + w.tape[0].env.delay;
      var fetched := w.(local := o, now := now, tape := w.tape[1..]);
      && (o.deleted ==> Reconcile(w) == fetched.(finalized := true))
      && (!o.deleted && !Exhausted(o.spec, o.status) && !Resting(o.spec, o.status, now) ==> Reconcile(w) == DeployAction(fetched))
      && (!o.deleted && !Exhausted(o.spec, o.status) && Resting(o.spec, o.status, now) ==> Reconcile(w) == fetched)
      && (!o.deleted && Exhausted(o.spec, o.status) ==>
            Reconcile(w).sent == w.sent && Reconcile(w).server.status == o.status && !Reconcile(w).finalized)
  {
    hide DeployAction, Touch, Serene;
    SereneTail(w);
    var w1 := Get(w).0;
    assert w1 == w.(local := w.server, now := w.now + w.tape[0].env.delay, tape := w.tape[1..]);
    if !w1.local.deleted && Exhausted(w1.local.spec, w1.local.status) { Touches(w1); }
  }

  lemma Touches(w: World)
    requires w.local == w.server && Serene(w.tape, |w.tape|) && |w.tape| >= 2
    ensures var (r, ok) := Touch(w);
      && ok && r.server == w.server.(version := w.server.version + 1) && r.local == r.server
      && r.sent == w.sent && r.lost == w.lost && r.finalized == w.finalized && r.tape == w.tape[2..]
      && r.now == w.now + w.tape[0].env.delay + w.tape[1].env.delay && r.phantoms == w.phantoms && Serene(r.tape, |r.tape|)
  {
    assert forall i :: 0 <= i < |w.tape| - 2 ==> w.tape[2..][i] == w.tape[i + 2];
    assert w.tape[1..][0] == w.tape[1] && w.tape[1..][1..] == w.tape[2..];
  }

  /** A synced resource without a stored response is out of date, once the time has come. */
  lemma SyncedWithoutResponse(w: World)
    requires !w.local.deleted && w.local.status.synced && w.local.status.failed == 0 && w.local.status.response.statusCode == 0
    ensures var spec, st := w.local.spec, w.local.status;
      ObserveDisposable(w) == (w, Exists(spec.nextReconcile.Some? && !TimeHasCome(st, spec.nextReconcile.value, w.now)))
  {
    hide Touch;
  }

  /** The stored response with its secrets patched in. */
  function Revealed(st: DisposableStatus, patched: Response): Response {
    st.response.(body := patched.body)
  }

  /**
   A synced resource keeps its stored response under observation. One that no longer meets
   expectedResponse is out of date, once the time has come; one that does is out of date if it
   loops without a limit or if the time has come.
   */
  lemma SyncedIsWatched(w: World, patched: Response)
    requires w.local == w.server && !w.server.deleted && w.server.status.synced && w.server.status.failed == 0
    requires w.server.status.response.statusCode != 0
    requires Serene(w.tape, |w.tape|) && |w.tape| >= 3 && w.tape[0].reply.response == Some(patched)
    ensures var spec, st, now, a := w.server.spec, w.server.status, w.now + w.tape[0].env.delay, ObserveDisposable(w).1;
      var r := Revealed(st, patched);
      var come := spec.nextReconcile.Some? && TimeHasCome(st, spec.nextReconcile.value, now);
      && (Fails(spec, r) ==> a == Exists(spec.nextReconcile.Some? && !come))
      && (Succeeds(spec, r) ==> a == Exists(!(spec.loop && spec.limit.None?) && !come))
      && (!Fails(spec, r) && !Succeeds(spec, r) ==> a == ObserveError)
    ensures var after := ObserveDisposable(w).0;
      && after.sent == w.sent && after.server == w.server.(version := after.server.version) && after.local == after.server
      && Serene(after.tape, |after.tape|) && |after.tape| + 3 >= |w.tape|
  {
    hide Touch, Serene;
    SereneTail(w);
    var w1 := Advance(w);
    assert w1.local == w1.server && w1.tape == w.tape[1..];
    Touches(w1);
  }

  // ---------------------------------------------------------------- how often the trigger is sent

  lemma HandleKeepsCount(w: World, d: HttpDetails)
    ensures HandleResponse(w, d).sent == w.sent
  {
    hide BeginPolling;
    if w.local.spec.polling.Some? { BeginKeepsCount(w, w.local.spec.polling.value, d); }
  }

  /** A deployment sends its trigger once, whatever comes of it. */
  lemma TriggerIsSentOnce(w: World)
    requires Triggers(w) && |w.tape| >= 2 && Serene(w.tape, 2)
    ensures DeployAction(w).sent == w.sent + 1
  {
    hide HandleResponse, Conclude, Disturb;
    var (w1, reply) := SendTrigger(w);
    assert w1.sent == w.sent + 1 && reply == Some(w.tape[1].reply);
    var (w2, ok) := Get(w1);
    if reply.value.response.None? {
      assert Conclude(w2, TransportError("no response", w.local.spec.request), true).sent == w2.sent by { ConcludeKeepsCount(w2, TransportError("no response", w.local.spec.request)); }
    } else {
      HandleKeepsCount(w2, HttpDetails(reply.value.response.value, w.local.spec.request));
    }
  }

  lemma ConcludeKeepsCount(w: World, c: Change)
    ensures Conclude(w, c, true).sent == w.sent
  {
  }

  /**
   When a synced resource is sent again, with nothing in flight: never unless it loops with
   retries left, and then as soon as its stored response fails expectedResponse, or at its time,
   or always if it loops without a limit.
   */
  lemma SyncedIsSentAgainIff(w: World, patched: Response)
    requires var o := w.server;
      && !w.finalized && !o.deleted && o.status.synced && o.status.failed == 0 && o.status.response.statusCode != 0
      && o.status.anchor.None? && o.spec.valid
    requires Serene(w.tape, |w.tape|) && |w.tape| >= 6 && w.tape[1].reply.response == Some(patched)
    ensures var spec, st, now := w.server.spec, w.server.status, w.now + w.tape[0].env.delay + w.tape[1].env.delay;
      var r, next := Revealed(st, patched), spec.nextReconcile;
      var come := next.Some? && TimeHasCome(st, next.value, now);
      var due := if Fails(spec, r) then next.None? || come else Succeeds(spec, r) && ((spec.loop && spec.limit.None?) || come);
      Reconcile(w).sent == w.sent + if due && !Spent(spec, st) then 1 else 0
  {
    hide ObserveDisposable, Trigger, Serene, Disturb, Fails, Succeeds;
    SereneTail(w);
    var w1 := Get(w).0;
    assert w1.server == w.server && w1.tape == w.tape[1..] && w1.tape[0] == w.tape[1];
    SyncedIsWatched(w1, patched);
    var (w2, a) := ObserveDisposable(w1);
    if a == Exists(false) && !Spent(w.server.spec, w.server.status) {
      SereneSome(w2.tape);
      TriggerIsSentOnce(w2);
    }
  }

  lemma SereneSome(tape: seq<Turn>)
    requires Serene(tape, |tape|) && |tape| >= 2
    ensures Serene(tape, 2)
  {
  }

  lemma TouchKeepsCount(w: World)
    ensures var r := Touch(w).0; r.sent == w.sent && (w.local.spec == w.server.spec ==> r.local.spec == w.server.spec)
  {
  }

  lemma ObserveKeepsCount(w: World)
    ensures var r := ObserveDisposable(w).0; r.sent == w.sent && (w.local.spec == w.server.spec ==> r.local.spec == w.server.spec)
  {
    hide IsExpected, Touch, Due, NeedsRetry, LimitReached;
    TouchKeepsCount(w);
    if Alive(w) {
      assert Advance(w).server.spec == w.server.spec;
      TouchKeepsCount(Advance(w));
    }
  }

  /** A spec that is not valid is never sent. */
  lemma InvalidIsNotSent(w: World)
    requires !w.server.spec.valid
    ensures Reconcile(w).sent == w.sent
  {
    hide ObserveDisposable, DeployAction;
    if !w.finalized && Get(w).1 { ObserveKeepsCount(Get(w).0); }
  }
}
