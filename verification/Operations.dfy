/**
 How an operation in flight ends, case by case, when nobody interferes: with what the poll loop
 stops, and what is then on record. The conditions are those of Terms.
 */
module Operations {
  import opened Api
  import opened Cluster
  import opened RequestMapping
  import opened Poller
  import opened Deploy
  import opened Terms
  import opened Deployments

  // ---------------------------------------------------------------- the poll loop

  /** Round i: an answer that is not done, then a sleep that runs out. */
  predicate Waits(w: World, p: Polling, mutate: Response, i: nat) {
    && 2 * i + 1 < |w.tape|
    && w.tape[2 * i].reply.Answer?
    && p.done(w.local.status, mutate, w.tape[2 * i].reply.response) == EvalOk(false)
    && w.tape[2 * i + 1].reply.Landed?
  }

  /** The time of the clock check of round i. */
  function TimeAt(w: World, interval: nat, i: nat): nat
    requires 2 * i <= |w.tape|
  {
    if i == 0 then w.now
    else TimeAt(w, interval, i - 1) + w.tape[2 * i - 2].env.delay + w.tape[2 * i - 1].env.delay + interval
  }

  /** Round i does not stop the loop. */
  predicate GoesOn(w: World, p: Polling, mutate: Response, deadline: int, budgetEnd: int, i: nat) {
    && Waits(w, p, mutate, i)
    && (w.local.deleted || TimeAt(w, p.interval, i) <= deadline)
    && TimeAt(w, p.interval, i) <= budgetEnd
  }

  /** What the clock and the answer of round k make the loop stop with; a deleted resource has no deadline. */
  ghost predicate StopsWith(w: World, p: Polling, mutate: Response, deadline: int, budgetEnd: int, k: nat, o: Outcome)
    requires 2 * k <= |w.tape|
  {
    var now := TimeAt(w, p.interval, k);
    if !w.local.deleted && now > deadline then o == Terminal(TimedOut, TIMEOUT)
    else if now > budgetEnd then o == StillRunning
    else if 2 * k == |w.tape| || !w.tape[2 * k].reply.Answer? then o == Errored
    else
      var poll := w.tape[2 * k].reply.response;
      match p.done(w.local.status, mutate, poll)
      case EvalErr(_) => o == Errored
      case EvalOk(false) => o == Errored
      case EvalOk(true) =>
        if p.error.None? then o == Finished(Completed, Some(poll))
        else
          match p.error.value(w.local.status, mutate, poll)
          case EvalErr(_) => o == Errored
          case EvalOk(None) => o == Finished(Completed, Some(poll))
          case EvalOk(Some(msg)) => o == Failure(poll, msg)
  }

  /** The loop goes on up to the first round that stops it, and ends with what that round says. */
  lemma {:induction false} LoopStops(w: World, p: Polling, mutate: Response, deadline: int, budgetEnd: int) returns (k: nat)
    ensures 2 * k <= |w.tape|
    ensures forall i :: 0 <= i < k ==> GoesOn(w, p, mutate, deadline, budgetEnd, i)
    ensures !GoesOn(w, p, mutate, deadline, budgetEnd, k)
    ensures StopsWith(w, p, mutate, deadline, budgetEnd, k, PollLoop(w, p, mutate, deadline, budgetEnd).1)
    decreases |w.tape|
  {
    hide Disturb, StopsWith, Waits, TimeAt, GoesOn;
    k := 0;
    if GoesOn(w, p, mutate, deadline, budgetEnd, 0) {
      var w2 := NextRound(w, p, mutate, deadline, budgetEnd);
      var n := LoopStops(w2, p, mutate, deadline, budgetEnd);
      k := n + 1;
      RoundsShift(w, w2, p, mutate, deadline, budgetEnd, n);
      ShiftStops(w, w2, p, mutate, deadline, budgetEnd, n, PollLoop(w2, p, mutate, deadline, budgetEnd).1);
      forall i | 0 <= i < k
        ensures GoesOn(w, p, mutate, deadline, budgetEnd, i)
      {
        if i > 0 { assert GoesOn(w2, p, mutate, deadline, budgetEnd, i - 1); }
      }
    } else {
      StopsAtOnce(w, p, mutate, deadline, budgetEnd);
    }
  }

  lemma NextRound(w: World, p: Polling, mutate: Response, deadline: int, budgetEnd: int) returns (w2: World)
    requires GoesOn(w, p, mutate, deadline, budgetEnd, 0)
    ensures |w.tape| >= 2 && w2.tape == w.tape[2..] && w2.local == w.local
    ensures w2.now == w.now + w.tape[0].env.delay + w.tape[1].env.delay + p.interval
    ensures PollLoop(w, p, mutate, deadline, budgetEnd) == PollLoop(w2, p, mutate, deadline, budgetEnd)
  {
    hide Disturb;
    var w1 := Send(Emit(w, PollCall(w.now))).0;
    assert TimeAt(w, p.interval, 0) == w.now;
    assert w1.tape[0] == w.tape[1];
    w2 := Sleep(w1, p.interval).0;
    assert Sleep(w1, p.interval).1;
  }

  lemma StopsAtOnce(w: World, p: Polling, mutate: Response, deadline: int, budgetEnd: int)
    requires !GoesOn(w, p, mutate, deadline, budgetEnd, 0)
    ensures StopsWith(w, p, mutate, deadline, budgetEnd, 0, PollLoop(w, p, mutate, deadline, budgetEnd).1)
  {
    hide Disturb;
    if |w.tape| > 1 { assert Send(Emit(w, PollCall(w.now))).0.tape[0] == w.tape[1]; }
  }

  lemma {:induction false} RoundsShift(w: World, w2: World, p: Polling, mutate: Response, deadline: int, budgetEnd: int, n: nat)
    requires |w.tape| >= 2 && w2.tape == w.tape[2..] && w2.local == w.local && 2 * n <= |w2.tape|
    requires w2.now == w.now + w.tape[0].env.delay + w.tape[1].env.delay + p.interval
    ensures TimeAt(w, p.interval, n + 1) == TimeAt(w2, p.interval, n)
    ensures forall i :: 0 <= i <= n ==>
      (GoesOn(w, p, mutate, deadline, budgetEnd, i + 1) <==> GoesOn(w2, p, mutate, deadline, budgetEnd, i))
  {
    if n > 0 { RoundsShift(w, w2, p, mutate, deadline, budgetEnd, n - 1); }
    assert forall j :: 0 <= j < |w2.tape| ==> w2.tape[j] == w.tape[j + 2];
    if n == 0 {
      assert TimeAt(w, p.interval, 1) == TimeAt(w, p.interval, 0) + w.tape[0].env.delay + w.tape[1].env.delay + p.interval;
    } else {
      assert w2.tape[2 * n - 2] == w.tape[2 * (n + 1) - 2] && w2.tape[2 * n - 1] == w.tape[2 * (n + 1) - 1];
    }
    assert Waits(w, p, mutate, n + 1) <==> Waits(w2, p, mutate, n);
  }

  lemma ShiftStops(w: World, w2: World, p: Polling, mutate: Response, deadline: int, budgetEnd: int, n: nat, o: Outcome)
    requires |w.tape| >= 2 && w2.tape == w.tape[2..] && w2.local == w.local && 2 * n <= |w2.tape|
    requires TimeAt(w, p.interval, n + 1) == TimeAt(w2, p.interval, n)
    requires StopsWith(w2, p, mutate, deadline, budgetEnd, n, o)
    ensures StopsWith(w, p, mutate, deadline, budgetEnd, n + 1, o)
  {
    hide TimeAt;
    if 2 * n < |w2.tape| { assert w2.tape[2 * n] == w.tape[2 * (n + 1)]; }
  }

  /** The loop leaves everything but clock, tape and log alone when nobody interferes. */
  lemma {:induction false} LoopLeaves(w: World, p: Polling, mutate: Response, deadline: int, budgetEnd: int)
    requires Undisturbed(w.tape)
    ensures var r := PollLoop(w, p, mutate, deadline, budgetEnd).0;
      Undisturbed(r.tape) && r.server == w.server && r.local == w.local && r.finalized == w.finalized
    decreases |w.tape|
  {
    hide Judge, Undisturbed;
    if (w.local.deleted || w.now <= deadline) && w.now <= budgetEnd && Alive(w) {
      UndisturbedTail(w);
      var (w1, reply) := Send(Emit(w, PollCall(w.now)));
      if reply.Answer? && Judge(p, w.local.status, mutate, reply.response).None? && Alive(w1) {
        UndisturbedTail(w1);
        var (w2, woke) := Sleep(w1, p.interval);
        if woke { LoopLeaves(w2, p, mutate, deadline, budgetEnd); }
      }
    }
  }

  // ---------------------------------------------------------------- one poll

  /** The operation's deadline: its clock plus the timeout. */
  function Deadline(w: World, p: Polling): int {
    (if w.local.status.startedAt.Some? then w.local.status.startedAt.value else w.now) + p.timeout
  }

  /** The rounds one reconcile polls, and what stops it; two minutes is all it may take. */
  lemma PollStops(w: World, m: Mapping, p: Polling, mutate: Response) returns (k: nat)
    requires m.polling == Some(p)
    requires p.url(w.local.status, mutate).EvalOk? && Absolute(p.url(w.local.status, mutate).value)
    ensures 2 * k <= |w.tape|
    ensures var deadline, budgetEnd := Deadline(w, p), w.now + 120 * 1_000_000_000;
      && (forall i :: 0 <= i < k ==> GoesOn(w, p, mutate, deadline, budgetEnd, i))
      && !GoesOn(w, p, mutate, deadline, budgetEnd, k)
      && StopsWith(w, p, mutate, deadline, budgetEnd, k, Poll(w, m, mutate).1)
  {
    hide PollLoop, IsAbsoluteUrl, GoesOn, StopsWith;
    AbsoluteIff(p.url(w.local.status, mutate).value);
    k := LoopStops(w, p, mutate, Deadline(w, p), w.now + RECONCILE_BUDGET);
  }

  /** Without a URL to poll: an error to retry if it cannot be evaluated, terminal if it is not absolute. */
  lemma BadUrls(w: World, m: Mapping, p: Polling, mutate: Response)
    requires m.polling == Some(p)
    ensures var url, o := p.url(w.local.status, mutate), Poll(w, m, mutate).1;
      && (url.EvalErr? ==> o == Errored)
      && (url.EvalOk? && !Absolute(url.value) ==> o.Terminal? && o.verdict == BadUrl && o.msg != "")
  {
    hide PollLoop, IsAbsoluteUrl;
    if p.url(w.local.status, mutate).EvalOk? { AbsoluteIff(p.url(w.local.status, mutate).value); }
  }

  lemma PollLeaves(w: World, m: Mapping, mutate: Response)
    requires Undisturbed(w.tape)
    ensures var r := Poll(w, m, mutate).0;
      Undisturbed(r.tape) && r.server == w.server && r.local == w.local && r.finalized == w.finalized
  {
    hide PollLoop, IsAbsoluteUrl, Undisturbed;
    if m.polling.Some? {
      var st, p := w.local.status, m.polling.value;
      var startedAt := if st.startedAt.Some? then st.startedAt.value else w.now;
      LoopLeaves(w, p, mutate, startedAt + p.timeout, w.now + RECONCILE_BUDGET);
    }
  }

  // ---------------------------------------------------------------- the end of an operation

  function Cleared(st: Status): Status {
    st.(anchor := None, startedAt := None)
  }

  /** The failing answer in place of the stored response, as one of a POST. */
  function Surfaced(st: Status, failing: Response): Status {
    st.(response := failing, requestDetails := HttpRequest("POST", "", "", None))
  }

  /** A write touches nothing but the status, whether it lands or not. */
  lemma SaveLeaves(w: World, c: Change)
    requires Undisturbed(w.tape)
    ensures var (r, ok) := Save(w, c); SameButStatus(w.server, r.server) && r.finalized == w.finalized && Undisturbed(r.tape)
    ensures Succeed(w.tape, 0, 1) ==>
      var (r, ok) := Save(w, c);
      && ok && r.local == r.server && r.tape == w.tape[1..]
      && (var st := Apply(c, w.server, r.now); r.server.status == if st.Some? then st.value else w.server.status)
  {
    hide Apply, Undisturbed, Save;
    SaveKeeps(w, c);
    if Succeed(w.tape, 0, 1) { SaveLands(w, c); }
  }

  lemma SaveKeeps(w: World, c: Change)
    requires Undisturbed(w.tape)
    ensures var r := Save(w, c).0; SameButStatus(w.server, r.server) && r.finalized == w.finalized && Undisturbed(r.tape)
  {
    hide Apply, Undisturbed, Disturb;
    if Alive(w) { UndisturbedTail(w); }
  }

  lemma Terminates(o: Object, msg: string, now: nat)
    ensures Apply(SetTerminal(msg, false), o, now)
            == Some(o.status.(terminalError := msg, error := msg, observedGeneration := o.generation))
  {
  }

  lemma Completes(o: Object, mutate: Response, poll: Option<Response>, now: nat)
    ensures var before := o.status;
      Apply(Complete(mutate, poll), o, now)
      == Some(Cleared(before).(externalRef := NamedBy(o.spec, Cleared(before), mutate, poll, before.externalRef)))
  {
  }

  lemma FailureEnds(w: World, mutate: Response, failing: Response, msg: string)
    requires w.local == w.server && w.server.status.terminalError == "" && Undisturbed(w.tape)
    ensures var (after, ok) := HandleOperationFailure(w, mutate, failing, msg);
      var before, st := w.server.status, after.server.status;
      && SameButStatus(w.server, after.server) && after.finalized == w.finalized
      && (Succeed(w.tape, 0, 2) ==>
            var surfaced := Cleared(Surfaced(before, failing));
            var gaveUp := GivesUp(w.server.spec, Surfaced(before, failing), mutate, Some(failing));
            && ok && (st.terminalError != "" <==> gaveUp)
            && (gaveUp ==> Reason(w.server.spec, Surfaced(before, failing), mutate, Some(failing), msg, st.terminalError))
            && st == if gaveUp
                     then surfaced.(terminalError := st.terminalError, error := st.terminalError, observedGeneration := w.server.generation)
                     else surfaced)
  {
    hide Classify, GivesUp, Reason, Save, Undisturbed;
    SaveLeaves(w, PollFailure(failing));
    var (w1, ok) := Save(w, PollFailure(failing));
    if ok {
      ClassifyIs(w1.local.spec, w1.local.status, mutate, Some(failing), msg);
      var terminal := Classify(w1.local.spec, w1.local.status, mutate, Some(failing), msg);
      SaveLeaves(w1, if terminal.Some? then SetTerminal(terminal.value, true) else ClearAnchor);
    }
  }

  /**
   What the outcome of a poll leaves behind when the writes that follow succeed. A terminal
   outcome is recorded for this generation and keeps the operation's answer; a completed one
   clears it and stores the identity the last answer yields, if any; a failed one is surfaced,
   clears it, and stalls if and only if isTerminalError says so; all others change nothing.
   */
  lemma OperationEnds(w: World, m: Mapping, mutate: Response)
    requires w.local == w.server && w.server.status.terminalError == "" && Undisturbed(w.tape)
    ensures var (w1, o) := Poll(w, m, mutate);
      var (after, ok) := PollAndFinish(w, m, mutate);
      var spec, before, st := w.server.spec, w.server.status, after.server.status;
      && SameButStatus(w.server, after.server) && after.finalized == w.finalized
      && (o.Errored? ==> !ok && st == before)
      && (o.StillRunning? ==> ok && st == before)
      && (o.Terminal? && Succeed(w1.tape, 0, 1) ==>
            ok && st == before.(terminalError := o.msg, error := o.msg, observedGeneration := w.server.generation))
      && (o.Finished? && Succeed(w1.tape, 0, 1) ==>
            ok && st == Cleared(before).(externalRef := NamedBy(spec, Cleared(before), mutate, o.poll, before.externalRef)))
      && (o.Failure? && Succeed(w1.tape, 0, 2) ==>
            var surfaced := Cleared(Surfaced(before, o.failing));
            var gaveUp := GivesUp(spec, Surfaced(before, o.failing), mutate, Some(o.failing));
            && ok && (st.terminalError != "" <==> gaveUp)
            && (gaveUp ==> Reason(spec, Surfaced(before, o.failing), mutate, Some(o.failing), o.msg, st.terminalError))
            && st == if gaveUp
                     then surfaced.(terminalError := st.terminalError, error := st.terminalError, observedGeneration := w.server.generation)
                     else surfaced)
  {
    hide Poll, HandleOperationFailure, Undisturbed, Save, Apply, GivesUp, Reason, NamedBy;
    PollLeaves(w, m, mutate);
    var (w1, o) := Poll(w, m, mutate);
    match o {
      case Errored =>
      case StillRunning =>
      case Terminal(_, msg) =>
        SaveLeaves(w1, SetTerminal(msg, false));
        Terminates(w1.server, msg, Save(w1, SetTerminal(msg, false)).0.now);
      case Finished(_, poll) =>
        SaveLeaves(w1, Complete(mutate, poll));
        Completes(w1.server, mutate, poll, Save(w1, Complete(mutate, poll)).0.now);
      case Failure(failing, msg) => FailureEnds(w1, mutate, failing, msg);
    }
  }

  /** An operation whose mapping has no polling block any more is over: its own answer is the last one. */
  lemma UnpolledIsOver(w: World, m: Mapping, mutate: Response)
    requires w.local == w.server && w.server.status.terminalError == "" && Undisturbed(w.tape) && Succeed(w.tape, 0, 1)
    requires m.polling.None?
    ensures var (after, ok) := PollAndFinish(w, m, mutate);
      var cleared := Cleared(w.server.status);
      && ok && SameButStatus(w.server, after.server)
      && after.server.status == cleared.(externalRef := NamedBy(w.server.spec, cleared, mutate, None, cleared.externalRef))
  {
    hide PollAndFinish, NamedBy, Undisturbed;
    OperationEnds(w, m, mutate);
  }
}
