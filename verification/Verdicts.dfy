/** What the verdicts of polls, failures and observations mean. */
module Verdicts {
  import opened Api
  import opened Cluster
  import opened RequestMapping
  import opened RequestGen
  import Terms
  import opened Poller
  import opened Deploy
  import opened Observing
  import opened Reconciling
  import opened Refinement

  // ---------------------------------------------------------------- polls

  predicate Answered(tape: seq<Turn>, r: Response) {
    exists i :: 0 <= i < |tape| && tape[i].reply == Answer(r)
  }

  /** The operation reports done, and polling.error evaluates to this. */
  ghost predicate ReportsEnd(p: Polling, st: Status, mutate: Response, poll: Response, failure: Option<string>) {
    && p.done(st, mutate, poll) == EvalOk(true)
    && (if p.error.None? then failure == None else p.error.value(st, mutate, poll) == EvalOk(failure))
  }

  /** What the outcome of a poll says about the clock and about an answer the tape held. */
  ghost predicate Justified(w: World, p: Polling, mutate: Response, deadline: int, budgetEnd: int, r: World, o: Outcome) {
    match o
    case Errored => true
    case Terminal(verdict, _) => verdict == TimedOut && !w.local.deleted && r.now > deadline
    case StillRunning => r.now > budgetEnd && (w.local.deleted || r.now <= deadline)
    case Failure(failing, msg) => Answered(w.tape, failing) && ReportsEnd(p, w.local.status, mutate, failing, Some(msg))
    case Finished(verdict, poll) =>
      verdict == Completed && poll.Some? && Answered(w.tape, poll.value) && ReportsEnd(p, w.local.status, mutate, poll.value, None)
  }

  lemma AnsweredLater(tape: seq<Turn>, n: nat, r: Response)
    requires n <= |tape| && Answered(tape[n..], r)
    ensures Answered(tape, r)
  {
    var i :| 0 <= i < |tape[n..]| && tape[n..][i].reply == Answer(r);
    assert tape[i + n].reply == Answer(r);
  }

  /**
   A timeout only after the deadline of an undeleted resource; a pause only after the budget;
   an end only on an answer that reports done, failed or completed as polling.error says.
   */
  lemma {:induction false} PollVerdictsAreJustified(w: World, p: Polling, mutate: Response, deadline: int, budgetEnd: int)
    ensures var (r, o) := PollLoop(w, p, mutate, deadline, budgetEnd);
      Justified(w, p, mutate, deadline, budgetEnd, r, o)
    decreases |w.tape|
  {
    hide Disturb, Judge;
    if !(!w.local.deleted && w.now > deadline) && !(w.now > budgetEnd) && Alive(w) {
      var (w1, reply) := Send(Emit(w, PollCall(w.now)));
      if reply.Answer? {
        assert Answered(w.tape, reply.response) by { assert w.tape[0].reply == Answer(reply.response); }
        JudgeJustified(p, w.local.status, mutate, reply.response);
        if Judge(p, w.local.status, mutate, reply.response).None? {
          var (w2, woke) := Sleep(w1, p.interval);
          if woke {
            PollVerdictsAreJustified(w2, p, mutate, deadline, budgetEnd);
            assert w2.tape == w.tape[2..] && w2.local == w.local;
            var o := PollLoop(w2, p, mutate, deadline, budgetEnd).1;
            if o.Failure? { AnsweredLater(w.tape, 2, o.failing); }
            if o.Finished? { AnsweredLater(w.tape, 2, o.poll.value); }
          }
        }
      }
    }
  }

  lemma JudgeJustified(p: Polling, st: Status, mutate: Response, poll: Response)
    ensures var v := Judge(p, st, mutate, poll);
      && (v.None? <==> p.done(st, mutate, poll) == EvalOk(false))
      && (v.Some? && v.value.Failure? ==> v.value.failing == poll && ReportsEnd(p, st, mutate, poll, Some(v.value.msg)))
      && (v.Some? && v.value.Finished? ==> ReportsEnd(p, st, mutate, poll, None))
  {
  }

  // ---------------------------------------------------------------- failures

  /** The values of isTerminalError that mean: give up. */
  predicate SaysTerminal(v: Eval<JqValue>) {
    v.EvalErr? || v == EvalOk(JqBool(true)) || (v.value.JqString? && v.value.s != "")
  }

  /**
   A failure stalls if and only if isTerminalError is set and is true, a non-empty string, or
   broken; the string is the message, and no message is empty.
   */
  lemma ClassifyDecides(spec: Spec, st: Status, mutate: Response, poll: Option<Response>, default: string)
    ensures var msg := Classify(spec, st, mutate, poll, default);
      && (msg.Some? <==> spec.isTerminalError.Some? && SaysTerminal(spec.isTerminalError.value(st, mutate, poll)))
      && (msg.Some? ==> msg.value != "")
      && (msg.Some? && default != "" && spec.isTerminalError.value(st, mutate, poll) == EvalOk(JqBool(true)) ==> msg.value == default)
  {
  }

  /** A turn in which nobody edits, deletes or renames, and a write succeeds. */
  predicate Succeeds(t: Turn) {
    t.env.spec.None? && t.env.externalName.None? && !t.env.delete && t.reply.Landed?
  }

  /**
   A poll-confirmed failure, its two writes succeeding: the failing answer is on record, the
   anchor and its clock are gone, the counter and the identity are untouched, and the resource
   stalls if and only if isTerminalError says so of the status with the failing answer in it.
   */
  lemma OperationFailureEnds(w: World, mutate: Response, failing: Response, msg: string)
    requires InSync(w) && w.local == w.server && |w.tape| >= 2 && Succeeds(w.tape[0]) && Succeeds(w.tape[1])
    requires w.server.status.terminalError == ""
    ensures var (r, ok) := HandleOperationFailure(w, mutate, failing, msg);
      var st := r.server.status;
      var surfaced := w.server.status.(response := failing, requestDetails := HttpRequest("POST", "", "", None));
      && ok && st.response == failing && st.anchor.None? && st.startedAt.None?
      && st.failed == w.server.status.failed && st.externalRef == w.server.status.externalRef
      && (st.terminalError != "" <==>
            w.server.spec.isTerminalError.Some? && SaysTerminal(w.server.spec.isTerminalError.value(surfaced, mutate, Some(failing))))
      && (st.terminalError != "" ==> st.observedGeneration == r.server.generation)
  {
    hide Classify, SaysTerminal;
    var (w1, ok) := Save(w, PollFailure(failing));
    assert ok && w1.tape == w.tape[1..] && w1.server.spec == w.server.spec && w1.local == w1.server;
    ClassifyDecides(w1.local.spec, w1.local.status, mutate, Some(failing), msg);
  }

  // ---------------------------------------------------------------- observations

  /** Identified, at rest and driven by externalRef: its next reconcile sends OBSERVE. */
  predicate Observable(o: Object) {
    var m := MappingFor(o.spec, Observe);
    && o.status.externalRef != "" && o.status.terminalError == "" && o.status.anchor.None?
    && m.Some? && Terms.KeyedUrl(m.value.url) && Terms.Templated(m.value, o.status).EvalOk?
  }

  /** An HTTP error that is not recognised as the removal of the resource. */
  predicate Unexplained(o: Object, r: Response) {
    Terms.HttpError(o.spec, r) && !Terms.Gone(o.spec, o.status, r)
  }

  /**
   An OBSERVE answered with an unexplained HTTP error decides nothing: the reconcile ends there,
   deleted or not, with no mutate, no status write and the finalizer kept.
   */
  lemma ErrorsDecideNothing(w: World, r: Response)
    requires !w.finalized && |w.tape| >= 2 && w.tape[0].reply.Landed? && w.tape[1].reply == Answer(r)
    requires var o := Disturb(w.server, w.tape[0].env); Observable(o) && Unexplained(o, r)
    ensures var o, after := Disturb(w.server, w.tape[0].env), Reconcile(w);
      && after.log == w.log + [Began] + [Routed(true)] + [ObserveCall(o.spec, o.status, Answer(r))]
      && after.server.status == w.server.status && !after.finalized
  {
    hide MappingFor, UrlReferencesExternalRef, UrlReferencesResponse, PollingConfigured, CheckExists, Terms.KeyedUrl, Terms.Templated;
    hide GenerateValidRequestDetails, DetermineIfUpToDate, ObserveResponseDriven, UpdateLocal;
    var o := Disturb(w.server, w.tape[0].env);
    var m := MappingFor(o.spec, Observe).value;
    Terms.UrlsIff(m.url);
    Terms.TemplatedIs(m, o.status);
    var w1 := Get(Emit(w, Began)).0;
    assert w1.tape == w.tape[1..] && w.tape[1..][0] == w.tape[1];
    var w2 := Emit(w1, Routed(true));
    var w3 := SendObserve(w2).0;
    assert IsUpToDate(w1) == (w3, Failed);
  }
}
