/** The foreground poll loop over a long-running operation. */
module Poller {
  import opened Api
  import opened Cluster

  /** How long one reconcile may spend in the loop: two minutes. */
  const RECONCILE_BUDGET := 120 * SECOND

  datatype Outcome =
    | Errored
    | Terminal(verdict: Verdict, msg: string)
    | Failure(failing: Response, msg: string)
    | StillRunning
    | Finished(verdict: Verdict, poll: Option<Response>)

  function VerdictOf(o: Outcome): Verdict {
    match o
    case Errored => Broke
    case Terminal(v, _) => v
    case Failure(_, _) => OpFailed
    case StillRunning => Running
    case Finished(v, _) => v
  }

  const EMPTY_URL := "polling.url resolved to an empty value"
  const INVALID_URL := "polling.url is not a valid absolute URL"
  const TIMEOUT := "polling timeout"

  /** What a poll response says about the operation; None while it is still running. */
  function Judge(p: Polling, st: Status, mutate: Response, poll: Response): (r: Option<Outcome>)
    ensures r.Some? ==> !r.value.Terminal? && !r.value.StillRunning? && (r.value.Finished? ==> r.value == Finished(Completed, Some(poll)))
    ensures r.Some? && r.value.Failure? ==> r.value.failing == poll
  {
    var done := p.done(st, mutate, poll);
    if done.EvalErr? then Some(Errored)
    else if !done.value then None
    else if p.error.None? then Some(Finished(Completed, Some(poll)))
    else
      match p.error.value(st, mutate, poll)
      case EvalErr(_) => Some(Errored)
      case EvalOk(None) => Some(Finished(Completed, Some(poll)))
      case EvalOk(Some(msg)) => Some(Failure(poll, msg))
  }

  /** One turn of the tape spent sleeping for `interval`. */
  function Sleep(w: World, interval: nat): (World, bool) {
    if !Alive(w) then (w, false)
    else
      var w1 := Advance(w);
      (w1.(now := w1.now + interval), w.tape[0].reply.Landed?)
  }

  function PollLoop(w: World, p: Polling, mutate: Response, deadline: int, budgetEnd: int): (r: (World, Outcome))
    ensures r.1.Terminal? ==> r.1.verdict == TimedOut && r.1.msg == TIMEOUT
    ensures r.1.Finished? ==> r.1.verdict == Completed && r.1.poll.Some?
    decreases |w.tape|
  {
    if !w.local.deleted && w.now > deadline then (w, Terminal(TimedOut, TIMEOUT))
    else if w.now > budgetEnd then (w, StillRunning)
    else if !Alive(w) then (w, Errored)
    else
      var (w1, reply) := Send(Emit(w, PollCall(w.now)));
      if !reply.Answer? then (w1, Errored)
      else
        var verdict := Judge(p, w.local.status, mutate, reply.response);
        if verdict.Some? then (w1, verdict.value)
        else
          var (w2, woke) := Sleep(w1, p.interval);
          if !woke then (w2, Errored) else PollLoop(w2, p, mutate, deadline, budgetEnd)
  }

  function Drive(w: World, p: Polling, mutate: Response): (World, Outcome) {
    var url := p.url(w.local.status, mutate);
    if url.EvalErr? then (w, Errored)
    else if url.value == "" then (w, Terminal(BadUrl, EMPTY_URL))
    else if !IsAbsoluteUrl(url.value) then (w, Terminal(BadUrl, INVALID_URL))
    else
      var startedAt := if w.local.status.startedAt.Some? then w.local.status.startedAt.value else w.now;
      PollLoop(w, p, mutate, startedAt + p.timeout, w.now + RECONCILE_BUDGET)
  }

  /** Drive the operation of mapping `m` and put its verdict on record. */
  function Poll(w: World, m: Mapping, mutate: Response): (World, Outcome) {
    var (w1, o) := if m.polling.None? then (w, Finished(NoBlock, None)) else Drive(w, m.polling.value, mutate);
    (Emit(w1, Polled(VerdictOf(o), w1.local.status)), o)
  }
}
