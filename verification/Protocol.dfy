/**
 The protocol an onlooker can check from the log alone: which calls and which status writes
 are allowed, given everything that was seen before. The auditor keeps its own books from the
 events; it knows nothing of the controller's code.
 */
module Protocol {
  import opened Api
  import opened Cluster
  import opened RequestGen
  import Terms

  /** What became of a mutate sent through a polling mapping. */
  datatype Fate =
    | Rejected    // refused, or no response and not accepted
    | Lost        // accepted, but its response was never anchored
    | Anchored    // its response is the anchor
    | Identified  // anchor cleared on completion, externalRef is set
    | Blank       // anchor cleared on completion, externalRef is still empty
    | Dead        // anchor cleared on a poll-confirmed failure
    | Released    // anchor cleared because the mapping had no polling block any more

  /**
   `status` is the stored status, `ops` the fates of the polled mutates in the order they were
   sent, `pending` the response of an accepted one that awaits anchoring. The rest is what this
   reconcile has shown so far: the poll verdict, the route taken, a reported absence.
   */
  datatype Book = Book(
    status: Status,
    ops: seq<Fate>,
    pending: Option<Response>,
    verdict: Option<Verdict>,
    routed: Option<bool>,
    absent: bool)

  const NEW_BOOK := Book(FRESH_STATUS, [], None, None, None, false)

  /** An OBSERVE response says that the resource is gone or its sub-resource missing. */
  predicate ReportsAbsence(spec: Spec, st: Status, r: Response) {
    Terms.Gone(spec, st, r) || Terms.Missing(spec, st, r)
  }

  /** The latest mutate changes its fate. */
  function Settle(ops: seq<Fate>, fate: Fate): (r: seq<Fate>)
    ensures |r| == |ops|
  {
    if ops == [] then [] else ops[|ops| - 1 := fate]
  }

  function FateOnClear(verdict: Option<Verdict>, after: Status): Fate {
    if verdict == Some(OpFailed) then Dead
    else if verdict == Some(NoBlock) then Released
    else if after.externalRef == "" then Blank
    else Identified
  }

  function Next(b: Book, e: Event): Book {
    match e
    case Began => b.(pending := None, verdict := None, routed := None, absent := false)
    case ObserveCall(spec, st, reply) => b.(absent := ReportsAbsence(spec, st, ResponseOf(reply)))
    case Routed(byExternalRef) => b.(routed := Some(byExternalRef))
    case Mutate(_, polled, _, reply, accepted) =>
      if !polled then b
      else if !accepted then b.(ops := b.ops + [Rejected], pending := None)
      else b.(ops := b.ops + [Lost], pending := if reply.Answer? then Some(reply.response) else None)
    case PollCall(_) => b
    case Polled(verdict, _) => b.(verdict := Some(verdict))
    case Wrote(_, _, _, _, after) =>
      if b.status.anchor.None? && after.anchor.Some? then
        b.(status := after, pending := None, ops := Settle(b.ops, Anchored))
      else if b.status.anchor.Some? && after.anchor.None? then
        b.(status := after, verdict := None, ops := Settle(b.ops, FateOnClear(b.verdict, after)))
      else b.(status := after)
    case Finalized(_) => b
  }

  function BookOf(log: seq<Event>): Book {
    if log == [] then NEW_BOOK else Next(BookOf(log[..|log| - 1]), log[|log| - 1])
  }

  /** When each status write may happen. */
  predicate Guard(b: Book, c: Change, spec: Spec, o: Object) {
    var st := b.status;
    match c
    case Seed(ref) => ref != "" && ref == o.externalName && ref != o.name && st.externalRef == ""
    case ClearTerminal => st.terminalError != "" && st.observedGeneration < o.generation
    case SetTerminal(msg, clearAnchor) =>
      && msg != ""
      && st.terminalError == ""
      && (clearAnchor ==> st.anchor.Some? && b.verdict == Some(OpFailed))
      && (!clearAnchor ==> st.anchor.None? || b.verdict == Some(TimedOut) || b.verdict == Some(BadUrl))
    case PollFailure(_) => st.anchor.Some? && b.verdict == Some(OpFailed)
    case ClearAnchor => st.anchor.Some? && b.verdict == Some(OpFailed)
    case ExtractRef(_) => st.anchor.None?
    case Complete(mutate, poll) =>
      st.anchor == Some(mutate) && b.verdict == Some(if poll.Some? then Completed else NoBlock)
    case PersistAnchor(mutate) => st.anchor.None? && b.pending == Some(mutate)
    case StartClock => st.anchor.Some? && st.startedAt.None?
    case RecordError(_) => st.anchor.None?
    case Record(d, _, _, cached) =>
      && (st.anchor.Some? ==> d == NO_DETAILS)
      && (cached ==> ShouldSetCache(spec, st, d.response))
  }

  predicate Allowed(b: Book, e: Event) {
    var st := b.status;
    match e
    case Began => true
    case ObserveCall(_, s, _) => s == st && st.anchor.None? && st.terminalError == ""
    case Routed(_) => st.anchor.None? && st.terminalError == ""
    case Mutate(action, _, s, _, _) =>
      && s == st
      && st.anchor.None?
      && st.terminalError == ""
      && (action == Remove && st.externalRef == "" ==> b.routed == Some(false))
      && (action == Create && st.externalRef != "" ==> b.absent)
    case PollCall(_) => st.anchor.Some? && st.startedAt.Some? && st.terminalError == ""
    case Polled(_, s) => s == st && st.anchor.Some? && st.startedAt.Some?
    case Wrote(c, spec, o, at, after) => o.status == st && Apply(c, o, at) == Some(after) && Guard(b, c, spec, o)
    case Finalized(s) => s == st && st.anchor.None? && (st.externalRef != "" ==> b.absent)
  }

  predicate Legal(log: seq<Event>) {
    log == [] || (Legal(log[..|log| - 1]) && Allowed(BookOf(log[..|log| - 1]), log[|log| - 1]))
  }

  lemma Extend(log: seq<Event>, e: Event)
    ensures BookOf(log + [e]) == Next(BookOf(log), e)
    ensures Legal(log + [e]) <==> Legal(log) && Allowed(BookOf(log), e)
  {
    assert (log + [e])[..|log|] == log;
  }
}
