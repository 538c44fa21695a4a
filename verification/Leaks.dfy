/**
 Why at-most-one CREATE needs its hypotheses: two ways an accepted operation leaves no trace
 in the status, so that the next reconcile sends a second CREATE.
 */
module Leaks {
  import opened Api
  import opened Cluster
  import opened RequestMapping
  import opened RequestGen
  import opened Poller
  import opened Deploy
  import opened Observing
  import opened Reconciling
  import opened Protocol
  import opened ProtocolProofs
  import opened Safety

  function Plain(reply: Reply): Turn {
    Turn(Env(None, None, false, false, 0), reply)
  }

  /** The next reconcile of this object sends its CREATE. */
  ghost predicate Creatable(w: World) {
    var o := w.server;
    var observe, create := MappingFor(o.spec, Observe), MappingFor(o.spec, Create);
    && !w.finalized && !o.deleted
    && o.status.externalRef == "" && o.status.terminalError == ""
    && o.status.anchor.None? && o.status.startedAt.None?
    && (o.externalName == "" || o.externalName == o.name)
    && observe.Some? && UrlReferencesExternalRef(observe.value.url)
    && create.Some? && create.value.polling.Some?
    && GenerateValidRequestDetails(create.value, o.status).EvalOk?
  }

  /** Get, Get, send; then the process is gone. */
  function CrashAfterSend(response: Response): seq<Turn> {
    [Plain(Landed), Plain(Landed), Plain(Answer(response))]
  }

  function Sending(w: World, response: Response): seq<Event> {
    w.log + [Began] + [Routed(true)] + [Mutate(Create, true, w.server.status, Answer(response), true)]
  }

  /** Up to the send, a reconcile of a creatable object runs like this, whatever comes after. */
  lemma Creates(w: World, response: Response, rest: seq<Turn>)
    requires Creatable(w) && !IsHTTPError(response.statusCode, w.server.spec.allowed)
    requires w.tape == CrashAfterSend(response) + rest
    ensures var w1 := w.(local := w.server, tape := rest, log := Sending(w, response));
      var m := MappingFor(w.server.spec, Create).value;
      var (w2, ok) := Save(w1, PersistAnchor(response));
      Reconcile(w) == if ok then PollAndFinish(w2, m, response).0 else w2
  {
    hide MappingFor, UrlReferencesExternalRef, UrlReferencesResponse, PollingConfigured;
    hide GenerateValidRequestDetails, Save, PollAndFinish, ObserveResponseDriven;
    var t := w.tape;
    assert t[0] == Plain(Landed) && t[1] == Plain(Landed) && t[2] == Plain(Answer(response));
    assert t[1..][0] == t[1] && t[1..][1..][0] == t[2] && t[1..][1..][1..] == rest;
    var w1, ok := Get(Emit(w, Began)).0, Get(Emit(w, Began)).1;
    assert ok && w1 == w.(local := w.server, tape := t[1..], log := w.log + [Began]);
    assert ObserveResource(w1) == (Emit(w1, Routed(true)), NotExists);
    var w2 := Emit(w1, Routed(true));
    var w3 := w2.(tape := t[1..][1..]);
    assert RefreshAndDeploy(w2, Create) == Fire(w3, Create, MappingFor(w.server.spec, Create).value).0;
  }

  /**
   A crash between an accepted CREATE and its anchor write leaves the object as it was, so the
   next reconcile sends a second CREATE: two operations live, no identity.
   */
  lemma CrashBeforeAnchorForks(w: World, response: Response)
    requires New(w) && Creatable(w) && !IsHTTPError(response.statusCode, w.server.spec.allowed)
    ensures var t := CrashAfterSend(response);
      var r := Run(w, [t, t]);
      r.server == w.server && BookOf(r.log).ops == [Lost, Lost] && Count(BookOf(r.log).ops, MayLive) == 2
  {
    hide Creatable, Reconcile, BookOf, Count, Run, CrashAfterSend, Sending;
    var t := CrashAfterSend(response);
    StillCreatable(w, w.(tape := t));
    var w1 := Forked(w.(tape := t), response);
    StillCreatable(w, w1.(tape := t));
    var w2 := Forked(w1.(tape := t), response);
    TwoReconciles(w, t, t);
    BookOfSending(w.(tape := t), response);
    BookOfSending(w1.(tape := t), response);
    assert BookOf(w.log).ops == [] by { EmptyBook(); }
    CountTwo(Lost, Lost);
  }

  lemma CountTwo(a: Fate, b: Fate)
    ensures Count([a, b], MayLive) == (if MayLive(a) then 1 else 0) + if MayLive(b) then 1 else 0
  {
    CountPush([], a, MayLive);
    CountPush([a], b, MayLive);
    assert [] + [a] == [a] && [a] + [b] == [a, b];
  }

  lemma TwoReconciles(w: World, s: seq<Turn>, t: seq<Turn>)
    ensures Run(w, [s, t]) == Reconcile(Reconcile(w.(tape := s)).(tape := t))
  {
    hide Reconcile;
    var w1 := Reconcile(w.(tape := s));
    assert [s, t][1..] == [t] && [t][1..] == [];
    assert Run(w1, [t]) == Run(Reconcile(w1.(tape := t)), []);
  }

  lemma StillCreatable(w: World, w': World)
    requires Creatable(w) && w'.server == w.server.(version := w'.server.version) && w'.finalized == w.finalized
    ensures Creatable(w')
  {
  }

  lemma Forked(w: World, response: Response) returns (r: World)
    requires Creatable(w) && !IsHTTPError(response.statusCode, w.server.spec.allowed)
    requires w.tape == CrashAfterSend(response)
    ensures r == Reconcile(w) && r.server == w.server && r.log == Sending(w, response) && r.finalized == w.finalized
  {
    hide Reconcile, MappingFor, UrlReferencesExternalRef, GenerateValidRequestDetails;
    assert w.tape == w.tape + [];
    Creates(w, response, []);
    r := Reconcile(w);
  }

  lemma BookOfSending(w: World, response: Response)
    ensures var b := BookOf(Sending(w, response));
      && b.ops == BookOf(w.log).ops + [Lost] && b.pending == Some(response) && b.status == BookOf(w.log).status
  {
    Extend(w.log, Began);
    Extend(w.log + [Began], Routed(true));
    Extend(w.log + [Began] + [Routed(true)], Mutate(Create, true, w.server.status, Answer(response), true));
  }

  // ---------------------------------------------------------------- completion without an identity

  /** The anchored status of a creatable object. */
  function AnchoredStatus(w: World, response: Response): Status {
    w.server.status.(anchor := Some(response), startedAt := Some(Stored(w.now)))
  }

  /** The CREATE completes on its first poll, and the externalRef expression yields nothing. */
  ghost predicate CompletesBlank(w: World, response: Response, poll: Response)
    requires Creatable(w)
  {
    var p, st := MappingFor(w.server.spec, Create).value.polling.value, AnchoredStatus(w, response);
    && p.url(st, response).EvalOk? && IsAbsoluteUrl(p.url(st, response).value) && p.timeout >= SECOND
    && Judge(p, st, response, poll) == Some(Finished(Completed, Some(poll)))
    && EvalExternalRef(w.server.spec, w.server.status, response, Some(poll)) == ""
  }

  function CreateAndComplete(response: Response, poll: Response): seq<Turn> {
    CrashAfterSend(response) + [Plain(Landed), Plain(Answer(poll)), Plain(Landed)]
  }

  lemma CompletesBlankly(w: World, response: Response, poll: Response) returns (r: World)
    requires Creatable(w) && !IsHTTPError(response.statusCode, w.server.spec.allowed)
    requires CompletesBlank(w, response, poll) && w.tape == CreateAndComplete(response, poll)
    ensures r == Reconcile(w) && r.server == w.server.(version := w.server.version + 2) && r.finalized == w.finalized
    ensures var st := AnchoredStatus(w, response);
      var o1 := w.server.(status := st, version := w.server.version + 1);
      r.log == Sending(w, response) + [Wrote(PersistAnchor(response), w.server.spec, w.server, w.now, st)]
               + [PollCall(w.now)] + [Polled(Completed, st)]
               + [Wrote(Complete(response, Some(poll)), w.server.spec, o1, w.now, w.server.status)]
  {
    hide Reconcile, MappingFor, UrlReferencesExternalRef, GenerateValidRequestDetails, Judge, EvalExternalRef, IsAbsoluteUrl;
    r := Reconcile(w);
    var rest := [Plain(Landed), Plain(Answer(poll)), Plain(Landed)];
    Creates(w, response, rest);
    var w1 := w.(local := w.server, tape := rest, log := Sending(w, response));
    var (w2, ok) := Save(w1, PersistAnchor(response));
    var st := AnchoredStatus(w, response);
    var o1 := w.server.(status := st, version := w.server.version + 1);
    assert ok && w2.local == o1 && w2.server == o1 && w2.tape == [Plain(Answer(poll)), Plain(Landed)];
    var m := MappingFor(w.server.spec, Create).value;
    assert IsAbsoluteUrl(m.polling.value.url(st, response).value);
    assert m.polling.value.url(st, response).value != "" by { AbsoluteUrlNonEmpty(m.polling.value.url(st, response).value); }
    var (w3, outcome) := Poll(w2, m, response);
    assert outcome == Finished(Completed, Some(poll)) && w3.tape == [Plain(Landed)] && w3.server == o1 && w3.local == o1;
    assert st.(anchor := None, startedAt := None) == w.server.status;
  }

  lemma AbsoluteUrlNonEmpty(raw: string)
    requires IsAbsoluteUrl(raw)
    ensures raw != ""
  {
  }

  /**
   A CREATE that completes while its externalRef expression fails or yields "" loses its
   anchor all the same, and the next reconcile sends a second CREATE.
   */
  lemma BlankCompletionReopensCreate(w: World, response: Response, poll: Response)
    requires New(w) && Creatable(w) && !IsHTTPError(response.statusCode, w.server.spec.allowed)
    requires CompletesBlank(w, response, poll)
    ensures var r := Run(w, [CreateAndComplete(response, poll), CrashAfterSend(response)]);
      r.server.status == w.server.status && BookOf(r.log).ops == [Blank, Lost] && Count(BookOf(r.log).ops, MayLive) == 2
  {
    hide Creatable, Reconcile, CompletesBlank, BookOf, Count, Run, CrashAfterSend, CreateAndComplete;
    var s, t := CreateAndComplete(response, poll), CrashAfterSend(response);
    SameWorld(w, s, response, poll);
    var w1 := CompletesBlankly(w.(tape := s), response, poll);
    StillCreatable(w, w1.(tape := t));
    var w2 := Forked(w1.(tape := t), response);
    TwoReconciles(w, s, t);
    BookOfSending(w1.(tape := t), response);
    BookOfBlank(w.(tape := s), w1.log, response, poll);
    CountTwo(Blank, Lost);
  }

  lemma SameWorld(w: World, s: seq<Turn>, response: Response, poll: Response)
    requires Creatable(w) && CompletesBlank(w, response, poll)
    ensures Creatable(w.(tape := s)) && CompletesBlank(w.(tape := s), response, poll)
  {
  }

  lemma BookOfBlank(w: World, log: seq<Event>, response: Response, poll: Response)
    requires New(w)
    requires var st := AnchoredStatus(w, response);
      var o1 := w.server.(status := st, version := w.server.version + 1);
      log == Sending(w, response) + [Wrote(PersistAnchor(response), w.server.spec, w.server, w.now, st)]
             + [PollCall(w.now)] + [Polled(Completed, st)]
             + [Wrote(Complete(response, Some(poll)), w.server.spec, o1, w.now, w.server.status)]
    ensures BookOf(log).ops == [Blank]
  {
    hide BookOf;
    var st := AnchoredStatus(w, response);
    var l0 := Sending(w, response);
    assert BookOf(l0).ops == [Lost] && BookOf(l0).status.anchor.None? by { BookOfSending(w, response); EmptyBook(); }
    var e1 := Wrote(PersistAnchor(response), w.server.spec, w.server, w.now, st);
    Extend(l0, e1);
    Extend(l0 + [e1], PollCall(w.now));
    Extend(l0 + [e1] + [PollCall(w.now)], Polled(Completed, st));
    var l3 := l0 + [e1] + [PollCall(w.now)] + [Polled(Completed, st)];
    Extend(l3, log[|log| - 1]);
  }

  lemma EmptyBook()
    ensures BookOf([]) == NEW_BOOK
  {
  }
}
