/**
 What an OBSERVE answer means: a decision table over the spec's own checks, and what the
 reconcile does about each row.
 */
module Observations {
  import opened Api
  import opened Cluster
  import opened RequestMapping
  import opened RequestGen
  import opened Deploy
  import opened Observing
  import opened Reconciling
  import opened Terms

  // ---------------------------------------------------------------- the table

  datatype Sighting = Absent | Unclear | Present(synced: bool) | Stuck

  /** The table. `keyed`: the OBSERVE URL is keyed on .status.externalRef. */
  function Sighted(spec: Spec, st: Status, r: Response, keyed: bool): Sighting {
    if GoneUnclear(spec, st, r) then Unclear
    else if Gone(spec, st, r) then Absent
    else if keyed && HttpError(spec, r) then Unclear
    else if MissingUnclear(spec, st, r) then Unclear
    else if Missing(spec, st, r) then Absent
    else
      match InSync(spec, st, r)
      case EvalErr(_) => Unclear
      case EvalOk(synced) => if synced || MappingFor(spec, Update).Some? then Present(synced) else Stuck
  }

  predicate AtRest(st: Status) {
    st.terminalError == "" && st.anchor.None?
  }

  /** A response is on record that is not a failed POST, or the resource has an identity. */
  predicate Presumed(spec: Spec, st: Status) {
    || (st.response.statusCode != 0 && !(st.requestDetails.verb == "POST" && HttpError(spec, st.response)))
    || st.externalRef != ""
  }

  predicate Polls(spec: Spec) {
    exists i :: 0 <= i < |spec.mappings| && spec.mappings[i].polling.Some?
  }

  /** An object at rest whose OBSERVE can be sent, to a resource that is known to be there. */
  predicate Observable(o: Object, m: Mapping, request: HttpRequest)
    requires MappingFor(o.spec, Observe).Some?
  {
    && AtRest(o.status)
    && Templated(m, o.status) == EvalOk(request)
    && (if KeyedUrl(m.url) then o.status.externalRef != "" else Presumed(o.spec, o.status) && !(Polls(o.spec) && ResponseUrl(m.url)))
  }

  /** The world once the OBSERVE has been sent. */
  function Looked(w: World, keyed: bool): World
    requires |w.tape| >= 1
  {
    w.(now := w.now + w.tape[0].env.delay, tape := w.tape[1..],
       log := w.log + [Routed(keyed)] + [ObserveCall(w.local.spec, w.local.status, w.tape[0].reply)])
  }

  lemma ChecksAre(spec: Spec, st: Status, r: Response)
    ensures CheckRemoved(spec, st, r).EvalErr? <==> GoneUnclear(spec, st, r)
    ensures CheckRemoved(spec, st, r) == EvalOk(true) <==> Gone(spec, st, r)
    ensures CheckExists(spec, st, r).EvalErr? <==> MissingUnclear(spec, st, r)
    ensures CheckExists(spec, st, r) == EvalOk(false) <==> Missing(spec, st, r)
    ensures CheckUpToDate(spec, st, r) == InSync(spec, st, r)
    ensures IsHTTPSuccess(r.statusCode) <==> Success(r)
    ensures IsHTTPError(r.statusCode, spec.allowed) <==> HttpError(spec, r)
  {
    hide Templated, GenerateValidRequestDetails;
    var m := MappingFor(spec, Update);
    if m.Some? { TemplatedIs(m.value, st); }
  }

  /** The decision of the checks alone, at the world the OBSERVE has left. */
  lemma InspectedIs(w: World, d: HttpDetails, failed: bool, keyed: bool)
    ensures var (r, o) := Inspect(w, d, failed, keyed);
      match Sighted(w.local.spec, w.local.status, d.response, keyed)
      case Absent => (r, o) == (w, NotFound)
      case Unclear => (r, o) == (w, Failed)
      case Present(synced) => (r, o) == (w, Seen(d, failed, synced, false))
      case Stuck => r == Save(w, SetTerminal(ERR_NO_UPDATE_MAPPING, false)).0 && (o.Stalled? || o == Failed)
  {
    hide CheckRemoved, CheckExists, CheckUpToDate, Gone, GoneUnclear, Missing, MissingUnclear, InSync, MappingFor, Save, Success, HttpError;
    ChecksAre(w.local.spec, w.local.status, d.response);
    SuccessIsNoError(w.local.spec, d.response);
  }

  lemma SuccessIsNoError(spec: Spec, r: Response)
    ensures Success(r) ==> !HttpError(spec, r)
  {
  }

  lemma PresumedIs(spec: Spec, st: Status)
    ensures IsObjectValidForObservation(spec, st) <==> Presumed(spec, st)
  {
  }

  /** The OBSERVE of a known resource is judged by the table, on both paths. */
  lemma ObservationIsJudged(w: World, m: Mapping, request: HttpRequest)
    requires MappingFor(w.local.spec, Observe) == Some(m) && Observable(w.local, m, request) && Alive(w) && Undisturbed(w.tape)
    ensures var spec, st, reply, keyed := w.local.spec, w.local.status, w.tape[0].reply, KeyedUrl(m.url);
      var (after, o) := IsUpToDate(w);
      match Sighted(spec, st, ResponseOf(reply), keyed)
      case Absent => (after, o) == (Looked(w, keyed), NotFound)
      case Unclear => (after, o) == (Looked(w, keyed), Failed)
      case Present(synced) => (after, o) == (Looked(w, keyed), Seen(HttpDetails(ResponseOf(reply), request), !reply.Answer?, synced, false))
      case Stuck => after == Save(Looked(w, keyed), SetTerminal(ERR_NO_UPDATE_MAPPING, false)).0 && (o.Stalled? || o == Failed)
  {
    hide MappingFor, UrlReferencesExternalRef, UrlReferencesResponse, KeyedUrl, ResponseUrl, Inspect, Save, Sighted, Presumed, Templated;
    hide GenerateValidRequestDetails, IsObjectValidForObservation, Success;
    UrlsIff(m.url);
    TemplatedIs(m, w.local.status);
    PresumedIs(w.local.spec, w.local.status);
    UndisturbedTail(w);
    var keyed, reply := KeyedUrl(m.url), w.tape[0].reply;
    var w1 := SendObserve(Emit(w, Routed(keyed))).0;
    assert w1 == Looked(w, keyed);
    InspectedIs(w1, HttpDetails(ResponseOf(reply), request), !reply.Answer?, keyed);
  }

  /** On the response path, a resource that is not known to be there is absent unless OBSERVE succeeds. */
  lemma UnknownNeedsSuccess(w: World, m: Mapping, request: HttpRequest)
    requires MappingFor(w.local.spec, Observe) == Some(m) && AtRest(w.local.status) && !Presumed(w.local.spec, w.local.status)
    requires !KeyedUrl(m.url) && !(Polls(w.local.spec) && ResponseUrl(m.url))
    requires Templated(m, w.local.status) == EvalOk(request) && Alive(w) && Undisturbed(w.tape)
    ensures var reply := w.tape[0].reply;
      var (after, o) := IsUpToDate(w);
      if !Success(ResponseOf(reply)) then (after, o) == (Looked(w, false), NotFound)
      else
        match Sighted(w.local.spec, w.local.status, ResponseOf(reply), false)
        case Absent => (after, o) == (Looked(w, false), NotFound)
        case Unclear => (after, o) == (Looked(w, false), Failed)
        case Present(synced) => (after, o) == (Looked(w, false), Seen(HttpDetails(ResponseOf(reply), request), !reply.Answer?, synced, false))
        case Stuck => after == Save(Looked(w, false), SetTerminal(ERR_NO_UPDATE_MAPPING, false)).0 && (o.Stalled? || o == Failed)
  {
    hide MappingFor, UrlReferencesExternalRef, UrlReferencesResponse, KeyedUrl, ResponseUrl, Inspect, Save, Sighted, Presumed, Templated;
    hide GenerateValidRequestDetails, IsObjectValidForObservation;
    UrlsIff(m.url);
    TemplatedIs(m, w.local.status);
    PresumedIs(w.local.spec, w.local.status);
    UndisturbedTail(w);
    var reply := w.tape[0].reply;
    var w1 := SendObserve(Emit(w, Routed(false))).0;
    assert w1 == Looked(w, false);
    InspectedIs(w1, HttpDetails(ResponseOf(reply), request), !reply.Answer?, false);
  }

  /** Nothing is sent to look for a resource without identity whose OBSERVE URL needs one. */
  lemma UnidentifiedIsAbsent(w: World, m: Mapping)
    requires MappingFor(w.local.spec, Observe) == Some(m) && AtRest(w.local.status) && KeyedUrl(m.url) && w.local.status.externalRef == ""
    ensures IsUpToDate(w) == (Emit(w, Routed(true)), NotFound)
  {
    hide MappingFor, UrlReferencesExternalRef, UrlReferencesResponse, KeyedUrl, ResponseUrl;
    UrlsIff(m.url);
  }

  /**
   When no OBSERVE can be sent. A resource polled for its identity must not be looked up by the
   response it was polled for: it stalls. A request that cannot be templated decides nothing, but
   on the response path a resource that is not known to be there counts as absent.
   */
  lemma UnsendableObserve(w: World)
    requires AtRest(w.local.status)
    ensures var spec, st, m, (after, o) := w.local.spec, w.local.status, MappingFor(w.local.spec, Observe), IsUpToDate(w);
      if m.None? then (after, o) == (w, Failed)
      else
        var keyed := KeyedUrl(m.value.url);
        if Polls(spec) && ResponseUrl(m.value.url) && !keyed
        then after == Save(w, SetTerminal(ERR_POLLED_RESPONSE_IDENTITY, false)).0 && (o.Stalled? || o == Failed)
        else Templated(m.value, st).EvalErr? && !(keyed && st.externalRef == "") ==>
          (after, o) == (Emit(w, Routed(keyed)), if keyed || Presumed(spec, st) then Failed else NotFound)
  {
    hide MappingFor, UrlReferencesExternalRef, UrlReferencesResponse, KeyedUrl, ResponseUrl, Inspect, Save, Presumed, Templated;
    hide GenerateValidRequestDetails, IsObjectValidForObservation;
    var m := MappingFor(w.local.spec, Observe);
    if m.Some? {
      UrlsIff(m.value.url);
      TemplatedIs(m.value, w.local.status);
      PresumedIs(w.local.spec, w.local.status);
    }
  }
}
