/** IsUpToDate: decide what exists without disturbing an operation in flight. */
module Observing {
  import opened Api
  import opened Cluster
  import opened RequestMapping
  import opened RequestGen
  import opened Deploy

  const ERR_POLLED_RESPONSE_IDENTITY := "a polled resource must key its OBSERVE URL on .status.externalRef or use a constant URL"
  const ERR_NO_UPDATE_MAPPING := "no UPDATE or PUT mapping is configured but the resource is out of sync"

  datatype Observation =
    | Failed
    | NotFound
    | Stalled(msg: string)
    | Seen(details: HttpDetails, failed: bool, synced: bool, inFlight: bool)

  const IN_FLIGHT := Seen(NO_DETAILS, false, false, true)

  /** The answer of the isRemovedCheck: EvalOk(true) means the resource is gone. */
  function CheckRemoved(spec: Spec, st: Status, r: Response): Eval<bool> {
    if spec.removed.None? then EvalOk(r.statusCode == 404) else spec.removed.value(st, r)
  }

  /** The answer of the resourceExistsCheck: existing when none is configured. */
  function CheckExists(spec: Spec, st: Status, r: Response): Eval<bool> {
    if spec.existsCheck.None? then EvalOk(true) else spec.existsCheck.value(st, r)
  }

  /** The answer of the expectedResponseCheck. */
  function CheckUpToDate(spec: Spec, st: Status, r: Response): Eval<bool> {
    match spec.upToDate
    case CustomUpToDate(check) => check(st, r)
    case DefaultUpToDate(compare) =>
      var m := MappingFor(spec, Update);
      if m.None? then EvalOk(true)
      else
        match GenerateValidRequestDetails(m.value, st)
        case EvalErr(msg) => EvalErr(msg)
        case EvalOk(desired) => compare(st, r, desired.body)
  }

  function DetermineIfUpToDate(w: World, d: HttpDetails, failed: bool): (World, Observation) {
    var synced := CheckUpToDate(w.local.spec, w.local.status, d.response);
    if synced.EvalErr? then (w, Failed)
    else if !synced.value && MappingFor(w.local.spec, Update).None? then
      var (w1, ok) := Save(w, SetTerminal(ERR_NO_UPDATE_MAPPING, false));
      (w1, if ok then Stalled(ERR_NO_UPDATE_MAPPING) else Failed)
    else (w, Seen(d, failed, synced.value, false))
  }

  function SendObserve(w: World): (World, Reply) {
    var (w1, reply) := Send(w);
    if !Alive(w) then (w1, reply) else (Emit(w1, ObserveCall(w.local.spec, w.local.status, reply)), reply)
  }

  /** The checks both paths run on an OBSERVE response once absence of identity is ruled out. */
  function Inspect(w: World, d: HttpDetails, failed: bool, statusGate: bool): (World, Observation) {
    var spec, st := w.local.spec, w.local.status;
    var code := d.response.statusCode;
    var removed := CheckRemoved(spec, st, d.response);
    if removed.EvalErr? then (w, Failed)
    else if removed.value then (w, NotFound)
    else if statusGate && !IsHTTPSuccess(code) && IsHTTPError(code, spec.allowed) then (w, Failed)
    else
      var present := CheckExists(spec, st, d.response);
      if present.EvalErr? then (w, Failed)
      else if !present.value then (w, NotFound)
      else DetermineIfUpToDate(w, d, failed)
  }

  function ObserveExternalRefDriven(w: World, m: Mapping): (World, Observation) {
    if w.local.status.externalRef == "" then (w, NotFound)
    else
      match GenerateValidRequestDetails(m, w.local.status)
      case EvalErr(_) => (w, Failed)
      case EvalOk(request) =>
        var (w1, reply) := SendObserve(w);
        Inspect(w1, HttpDetails(ResponseOf(reply), request), !reply.Answer?, true)
  }

  predicate IsObjectValidForObservation(spec: Spec, st: Status) {
    || (st.response.statusCode != 0 && !(st.requestDetails.verb == "POST" && IsHTTPError(st.response.statusCode, spec.allowed)))
    || st.externalRef != ""
  }

  function ObserveResponseDriven(w: World, m: Mapping): (World, Observation) {
    var notCreated := !IsObjectValidForObservation(w.local.spec, w.local.status);
    match GenerateValidRequestDetails(m, w.local.status)
    case EvalErr(_) => (w, if notCreated then NotFound else Failed)
    case EvalOk(request) =>
      var (w1, reply) := SendObserve(w);
      var r := ResponseOf(reply);
      if !IsHTTPSuccess(r.statusCode) && notCreated then (w1, NotFound)
      else Inspect(w1, HttpDetails(r, request), !reply.Answer?, false)
  }

  /** Route by how the OBSERVE URL finds the resource. */
  function ObserveByMapping(w: World): (World, Observation) {
    var m := MappingFor(w.local.spec, Observe);
    if m.None? then (w, Failed)
    else
      var url := m.value.url;
      if PollingConfigured(w.local.spec) && UrlReferencesResponse(url) && !UrlReferencesExternalRef(url) then
        var (w1, ok) := Save(w, SetTerminal(ERR_POLLED_RESPONSE_IDENTITY, false));
        (w1, if ok then Stalled(ERR_POLLED_RESPONSE_IDENTITY) else Failed)
      else if UrlReferencesExternalRef(url) then ObserveExternalRefDriven(Emit(w, Routed(true)), m.value)
      else ObserveResponseDriven(Emit(w, Routed(false)), m.value)
  }

  /** Past the terminal gate: an operation in flight is resumed, never observed. */
  function ObserveUnstalled(w: World): (World, Observation) {
    var st := w.local.status;
    if st.anchor.None? then ObserveByMapping(w)
    else if st.externalRef == "" && !w.local.deleted then (w, NotFound)
    else (w, IN_FLIGHT)
  }

  function IsUpToDate(w: World): (World, Observation) {
    var st := w.local.status;
    if st.terminalError == "" then ObserveUnstalled(w)
    else if w.local.deleted && st.anchor.None? && st.externalRef == "" then (w, NotFound)
    else if w.local.generation == st.observedGeneration then (w, Stalled(st.terminalError))
    else
      var (w1, ok) := Save(w, ClearTerminal);
      if !ok then (w1, Failed) else ObserveUnstalled(w1)
  }
}
