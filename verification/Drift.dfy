/** Drift is never silent: it is repaired by an UPDATE mapping, or surfaced as a terminal error. */
module Drift {
  import opened Api
  import opened Cluster
  import opened RequestMapping
  import opened RequestGen
  import opened Deploy
  import opened Observing

  predicate Drifted(o: Observation) {
    o.Seen? && !o.synced && !o.inFlight
  }

  lemma InspectDrift(w: World, d: HttpDetails, failed: bool, statusGate: bool)
    ensures var (r, o) := Inspect(w, d, failed, statusGate);
      Drifted(o) ==> MappingFor(r.local.spec, Update).Some? && r.local == w.local
  {
    hide CheckRemoved, CheckExists, CheckUpToDate, MappingFor, Save;
  }

  lemma ByMappingDrift(w: World)
    ensures var (r, o) := ObserveByMapping(w);
      Drifted(o) ==> MappingFor(r.local.spec, Update).Some? && r.local == w.local
  {
    hide MappingFor, Save, Inspect, GenerateValidRequestDetails, UrlReferencesResponse, UrlReferencesExternalRef, PollingConfigured;
    var m := MappingFor(w.local.spec, Observe);
    if m.Some? {
      var g := GenerateValidRequestDetails(m.value, w.local.status);
      if g.EvalOk? {
        var byRef, byResponse := Emit(w, Routed(true)), Emit(w, Routed(false));
        var (w1, reply1) := SendObserve(byRef);
        InspectDrift(w1, HttpDetails(ResponseOf(reply1), g.value), !reply1.Answer?, true);
        var (w2, reply2) := SendObserve(byResponse);
        InspectDrift(w2, HttpDetails(ResponseOf(reply2), g.value), !reply2.Answer?, false);
      }
    }
  }

  /** Whenever IsUpToDate reports drift, the following UPDATE finds a mapping in the same spec. */
  lemma NoSilentDrift(w: World, earlier: seq<Action>)
    ensures var (r, o) := IsUpToDate(w);
      Drifted(o) ==>
        && MappingFor(r.local.spec, Update).Some?
        && Resolve(FilledAll(r.local.spec.mappings, earlier), ActionName(Update)) == Resolve(r.local.spec.mappings, ActionName(Update))
  {
    hide ObserveByMapping, Save, Resolve;
    var (r, o) := IsUpToDate(w);
    LookupsAreStable(r.local.spec.mappings, earlier, Update);
    ByMappingDrift(w);
    ByMappingDrift(Save(w, ClearTerminal).0);
  }
}
