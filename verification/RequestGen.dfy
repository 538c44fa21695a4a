/** Templating a request from the stored response, or else from the cached one. */
module RequestGen {
  import opened Api
  import opened RequestMapping

  function IsValid(r: Rendered): bool {
    r.Rendered? && r.valid
  }

  function GenerateValidRequestDetails(m: Mapping, st: Status): Eval<HttpRequest> {
    var first := m.render(st, Some(st.response));
    if IsValid(first) then EvalOk(first.request.(verb := EffectiveVerb(m)))
    else
      match m.render(st, CachedResponse(st))
      case RenderErr(msg) => EvalErr(msg)
      case Rendered(request, _) => EvalOk(request.(verb := EffectiveVerb(m)))
  }

  /** Every mapping templates validly against this response. */
  predicate ShouldSetCache(spec: Spec, st: Status, r: Response) {
    forall i :: 0 <= i < |spec.mappings| ==> IsValid(spec.mappings[i].render(st, Some(r)))
  }
}
