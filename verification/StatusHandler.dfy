/** SetRequestStatus: which setters put a response on record, and what they amount to. */
module StatusHandler {
  import opened Api
  import opened Cluster
  import opened RequestGen
  import opened StatusWriter

  // ---------------------------------------------------------------- the setters

  function StatusCodeSetter(r: Response): Setter {
    (st: Status) => if r.statusCode != 0 then st.(response := st.response.(statusCode := r.statusCode)) else st
  }

  function HeadersSetter(r: Response): Setter {
    (st: Status) => if r.headers.Some? then st.(response := st.response.(headers := r.headers)) else st
  }

  function BodySetter(r: Response): Setter {
    (st: Status) => if r.body != "" then st.(response := st.response.(body := r.body)) else st
  }

  function DetailsSetter(r: HttpRequest): Setter {
    (st: Status) => SetRequestDetails(st, r)
  }

  function ErrorSetter(msg: Option<string>): Setter {
    (st: Status) => SetError(st, msg)
  }

  function CacheSetter(r: Response): Setter {
    (st: Status) => st.(cache := r)
  }

  function ResetSetter(): Setter {
    (st: Status) => ResetFailures(st)
  }

  /** The setters a recording change stands for. */
  function Setters(c: Change): seq<Setter>
    requires c.Record? || c.RecordError?
  {
    match c
    case RecordError(msg) => [ErrorSetter(Some(msg))]
    case Record(d, reset, httpError, cached) =>
      var basic := [StatusCodeSetter(d.response), HeadersSetter(d.response), BodySetter(d.response), DetailsSetter(d.request)]
        + if reset then [ResetSetter()] else [];
      if httpError then basic + [ErrorSetter(None)]
      else if IsHTTPSuccess(d.response.statusCode) then
        basic + (if d.request.verb != "GET" then [ResetSetter()] else []) + if cached then [CacheSetter(d.response)] else []
      else basic
  }

  lemma ApplyOne(setters: seq<Setter>, f: Setter, st: Status)
    ensures ApplyAll(setters + [f], st) == f(ApplyAll(setters, st))
  {
    assert (setters + [f])[..|setters|] == setters;
  }

  lemma ApplyBasic(d: HttpDetails, st: Status)
    ensures ApplyAll([StatusCodeSetter(d.response), HeadersSetter(d.response), BodySetter(d.response), DetailsSetter(d.request)], st)
            == SetRequestDetails(SetResponse(st, d.response), d.request)
  {
    var r := d.response;
    var f1, f2, f3, f4 := StatusCodeSetter(r), HeadersSetter(r), BodySetter(r), DetailsSetter(d.request);
    ApplyOne([], f1, st);
    ApplyOne([f1], f2, st);
    ApplyOne([f1, f2], f3, st);
    ApplyOne([f1, f2, f3], f4, st);
    assert [] + [f1] == [f1] && [f1] + [f2] == [f1, f2] && [f1, f2] + [f3] == [f1, f2, f3] && [f1, f2, f3] + [f4] == [f1, f2, f3, f4];
    assert ApplyAll([], st) == st;
  }

  /** Recording a response through its setters is the one status change the protocol knows. */
  lemma SettersAreTheChange(c: Change, o: Object, now: nat)
    requires c.Record? || c.RecordError?
    ensures Apply(c, o, now) == Some(ApplyAll(Setters(c), o.status))
  {
    hide ApplyAll, SetResponse, SetRequestDetails;
    var st := o.status;
    match c {
      case RecordError(msg) =>
        ApplyOne([], ErrorSetter(Some(msg)), st);
        assert ApplyAll([], st) == st by { ApplyNone(st); }
        assert [] + [ErrorSetter(Some(msg))] == [ErrorSetter(Some(msg))];
      case Record(d, reset, httpError, cached) =>
        var basic := [StatusCodeSetter(d.response), HeadersSetter(d.response), BodySetter(d.response), DetailsSetter(d.request)];
        ApplyBasic(d, st);
        ApplyOne(basic, ResetSetter(), st);
        var seen := basic + if reset then [ResetSetter()] else [];
        assert basic + [] == basic;
        ApplyOne(seen, ErrorSetter(None), st);
        ApplyOne(seen, ResetSetter(), st);
        ApplyOne(seen, CacheSetter(d.response), st);
        ApplyOne(seen + [ResetSetter()], CacheSetter(d.response), st);
        assert forall s: seq<Setter> :: s + [] == s;
    }
  }

  lemma ApplyNone(st: Status)
    ensures ApplyAll([], st) == st
  {
  }

  /** A response that ends a row of failures: in sync, or a mutate that succeeded. */
  predicate Recovers(c: Change) {
    c.Record? && (c.reset || (!c.httpError && IsHTTPSuccess(c.details.response.statusCode) && c.details.request.verb != "GET"))
  }

  predicate Fails(c: Change) {
    c.RecordError? || (c.Record? && c.httpError)
  }

  /**
   The counter counts failures in a row: one more for each failure, from zero after a recovery,
   untouched otherwise; and recording moves nothing routing looks at.
   */
  lemma FailuresAreCounted(c: Change, o: Object)
    requires c.Record? || c.RecordError?
    ensures var st := ApplyAll(Setters(c), o.status);
      var base := if Recovers(c) then 0 else o.status.failed;
      && st.failed == (if Fails(c) then Increment32(base) else base)
      && RoutingEq(st, o.status)
      && (Fails(c) ==> st.cache == o.status.cache)
  {
    hide ApplyAll, Setters;
    SettersAreTheChange(c, o, 0);
  }

  // ---------------------------------------------------------------- the handler

  class RequestStatusHandler {
    const resource: RequestResource
    const details: HttpDetails
    const failed: bool
    var extraSetters: seq<Setter>

    constructor (resource: RequestResource, details: HttpDetails, failed: bool)
      ensures this.resource == resource && this.details == details && this.failed == failed && extraSetters == []
    {
      this.resource, this.details, this.failed, extraSetters := resource, details, failed, [];
    }

    method ResetFailures()
      modifies this
      ensures extraSetters == old(extraSetters) + [ResetSetter()]
    {
      extraSetters := extraSetters + [ResetSetter()];
    }

    /** Every mapping must template validly against the response. */
    method ShouldCache(spec: Spec, status: Status) returns (cached: bool)
      ensures cached == ShouldSetCache(spec, status, details.response)
    {
      for k := 0 to |spec.mappings|
        invariant forall i :: 0 <= i < k ==> IsValid(spec.mappings[i].render(status, Some(details.response)))
      {
        if !IsValid(spec.mappings[k].render(status, Some(details.response))) { return false; }
      }
      return true;
    }

    ghost function ChangeFor(spec: Spec, status: Status, reset: bool): Change {
      if failed then RecordError("no response")
      else Record(details, reset, IsHTTPError(details.response.statusCode, spec.allowed), ShouldSetCache(spec, status, details.response))
    }

    method SetRequestStatus(spec: Spec, status: Status) returns (ok: bool)
      requires resource.server.Valid() && resource.resource.version <= resource.server.stored.version
      requires extraSetters == [] || extraSetters == [ResetSetter()]
      modifies resource, resource.server
      ensures var won := RequestResource.Wins(old(resource.server.steps), old(resource.resource.version), old(resource.server.stored.version));
        ok <==> !failed && won
      ensures ok ==> resource.resource == resource.server.stored
      ensures var setters := Setters(ChangeFor(spec, status, extraSetters != []));
        var h, o := old(resource.server.history), old(resource.server.stored);
        && (RequestResource.Wins(old(resource.server.steps), old(resource.resource.version), o.version) ==>
              resource.WroteOnce(h, o, old(resource.resource), setters))
        && (resource.server.OnlyOthers(h, o) || resource.WroteOnce(h, o, old(resource.resource), setters))
    {
      hide ApplyAll, Chained, RequestResource.Wins, RequestResource.Loses;
      ghost var c := ChangeFor(spec, status, extraSetters != []);
      var r := details.response;
      if failed {
        var setters := [ErrorSetter(Some("no response"))];
        assert setters == Setters(c);
        var outcome := resource.SetRequestResourceStatus(setters);
        return false;
      }
      var setters := [StatusCodeSetter(r), HeadersSetter(r), BodySetter(r), DetailsSetter(details.request)];
      setters := setters + extraSetters;
      if IsHTTPError(r.statusCode, spec.allowed) {
        setters := setters + [ErrorSetter(None)];
      } else if IsHTTPSuccess(r.statusCode) {
        if details.request.verb != "GET" { setters := setters + [ResetSetter()]; }
        var cached := ShouldCache(spec, status);
        if cached { setters := setters + [CacheSetter(r)]; }
      }
      assert setters == Setters(c);
      var outcome := resource.SetRequestResourceStatus(setters);
      return outcome.Updated?;
    }
  }
}
