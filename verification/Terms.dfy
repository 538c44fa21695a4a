/**
 The requirements in their own terms: what the spec's functions, the status codes and the URLs
 have to say for a case to apply. Nothing here refers to how the controller decides.
 */
module Terms {
  import opened Api
  import opened Cluster
  import opened RequestMapping
  import RequestGen
  import Placeholders

  // ---------------------------------------------------------------- answers

  predicate Success(r: Response) {
    200 <= r.statusCode < 300
  }

  predicate HttpError(spec: Spec, r: Response) {
    400 <= r.statusCode < 600 && r.statusCode !in spec.allowed
  }

  /** The answer says the resource is gone: by isRemovedCheck, or else by status code 404. */
  predicate Gone(spec: Spec, st: Status, r: Response) {
    if spec.removed.Some? then spec.removed.value(st, r) == EvalOk(true) else r.statusCode == 404
  }

  predicate GoneUnclear(spec: Spec, st: Status, r: Response) {
    spec.removed.Some? && spec.removed.value(st, r).EvalErr?
  }

  /** resourceExistsCheck finds the sub-resource missing. */
  predicate Missing(spec: Spec, st: Status, r: Response) {
    spec.existsCheck.Some? && spec.existsCheck.value(st, r) == EvalOk(false)
  }

  predicate MissingUnclear(spec: Spec, st: Status, r: Response) {
    spec.existsCheck.Some? && spec.existsCheck.value(st, r).EvalErr?
  }

  /** expectedResponseCheck: a custom check, or a comparison with the body of the UPDATE request. */
  function InSync(spec: Spec, st: Status, r: Response): Eval<bool> {
    match spec.upToDate
    case CustomUpToDate(check) => check(st, r)
    case DefaultUpToDate(compare) =>
      var m := MappingFor(spec, Update);
      if m.None? then EvalOk(true)
      else
        match Templated(m.value, st)
        case EvalErr(msg) => EvalErr(msg)
        case EvalOk(request) => compare(st, r, request.body)
  }

  /** The name the externalRef expression gives, or else the one there is. */
  function NamedBy(spec: Spec, st: Status, mutate: Response, poll: Option<Response>, current: string): string {
    if spec.externalRef.None? then current
    else
      match spec.externalRef.value(st, mutate, poll)
      case EvalErr(_) => current
      case EvalOk(name) => if name == "" then current else name
  }

  /** isTerminalError is set and says: give up. */
  predicate GivesUp(spec: Spec, st: Status, mutate: Response, poll: Option<Response>) {
    spec.isTerminalError.Some? &&
    match spec.isTerminalError.value(st, mutate, poll)
    case EvalErr(_) => true
    case EvalOk(JqString(s)) => s != ""
    case EvalOk(JqBool(b)) => b
    case EvalOk(JqOther) => false
  }

  /** The reason on record is the text isTerminalError gives, or, if it only says yes, the default one. */
  predicate Reason(spec: Spec, st: Status, mutate: Response, poll: Option<Response>, default: string, msg: string) {
    spec.isTerminalError.Some? &&
    match spec.isTerminalError.value(st, mutate, poll)
    case EvalOk(JqString(s)) => msg == s
    case EvalOk(JqBool(_)) => default != "" ==> msg == default
    case _ => true
  }

  // ---------------------------------------------------------------- requests

  /** The method of a mapping, or the default one of its action. */
  function Method(m: Mapping): string {
    if m.verb != "" then m.verb
    else if m.action == "CREATE" then "POST"
    else if m.action == "UPDATE" then "PUT"
    else if m.action == "REMOVE" then "DELETE"
    else "GET"
  }

  function Cached(st: Status): Option<Response> {
    if st.cache.statusCode == 0 then None else Some(st.cache)
  }

  /** The request of a mapping: from the stored response if that templates validly, else from the cache. */
  function Templated(m: Mapping, st: Status): Eval<HttpRequest> {
    match m.render(st, Some(st.response))
    case Rendered(request, true) => EvalOk(request.(verb := Method(m)))
    case _ =>
      match m.render(st, Cached(st))
      case RenderErr(msg) => EvalErr(msg)
      case Rendered(request, _) => EvalOk(request.(verb := Method(m)))
  }

  lemma TemplatedIs(m: Mapping, st: Status)
    ensures Templated(m, st) == RequestGen.GenerateValidRequestDetails(m, st)
  {
    assert "CREATE"[0] == 'C' && "OBSERVE"[0] == 'O' && "UPDATE"[0] == 'U' && "REMOVE"[0] == 'R';
  }

  function NameOf(a: Action): string {
    match a case Create => "CREATE" case Observe => "OBSERVE" case Update => "UPDATE" case Remove => "REMOVE"
  }

  function UsualMethod(a: Action): string {
    match a case Create => "POST" case Observe => "GET" case Update => "PUT" case Remove => "DELETE"
  }

  /** Mapping i serves the action: it is the first of that action, or, if there is none, the first of its usual method. */
  predicate Serves(spec: Spec, a: Action, i: nat)
    requires i < |spec.mappings|
  {
    var ms := spec.mappings;
    if exists j :: 0 <= j < |ms| && ms[j].action == NameOf(a)
    then ms[i].action == NameOf(a) && forall j :: 0 <= j < i ==> ms[j].action != NameOf(a)
    else ms[i].verb == UsualMethod(a) && forall j :: 0 <= j < i ==> ms[j].verb != UsualMethod(a)
  }

  /** The mapping looked up for an action is the one that serves it; there is none only if none does. */
  lemma LookupServes(spec: Spec, a: Action)
    ensures MappingFor(spec, a).Some? <==> exists i :: 0 <= i < |spec.mappings| && Serves(spec, a, i)
    ensures MappingFor(spec, a).Some? ==>
      exists i :: 0 <= i < |spec.mappings| && Serves(spec, a, i) && spec.mappings[i] == MappingFor(spec, a).value
  {
    var ms, name, verb := spec.mappings, NameOf(a), UsualMethod(a);
    assert ActionName(a) == name && DefaultVerb(name) == verb by { NamesAndMethods(a); }
    var byAction, byVerb := FindByAction(ms, name, 0), FindByVerb(ms, verb, 0);
    if byAction.Some? {
      FindFirst(ms, name);
      assert Serves(spec, a, byAction.value);
    } else {
      forall j | 0 <= j < |ms| ensures ms[j].action != name {}
      if byVerb.Some? {
        FindFirstVerb(ms, verb);
        assert Serves(spec, a, byVerb.value);
      } else {
        forall i | 0 <= i < |ms| ensures !Serves(spec, a, i) {}
      }
    }
  }

  lemma NamesAndMethods(a: Action)
    ensures ActionName(a) == NameOf(a) && DefaultVerb(NameOf(a)) == UsualMethod(a)
  {
    assert "CREATE"[0] == 'C' && "OBSERVE"[0] == 'O' && "UPDATE"[0] == 'U' && "REMOVE"[0] == 'R';
  }

  // ---------------------------------------------------------------- URLs

  /** The text occurs in the URL. */
  predicate Mentions(url: string, text: string) {
    exists a, b :: 0 <= a <= b <= |url| && url[a..b] == text
  }

  predicate KeyedUrl(url: string) {
    Mentions(url, ".status.externalRef")
  }

  /** Keyed on the mutate response, which a polled resource must not be. */
  predicate ResponseUrl(url: string) {
    Mentions(url, ".response") && !Mentions(url, ".status.response")
  }

  lemma ContainsIff(s: string, sub: string)
    ensures Contains(s, sub) <==> Mentions(s, sub)
  {
    if Contains(s, sub) {
      var i :| 0 <= i <= |s| && HasPrefix(s[i..], sub);
      assert s[i..i + |sub|] == s[i..][..|sub|];
    }
    if Mentions(s, sub) {
      var a, b :| 0 <= a <= b <= |s| && s[a..b] == sub;
      assert s[a..][..|sub|] == s[a..b];
    }
  }

  lemma UrlsIff(url: string)
    ensures UrlReferencesExternalRef(url) <==> KeyedUrl(url)
    ensures UrlReferencesResponse(url) <==> ResponseUrl(url)
  {
    hide Contains, Mentions;
    ContainsIff(url, ".status.externalRef");
    ContainsIff(url, ".response");
    ContainsIff(url, ".status.response");
  }

  /** An absolute URL: http or https, and a host. */
  predicate Absolute(url: string) {
    || (HasPrefix(url, "http://") && |url| > 7 && url[7] !in {'/', '?', '#'})
    || (HasPrefix(url, "https://") && |url| > 8 && url[8] !in {'/', '?', '#'})
  }

  lemma AbsoluteIff(url: string)
    ensures IsAbsoluteUrl(url) <==> Absolute(url)
  {
    hide HasPrefix;
    Placeholders.PrefixIndices(url, "http://");
    Placeholders.PrefixIndices(url, "https://");
    assert "http://"[4] == ':' && "https://"[4] == 's';
    assert |url| > 7 ==> url[7..][0] == url[7];
    assert |url| > 8 ==> url[8..][0] == url[8];
  }

  // ---------------------------------------------------------------- tapes

  /** Nobody edits, renames or deletes the resource. */
  predicate Undisturbed(tape: seq<Turn>) {
    forall i :: 0 <= i < |tape| ==> tape[i].env.spec.None? && tape[i].env.externalName.None? && !tape[i].env.delete
  }

  /** From turn i up to turn j every interaction takes effect. */
  predicate Succeed(tape: seq<Turn>, i: nat, j: nat) {
    j <= |tape| && forall k :: i <= k < j ==> tape[k].reply.Landed?
  }

  /** The time the first n turns take. */
  function Delay(tape: seq<Turn>, n: nat): nat
    requires n <= |tape|
  {
    if n == 0 then 0 else Delay(tape, n - 1) + tape[n - 1].env.delay
  }

  lemma UndisturbedTail(w: World)
    requires Alive(w) && Undisturbed(w.tape)
    ensures Advance(w).server == w.server && Undisturbed(w.tape[1..])
  {
    assert forall i :: 0 <= i < |w.tape| - 1 ==> w.tape[1..][i] == w.tape[i + 1];
  }
}
