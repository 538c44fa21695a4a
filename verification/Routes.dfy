/**
 What a reconcile comes to, case by case, when nobody interferes: which answer of the OBSERVE
 leads to which request, when the finalizer goes, and when nothing is done at all.
 */
module Routes {
  import opened Api
  import opened Cluster
  import opened RequestMapping
  import opened RequestGen
  import opened Deploy
  import opened Observing
  import opened Reconciling
  import opened Terms
  import opened Observations
  import opened Deployments
  import opened Mutates

  // ---------------------------------------------------------------- up to the observation

  /** An external name was given, and no identity is known yet. */
  predicate Imported(o: Object) {
    o.status.externalRef == "" && o.externalName != "" && o.externalName != o.name
  }

  /** An abandoned resource: deleted and stalled, with nothing in flight and nothing known to exist. */
  predicate Abandoned(o: Object) {
    o.deleted && o.status.terminalError != "" && o.status.anchor.None? && o.status.externalRef == ""
  }

  /** Stalled, but the spec has changed since. */
  predicate Reopened(o: Object) {
    o.status.terminalError != "" && o.generation != o.status.observedGeneration && !Abandoned(o)
  }

  function WithName(o: Object): Object {
    if Imported(o) then o.(status := o.status.(externalRef := o.externalName), version := o.version + 1) else o
  }

  /** The reconcile begins, its calls up to the observation succeed, and nobody interferes. */
  predicate Starts(w: World) {
    && !w.finalized && Undisturbed(w.tape)
    && Succeed(w.tape, 0, 1 + (if Imported(w.server) then 1 else 0) + if Reopened(WithName(w.server)) then 1 else 0)
  }

  /** The object is fetched; an import has its name as identity. */
  function Named(w: World): World
    requires Starts(w)
  {
    var o, now, log := w.server, w.now + w.tape[0].env.delay, w.log + [Began];
    if !Imported(o) then World(o, o, now, w.tape[1..], log, false)
    else
      var named, at := WithName(o), now + w.tape[1].env.delay;
      World(named, named, at, w.tape[2..], log + [Wrote(Seed(o.externalName), o.spec, o, at, named.status)], false)
  }

  /** The world when it is time to look: a terminal failure of an older spec has been cleared, with its clock. */
  function Fetched(w: World): World
    requires Starts(w)
  {
    var x := Named(w);
    if !Reopened(x.server) then x
    else
      var o := x.server;
      var reopened := o.(status := o.status.(terminalError := "", error := "", startedAt := None), version := o.version + 1);
      var at := x.now + x.tape[0].env.delay;
      World(reopened, reopened, at, x.tape[1..], x.log + [Wrote(ClearTerminal, o.spec, o, at, reopened.status)], false)
  }

  /** What is left of the reconcile once the observation is in. */
  function Rest(seen: (World, Observation)): World {
    match seen.1
    case NotFound => Dispatch(seen.0, NotExists)
    case Failed => seen.0
    case Stalled(_) => seen.0
    case Seen(d, failed, synced, _) =>
      var (w1, recorded) := RefreshAndRecord(seen.0, d, failed, synced);
      if recorded then Dispatch(w1, Exists(synced)) else w1
  }

  lemma NameIsSeeded(w: World)
    requires Starts(w)
    ensures var x := Named(w);
      && x.local == x.server && x.server == WithName(w.server) && !x.finalized && Undisturbed(x.tape) && Requests(x.log) == Requests(w.log)
      && (x.server.status.terminalError != "" && Reopened(x.server) ==> Succeed(x.tape, 0, 1))
      && Reconcile(w) == Rest(IsUpToDate(x))
  {
    hide IsUpToDate, RefreshAndRecord, RefreshAndDeploy, DropFinalizer, Delete, Requests, Reopened;
    RequestsEmit(w.log, Began);
    UndisturbedTail(w);
    var w1 := Get(Emit(w, Began)).0;
    if Imported(w.server) {
      UndisturbedTail(w1);
      assert w1.tape[0] == w.tape[1] && w1.tape[1..] == w.tape[2..];
      var o, at := w.server, w1.now + w.tape[1].env.delay;
      RequestsEmit(w1.log, Wrote(Seed(o.externalName), o.spec, o, at, o.status.(externalRef := o.externalName)));
      assert UpdateLocal(w1, Seed(o.externalName)) == (Named(w), true);
    } else {
      assert w1 == Named(w);
    }
  }

  lemma LooksAt(w: World)
    requires Starts(w)
    ensures var x := Fetched(w);
      && x.local == x.server && SameButStatus(w.server, x.server) && !x.finalized
      && Undisturbed(x.tape) && Requests(x.log) == Requests(w.log)
      && Reconcile(w) == Rest(IsUpToDate(x))
  {
    hide Reconcile, Rest, ObserveUnstalled, Requests, Named, Undisturbed, Starts;
    NameIsSeeded(w);
    var x := Named(w);
    if Reopened(x.server) {
      UndisturbedTail(x);
      RequestsEmit(x.log, Wrote(ClearTerminal, x.server.spec, x.server, x.now + x.tape[0].env.delay, Fetched(w).server.status));
      assert Save(x, ClearTerminal) == (Fetched(w), true);
      assert IsUpToDate(x) == IsUpToDate(Fetched(w));
    }
  }

  /** An object edited since it was fetched is not given its external name: the reconcile ends without effect. */
  lemma EditedIsNotNamed(w: World)
    requires !w.finalized && |w.tape| >= 2 && w.tape[0].reply.Landed? && w.tape[1].env.spec.Some?
    requires Imported(Disturb(w.server, w.tape[0].env))
    ensures Reconcile(w).server == Disturb(Disturb(w.server, w.tape[0].env), w.tape[1].env)
    ensures Reconcile(w).log == w.log + [Began] && !Reconcile(w).finalized
  {
    hide IsUpToDate;
    var w1 := Get(Emit(w, Began)).0;
    assert w1.tape[0] == w.tape[1];
    assert !UpdateLocal(w1, Seed(w1.local.externalName)).1;
  }

  /** Fetched anew before a request goes out. */
  function Refetched(w: World): World
    requires Alive(w)
  {
    w.(local := w.server, now := w.now + w.tape[0].env.delay, tape := w.tape[1..])
  }

  /** The reconcile deploys the action at z, with what that sends. */
  ghost predicate Deploys(w: World, z: World, action: Action) {
    && Reconcile(w) == DeployAction(z, action).0 && !Reconcile(w).finalized
    && Requests(Reconcile(w).log) == Requests(w.log) + if Alive(z) && Due(z.server, action) then [action] else []
  }

  /** The reconcile sends nothing and keeps the finalizer. */
  predicate StaysQuiet(w: World) {
    Requests(Reconcile(w).log) == Requests(w.log) && !Reconcile(w).finalized
  }

  lemma RefreshDeploys(w: World, action: Action)
    requires Undisturbed(w.tape) && Succeed(w.tape, 0, 1) && !w.finalized
    ensures RefreshAndDeploy(w, action) == DeployAction(Refetched(w), action).0
    ensures var after, z := RefreshAndDeploy(w, action), Refetched(w);
      && Requests(after.log) == Requests(w.log) + (if Alive(z) && Due(z.server, action) then [action] else [])
      && !after.finalized
    ensures w.server.status.anchor.None? && action == Remove ==> Delete(w) == RefreshAndDeploy(w, Remove)
  {
    hide DeployAction, Due, Requests, Undisturbed;
    UndisturbedTail(w);
    DeploySends(Refetched(w), action);
  }

  // ---------------------------------------------------------------- what an observation leads to

  /** The OBSERVE of a known resource at rest goes out, and its answer is sighted as s. */
  ghost predicate Sees(w: World, m: Mapping, request: HttpRequest, s: Sighting) {
    && Starts(w) && Alive(Fetched(w))
    && var x := Fetched(w);
       && MappingFor(x.server.spec, Observe) == Some(m) && Observable(x.server, m, request)
       && Sighted(x.server.spec, x.server.status, ResponseOf(x.tape[0].reply), KeyedUrl(m.url)) == s
  }

  /** The world once the OBSERVE is answered. */
  function Seeing(w: World, m: Mapping): World
    requires Starts(w) && Alive(Fetched(w))
  {
    Looked(Fetched(w), KeyedUrl(m.url))
  }

  lemma SeesRest(w: World, m: Mapping, request: HttpRequest, s: Sighting)
    requires Sees(w, m, request, s)
    ensures var x, y := Fetched(w), Seeing(w, m);
      && y.local == y.server == x.server && SameButStatus(w.server, x.server) && !y.finalized && Undisturbed(y.tape) && Requests(y.log) == Requests(w.log)
      && match s
         case Absent => Reconcile(w) == Dispatch(y, NotExists)
         case Unclear => Reconcile(w) == y
         case Present(synced) =>
           var reply := x.tape[0].reply;
           var (z, recorded) := RefreshAndRecord(y, HttpDetails(ResponseOf(reply), request), !reply.Answer?, synced);
           Reconcile(w) == if recorded then Dispatch(z, Exists(synced)) else z
         case Stuck => Reconcile(w) == Save(y, SetTerminal(ERR_NO_UPDATE_MAPPING, false)).0
  {
    hide Fetched, IsUpToDate, Observable, Sighted, MappingFor, RefreshAndRecord, Dispatch, Save, KeyedUrl, Undisturbed, Requests;
    LooksAt(w);
    var x := Fetched(w);
    ObservationIsJudged(x, m, request);
    UndisturbedTail(x);
    RequestsEmit(x.log, Routed(KeyedUrl(m.url)));
    RequestsEmit(x.log + [Routed(KeyedUrl(m.url))], ObserveCall(x.local.spec, x.local.status, x.tape[0].reply));
  }

  /** An answer that decides nothing: the reconcile ends there. */
  lemma UnclearEndsIt(w: World, m: Mapping, request: HttpRequest)
    requires Sees(w, m, request, Unclear)
    ensures Reconcile(w) == Seeing(w, m) && StaysQuiet(w)
  {
    hide Starts, Fetched, Seeing, Sighted, Observable, KeyedUrl, MappingFor, Requests, Reconcile;
    SeesRest(w, m, request, Unclear);
  }

  /**
   Nothing is there, known at y: a CREATE is sent. Under deletion the finalizer goes instead, and
   nothing is sent.
   */
  ghost predicate CreatedOrReleased(w: World, y: World) {
    var after := Reconcile(w);
    && (!y.server.deleted && Succeed(y.tape, 0, 1) ==> Deploys(w, Refetched(y), Create))
    && (y.server.deleted ==>
          && Requests(after.log) == Requests(w.log) && after.server == y.server
          && (after.finalized <==> y.tape != [] && (y.tape[0].reply.Landed? || y.tape[0].reply.LandedUnseen?)))
  }

  lemma NotFoundIs(w: World, y: World)
    requires Reconcile(w) == Dispatch(y, NotExists)
    requires y.local == y.server && !y.finalized && Undisturbed(y.tape) && Requests(y.log) == Requests(w.log)
    ensures CreatedOrReleased(w, y)
  {
    hide Reconcile, Requests, RefreshAndDeploy, DropFinalizer, DeployAction, Due, Undisturbed;
    Drops(y);
    if !y.server.deleted && Succeed(y.tape, 0, 1) { RefreshDeploys(y, Create); }
  }

  lemma AbsentIsCreatedOrReleased(w: World, m: Mapping, request: HttpRequest)
    requires Sees(w, m, request, Absent)
    ensures CreatedOrReleased(w, Seeing(w, m)) && Seeing(w, m).server == Fetched(w).server
  {
    hide Starts, Fetched, Seeing, Sighted, Observable, KeyedUrl, MappingFor, Reconcile, Requests, Dispatch, CreatedOrReleased, Undisturbed;
    SeesRest(w, m, request, Absent);
    NotFoundIs(w, Seeing(w, m));
  }

  lemma Drops(w: World)
    requires Undisturbed(w.tape) && !w.finalized
    ensures var after := DropFinalizer(w);
      && Requests(after.log) == Requests(w.log) && after.server == w.server
      && (after.finalized <==> w.tape != [] && (w.tape[0].reply.Landed? || w.tape[0].reply.LandedUnseen?))
  {
    hide Undisturbed, Requests;
    if Alive(w) {
      UndisturbedTail(w);
      RequestsEmit(w.log, Finalized(w.server.status));
    }
  }

  /** The observation is on record: the object at z is otherwise the one fetched. */
  ghost predicate Noted(w: World, m: Mapping, request: HttpRequest, r: Response, synced: bool, z: World)
    requires Starts(w) && Alive(Fetched(w)) && |Seeing(w, m).tape| >= 2
  {
    var o := Fetched(w).server;
    && z.local == z.server && SameButStatus(o, z.server) && Requests(z.log) == Requests(w.log) && !z.finalized
    && OnRecord(o.spec, o.status, z.server.status, HttpDetails(r, request), synced)
    && z.tape == Seeing(w, m).tape[2..] && Undisturbed(z.tape)
  }

  /** Present: the answer is put on record, and then the verdict is dispatched. */
  lemma PresentIsNoted(w: World, m: Mapping, request: HttpRequest, r: Response, synced: bool) returns (z: World)
    requires Sees(w, m, request, Present(synced)) && Fetched(w).tape[0].reply == Answer(r) && Succeed(Seeing(w, m).tape, 0, 2)
    ensures Noted(w, m, request, r, synced, z) && Reconcile(w) == Dispatch(z, Exists(synced))
    ensures z.local.deleted == w.server.deleted
  {
    hide Starts, Fetched, Seeing, Sighted, Observable, KeyedUrl, MappingFor, Reconcile, Requests, RefreshAndRecord, Dispatch, OnRecord, Undisturbed;
    SeesRest(w, m, request, Present(synced));
    var d := HttpDetails(r, request);
    Records(Seeing(w, m), d, false, synced);
    RecordQuiet(Seeing(w, m), d, false, synced);
    z := RefreshAndRecord(Seeing(w, m), d, false, synced).0;
  }

  /** Present and in sync: nothing else is done. */
  lemma SyncedIsLeft(w: World, m: Mapping, request: HttpRequest, r: Response)
    requires Sees(w, m, request, Present(true)) && Fetched(w).tape[0].reply == Answer(r) && Succeed(Seeing(w, m).tape, 0, 2)
    requires !w.server.deleted
    ensures Noted(w, m, request, r, true, Reconcile(w)) && StaysQuiet(w)
  {
    hide Starts, Fetched, Seeing, Sighted, Observable, KeyedUrl, MappingFor, Reconcile, Requests, OnRecord;
    var z := PresentIsNoted(w, m, request, r, true);
  }

  /** Present and out of sync: an UPDATE is sent. */
  lemma DriftIsUpdated(w: World, m: Mapping, request: HttpRequest, r: Response) returns (z: World)
    requires Sees(w, m, request, Present(false)) && Fetched(w).tape[0].reply == Answer(r) && Succeed(Seeing(w, m).tape, 0, 3)
    requires !w.server.deleted
    ensures Noted(w, m, request, r, false, z) && Alive(z) && Deploys(w, Refetched(z), Update)
  {
    hide Starts, Fetched, Seeing, Sighted, Observable, KeyedUrl, MappingFor, Reconcile, Requests, OnRecord, RefreshAndDeploy, DeployAction, Due, Undisturbed;
    z := PresentIsNoted(w, m, request, r, false);
    assert z.tape[0] == Seeing(w, m).tape[2];
    RefreshDeploys(z, Update);
  }

  /** Present under deletion: a REMOVE is sent, in sync or not, and the finalizer stays. */
  lemma DeletedIsRemoved(w: World, m: Mapping, request: HttpRequest, r: Response, synced: bool) returns (z: World)
    requires Sees(w, m, request, Present(synced)) && Fetched(w).tape[0].reply == Answer(r) && Succeed(Seeing(w, m).tape, 0, 3)
    requires w.server.deleted
    ensures Noted(w, m, request, r, synced, z) && Alive(z) && Deploys(w, Refetched(z), Remove)
  {
    hide Starts, Fetched, Seeing, Sighted, Observable, KeyedUrl, MappingFor, Reconcile, Requests, RefreshAndDeploy, DeployAction, Due, Undisturbed, Delete;
    z := PresentIsNoted(w, m, request, r, synced);
    assert z.tape[0] == Seeing(w, m).tape[2];
    assert z.server.status.anchor.None? by { RestIsKept(w, m, request, r, synced, z); }
    RefreshDeploys(z, Remove);
  }

  lemma RestIsKept(w: World, m: Mapping, request: HttpRequest, r: Response, synced: bool, z: World)
    requires Sees(w, m, request, Present(synced)) && |Seeing(w, m).tape| >= 2 && Noted(w, m, request, r, synced, z)
    ensures AtRest(z.server.status)
  {
  }

  /** Out of sync without an UPDATE mapping: the resource stalls for this generation. */
  lemma StuckStalls(w: World, m: Mapping, request: HttpRequest)
    requires Sees(w, m, request, Stuck) && Succeed(Seeing(w, m).tape, 0, 1)
    ensures StalledIff(Reconcile(w).server, Fetched(w).server.status, true) && SameButStatus(Fetched(w).server, Reconcile(w).server)
    ensures StaysQuiet(w)
  {
    hide Starts, Fetched, Seeing, Sighted, Observable, KeyedUrl, MappingFor, Reconcile, Requests, Undisturbed;
    SeesRest(w, m, request, Stuck);
    SaveLands(Seeing(w, m), SetTerminal(ERR_NO_UPDATE_MAPPING, false));
    SaveQuiet(Seeing(w, m), SetTerminal(ERR_NO_UPDATE_MAPPING, false));
  }

  /** No answer to the OBSERVE of a resource taken to be present: a failure is counted, and nothing else is done. */
  lemma SilenceIsCounted(w: World, m: Mapping, request: HttpRequest, synced: bool)
    requires Sees(w, m, request, Present(synced)) && !Fetched(w).tape[0].reply.Answer? && Succeed(Seeing(w, m).tape, 0, 2)
    ensures TransportOnRecord(Fetched(w).server.status, Reconcile(w).server.status)
    ensures SameButStatus(Fetched(w).server, Reconcile(w).server) && StaysQuiet(w)
  {
    hide Starts, Fetched, Seeing, Sighted, Observable, KeyedUrl, MappingFor, Reconcile, Requests, RefreshAndRecord, TransportOnRecord, Undisturbed;
    SeesRest(w, m, request, Present(synced));
    var d := HttpDetails(NO_RESPONSE, request);
    Records(Seeing(w, m), d, true, synced);
    RecordQuiet(Seeing(w, m), d, true, synced);
  }

  // ---------------------------------------------------------------- without an observation

  /** A resource without identity whose OBSERVE needs one: nothing is sent to look for it. */
  lemma UnidentifiedIsCreatedOrReleased(w: World, m: Mapping)
    requires Starts(w)
    requires var o := Fetched(w).server;
      MappingFor(o.spec, Observe) == Some(m) && AtRest(o.status) && KeyedUrl(m.url) && o.status.externalRef == ""
    ensures CreatedOrReleased(w, Emit(Fetched(w), Routed(true)))
  {
    hide Starts, Fetched, KeyedUrl, MappingFor, Reconcile, Requests, Dispatch, CreatedOrReleased, Undisturbed, IsUpToDate;
    LooksAt(w);
    UnidentifiedIsAbsent(Fetched(w), m);
    RequestsEmit(Fetched(w).log, Routed(true));
    NotFoundIs(w, Emit(Fetched(w), Routed(true)));
  }

  /** On the response path, a resource not known to be there counts as absent unless its OBSERVE succeeds. */
  lemma UnknownIsCreatedOrReleased(w: World, m: Mapping, request: HttpRequest)
    requires Starts(w) && Alive(Fetched(w)) && !Success(ResponseOf(Fetched(w).tape[0].reply))
    requires var o := Fetched(w).server;
      && MappingFor(o.spec, Observe) == Some(m) && AtRest(o.status) && !Presumed(o.spec, o.status)
      && !KeyedUrl(m.url) && !(Polls(o.spec) && ResponseUrl(m.url)) && Templated(m, o.status) == EvalOk(request)
    ensures CreatedOrReleased(w, Looked(Fetched(w), false))
  {
    hide Starts, Fetched, KeyedUrl, ResponseUrl, Templated, Presumed, Polls, MappingFor, Sighted, Success;
    hide Reconcile, Requests, Dispatch, CreatedOrReleased, Undisturbed, IsUpToDate;
    LooksAt(w);
    var x := Fetched(w);
    UnknownNeedsSuccess(x, m, request);
    UndisturbedTail(x);
    RequestsEmit(x.log, Routed(false));
    RequestsEmit(x.log + [Routed(false)], ObserveCall(x.local.spec, x.local.status, x.tape[0].reply));
    NotFoundIs(w, Looked(x, false));
  }

  /** Stalled: released if it was abandoned, and otherwise left as it is. */
  lemma StalledIsLeft(w: World)
    requires Starts(w) && Fetched(w).server.status.terminalError != ""
    ensures var x := Fetched(w);
      && (Abandoned(x.server) ==> CreatedOrReleased(w, x))
      && (!Abandoned(x.server) ==> Reconcile(w) == x && StaysQuiet(w))
  {
    hide Starts, Named, Reconcile, Requests, Dispatch, CreatedOrReleased, Undisturbed, ObserveUnstalled;
    LooksAt(w);
    if Abandoned(Fetched(w).server) { NotFoundIs(w, Fetched(w)); }
  }

  /**
   An operation in flight is resumed by the deployment of its own action: that of the CREATE while
   there is no identity, and otherwise that of the UPDATE, or of the REMOVE under deletion.
   Nothing is sent for it, and nothing on record changes before it is polled.
   */
  lemma InFlightIsResumed(w: World) returns (z: World)
    requires Starts(w) && Succeed(Fetched(w).tape, 0, 3)
    requires var st := Fetched(w).server.status; st.terminalError == "" && st.anchor.Some?
    ensures var o := Fetched(w).server;
      && z.server == o.(version := z.server.version) && Alive(z)
      && Deploys(w, Refetched(z), if o.status.externalRef == "" then Create else if o.deleted then Remove else Update)
      && Requests(Reconcile(w).log) == Requests(w.log)
  {
    hide Starts, Fetched, Reconcile, Requests, RefreshAndRecord, RefreshAndDeploy, DeployAction, Due, Delete, Undisturbed, OnRecord;
    LooksAt(w);
    var x := Fetched(w);
    if x.server.status.externalRef == "" && !x.server.deleted {
      z := x;
      RefreshDeploys(z, Create);
    } else {
      Records(x, NO_DETAILS, false, false);
      RecordQuiet(x, NO_DETAILS, false, false);
      z := RefreshAndRecord(x, NO_DETAILS, false, false).0;
      NothingIsRecorded(x.server.spec, x.server.status, z.server.status);
      assert z.tape[0] == x.tape[2];
      if x.server.deleted { DeleteResumes(z); } else { RefreshDeploys(z, Update); }
    }
    DueNeedsRest(Refetched(z).server);
  }

  lemma NothingIsRecorded(spec: Spec, before: Status, st: Status)
    requires OnRecord(spec, before, st, NO_DETAILS, false)
    ensures st == before
  {
  }

  lemma DueNeedsRest(o: Object)
    ensures o.status.anchor.Some? ==> forall a :: !Due(o, a)
  {
  }

  lemma DeleteResumes(w: World)
    requires Undisturbed(w.tape) && Succeed(w.tape, 0, 1) && !w.finalized && w.server.status.anchor.Some?
    ensures var action := if w.server.status.externalRef == "" then Create else Remove;
      && Delete(w) == DeployAction(Refetched(w), action).0 && !Delete(w).finalized
      && Requests(Delete(w).log) == Requests(w.log) + if Alive(Refetched(w)) && Due(Refetched(w).server, action) then [action] else []
  {
    hide DeployAction, Due, Requests, Undisturbed;
    UndisturbedTail(w);
    DeploySends(Refetched(w), Create);
    DeploySends(Refetched(w), Remove);
  }

  // ---------------------------------------------------------------- after a CREATE

  /**
   A CREATE without polling whose answer names the resource is not repeated: the name is stored,
   and the next reconcile sends another CREATE only if the answer to its OBSERVE reports absence.
   */
  lemma CreateIsNotRepeated(w: World, m: Mapping, request: HttpRequest, r: Response, name: string, tape: seq<Turn>)
    requires ToBeSent(w, Create, m, request) && m.polling.None?
    requires w.tape[0].reply == Answer(r) && !HttpError(w.server.spec, r) && Succeed(w.tape, 1, 5)
    requires w.server.spec.externalRef.Some? && w.server.spec.externalRef.value(w.server.status, r, None) == EvalOk(name) && name != ""
    ensures var next := DeployAction(w, Create).0.(tape := tape);
      && next.server.status.externalRef == name && AtRest(next.server.status)
      && (Requests(Reconcile(next).log) == Requests(next.log) + [Create] ==>
            |tape| > 0 && ReportedAbsent(Disturb(next.server, tape[0].env), AnswerAt(tape, 1)))
  {
    hide DeployAction, Reconcile, Requests, ReportedAbsent, Disturb, MappingFor, Templated, GivesUp, TemplatesAll;
    SyncAnswered(w, Create, m, request, r);
    ReconcileSends(DeployAction(w, Create).0.(tape := tape));
  }
}
