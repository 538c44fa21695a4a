/**
 The controller as it is written: methods that work on an in-memory copy, one interaction at a
 time. Each is proved to move its world exactly as the function of the same name says, so every
 theorem about those functions is a theorem about these methods.
 */
module Controller {
  import opened Api
  import opened Cluster
  import opened RequestMapping
  import opened RequestGen
  import opened Poller
  import opened Deploy
  import opened Observing
  import opened Reconciling
  import opened Protocol
  import opened ProtocolProofs
  import opened Refinement
  import opened Safety

  class External {
    var server: Object
    var local: Object
    var now: nat
    var tape: seq<Turn>
    var finalized: bool
    ghost var log: seq<Event>

    constructor (o: Object)
      ensures server == local == o && now == 0 && tape == [] && log == [] && !finalized
    {
      server, local, now, tape, log, finalized := o, o, 0, [], [], false;
    }

    ghost function World(): World
      reads this
    {
      Cluster.World.World(server, local, now, tape, log, finalized)
    }

    // -------------------------------------------------------------- single interactions

    /** Take the next turn of the tape: others act, time passes. */
    method Take() returns (reply: Reply)
      requires tape != []
      modifies this
      ensures reply == old(tape)[0].reply && World() == Cluster.Advance(old(World()))
    {
      var turn := tape[0];
      server, now, tape := Disturb(server, turn.env), now + turn.env.delay, tape[1..];
      return turn.reply;
    }

    method Get() returns (ok: bool)
      modifies this
      ensures (World(), ok) == Cluster.Get(old(World()))
    {
      if tape == [] { return false; }
      var reply := Take();
      if reply.Landed? { local := server; }
      return reply.Landed?;
    }

    method Save(c: Change) returns (ok: bool)
      modifies this
      ensures (World(), ok) == Cluster.Save(old(World()), c)
    {
      hide Apply, Disturb;
      if tape == [] { return false; }
      var reply := Take();
      var after := Apply(c, server, now);
      if after.Some? && (reply.Landed? || reply.LandedUnseen?) {
        log := log + [Wrote(c, local.spec, server, now, after.value)];
        server := server.(status := after.value, version := server.version + 1);
      }
      if reply.Landed? { local := server; }
      return reply.Landed?;
    }

    method UpdateLocal(c: Change) returns (ok: bool)
      modifies this
      ensures (World(), ok) == Cluster.UpdateLocal(old(World()), c)
    {
      hide Apply;
      if tape == [] { return false; }
      if Disturb(server, tape[0].env).version != local.version {
        var reply := Take();
        return false;
      }
      ok := Save(c);
    }

    method SendRequest() returns (reply: Reply)
      modifies this
      ensures (World(), reply) == Cluster.Send(old(World()))
    {
      if tape == [] { return Refused; }
      reply := Take();
    }

    method Sleep(interval: nat) returns (woke: bool)
      modifies this
      ensures (World(), woke) == Poller.Sleep(old(World()), interval)
    {
      if tape == [] { return false; }
      var reply := Take();
      now := now + interval;
      return reply.Landed?;
    }

    // -------------------------------------------------------------- Poll

    method Poll(m: Mapping, mutate: Response) returns (o: Outcome)
      modifies this
      ensures (World(), o) == Poller.Poll(old(World()), m, mutate)
    {
      hide IsAbsoluteUrl, Judge, PollLoop, Disturb, VerdictOf;
      if m.polling.None? {
        o := Finished(NoBlock, None);
      } else {
        o := Drive(m.polling.value, mutate);
      }
      log := log + [Polled(VerdictOf(o), local.status)];
    }

    method Drive(p: Polling, mutate: Response) returns (o: Outcome)
      modifies this
      ensures (World(), o) == Poller.Drive(old(World()), p, mutate)
    {
      hide IsAbsoluteUrl, PollLoop;
      var url := p.url(local.status, mutate);
      if url.EvalErr? { return Errored; }
      if url.value == "" { return Terminal(BadUrl, EMPTY_URL); }
      if !IsAbsoluteUrl(url.value) { return Terminal(BadUrl, INVALID_URL); }
      var startedAt := if local.status.startedAt.Some? then local.status.startedAt.value else now;
      o := PollUntil(p, mutate, startedAt + p.timeout);
    }

    method PollUntil(p: Polling, mutate: Response, deadline: int) returns (o: Outcome)
      modifies this
      ensures (World(), o) == PollLoop(old(World()), p, mutate, deadline, old(now) + RECONCILE_BUDGET)
    {
      hide Judge, Disturb;
      var budgetEnd := now + RECONCILE_BUDGET;
      var deleted := local.deleted;
      ghost var run := PollLoop(World(), p, mutate, deadline, budgetEnd);
      while true
        invariant deleted == local.deleted
        invariant PollLoop(World(), p, mutate, deadline, budgetEnd) == run
        decreases |tape|
      {
        if !deleted && now > deadline { return Terminal(TimedOut, TIMEOUT); }
        if now > budgetEnd { return StillRunning; }
        if tape == [] { return Errored; }
        log := log + [PollCall(now)];
        var reply := SendRequest();
        if !reply.Answer? { return Errored; }
        var verdict := Judge(p, local.status, mutate, reply.response);
        if verdict.Some? { return verdict.value; }
        var woke := Sleep(p.interval);
        if !woke { return Errored; }
      }
    }

    // -------------------------------------------------------------- DeployAction

    method SetRequestStatus(d: HttpDetails, failed: bool, reset: bool) returns (ok: bool)
      modifies this
      ensures (World(), ok) == Deploy.SetRequestStatus(old(World()), d, failed, reset)
    {
      hide Cluster.Save, ShouldSetCache;
      if failed {
        var saved := Save(RecordError(ERR_TRANSPORT));
        return false;
      }
      var cached := ShouldSetCache(local.spec, local.status, d.response);
      ok := Save(Record(d, reset, IsHTTPError(d.response.statusCode, local.spec.allowed), cached));
    }

    method RefreshAndRecord(d: HttpDetails, failed: bool, reset: bool) returns (ok: bool)
      modifies this
      ensures (World(), ok) == Deploy.RefreshAndRecord(old(World()), d, failed, reset)
    {
      hide Cluster.Get, Deploy.SetRequestStatus;
      ok := Get();
      if ok { ok := SetRequestStatus(d, failed, reset); }
    }

    method FailMutate(response: Response) returns (ok: bool)
      modifies this
      ensures (World(), ok) == Deploy.FailMutate(old(World()), response)
    {
      hide Cluster.Save, Classify;
      var msg := Classify(local.spec, local.status, response, None, TERMINAL_MUTATE);
      if msg.None? { return false; }
      ok := Save(SetTerminal(msg.value, false));
    }

    method SendMutate(action: Action, m: Mapping) returns (reply: Reply)
      modifies this
      ensures (World(), reply) == Deploy.SendMutate(old(World()), action, m)
    {
      hide Disturb;
      if tape == [] { return Refused; }
      reply := SendRequest();
      ghost var accepted := reply == NoAnswer(true)
        || (reply.Answer? && !IsHTTPError(reply.response.statusCode, local.spec.allowed));
      log := log + [Mutate(action, m.polling.Some?, local.status, reply, accepted)];
    }

    method FinishSync(d: HttpDetails, failed: bool) returns (ok: bool)
      modifies this
      ensures (World(), ok) == Deploy.FinishSync(old(World()), d, failed)
    {
      hide Cluster.Save, Deploy.RefreshAndRecord, Deploy.FailMutate;
      if local.spec.externalRef.Some? { var saved := Save(ExtractRef(d.response)); }
      ok := RefreshAndRecord(d, failed, false);
      if ok && IsHTTPError(d.response.statusCode, local.spec.allowed) { ok := FailMutate(d.response); }
    }

    method HandlePollOperationFailure(mutate: Response, failing: Response, msg: string) returns (ok: bool)
      modifies this
      ensures (World(), ok) == HandleOperationFailure(old(World()), mutate, failing, msg)
    {
      hide Cluster.Save, Classify;
      ok := Save(PollFailure(failing));
      if !ok { return; }
      var terminal := Classify(local.spec, local.status, mutate, Some(failing), msg);
      if terminal.Some? {
        ok := Save(SetTerminal(terminal.value, true));
      } else {
        ok := Save(ClearAnchor);
      }
    }

    method PollAndFinish(m: Mapping, mutate: Response) returns (ok: bool)
      modifies this
      ensures (World(), ok) == Deploy.PollAndFinish(old(World()), m, mutate)
    {
      hide Cluster.Save, Poller.Poll, HandleOperationFailure;
      var outcome := Poll(m, mutate);
      match outcome {
        case Errored => return false;
        case Terminal(_, msg) => ok := Save(SetTerminal(msg, false));
        case Failure(failing, msg) => ok := HandlePollOperationFailure(mutate, failing, msg);
        case StillRunning => return true;
        case Finished(_, poll) => ok := Save(Complete(mutate, poll));
      }
    }

    method DeployAction(action: Action) returns (ok: bool)
      modifies this
      ensures (World(), ok) == Deploy.DeployAction(old(World()), action)
    {
      hide Cluster.Save, Deploy.PollAndFinish, Deploy.SendMutate, Deploy.FinishSync, Deploy.RefreshAndRecord, Deploy.FailMutate;
      hide MappingFor, GenerateValidRequestDetails;
      var mapping := MappingFor(local.spec, action);
      if mapping.None? { return true; }
      var m := mapping.value;
      var mutate: Response;
      if local.status.anchor.None? {
        var generated := GenerateValidRequestDetails(m, local.status);
        if generated.EvalErr? { return false; }
        var reply := SendMutate(action, m);
        var d := HttpDetails(ResponseOf(reply), generated.value);
        if m.polling.None? {
          ok := FinishSync(d, !reply.Answer?);
          return;
        }
        if !reply.Answer? {
          ok := RefreshAndRecord(d, true, false);
          return;
        }
        if IsHTTPError(d.response.statusCode, local.spec.allowed) {
          ok := RefreshAndRecord(d, false, false);
          if ok { ok := FailMutate(d.response); }
          return;
        }
        mutate := d.response;
        ok := Save(PersistAnchor(mutate));
        if !ok { return; }
      } else {
        mutate := local.status.anchor.value;
        if local.status.startedAt.None? {
          ok := Save(StartClock);
          if !ok { return; }
        }
      }
      ok := PollAndFinish(m, mutate);
    }

    // -------------------------------------------------------------- IsUpToDate

    method DetermineIfUpToDate(d: HttpDetails, failed: bool) returns (o: Observation)
      modifies this
      ensures (World(), o) == Observing.DetermineIfUpToDate(old(World()), d, failed)
    {
      hide Cluster.Save, MappingFor, CheckUpToDate;
      var synced := CheckUpToDate(local.spec, local.status, d.response);
      if synced.EvalErr? { return Failed; }
      if !synced.value && MappingFor(local.spec, Update).None? {
        var ok := Save(SetTerminal(ERR_NO_UPDATE_MAPPING, false));
        return if ok then Stalled(ERR_NO_UPDATE_MAPPING) else Failed;
      }
      return Seen(d, failed, synced.value, false);
    }

    method SendObserve() returns (reply: Reply)
      modifies this
      ensures (World(), reply) == Observing.SendObserve(old(World()))
    {
      hide Disturb;
      if tape == [] { return Refused; }
      reply := SendRequest();
      log := log + [ObserveCall(local.spec, local.status, reply)];
    }

    method ObserveExternalRefDriven(m: Mapping) returns (o: Observation)
      modifies this
      ensures (World(), o) == Observing.ObserveExternalRefDriven(old(World()), m)
    {
      hide Observing.SendObserve, Observing.DetermineIfUpToDate, GenerateValidRequestDetails, CheckRemoved, CheckExists;
      if local.status.externalRef == "" { return NotFound; }
      var generated := GenerateValidRequestDetails(m, local.status);
      if generated.EvalErr? { return Failed; }
      var reply := SendObserve();
      var r := ResponseOf(reply);
      var removed := CheckRemoved(local.spec, local.status, r);
      if removed.EvalErr? { return Failed; }
      if removed.value { return NotFound; }
      if !IsHTTPSuccess(r.statusCode) && IsHTTPError(r.statusCode, local.spec.allowed) { return Failed; }
      var present := CheckExists(local.spec, local.status, r);
      if present.EvalErr? { return Failed; }
      if !present.value { return NotFound; }
      o := DetermineIfUpToDate(HttpDetails(r, generated.value), !reply.Answer?);
    }

    method ObserveResponseDriven(m: Mapping) returns (o: Observation)
      modifies this
      ensures (World(), o) == Observing.ObserveResponseDriven(old(World()), m)
    {
      hide Observing.SendObserve, Observing.DetermineIfUpToDate, GenerateValidRequestDetails, CheckRemoved, CheckExists;
      var notCreated := !IsObjectValidForObservation(local.spec, local.status);
      var generated := GenerateValidRequestDetails(m, local.status);
      if generated.EvalErr? { return if notCreated then NotFound else Failed; }
      var reply := SendObserve();
      var r := ResponseOf(reply);
      if !IsHTTPSuccess(r.statusCode) && notCreated { return NotFound; }
      var removed := CheckRemoved(local.spec, local.status, r);
      if removed.EvalErr? { return Failed; }
      if removed.value { return NotFound; }
      var present := CheckExists(local.spec, local.status, r);
      if present.EvalErr? { return Failed; }
      if !present.value { return NotFound; }
      o := DetermineIfUpToDate(HttpDetails(r, generated.value), !reply.Answer?);
    }

    /** Whether any mapping polls, by a scan that stops at the first. */
    method HasPolling() returns (r: bool)
      ensures r == PollingConfigured(local.spec)
    {
      for k := 0 to |local.spec.mappings|
        invariant forall i :: 0 <= i < k ==> local.spec.mappings[i].polling.None?
      {
        if local.spec.mappings[k].polling.Some? { return true; }
      }
      return false;
    }

    method ObserveByMapping() returns (o: Observation)
      modifies this
      ensures (World(), o) == Observing.ObserveByMapping(old(World()))
    {
      hide Cluster.Save, MappingFor, Observing.ObserveExternalRefDriven, Observing.ObserveResponseDriven;
      hide PollingConfigured, UrlReferencesResponse, UrlReferencesExternalRef;
      var mapping := MappingFor(local.spec, Action.Observe);
      if mapping.None? { return Failed; }
      var m := mapping.value;
      var polls := HasPolling();
      if polls && UrlReferencesResponse(m.url) && !UrlReferencesExternalRef(m.url) {
        var ok := Save(SetTerminal(ERR_POLLED_RESPONSE_IDENTITY, false));
        return if ok then Stalled(ERR_POLLED_RESPONSE_IDENTITY) else Failed;
      }
      log := log + [Routed(UrlReferencesExternalRef(m.url))];
      if UrlReferencesExternalRef(m.url) {
        o := ObserveExternalRefDriven(m);
      } else {
        o := ObserveResponseDriven(m);
      }
    }

    method IsUpToDate() returns (o: Observation)
      modifies this
      ensures (World(), o) == Observing.IsUpToDate(old(World()))
    {
      hide Cluster.Save, Observing.ObserveByMapping;
      if local.status.terminalError != "" {
        if local.deleted && local.status.anchor.None? && local.status.externalRef == "" { return NotFound; }
        if local.generation == local.status.observedGeneration { return Stalled(local.status.terminalError); }
        var ok := Save(ClearTerminal);
        if !ok { return Failed; }
      }
      if local.status.anchor.Some? {
        if local.status.externalRef == "" && !local.deleted { return NotFound; }
        return IN_FLIGHT;
      }
      o := ObserveByMapping();
    }

    // -------------------------------------------------------------- the managed reconciler

    method Observe() returns (a: Answer)
      modifies this
      ensures (World(), a) == ObserveResource(old(World()))
    {
      hide Observing.IsUpToDate, Cluster.UpdateLocal, Deploy.RefreshAndRecord;
      if local.status.externalRef == "" && local.externalName != "" && local.externalName != local.name {
        var seeded := UpdateLocal(Seed(local.externalName));
        if !seeded { return ObserveError; }
      }
      var seen := IsUpToDate();
      match seen {
        case NotFound => return NotExists;
        case Failed => return ObserveError;
        case Stalled(_) => return ObserveError;
        case Seen(d, failed, synced, _) =>
          var recorded := RefreshAndRecord(d, failed, synced);
          return if recorded then Exists(synced) else ObserveError;
      }
    }

    method CreateOrUpdate(action: Action)
      modifies this
      ensures World() == RefreshAndDeploy(old(World()), action)
    {
      hide Cluster.Get, Deploy.DeployAction;
      var ok := Get();
      if ok { ok := DeployAction(action); }
    }

    method Delete()
      modifies this
      ensures World() == Reconciling.Delete(old(World()))
    {
      hide Cluster.Get, Deploy.DeployAction;
      var ok := Get();
      if !ok { return; }
      if local.status.anchor.Some? && local.status.externalRef == "" {
        ok := DeployAction(Action.Create);
      } else {
        ok := DeployAction(Action.Remove);
      }
    }

    method DropFinalizer()
      modifies this
      ensures World() == Reconciling.DropFinalizer(old(World()))
    {
      hide Disturb;
      if tape == [] { return; }
      var reply := Take();
      if reply.Landed? || reply.LandedUnseen? {
        log := log + [Event.Finalized(server.status)];
        finalized := true;
      }
    }

    method Reconcile()
      modifies this
      ensures World() == Reconciling.Reconcile(old(World()))
    {
      hide Cluster.Get, ObserveResource, RefreshAndDeploy, Reconciling.Delete, Reconciling.DropFinalizer;
      if finalized { return; }
      log := log + [Began];
      var ok := Get();
      if !ok { return; }
      var a := Observe();
      match a {
        case ObserveError =>
        case NotExists => if local.deleted { DropFinalizer(); } else { CreateOrUpdate(Action.Create); }
        case Exists(upToDate) =>
          if local.deleted { Delete(); } else if !upToDate { CreateOrUpdate(Action.Update); }
      }
    }

    /** A whole run, and the protocol it keeps to. */
    method Run(tapes: seq<seq<Turn>>)
      requires New(World())
      modifies this
      ensures World() == Reconciling.Run(old(World()), tapes)
      ensures Legal(log) && Safe(BookOf(log)) && BookOf(log).status == server.status
    {
      hide Reconciling.Reconcile, Legal, BookOf, Safe;
      ghost var start := World();
      RunIsLegal(start, tapes);
      for i := 0 to |tapes|
        invariant Reconciling.Run(World(), tapes[i..]) == Reconciling.Run(start, tapes)
      {
        assert tapes[i..][0] == tapes[i] && tapes[i..][1..] == tapes[i + 1..];
        tape := tapes[i];
        Reconcile();
      }
      assert tapes[|tapes|..] == [];
    }
  }
}
