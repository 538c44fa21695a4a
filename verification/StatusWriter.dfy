/**
 Status writes under optimistic locking, against any interference by concurrent writers.

 Each call to the API server consumes one turn: what others wrote before it, and how the call
 was answered. The server keeps a ghost history of all writes, its own linearization.
 */
module StatusWriter {
  import opened Api
  import opened Cluster

  /** An answer of the API server: fine, broken without effect, or broken after the write landed. */
  datatype Ack = Fine | Broken | Lost

  datatype Step = Step(others: seq<Object>, ack: Ack)

  datatype Write = Write(ours: bool, before: Object, after: Object)

  datatype Outcome = Updated | Conflict | Failure

  /** The object after the others wrote: their content, under the next version each time. */
  function Overwritten(o: Object, others: seq<Object>): Object
    decreases |others|
  {
    if others == [] then o else Overwritten(others[0].(version := o.version + 1), others[1..])
  }

  function Overwrites(o: Object, others: seq<Object>): (ws: seq<Write>)
    ensures |ws| == |others|
    ensures forall i :: 0 <= i < |ws| ==> !ws[i].ours
    decreases |others|
  {
    if others == [] then [] else
      var o1 := others[0].(version := o.version + 1);
      [Write(false, o, o1)] + Overwrites(o1, others[1..])
  }

  /** Consecutive writes, each starting from what the one before it left. */
  ghost predicate Chained(start: Object, ws: seq<Write>, end: Object)
    decreases |ws|
  {
    if ws == [] then start == end
    else ws[0].before == start && ws[0].after.version == start.version + 1 && Chained(ws[0].after, ws[1..], end)
  }

  lemma {:induction false} OverwritesChained(o: Object, others: seq<Object>)
    ensures Chained(o, Overwrites(o, others), Overwritten(o, others))
    decreases |others|
  {
    if others != [] {
      var o1 := others[0].(version := o.version + 1);
      OverwritesChained(o1, others[1..]);
      assert Overwrites(o, others)[1..] == Overwrites(o1, others[1..]);
    }
  }

  lemma {:induction false} ChainedAppend(a: Object, ws: seq<Write>, b: Object, more: seq<Write>, c: Object)
    requires Chained(a, ws, b) && Chained(b, more, c)
    ensures Chained(a, ws + more, c)
    decreases |ws|
  {
    if ws == [] {
      assert ws + more == more;
    } else {
      assert (ws + more)[1..] == ws[1..] + more;
      ChainedAppend(ws[0].after, ws[1..], b, more, c);
    }
  }

  lemma {:induction false} ChainedVersion(a: Object, ws: seq<Write>, b: Object)
    requires Chained(a, ws, b)
    ensures b.version == a.version + |ws|
    decreases |ws|
  {
    if ws != [] { ChainedVersion(ws[0].after, ws[1..], b); }
  }

  // ---------------------------------------------------------------- what the steps decide

  /** The first n calls are answered fine. */
  predicate AllFine(steps: seq<Step>, n: nat) {
    n <= |steps| && forall i :: 0 <= i < n ==> steps[i].ack.Fine?
  }

  /** The object after the others have written in all these steps. */
  function After(o: Object, steps: seq<Step>): Object {
    if steps == [] then o else Overwritten(After(o, steps[..|steps| - 1]), steps[|steps| - 1].others)
  }

  lemma AfterNext(o: Object, steps: seq<Step>, n: nat)
    requires n < |steps|
    ensures After(o, steps[..n + 1]) == Overwritten(After(o, steps[..n]), steps[n].others)
  {
    assert steps[..n + 1][..n] == steps[..n];
  }

  /** From history `h` and object `o` to history `h1` and object `o1`, only others have written. */
  ghost predicate Since(h: seq<Write>, o: Object, h1: seq<Write>, o1: Object) {
    && |h| <= |h1| && h1[..|h|] == h
    && o1.version == o.version + |h1| - |h|
    && (|h1| == |h| ==> o1 == o)
    && forall i :: |h| <= i < |h1| ==> !h1[i].ours
  }

  class Server {
    var stored: Object
    var steps: seq<Step>
    ghost var history: seq<Write>
    ghost const origin: Object

    constructor (o: Object, steps: seq<Step>)
      ensures Valid() && stored == origin == o && history == [] && this.steps == steps
    {
      stored, this.steps := o, steps;
      history, origin := [], o;
    }

    /** The history accounts for every change of the object. */
    ghost predicate Valid()
      reads this
    {
      Chained(origin, history, stored)
    }

    /** Since the history was `h` and the object `o`, only others have written. */
    ghost predicate OnlyOthers(h: seq<Write>, o: Object)
      reads this
    {
      Valid() && Since(h, o, history, stored)
    }

    /** Let the others write, then learn how this call will be answered. */
    method Interfere() returns (ack: Ack)
      requires Valid()
      modifies this
      ensures OnlyOthers(old(history), old(stored))
      ensures old(steps) == [] ==> ack.Broken? && steps == [] && stored == old(stored)
      ensures old(steps) != [] ==>
        && ack == old(steps)[0].ack && steps == old(steps)[1..]
        && stored == Overwritten(old(stored), old(steps)[0].others)
        && stored.version == old(stored.version) + |old(steps)[0].others|
    {
      if steps == [] { return Broken; }
      ghost var o, ws := stored, Overwrites(stored, steps[0].others);
      OverwritesChained(o, steps[0].others);
      ChainedAppend(origin, history, o, ws, Overwritten(o, steps[0].others));
      ChainedVersion(o, ws, Overwritten(o, steps[0].others));
      history := history + ws;
      stored, ack, steps := Overwritten(stored, steps[0].others), steps[0].ack, steps[1..];
    }

    method Get() returns (r: Option<Object>)
      requires Valid()
      modifies this
      ensures OnlyOthers(old(history), old(stored))
      ensures r.Some? ==> r.value == stored
      ensures r.Some? <==> old(steps) != [] && old(steps)[0].ack.Fine?
      ensures Took(old(steps), old(stored))
    {
      var ack := Interfere();
      r := if ack.Fine? then Some(stored) else None;
    }

    /** One step was taken, if one was left; a call of ours that writes nothing leaves what the others wrote. */
    ghost predicate Took(before: seq<Step>, o: Object)
      reads this
    {
      if before == [] then steps == [] && stored == o else steps == before[1..] && stored == Overwritten(o, before[0].others)
    }

    /** What one status write of `mine` adds to the history, if it lands. */
    ghost function Landing(mine: Object): Write
      reads this
    {
      Write(true, stored, stored.(status := mine.status, version := stored.version + 1))
    }

    /** Status().Update: the status of `mine` replaces the stored one unless the object has moved. */
    method UpdateStatus(mine: Object) returns (r: Outcome)
      requires Valid()
      modifies this
      ensures r.Updated? <==> old(steps) != [] && old(steps)[0].ack.Fine?
                              && mine.version == old(stored.version) + |old(steps)[0].others|
      ensures r.Conflict? <==> old(steps) != [] && old(steps)[0].ack.Fine?
                               && mine.version != old(stored.version) + |old(steps)[0].others|
      ensures r.Conflict? ==> Took(old(steps), old(stored))
      ensures steps == if old(steps) == [] then [] else old(steps)[1..]
      ensures r.Conflict? ==> OnlyOthers(old(history), old(stored)) && mine.version != stored.version
      ensures r.Updated? ==> Landed(old(history), old(stored), mine.version, mine.status)
      ensures r.Failure? ==> OnlyOthers(old(history), old(stored)) || Landed(old(history), old(stored), mine.version, mine.status)
    {
      var ack := Interfere();
      if ack.Broken? { return Failure; }
      if mine.version != stored.version { return if ack.Fine? then Conflict else Failure; }
      ghost var ours := Landing(mine);
      ChainedAppend(origin, history, stored, [ours], ours.after);
      stored, history := stored.(status := mine.status, version := stored.version + 1), history + [ours];
      r := if ack.Fine? then Updated else Failure;
    }

    /**
     Since then others may have written, and last of all we have, once: our status replaced
     that of the very version it was made against.
     */
    ghost predicate Landed(h: seq<Write>, o: Object, version: nat, status: Status)
      reads this
    {
      && Valid()
      && |h| < |history| && history[..|h|] == h
      && (forall i :: |h| <= i < |history| - 1 ==> !history[i].ours)
      && var last := history[|history| - 1];
      && last.ours && last.after == stored == last.before.(status := status, version := version + 1)
      && last.before.version == version == o.version + |history| - 1 - |h|
      && (|history| == |h| + 1 ==> last.before == o)
    }
  }

  // ---------------------------------------------------------------- setters

  type Setter = Status -> Status

  function ApplyAll(setters: seq<Setter>, st: Status): Status {
    if setters == [] then st else setters[|setters| - 1](ApplyAll(setters[..|setters| - 1], st))
  }

  /** The copy was fetched from this server, and nothing but setters has touched its status. */
  ghost predicate Honest(resource: Object, stored: Object) {
    resource.version <= stored.version && (resource.version == stored.version ==> resource.status == stored.status)
  }

  const ATTEMPTS := 5

  class RequestResource {
    var resource: Object
    const server: Server

    constructor (o: Object, server: Server)
      ensures resource == o && this.server == server
    {
      resource, this.server := o, server;
    }

    method ApplySetters(setters: seq<Setter>)
      modifies this
      ensures resource == old(resource).(status := ApplyAll(setters, old(resource.status)))
    {
      for i := 0 to |setters|
        invariant resource == old(resource).(status := ApplyAll(setters[..i], old(resource.status)))
      {
        assert setters[..i + 1][..i] == setters[..i];
        resource := resource.(status := setters[i](resource.status));
      }
      assert setters[..|setters|] == setters;
    }

    /** No step is left, or the last one taken was not answered fine. */
    ghost predicate RanOut(before: seq<Step>)
      reads this, server
    {
      || server.steps == []
      || (|server.steps| < |before| && server.steps == before[|before| - |server.steps|..]
          && !before[|before| - |server.steps| - 1].ack.Fine?)
    }

    /** What the setters make of the status they meet: the caller's copy at first, then the refreshed one. */
    ghost predicate WroteOnce(h: seq<Write>, o: Object, start: Object, setters: seq<Setter>)
      reads this, server
    {
      && server.history != []
      && var before := server.history[|server.history| - 1].before;
      server.Landed(h, o, before.version,
        ApplyAll(setters, if before.version == start.version then start.status else before.status))
    }

    /** Others have moved the object on before our attempt `a` at it. */
    static predicate Beaten(steps: seq<Step>, copied: nat, stored: nat, a: nat)
      requires 2 * a < |steps|
    {
      if a == 0 then copied != stored + |steps[0].others| else steps[2 * a].others != []
    }

    /** Attempt k is the first that is not beaten, and every call up to it is answered fine. */
    static predicate WinsAt(steps: seq<Step>, copied: nat, stored: nat, k: nat) {
      && k < 5 && AllFine(steps, 2 * k + 1)
      && !Beaten(steps, copied, stored, k) && forall a :: 0 <= a < k ==> Beaten(steps, copied, stored, a)
    }

    static ghost predicate Wins(steps: seq<Step>, copied: nat, stored: nat) {
      exists k :: WinsAt(steps, copied, stored, k)
    }

    /** Five writes beaten, and five Gets after them, all answered fine. */
    static predicate Loses(steps: seq<Step>, copied: nat, stored: nat) {
      AllFine(steps, 10) && forall a :: 0 <= a < 5 ==> Beaten(steps, copied, stored, a)
    }

    /**
     Apply the setters and store the status, at most five times while others keep winning. On a
     conflict the copy is fetched anew, so that relative setters never stack.
     */
    method SetRequestResourceStatus(setters: seq<Setter>) returns (r: Outcome)
      requires server.Valid() && resource.version <= server.stored.version
      modifies this, server
      ensures r.Updated? ==> WroteOnce(old(server.history), old(server.stored), old(resource), setters) && resource == server.stored
      ensures r.Conflict? ==> server.OnlyOthers(old(server.history), old(server.stored)) && resource == server.stored
      ensures r.Failure? ==> server.OnlyOthers(old(server.history), old(server.stored))
                             || WroteOnce(old(server.history), old(server.stored), old(resource), setters)
      ensures r.Updated? <==> Wins(old(server.steps), old(resource.version), old(server.stored.version))
      ensures r.Conflict? <==> Loses(old(server.steps), old(resource.version), old(server.stored.version))
      ensures r.Conflict? ==> server.steps == old(server.steps)[10..]
      ensures r.Failure? ==> RanOut(old(server.steps))
    {
      hide ApplyAll, Chained, Server.Landed, Wins, Loses, RanOut;
      ghost var h, o, start := server.history, server.stored, resource;
      ghost var steps := server.steps;
      for attempt := 0 to ATTEMPTS
        invariant AllFine(steps, 2 * attempt) && server.steps == steps[2 * attempt..]
        invariant forall a :: 0 <= a < attempt ==> Beaten(steps, start.version, o.version, a)
        invariant server.OnlyOthers(h, o)
        invariant attempt == 0 ==> resource == start && server.stored == o && server.history == h
        invariant attempt > 0 ==> resource == server.stored && start.version < server.stored.version
      {
        ghost var base, h1, o1, steps1 := resource, server.history, server.stored, server.steps;
        r := TryStatus(setters);
        Rest(steps, 2 * attempt);
        if !r.Conflict? {
          if server.Landed(h1, o1, base.version, ApplyAll(setters, base.status)) {
            LandedLater(server, h, o, h1, o1, base.version, ApplyAll(setters, base.status));
            LandedAt(server, h1, o1, base.version, ApplyAll(setters, base.status));
            assert WroteOnce(h, o, start, setters);
          } else {
            OthersLater(server, h, o, h1, o1);
          }
          if r.Updated? { WonAt(steps, start.version, o.version, attempt); } else { LostAt(steps, start.version, o.version, attempt); }
          if r.Failure? { RanOutLater(this, steps, steps1); }
          return;
        }
        OthersLater(server, h, o, h1, o1);
      }
      LostAll(steps, start.version, o.version);
      return Conflict;
    }

    /** One attempt: the closure under RetryOnConflict, its refresh after a conflict included. */
    method TryStatus(setters: seq<Setter>) returns (r: Outcome)
      requires server.Valid() && resource.version <= server.stored.version
      modifies this, server
      ensures r.Updated? ==> resource == server.stored
      ensures r.Updated? ==>
        server.Landed(old(server.history), old(server.stored), old(resource.version), ApplyAll(setters, old(resource.status)))
      ensures r.Conflict? ==> server.OnlyOthers(old(server.history), old(server.stored))
                              && resource == server.stored && old(resource.version) < server.stored.version
      ensures r.Failure? ==>
        || server.OnlyOthers(old(server.history), old(server.stored))
        || server.Landed(old(server.history), old(server.stored), old(resource.version), ApplyAll(setters, old(resource.status)))
      ensures var steps := old(server.steps);
        && (r.Updated? <==> AllFine(steps, 1) && old(resource.version) == old(server.stored.version) + |steps[0].others|)
        && (r.Conflict? <==> AllFine(steps, 2) && old(resource.version) != old(server.stored.version) + |steps[0].others|)
        && (r.Conflict? ==> server.steps == steps[2..])
        && (r.Failure? ==> RanOut(steps))
    {
      hide ApplyAll, Chained;
      ghost var h, o := server.history, server.stored;
      ApplySetters(setters);
      r := server.UpdateStatus(resource);
      if r.Updated? { resource := server.stored; }
      if !r.Conflict? { return; }
      ghost var h1, o1 := server.history, server.stored;
      var fetched := server.Get();
      OthersLater(server, h, o, h1, o1);
      if fetched.None? { return Failure; }
      resource := fetched.value;
    }

    /**
     A caller that mutates its copy on the side, as Observe does with conditions, and then
     records a response. The mutation is stored with the setters if and only if our write
     overwrote the version the copy was fetched at; if others have moved on, no write holds it.
     */
    method MutateAndRecord(mutation: Setter, setters: seq<Setter>) returns (r: Outcome)
      requires server.Valid() && Honest(resource, server.stored)
      modifies this, server
      ensures r.Updated? ==> RecordedWith(old(server.history), old(server.stored), old(resource), mutation, setters)
      ensures r.Updated? && old(resource.version) < old(server.stored.version) ==>
        RecordedWithout(old(server.history), old(server.stored), setters)
      ensures r.Conflict? ==> server.OnlyOthers(old(server.history), old(server.stored)) && resource == server.stored
      ensures r.Updated? <==> Wins(old(server.steps), old(resource.version), old(server.stored.version))
    {
      hide ApplyAll, Chained, Wins;
      ghost var h, o := server.history, server.stored;
      resource := resource.(status := mutation(resource.status));
      r := SetRequestResourceStatus(setters);
    }

    /** Our one write is the setters on what it overwrote, and nothing else. */
    ghost predicate RecordedWithout(h: seq<Write>, o: Object, setters: seq<Setter>)
      reads this, server
    {
      && server.history != []
      && var before := server.history[|server.history| - 1].before;
      server.Landed(h, o, before.version, ApplyAll(setters, before.status))
    }

    /** Our one write is the setters on what it overwrote, the mutation first if that is the version fetched. */
    ghost predicate RecordedWith(h: seq<Write>, o: Object, start: Object, mutation: Setter, setters: seq<Setter>)
      reads this, server
    {
      && server.history != []
      && var before := server.history[|server.history| - 1].before;
      server.Landed(h, o, before.version,
        ApplyAll(setters, if before.version == start.version then mutation(before.status) else before.status))
    }

    /** The change was applied to the very object it overwrote, once, after all other writes. */
    ghost predicate AppliedOnce(h: seq<Write>, o: Object, c: Change, now: nat)
      reads this, server
    {
      && server.history != []
      && var before := server.history[|server.history| - 1].before;
      && Apply(c, before, now).Some?
      && server.Landed(h, o, before.version, Apply(c, before, now).value)
    }

    /** There is something to store at attempt `a`, and others have moved the object on before it is stored. */
    static predicate Overtaken(steps: seq<Step>, o: Object, c: Change, now: nat, a: nat)
      requires 2 * a + 1 < |steps|
    {
      Apply(c, After(o, steps[..2 * a + 1]), now).Some? && steps[2 * a + 1].others != []
    }

    /** Attempt k finds nothing to store, or stores it; all before were overtaken. */
    static predicate RewritesAt(steps: seq<Step>, o: Object, c: Change, now: nat, k: nat) {
      && k < 5 && AllFine(steps, 2 * k + 1)
      && (forall a :: 0 <= a < k ==> Overtaken(steps, o, c, now, a))
      && (Apply(c, After(o, steps[..2 * k + 1]), now).None? || (AllFine(steps, 2 * k + 2) && steps[2 * k + 1].others == []))
    }

    static ghost predicate Rewrites(steps: seq<Step>, o: Object, c: Change, now: nat) {
      exists k :: RewritesAt(steps, o, c, now, k)
    }

    static predicate NeverRewrites(steps: seq<Step>, o: Object, c: Change, now: nat) {
      AllFine(steps, 10) && forall a :: 0 <= a < 5 ==> Overtaken(steps, o, c, now, a)
    }

    /**
     The other shape of status write: get, change, store, under RetryOnConflict. A change that
     leaves the object alone returns without a write.
     */
    method Rewrite(c: Change, now: nat) returns (r: Outcome)
      requires server.Valid()
      modifies this, server
      ensures r.Updated? ==> resource == server.stored
      ensures r.Updated? ==> AppliedOnce(old(server.history), old(server.stored), c, now)
                             || (Apply(c, server.stored, now).None? && server.OnlyOthers(old(server.history), old(server.stored)))
      ensures r.Conflict? ==> server.OnlyOthers(old(server.history), old(server.stored))
      ensures r.Failure? ==> server.OnlyOthers(old(server.history), old(server.stored))
                             || AppliedOnce(old(server.history), old(server.stored), c, now)
      ensures r.Updated? <==> Rewrites(old(server.steps), old(server.stored), c, now)
      ensures r.Conflict? <==> NeverRewrites(old(server.steps), old(server.stored), c, now)
      ensures r.Conflict? ==> server.steps == old(server.steps)[10..]
      ensures r.Failure? ==> RanOut(old(server.steps))
    {
      hide Apply, Chained, Server.Landed, Server.OnlyOthers, Since, Rewrites, NeverRewrites, RanOut, After, Overwritten, AppliedOnce, AllFine;
      ghost var h, o, steps := server.history, server.stored, server.steps;
      NoneYet(server);
      AfterNone(o, steps);
      for attempt := 0 to ATTEMPTS
        invariant 2 * attempt <= |steps| && server.OnlyOthers(h, o)
        invariant AllFine(steps, 2 * attempt) && server.steps == steps[2 * attempt..] && server.stored == After(o, steps[..2 * attempt])
        invariant forall a :: 0 <= a < attempt ==> Overtaken(steps, o, c, now, a)
      {
        ghost var h1, o1, steps1 := server.history, server.stored, server.steps;
        OthersSince(server, h, o);
        r := TryRewrite(c, now);
        AttemptIs(steps, o, c, now, attempt, o1, r);
        if server.OnlyOthers(h1, o1) { OthersLater(server, h, o, h1, o1); }
        if AppliedOnce(h1, o1, c, now) { AppliedLater(this, h, o, h1, o1, c, now); }
        if !r.Conflict? {
          if r.Failure? { RanOutLater(this, steps, steps1); }
          return;
        }
      }
      NeverRewrote(steps, o, c, now);
      return Conflict;
    }

    /** One attempt: the closure under RetryOnConflict. */
    method TryRewrite(c: Change, now: nat) returns (r: Outcome)
      requires server.Valid()
      modifies this, server
      ensures r.Updated? ==> resource == server.stored
      ensures r.Updated? ==> AppliedOnce(old(server.history), old(server.stored), c, now)
                             || (Apply(c, server.stored, now).None? && server.OnlyOthers(old(server.history), old(server.stored)))
      ensures r.Conflict? ==> server.OnlyOthers(old(server.history), old(server.stored))
      ensures r.Failure? ==> server.OnlyOthers(old(server.history), old(server.stored))
                             || AppliedOnce(old(server.history), old(server.stored), c, now)
      ensures var steps, o := old(server.steps), old(server.stored);
        && (r.Failure? <==>
              || !AllFine(steps, 1)
              || (Apply(c, Overwritten(o, steps[0].others), now).Some? && !AllFine(steps, 2)))
        && (r.Conflict? <==>
              AllFine(steps, 2) && Apply(c, Overwritten(o, steps[0].others), now).Some? && steps[1].others != [])
        && (r.Conflict? ==> server.steps == steps[2..] && server.stored == Overwritten(Overwritten(o, steps[0].others), steps[1].others))
        && (r.Failure? ==> RanOut(steps))
    {
      hide Apply, Chained;
      ghost var h, o := server.history, server.stored;
      var fetched := server.Get();
      if fetched.None? { return Failure; }
      resource := fetched.value;
      var changed := Apply(c, resource, now);
      if changed.None? { return Updated; }
      ghost var h1, o1 := server.history, server.stored;
      resource := resource.(status := changed.value);
      r := server.UpdateStatus(resource);
      if r.Conflict? {
        OthersLater(server, h, o, h1, o1);
        return;
      }
      if server.Landed(h1, o1, resource.version, resource.status) {
        assert server.history[|server.history| - 1].before == o1;
        LandedLater(server, h, o, h1, o1, resource.version, resource.status);
      } else {
        OthersLater(server, h, o, h1, o1);
      }
      if r.Updated? { resource := server.stored; }
    }
  }

  lemma AppliedLater(rr: RequestResource, h: seq<Write>, o: Object, h1: seq<Write>, o1: Object, c: Change, now: nat)
    requires Since(h, o, h1, o1)
    requires rr.AppliedOnce(h1, o1, c, now)
    ensures rr.AppliedOnce(h, o, c, now)
  {
    hide Apply, Chained, Server.Landed;
    var before := rr.server.history[|rr.server.history| - 1].before;
    LandedLater(rr.server, h, o, h1, o1, before.version, Apply(c, before, now).value);
  }

  /**
   For a caller that fetched before it called and changed nothing itself, the write is one
   atomic application of the setters to the state it overwrites, whatever others wrote.
   */
  lemma HonestWriteIsAtomic(rr: RequestResource, h: seq<Write>, o: Object, start: Object, setters: seq<Setter>)
    requires rr.WroteOnce(h, o, start, setters) && Honest(start, o)
    ensures var last := rr.server.history[|rr.server.history| - 1];
      && last.ours && last.after == rr.server.stored
      && last.after == last.before.(status := ApplyAll(setters, last.before.status), version := last.before.version + 1)
  {
  }

  lemma Rest(steps: seq<Step>, n: nat)
    requires n <= |steps|
    ensures var rest := steps[n..];
      && (AllFine(steps, n) ==> forall m :: 0 <= m <= |rest| ==> (AllFine(rest, m) <==> AllFine(steps, n + m)))
      && (|rest| > 0 ==> rest[0] == steps[n]) && (|rest| > 1 ==> rest[1] == steps[n + 1])
      && (|rest| >= 2 ==> rest[2..] == steps[n + 2..])
  {
    var rest := steps[n..];
    forall m | 0 <= m <= |rest| && AllFine(steps, n) ensures AllFine(rest, m) <==> AllFine(steps, n + m) {
      if AllFine(rest, m) {
        forall i | n <= i < n + m ensures steps[i].ack.Fine? { assert steps[i] == rest[i - n]; }
      }
      if AllFine(steps, n + m) {
        forall i | 0 <= i < m ensures rest[i].ack.Fine? { assert rest[i] == steps[n + i]; }
      }
    }
  }

  lemma WonAt(steps: seq<Step>, copied: nat, stored: nat, a: nat)
    requires RequestResource.WinsAt(steps, copied, stored, a)
    ensures RequestResource.Wins(steps, copied, stored) && !RequestResource.Loses(steps, copied, stored)
  {
  }

  lemma LostAt(steps: seq<Step>, copied: nat, stored: nat, a: nat)
    requires a < 5
    requires !AllFine(steps, 2 * a + 1) || (RequestResource.Beaten(steps, copied, stored, a) && !AllFine(steps, 2 * a + 2))
    requires 2 * a <= |steps| && forall b :: 0 <= b < a ==> RequestResource.Beaten(steps, copied, stored, b)
    ensures !RequestResource.Wins(steps, copied, stored) && !RequestResource.Loses(steps, copied, stored)
  {
    FineMonotone(steps);
    forall k ensures !RequestResource.WinsAt(steps, copied, stored, k) {}
  }

  lemma FineMonotone(steps: seq<Step>)
    ensures forall m, n :: 0 <= m <= n && AllFine(steps, n) ==> AllFine(steps, m)
  {
  }

  lemma LostAll(steps: seq<Step>, copied: nat, stored: nat)
    requires AllFine(steps, 10) && forall a :: 0 <= a < 5 ==> RequestResource.Beaten(steps, copied, stored, a)
    ensures !RequestResource.Wins(steps, copied, stored) && RequestResource.Loses(steps, copied, stored)
  {
  }

  lemma LandedAt(server: Server, h: seq<Write>, o: Object, version: nat, status: Status)
    requires server.Landed(h, o, version, status)
    ensures server.history != [] && server.history[|server.history| - 1].before.version == version
    ensures version == o.version ==> server.history[|server.history| - 1].before == o
  {
    hide Chained;
  }

  lemma RanOutLater(rr: RequestResource, steps: seq<Step>, rest: seq<Step>)
    requires |rest| <= |steps| && rest == steps[|steps| - |rest|..] && rr.RanOut(rest)
    ensures rr.RanOut(steps)
  {
    var left := rr.server.steps;
    if left != [] {
      assert rest[|rest| - |left|..] == steps[|steps| - |left|..];
      assert rest[|rest| - |left| - 1] == steps[|steps| - |left| - 1];
    }
  }

  lemma NoneYet(server: Server)
    requires server.Valid()
    ensures server.OnlyOthers(server.history, server.stored)
  {
    hide Chained;
  }

  lemma OthersSince(server: Server, h: seq<Write>, o: Object)
    requires server.OnlyOthers(h, o)
    ensures server.Valid() && Since(h, o, server.history, server.stored)
  {
  }

  lemma AfterNone(o: Object, steps: seq<Step>)
    ensures After(o, steps[..0]) == o && AllFine(steps, 0)
  {
  }

  lemma NotBoth(steps: seq<Step>, o: Object, c: Change, now: nat, k: nat)
    ensures 2 * k + 1 < |steps| && RequestResource.Overtaken(steps, o, c, now, k) ==> !RequestResource.RewritesAt(steps, o, c, now, k)
  {
  }

  lemma EarlierOvertaken(steps: seq<Step>, o: Object, c: Change, now: nat, a: nat, k: nat)
    ensures RequestResource.RewritesAt(steps, o, c, now, k) && a < k ==>
      AllFine(steps, 2 * a + 2) && RequestResource.Overtaken(steps, o, c, now, a)
  {
    hide Apply, After;
    FineMonotone(steps);
  }

  /** What attempt a decides, seen from the first step. */
  lemma AttemptIs(steps: seq<Step>, o: Object, c: Change, now: nat, a: nat, o1: Object, r: Outcome)
    requires a < 5 && AllFine(steps, 2 * a) && o1 == After(o, steps[..2 * a])
    requires forall b :: 0 <= b < a ==> RequestResource.Overtaken(steps, o, c, now, b)
    requires var rest := steps[2 * a..];
      && (r.Failure? <==> !AllFine(rest, 1) || (Apply(c, Overwritten(o1, rest[0].others), now).Some? && !AllFine(rest, 2)))
      && (r.Conflict? <==> AllFine(rest, 2) && Apply(c, Overwritten(o1, rest[0].others), now).Some? && rest[1].others != [])
    ensures r.Updated? ==> RequestResource.Rewrites(steps, o, c, now) && !RequestResource.NeverRewrites(steps, o, c, now)
    ensures r.Failure? ==> !RequestResource.Rewrites(steps, o, c, now) && !RequestResource.NeverRewrites(steps, o, c, now)
    ensures r.Conflict? ==> var rest := steps[2 * a..];
      && AllFine(steps, 2 * a + 2) && |rest| >= 2 && RequestResource.Overtaken(steps, o, c, now, a) && rest[2..] == steps[2 * a + 2..]
      && Overwritten(Overwritten(o1, rest[0].others), rest[1].others) == After(o, steps[..2 * a + 2])
  {
    hide Apply, After, Overwritten, RequestResource.Rewrites, RequestResource.NeverRewrites;
    Rest(steps, 2 * a);
    if 2 * a < |steps| { AfterNext(o, steps, 2 * a); }
    if r.Updated? { RewroteAt(steps, o, c, now, a); }
    if r.Failure? { FailedAt(steps, o, c, now, a); }
    if r.Conflict? { AfterNext(o, steps, 2 * a + 1); }
  }

  lemma RewroteAt(steps: seq<Step>, o: Object, c: Change, now: nat, a: nat)
    requires RequestResource.RewritesAt(steps, o, c, now, a)
    ensures RequestResource.Rewrites(steps, o, c, now) && !RequestResource.NeverRewrites(steps, o, c, now)
  {
    hide Apply, After, RequestResource.Overtaken;
    NotBoth(steps, o, c, now, a);
  }

  lemma FailedAt(steps: seq<Step>, o: Object, c: Change, now: nat, a: nat)
    requires a < 5 && 2 * a <= |steps| && forall b :: 0 <= b < a ==> RequestResource.Overtaken(steps, o, c, now, b)
    requires !AllFine(steps, 2 * a + 1) || (Apply(c, After(o, steps[..2 * a + 1]), now).Some? && !AllFine(steps, 2 * a + 2))
    ensures !RequestResource.Rewrites(steps, o, c, now) && !RequestResource.NeverRewrites(steps, o, c, now)
  {
    hide Apply, After, RequestResource.Overtaken;
    FineMonotone(steps);
    forall k: nat ensures !RequestResource.RewritesAt(steps, o, c, now, k) {
      NotBoth(steps, o, c, now, k);
      EarlierOvertaken(steps, o, c, now, a, k);
    }
  }

  lemma NeverRewrote(steps: seq<Step>, o: Object, c: Change, now: nat)
    requires AllFine(steps, 10) && forall a :: 0 <= a < 5 ==> RequestResource.Overtaken(steps, o, c, now, a)
    ensures RequestResource.NeverRewrites(steps, o, c, now) && !RequestResource.Rewrites(steps, o, c, now)
  {
    hide Apply, After, RequestResource.Overtaken;
    forall k: nat ensures !RequestResource.RewritesAt(steps, o, c, now, k) { NotBoth(steps, o, c, now, k); }
  }

  lemma OthersLater(server: Server, h: seq<Write>, o: Object, h1: seq<Write>, o1: Object)
    requires Since(h, o, h1, o1)
    requires server.OnlyOthers(h1, o1)
    ensures server.OnlyOthers(h, o)
  {
    hide Chained;
    assert server.history[..|h|] == server.history[..|h1|][..|h|];
    forall i | |h| <= i < |server.history| ensures !server.history[i].ours {
      if i < |h1| { assert server.history[i] == server.history[..|h1|][i]; }
    }
  }

  lemma LandedLater(server: Server, h: seq<Write>, o: Object, h1: seq<Write>, o1: Object, version: nat, status: Status)
    requires Since(h, o, h1, o1)
    requires server.Landed(h1, o1, version, status)
    ensures server.Landed(h, o, version, status)
  {
    hide Chained;
    assert server.history[..|h|] == server.history[..|h1|][..|h|];
    forall i | |h| <= i < |server.history| - 1 ensures !server.history[i].ours {
      if i < |h1| { assert server.history[i] == server.history[..|h1|][i]; }
    }
  }
}
