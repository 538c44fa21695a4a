/**
 The template cache: once a response that templates every mapping has been cached, templating
 never fails again under that spec, whatever later responses are stored.
 */
module TemplateCache {
  import opened Api
  import opened Cluster
  import opened RequestMapping
  import opened RequestGen
  import opened Protocol
  import opened ProtocolProofs
  import opened Reconciling
  import opened Safety
  import opened SpecFlow

  /** No template of the spec reads .status. */
  ghost predicate StatusFree(spec: Spec) {
    forall i, st, st', r :: 0 <= i < |spec.mappings| ==> spec.mappings[i].render(st, r) == spec.mappings[i].render(st', r)
  }

  ghost predicate CacheSound(spec: Spec, st: Status) {
    st.cache.statusCode != 0 ==> forall i :: 0 <= i < |spec.mappings| ==> IsValid(spec.mappings[i].render(st, Some(st.cache)))
  }

  /** Every write of the log was made under this spec. */
  ghost predicate Under(log: seq<Event>, spec: Spec) {
    forall i :: 0 <= i < |log| && log[i].Wrote? ==> log[i].spec == spec
  }

  lemma CacheStep(b: Book, e: Event, spec: Spec)
    requires Allowed(b, e) && StatusFree(spec) && (e.Wrote? ==> e.spec == spec)
    requires CacheSound(spec, b.status)
    ensures CacheSound(spec, Next(b, e).status)
    ensures b.status.cache.statusCode != 0 ==> Next(b, e).status.cache.statusCode != 0
  {
    hide EvalExternalRef, ReportsAbsence, StatusFree, Settle, IsValid;
    if e.Wrote? && e.change.Record? {
      RecordCache(b.status, e.change);
      if e.after.cache != b.status.cache {
        assert ShouldSetCache(spec, b.status, e.change.details.response);
        Ported(spec, b.status, e.after, e.change.details.response);
      } else {
        CacheFrame(spec, b.status, e.after);
      }
    } else {
      CacheFrame(spec, b.status, Next(b, e).status);
    }
  }

  lemma RecordCache(st: Status, c: Change)
    requires c.Record?
    ensures var st' := RecordDetails(st, c.details, c.reset, c.httpError, c.cached);
      st'.cache == st.cache || (c.cached && st'.cache == c.details.response && IsHTTPSuccess(c.details.response.statusCode))
  {
  }

  lemma Ported(spec: Spec, st: Status, st': Status, r: Response)
    requires StatusFree(spec) && ShouldSetCache(spec, st, r) && st'.cache == r
    ensures CacheSound(spec, st')
  {
    forall i | 0 <= i < |spec.mappings| ensures IsValid(spec.mappings[i].render(st', Some(r))) {
      assert spec.mappings[i].render(st', Some(r)) == spec.mappings[i].render(st, Some(r));
    }
  }

  lemma CacheFrame(spec: Spec, st: Status, st': Status)
    requires StatusFree(spec) && CacheSound(spec, st) && st'.cache == st.cache
    ensures CacheSound(spec, st')
  {
    forall i | 0 <= i < |spec.mappings| && st.cache.statusCode != 0 ensures IsValid(spec.mappings[i].render(st', Some(st.cache))) {
      assert spec.mappings[i].render(st', Some(st.cache)) == spec.mappings[i].render(st, Some(st.cache));
    }
  }

  /** With a sound non-empty cache every mapping templates validly, whatever response is stored. */
  lemma CacheTemplatesAll(spec: Spec, st: Status, m: Mapping)
    requires CacheSound(spec, st) && st.cache.statusCode != 0 && m in spec.mappings
    ensures var g := GenerateValidRequestDetails(m, st);
      var first := m.render(st, Some(st.response));
      var used := if IsValid(first) then first else m.render(st, Some(st.cache));
      g.EvalOk? && IsValid(used) && g.value == used.request.(verb := EffectiveVerb(m))
  {
    var i :| 0 <= i < |spec.mappings| && spec.mappings[i] == m;
    assert IsValid(m.render(st, Some(st.cache)));
  }

  lemma {:induction false} CacheStaysSound(log: seq<Event>, spec: Spec)
    requires Legal(log) && StatusFree(spec) && Under(log, spec)
    ensures CacheSound(spec, BookOf(log).status)
  {
    hide Allowed, Next, StatusFree;
    if log != [] {
      var init := log[..|log| - 1];
      CacheStaysSound(init, spec);
      CacheStep(BookOf(init), log[|log| - 1], spec);
    }
  }

  lemma {:induction false} CacheStays(log: seq<Event>, spec: Spec, i: nat)
    requires Legal(log) && StatusFree(spec) && Under(log, spec) && i <= |log|
    requires BookOf(log[..i]).status.cache.statusCode != 0
    ensures BookOf(log).status.cache.statusCode != 0
    decreases |log|
  {
    hide Allowed, Next, StatusFree, CacheSound;
    if i == |log| {
      assert log[..i] == log;
    } else {
      var init := log[..|log| - 1];
      assert init[..i] == log[..i];
      CacheStays(init, spec, i);
      CacheStaysSound(init, spec);
      CacheStep(BookOf(init), log[|log| - 1], spec);
    }
  }

  /** The tapes hold no edit to any other spec. */
  ghost predicate Keep(spec: Spec, tapes: seq<seq<Turn>>) {
    forall t :: t in tapes ==> TapeFits(Only(spec), t)
  }

  ghost function Only(spec: Spec): Family {
    Family(s => s == spec, r => true, false)
  }

  lemma RunUnder(w: World, tapes: seq<seq<Turn>>, spec: Spec)
    requires w.log == [] && w.server.spec == spec && Keep(spec, tapes)
    ensures Under(Run(w, tapes).log, spec)
  {
    hide Run;
    RunFlow(Rule(Only(spec), false), w, tapes);
    var log := Run(w, tapes).log;
    forall i | 0 <= i < |log| && log[i].Wrote? ensures log[i].spec == spec { assert EventFits(Only(spec), log[i]); }
  }

  /** Under a fixed spec, after the first cache write templating never errs again in any run. */
  lemma CacheSoundness(w: World, tapes: seq<seq<Turn>>, spec: Spec, i: nat, m: Mapping)
    requires New(w) && w.server.spec == spec && Keep(spec, tapes)
    requires StatusFree(spec) && m in spec.mappings
    requires i <= |Run(w, tapes).log| && BookOf(Run(w, tapes).log[..i]).status.cache.statusCode != 0
    ensures GenerateValidRequestDetails(m, Run(w, tapes).server.status).EvalOk?
  {
    hide Run, Legal, BookOf, StatusFree, CacheSound, Keep;
    RunIsLegal(w, tapes);
    RunUnder(w, tapes, spec);
    var log := Run(w, tapes).log;
    CacheStaysSound(log, spec);
    CacheStays(log, spec, i);
    CacheTemplatesAll(spec, BookOf(log).status, m);
  }
}
