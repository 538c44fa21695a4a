/** Which mapping serves an action, and with which HTTP method. */
module RequestMapping {
  import opened Api

  function ActionName(a: Action): string {
    match a
    case Create => "CREATE"
    case Observe => "OBSERVE"
    case Update => "UPDATE"
    case Remove => "REMOVE"
  }

  function DefaultVerb(action: string): string {
    if action == "CREATE" then "POST"
    else if action == "OBSERVE" then "GET"
    else if action == "UPDATE" then "PUT"
    else if action == "REMOVE" then "DELETE"
    else "GET"
  }

  function EffectiveVerb(m: Mapping): string {
    if m.verb != "" then m.verb else DefaultVerb(m.action)
  }

  /** The first mapping at or after `from` whose action is `action`. */
  function FindByAction(ms: seq<Mapping>, action: string, from: nat): (r: Option<nat>)
    requires from <= |ms|
    ensures r.Some? ==> from <= r.value < |ms| && ms[r.value].action == action
    ensures r.None? ==> forall i :: from <= i < |ms| ==> ms[i].action != action
    decreases |ms| - from
  {
    if from == |ms| then None
    else if ms[from].action == action then Some(from)
    else FindByAction(ms, action, from + 1)
  }

  function FindByVerb(ms: seq<Mapping>, verb: string, from: nat): (r: Option<nat>)
    requires from <= |ms|
    ensures r.Some? ==> from <= r.value < |ms| && ms[r.value].verb == verb
    ensures r.None? ==> forall i :: from <= i < |ms| ==> ms[i].verb != verb
    decreases |ms| - from
  {
    if from == |ms| then None
    else if ms[from].verb == verb then Some(from)
    else FindByVerb(ms, verb, from + 1)
  }

  /** The index GetMapping resolves an action to: by action first, else by the default method. */
  function Resolve(ms: seq<Mapping>, action: string): (r: Option<nat>)
    ensures r.Some? ==> r.value < |ms|
  {
    var byAction := FindByAction(ms, action, 0);
    if byAction.Some? then byAction else FindByVerb(ms, DefaultVerb(action), 0)
  }

  function MappingFor(spec: Spec, a: Action): Option<Mapping> {
    var i := Resolve(spec.mappings, ActionName(a));
    if i.Some? then Some(spec.mappings[i.value]) else None
  }

  // ---------------------------------------------------------------- the mutable lookup

  /** A mapping as the lookup hands it out: a pointer into the spec, its method writable. */
  class Entry {
    var mapping: Mapping

    constructor (m: Mapping)
      ensures mapping == m
    {
      mapping := m;
    }

    method SetMethod(verb: string)
      modifies this
      ensures mapping == old(mapping).(verb := verb)
    {
      mapping := mapping.(verb := verb);
    }
  }

  ghost predicate Distinct(entries: seq<Entry>) {
    forall i, j :: 0 <= i < j < |entries| ==> entries[i] != entries[j]
  }

  function Values(entries: seq<Entry>): (ms: seq<Mapping>)
    reads entries
    ensures |ms| == |entries|
    ensures forall i :: 0 <= i < |entries| ==> ms[i] == entries[i].mapping
  {
    seq(|entries|, i requires 0 <= i < |entries| reads entries => entries[i].mapping)
  }

  method GetMappingByAction(entries: seq<Entry>, action: string) returns (r: Option<nat>)
    ensures r.Some? ==> r.value < |entries| && entries[r.value].mapping.action == action
                        && forall i :: 0 <= i < r.value ==> entries[i].mapping.action != action
    ensures r.None? ==> forall i :: 0 <= i < |entries| ==> entries[i].mapping.action != action
  {
    for k := 0 to |entries|
      invariant forall i :: 0 <= i < k ==> entries[i].mapping.action != action
    {
      if entries[k].mapping.action == action { return Some(k); }
    }
    return None;
  }

  method GetMappingByMethod(entries: seq<Entry>, verb: string) returns (r: Option<nat>)
    ensures r.Some? ==> r.value < |entries| && entries[r.value].mapping.verb == verb
                        && forall i :: 0 <= i < r.value ==> entries[i].mapping.verb != verb
    ensures r.None? ==> forall i :: 0 <= i < |entries| ==> entries[i].mapping.verb != verb
  {
    for k := 0 to |entries|
      invariant forall i :: 0 <= i < k ==> entries[i].mapping.verb != verb
    {
      if entries[k].mapping.verb == verb { return Some(k); }
    }
    return None;
  }

  lemma {:induction false} FirstByAction(ms: seq<Mapping>, action: string, from: nat, k: nat)
    requires from <= k < |ms| && ms[k].action == action
    requires forall i :: from <= i < k ==> ms[i].action != action
    ensures FindByAction(ms, action, from) == Some(k)
    decreases k - from
  {
    if from < k { FirstByAction(ms, action, from + 1, k); }
  }

  lemma {:induction false} FirstByVerb(ms: seq<Mapping>, verb: string, from: nat, k: nat)
    requires from <= k < |ms| && ms[k].verb == verb
    requires forall i :: from <= i < k ==> ms[i].verb != verb
    ensures FindByVerb(ms, verb, from) == Some(k)
    decreases k - from
  {
    if from < k { FirstByVerb(ms, verb, from + 1, k); }
  }

  /** What a lookup leaves behind: a mapping found by its action has its method filled in. */
  function Filled(ms: seq<Mapping>, action: string): (ms': seq<Mapping>)
    ensures |ms'| == |ms|
  {
    var i := FindByAction(ms, action, 0);
    if i.Some? && ms[i.value].verb == "" then ms[i.value := ms[i.value].(verb := DefaultVerb(action))] else ms
  }

  /** GetMapping, with its hidden write. */
  method GetMapping(entries: seq<Entry>, action: string) returns (r: Option<nat>)
    requires Distinct(entries)
    modifies entries
    ensures r == Resolve(old(Values(entries)), action)
    ensures Values(entries) == Filled(old(Values(entries)), action)
  {
    ghost var ms := Values(entries);
    var verb := DefaultVerb(action);
    r := GetMappingByAction(entries, action);
    if r.Some? {
      FirstByAction(ms, action, 0, r.value);
      if entries[r.value].mapping.verb == "" { entries[r.value].SetMethod(verb); }
      return;
    }
    assert FindByAction(ms, action, 0).None? by { NoneByAction(ms, action); }
    r := GetMappingByMethod(entries, verb);
    if r.Some? { FirstByVerb(ms, verb, 0, r.value); } else { NoneByVerb(ms, verb); }
  }

  lemma NoneByAction(ms: seq<Mapping>, action: string)
    requires forall i :: 0 <= i < |ms| ==> ms[i].action != action
    ensures FindByAction(ms, action, 0).None?
  {
  }

  lemma NoneByVerb(ms: seq<Mapping>, verb: string)
    requires forall i :: 0 <= i < |ms| ==> ms[i].verb != verb
    ensures FindByVerb(ms, verb, 0).None?
  {
  }

  // ---------------------------------------------------------------- stability

  /** Same mappings with the same effective methods. */
  ghost predicate SameRoutes(ms: seq<Mapping>, ms': seq<Mapping>) {
    |ms| == |ms'| && forall i :: 0 <= i < |ms| ==> ms'[i] == ms[i].(verb := ms'[i].verb) && EffectiveVerb(ms'[i]) == EffectiveVerb(ms[i])
  }

  /** After a lookup of `b`, a lookup of `a` finds what it found before. */
  lemma OneLookup(ms: seq<Mapping>, a: string, b: string)
    requires DefaultVerb(a) != DefaultVerb(b) || a == b
    requires DefaultVerb(a) != ""
    ensures SameRoutes(ms, Filled(ms, b)) && Resolve(Filled(ms, b), a) == Resolve(ms, a)
  {
    var ms' := Filled(ms, b);
    var i := FindByAction(ms, a, 0);
    if i.Some? {
      FindFirst(ms, a);
      FirstByAction(ms', a, 0, i.value);
    } else {
      NoneByAction(ms', a);
      var verb := DefaultVerb(a);
      var k := FindByVerb(ms, verb, 0);
      if k.Some? {
        FindFirstVerb(ms, verb);
        FirstByVerb(ms', verb, 0, k.value);
      } else {
        NoneByVerb(ms', verb);
      }
    }
  }

  lemma {:induction false} FindFirstFrom(ms: seq<Mapping>, action: string, from: nat)
    requires from <= |ms| && FindByAction(ms, action, from).Some?
    ensures forall i :: from <= i < FindByAction(ms, action, from).value ==> ms[i].action != action
    decreases |ms| - from
  {
    if ms[from].action != action { FindFirstFrom(ms, action, from + 1); }
  }

  lemma FindFirst(ms: seq<Mapping>, action: string)
    requires FindByAction(ms, action, 0).Some?
    ensures forall i :: 0 <= i < FindByAction(ms, action, 0).value ==> ms[i].action != action
  {
    FindFirstFrom(ms, action, 0);
  }

  lemma {:induction false} FindFirstVerbFrom(ms: seq<Mapping>, verb: string, from: nat)
    requires from <= |ms| && FindByVerb(ms, verb, from).Some?
    ensures forall i :: from <= i < FindByVerb(ms, verb, from).value ==> ms[i].verb != verb
    decreases |ms| - from
  {
    if ms[from].verb != verb { FindFirstVerbFrom(ms, verb, from + 1); }
  }

  lemma FindFirstVerb(ms: seq<Mapping>, verb: string)
    requires FindByVerb(ms, verb, 0).Some?
    ensures forall i :: 0 <= i < FindByVerb(ms, verb, 0).value ==> ms[i].verb != verb
  {
    FindFirstVerbFrom(ms, verb, 0);
  }

  function FilledAll(ms: seq<Mapping>, calls: seq<Action>): seq<Mapping>
    decreases |calls|
  {
    if calls == [] then ms else FilledAll(Filled(ms, ActionName(calls[0])), calls[1..])
  }

  /**
   For the four actions, a lookup resolves to the same mapping with the same effective method
   after any sequence of earlier lookups, despite what these wrote.
   */
  lemma {:induction false} LookupsAreStable(ms: seq<Mapping>, calls: seq<Action>, a: Action)
    ensures SameRoutes(ms, FilledAll(ms, calls))
    ensures Resolve(FilledAll(ms, calls), ActionName(a)) == Resolve(ms, ActionName(a))
    decreases |calls|
  {
    hide Resolve, Filled;
    if calls != [] {
      DistinctDefaults(a, calls[0]);
      OneLookup(ms, ActionName(a), ActionName(calls[0]));
      LookupsAreStable(Filled(ms, ActionName(calls[0])), calls[1..], a);
    }
  }

  lemma DistinctDefaults(a: Action, b: Action)
    ensures DefaultVerb(ActionName(a)) != "" && (a != b ==> DefaultVerb(ActionName(a)) != DefaultVerb(ActionName(b)))
  {
    var ca, cb := DefaultVerb(ActionName(a)), DefaultVerb(ActionName(b));
    assert "POST"[0] == 'P' && "GET"[0] == 'G' && "DELETE"[0] == 'D' && "PUT"[1] == 'U' && "POST"[1] == 'O';
    match a {
      case Create => assert ca == "POST";
      case Observe => assert ca == "GET";
      case Update => assert ca == "PUT";
      case Remove => assert ca == "DELETE";
    }
    match b {
      case Create => assert cb == "POST";
      case Observe => assert cb == "GET";
      case Update => assert cb == "PUT";
      case Remove => assert cb == "DELETE";
    }
  }

  predicate Known(action: string) {
    action == "CREATE" || action == "OBSERVE" || action == "UPDATE" || action == "REMOVE"
  }

  /** The lookup of an OBSERVE mapping makes it the first one with method GET. */
  predicate BecomesFirstGet(ms: seq<Mapping>) {
    var i, k := FindByAction(ms, "OBSERVE", 0), FindByVerb(ms, "GET", 0);
    i.Some? && ms[i.value].verb == "" && (k.None? || i.value < k.value)
  }

  /**
   Any other action shares its default method GET with OBSERVE. An earlier lookup of OBSERVE
   changes what it finds if and only if it has no mapping of its own and the OBSERVE mapping,
   its method empty, comes before all GET mappings.
   */
  lemma OtherActionsAreUnstable(ms: seq<Mapping>, action: string)
    requires !Known(action)
    ensures Resolve(Filled(ms, "OBSERVE"), action) != Resolve(ms, action)
            <==> FindByAction(ms, action, 0).None? && BecomesFirstGet(ms)
  {
    assert DefaultVerb(action) == "GET" && DefaultVerb("OBSERVE") == "GET" by { ObserveIsGet(); }
    var ms' := Filled(ms, "OBSERVE");
    var own := FindByAction(ms, action, 0);
    if own.Some? {
      FindFirst(ms, action);
      FirstByAction(ms', action, 0, own.value);
    } else {
      NoneByAction(ms', action);
      var i, k := FindByAction(ms, "OBSERVE", 0), FindByVerb(ms, "GET", 0);
      if k.Some? { FindFirstVerb(ms, "GET"); }
      if BecomesFirstGet(ms) {
        FirstByVerb(ms', "GET", 0, i.value);
      } else if k.Some? {
        FirstByVerb(ms', "GET", 0, k.value);
      } else {
        NoneByVerb(ms', "GET");
      }
    }
  }

  lemma ObserveIsGet()
    ensures DefaultVerb("OBSERVE") == "GET"
  {
    assert "OBSERVE"[0] == 'O' && "CREATE"[0] == 'C';
  }
}
