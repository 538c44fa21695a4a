/**
 Masking a JSON object: the first subtree whose canonical text is the sensitive value becomes
 a placeholder string. "First" depends on the iteration order of Go maps, so the search here
 picks the next key of an object arbitrarily, and everything is proved for every choice.
 */
module JsonMask {
  import opened Api

  datatype Json =
    | Null
    | Bool(b: bool)
    | Num(text: string)
    | Str(s: string)
    | Arr(items: seq<Json>)
    | Obj(fields: map<string, Json>)

  /** json.Marshal: key-sorted text. Nothing is assumed about it. */
  type Marshal = Json -> string

  /** An object whose canonical text is the target. */
  predicate Hit(v: Json, marshal: Marshal, target: string) {
    v.Obj? && marshal(v) == target
  }

  predicate HasHit(v: Json, marshal: Marshal, target: string) {
    || Hit(v, marshal, target)
    || (v.Obj? && exists k :: k in v.fields && HasHit(v.fields[k], marshal, target))
    || (v.Arr? && exists i :: 0 <= i < |v.items| && HasHit(v.items[i], marshal, target))
  }

  // ---------------------------------------------------------------- paths

  datatype Step = Field(k: string) | Index(i: nat)

  predicate CanStep(v: Json, s: Step) {
    match s
    case Field(k) => v.Obj? && k in v.fields
    case Index(i) => v.Arr? && i < |v.items|
  }

  function Child(v: Json, s: Step): (c: Json)
    requires CanStep(v, s)
    ensures c < v
  {
    match s
    case Field(k) => v.fields[k]
    case Index(i) => v.items[i]
  }

  function WithChild(v: Json, s: Step, c: Json): Json
    requires CanStep(v, s)
  {
    match s
    case Field(k) => Obj(v.fields[k := c])
    case Index(i) => Arr(v.items[i := c])
  }

  predicate IsPath(v: Json, path: seq<Step>)
    decreases |path|
  {
    path == [] || (CanStep(v, path[0]) && IsPath(Child(v, path[0]), path[1..]))
  }

  function At(v: Json, path: seq<Step>): Json
    requires IsPath(v, path)
    decreases |path|
  {
    if path == [] then v else At(Child(v, path[0]), path[1..])
  }

  /** The tree with the subtree at `path` replaced. */
  function Put(v: Json, path: seq<Step>, x: Json): Json
    requires IsPath(v, path)
    decreases |path|
  {
    if path == [] then x else WithChild(v, path[0], Put(Child(v, path[0]), path[1..], x))
  }

  /** Neither path continues the other. */
  predicate Apart(p: seq<Step>, q: seq<Step>)
    decreases |p|
  {
    p != [] && q != [] && (p[0] != q[0] || Apart(p[1..], q[1..]))
  }

  lemma {:induction false} PutGet(v: Json, path: seq<Step>, x: Json)
    requires IsPath(v, path)
    ensures IsPath(Put(v, path, x), path) && At(Put(v, path, x), path) == x
    decreases |path|
  {
    if path != [] { PutGet(Child(v, path[0]), path[1..], x); }
  }

  /** Every subtree off the path is untouched. */
  lemma {:induction false} PutFrame(v: Json, path: seq<Step>, x: Json, other: seq<Step>)
    requires IsPath(v, path) && IsPath(v, other) && Apart(path, other)
    ensures IsPath(Put(v, path, x), other) && At(Put(v, path, x), other) == At(v, other)
    decreases |path|
  {
    if path[0] == other[0] { PutFrame(Child(v, path[0]), path[1..], x, other[1..]); }
  }

  /** Putting the original subtree back restores the tree. */
  lemma {:induction false} PutBack(v: Json, path: seq<Step>, x: Json)
    requires IsPath(v, path)
    ensures IsPath(Put(v, path, x), path) && Put(Put(v, path, x), path, At(v, path)) == v
    decreases |path|
  {
    PutGet(v, path, x);
    if path != [] {
      PutBack(Child(v, path[0]), path[1..], x);
      match path[0] {
        case Field(k) => assert v.fields[k := x][k := v.fields[k]] == v.fields;
        case Index(i) => assert v.items[i := x][i := v.items[i]] == v.items;
      }
    }
  }

  /** A hit below is found along some path, */
  lemma {:induction false} HitHasPath(v: Json, marshal: Marshal, target: string) returns (path: seq<Step>)
    requires HasHit(v, marshal, target)
    ensures IsPath(v, path) && Hit(At(v, path), marshal, target)
    decreases v
  {
    if Hit(v, marshal, target) {
      path := [];
    } else if v.Obj? {
      var k :| k in v.fields && HasHit(v.fields[k], marshal, target);
      var rest := HitHasPath(v.fields[k], marshal, target);
      path := [Field(k)] + rest;
      assert path[1..] == rest;
    } else {
      var i :| 0 <= i < |v.items| && HasHit(v.items[i], marshal, target);
      var rest := HitHasPath(v.items[i], marshal, target);
      path := [Index(i)] + rest;
      assert path[1..] == rest;
    }
  }

  /** and a path to a hit leads to one below. */
  lemma {:induction false} PathHasHit(v: Json, path: seq<Step>, marshal: Marshal, target: string)
    requires IsPath(v, path) && Hit(At(v, path), marshal, target)
    ensures HasHit(v, marshal, target)
    decreases |path|
  {
    if path != [] { PathHasHit(Child(v, path[0]), path[1..], marshal, target); }
  }

  /** Some subtree equals the target. */
  ghost predicate Occurs(v: Json, marshal: Marshal, target: string) {
    exists path :: IsPath(v, path) && Hit(At(v, path), marshal, target)
  }

  lemma HasHitIffOccurs(v: Json, marshal: Marshal, target: string)
    ensures HasHit(v, marshal, target) <==> Occurs(v, marshal, target)
  {
    if HasHit(v, marshal, target) { var path := HitHasPath(v, marshal, target); }
    if Occurs(v, marshal, target) {
      var path :| IsPath(v, path) && Hit(At(v, path), marshal, target);
      PathHasHit(v, path, marshal, target);
    }
  }

  // ---------------------------------------------------------------- walkAndReplace

  /** `path` leads to a hit that lies in no other hit. */
  ghost predicate TopmostHit(v: Json, path: seq<Step>, marshal: Marshal, target: string) {
    && IsPath(v, path) && Hit(At(v, path), marshal, target)
    && forall n :: 0 <= n < |path| ==> IsPath(v, path[..n]) && !Hit(At(v, path[..n]), marshal, target)
  }

  lemma DeeperHit(v: Json, s: Step, rest: seq<Step>, marshal: Marshal, target: string)
    requires !Hit(v, marshal, target) && CanStep(v, s) && TopmostHit(Child(v, s), rest, marshal, target)
    ensures TopmostHit(v, [s] + rest, marshal, target)
  {
    var path := [s] + rest;
    assert path[1..] == rest;
    forall n | 0 <= n < |path| ensures IsPath(v, path[..n]) && !Hit(At(v, path[..n]), marshal, target) {
      if n == 0 {
        assert path[..0] == [];
      } else {
        assert path[..n][1..] == rest[..n - 1] && path[..n][0] == s;
      }
    }
  }

  /**
   Replace one hit by the placeholder. For every order of the keys: `ok` iff some subtree equals
   the target, and then the result is the input with exactly one topmost such subtree replaced;
   otherwise it is the input.
   */
  method WalkAndReplace(v: Json, marshal: Marshal, target: string, placeholder: string)
    returns (r: Json, ok: bool, ghost path: seq<Step>)
    ensures ok <==> Occurs(v, marshal, target)
    ensures ok ==> TopmostHit(v, path, marshal, target) && r == Put(v, path, Str(placeholder))
    ensures !ok ==> r == v
  {
    HasHitIffOccurs(v, marshal, target);
    r, ok, path := Walk(v, marshal, target, placeholder);
  }

  /** The recursion of the walk. */
  method Walk(v: Json, marshal: Marshal, target: string, placeholder: string)
    returns (r: Json, ok: bool, ghost path: seq<Step>)
    ensures ok <==> HasHit(v, marshal, target)
    ensures ok ==> TopmostHit(v, path, marshal, target) && r == Put(v, path, Str(placeholder))
    ensures !ok ==> r == v
    decreases v
  {
    path := [];
    if Hit(v, marshal, target) { return Str(placeholder), true, []; }
    if v.Obj? {
      var keys := v.fields.Keys;
      while keys != {}
        invariant keys <= v.fields.Keys
        invariant forall k :: k in v.fields && k !in keys ==> !HasHit(v.fields[k], marshal, target)
      {
        var k :| k in keys;
        ghost var rest;
        var child, found;
        child, found, rest := Walk(v.fields[k], marshal, target, placeholder);
        if found {
          DeeperHit(v, Field(k), rest, marshal, target);
          assert ([Field(k)] + rest)[1..] == rest;
          return Obj(v.fields[k := child]), true, [Field(k)] + rest;
        }
        keys := keys - {k};
      }
    }
    if v.Arr? {
      for i := 0 to |v.items|
        invariant forall j :: 0 <= j < i ==> !HasHit(v.items[j], marshal, target)
      {
        ghost var rest;
        var child, found;
        child, found, rest := Walk(v.items[i], marshal, target, placeholder);
        if found {
          DeeperHit(v, Index(i), rest, marshal, target);
          assert ([Index(i)] + rest)[1..] == rest;
          return Arr(v.items[i := child]), true, [Index(i)] + rest;
        }
      }
    }
    return v, false, [];
  }

  /**
   What masking one node means: a subtree that was the target is now the placeholder, every
   subtree apart from it is as before, and putting the target back undoes the masking.
   */
  lemma MaskingIsLocal(v: Json, path: seq<Step>, marshal: Marshal, target: string, placeholder: string)
    requires TopmostHit(v, path, marshal, target)
    ensures var r := Put(v, path, Str(placeholder));
      && IsPath(r, path) && At(r, path) == Str(placeholder)
      && Put(r, path, At(v, path)) == v && marshal(At(v, path)) == target
      && forall other :: IsPath(v, other) && Apart(path, other) ==> IsPath(r, other) && At(r, other) == At(v, other)
  {
    var x := Str(placeholder);
    PutGet(v, path, x);
    PutBack(v, path, x);
    forall other | IsPath(v, other) && Apart(path, other)
      ensures IsPath(Put(v, path, x), other) && At(Put(v, path, x), other) == At(v, other)
    {
      PutFrame(v, path, x, other);
    }
  }
}
