/**
 Secret placeholders in text: {{name:namespace:key}}, with optional white space inside the
 braces. The regular expression never has a choice to make (white space, name characters,
 colons and braces are disjoint), so a match is a plain left-to-right scan.
 */
module Placeholders {
  import opened Api

  // ---------------------------------------------------------------- matching

  predicate IsSpace(c: char) {
    c == ' ' || c == '\t' || c == '\n' || c == '\r' || c == '\U{000C}'
  }

  predicate IsPart(c: char) {
    c != ':' && c != '{' && c != '}' && !IsSpace(c)
  }

  predicate IsBrace(c: char) {
    c == '{' || c == '}'
  }

  /** Where the run of `p` characters that starts at `from` ends. */
  function SpanEnd(s: string, from: nat, p: char -> bool): (end: nat)
    requires from <= |s|
    ensures from <= end <= |s|
    ensures forall k :: from <= k < end ==> p(s[k])
    ensures end < |s| ==> !p(s[end])
    decreases |s| - from
  {
    if from < |s| && p(s[from]) then SpanEnd(s, from + 1, p) else from
  }

  datatype Ref = Ref(name: string, namespace: string, key: string, len: nat)

  /** Where the three parts lie, and where the closing braces begin. */
  datatype Marks = Marks(name: nat, colon1: nat, colon2: nat, key: nat, close: nat)

  function Locate(s: string): (r: Option<Marks>)
    ensures r.Some? ==>
      && 2 <= r.value.name < r.value.colon1 < r.value.colon2 < r.value.key <= r.value.close
      && Shaped(s, r.value.close + 2)
  {
    if |s| < 2 || s[0] != '{' || s[1] != '{' then None
    else
      var a := SpanEnd(s, 2, IsSpace);
      var b := SpanEnd(s, a, IsPart);
      if a == b || b == |s| || s[b] != ':' then None
      else
        var c := SpanEnd(s, b + 1, IsPart);
        if b + 1 == c || c == |s| || s[c] != ':' then None
        else
          var d := SpanEnd(s, c + 1, IsPart);
          var e := SpanEnd(s, d, IsSpace);
          if c + 1 == d || |s| < e + 2 || s[e] != '}' || s[e + 1] != '}' then None
          else Some(Marks(a, b, c, d, e))
  }

  /** The placeholder `s` starts with, if any. */
  function Parse(s: string): (r: Option<Ref>)
    ensures r.Some? ==> 5 <= r.value.len <= |s| && Shaped(s, r.value.len)
  {
    match Locate(s)
    case None => None
    case Some(m) => Some(Ref(s[m.name..m.colon1], s[m.colon1 + 1..m.colon2], s[m.colon2 + 1..m.key], m.close + 2))
  }

  /** The first n characters: two opening braces, a non-empty text without braces, two closing ones. */
  predicate Shaped(s: string, n: nat) {
    && 5 <= n <= |s|
    && s[0] == '{' && s[1] == '{' && s[n - 2] == '}' && s[n - 1] == '}'
    && forall i :: 2 <= i < n - 2 ==> !IsBrace(s[i])
  }

  /** The characters between the marks. */
  predicate Marked(s: string, m: Marks) {
    && 2 <= m.name < m.colon1 && m.colon1 + 1 < m.colon2 && m.colon2 + 1 < m.key <= m.close && m.close + 2 <= |s|
    && s[0] == '{' && s[1] == '{' && s[m.colon1] == ':' && s[m.colon2] == ':' && s[m.close] == '}' && s[m.close + 1] == '}'
    && (forall i :: 2 <= i < m.name ==> IsSpace(s[i]))
    && (forall i :: m.name <= i < m.colon1 ==> IsPart(s[i]))
    && (forall i :: m.colon1 < i < m.colon2 ==> IsPart(s[i]))
    && (forall i :: m.colon2 < i < m.key ==> IsPart(s[i]))
    && (forall i :: m.key <= i < m.close ==> IsSpace(s[i]))
  }

  lemma LocateIsSound(s: string)
    requires Locate(s).Some?
    ensures Marked(s, Locate(s).value)
  {
    hide SpanEnd, Shaped, IsSpace, IsPart;
  }

  lemma CharsAreDisjoint()
    ensures !IsPart(':') && !IsPart('}') && !IsSpace(':') && !IsSpace('}') && forall c :: IsPart(c) ==> !IsSpace(c)
  {
  }

  lemma LocateIsComplete(s: string, m: Marks)
    requires Marked(s, m)
    ensures Locate(s) == Some(m)
  {
    hide SpanEnd, Shaped, IsSpace, IsPart;
    CharsAreDisjoint();
    SpanIs(s, 2, m.name, IsSpace);
    SpanIs(s, m.name, m.colon1, IsPart);
    SpanIs(s, m.colon1 + 1, m.colon2, IsPart);
    SpanIs(s, m.colon2 + 1, m.key, IsPart);
    SpanIs(s, m.key, m.close, IsSpace);
  }

  lemma {:induction false} SpanIs(s: string, from: nat, end: nat, p: char -> bool)
    requires from <= end < |s| && !p(s[end])
    requires forall k :: from <= k < end ==> p(s[k])
    ensures SpanEnd(s, from, p) == end
    decreases end - from
  {
    if from < end { SpanIs(s, from + 1, end, p); }
  }

  /** A match depends on the matched text only. */
  lemma ParseLocal(s: string, t: string)
    requires Parse(s).Some? && Parse(s).value.len <= |t| && t[..Parse(s).value.len] == s[..Parse(s).value.len]
    ensures Parse(t) == Parse(s)
  {
    hide Locate;
    var n := Parse(s).value.len;
    forall i | 0 <= i < n ensures t[i] == s[i] { assert t[i] == t[..n][i] && s[i] == s[..n][i]; }
    var m := Locate(s).value;
    LocateIsSound(s);
    assert Marked(t, m) by { hide IsSpace, IsPart; }
    LocateIsComplete(t, m);
    assert t[m.name..m.colon1] == s[m.name..m.colon1];
    assert t[m.colon1 + 1..m.colon2] == s[m.colon1 + 1..m.colon2];
    assert t[m.colon2 + 1..m.key] == s[m.colon2 + 1..m.key];
  }

  // ---------------------------------------------------------------- texts as cells

  datatype Cell = Lit(c: char) | Slot(raw: string)

  /** The text with its placeholders marked, found leftmost and without overlap. */
  function Scan(s: string): seq<Cell> {
    if s == "" then []
    else
      var r := Parse(s);
      if r.Some? then [Slot(s[..r.value.len])] + Scan(s[r.value.len..]) else [Lit(s[0])] + Scan(s[1..])
  }

  function Flatten(cells: seq<Cell>): string {
    if cells == [] then ""
    else (match cells[0] case Lit(c) => [c] case Slot(raw) => raw) + Flatten(cells[1..])
  }

  lemma FlattenHead(cell: Cell, rest: seq<Cell>)
    ensures Flatten([cell] + rest) == (match cell case Lit(c) => [c] case Slot(raw) => raw) + Flatten(rest)
  {
    assert ([cell] + rest)[1..] == rest;
  }

  lemma {:induction false} ScanFlatten(s: string)
    ensures Flatten(Scan(s)) == s
    decreases |s|
  {
    hide Parse, Shaped, Flatten;
    if s == "" {
      assert Flatten([]) == "" by { FlattenNone(); }
    } else {
      match Parse(s) {
        case Some(r) =>
          ScanFlatten(s[r.len..]);
          FlattenHead(Slot(s[..r.len]), Scan(s[r.len..]));
          assert s[..r.len] + s[r.len..] == s;
        case None =>
          ScanFlatten(s[1..]);
          FlattenHead(Lit(s[0]), Scan(s[1..]));
          assert [s[0]] + s[1..] == s;
      }
    }
  }

  lemma FlattenNone()
    ensures Flatten([]) == ""
  {
  }

  /** The placeholders of a text, in order. */
  function FindPlaceholders(s: string): seq<string> {
    Slots(Scan(s))
  }

  function Slots(cells: seq<Cell>): seq<string> {
    if cells == [] then [] else (if cells[0].Slot? then [cells[0].raw] else []) + Slots(cells[1..])
  }

  lemma {:induction false} SlotsIn(cells: seq<Cell>, raw: string)
    ensures raw in Slots(cells) <==> Slot(raw) in cells
  {
    if cells != [] { SlotsIn(cells[1..], raw); }
  }

  /** A slot holds a text that is one placeholder, whole. */
  ghost predicate WellFormed(cells: seq<Cell>) {
    forall i :: 0 <= i < |cells| && cells[i].Slot? ==> IsPlaceholder(cells[i].raw)
  }

  predicate IsPlaceholder(raw: string) {
    Parse(raw).Some? && Parse(raw).value.len == |raw|
  }

  lemma {:induction false} ScanWellFormed(s: string)
    ensures WellFormed(Scan(s))
    decreases |s|
  {
    hide Parse, Shaped;
    if s != "" {
      var r := Parse(s);
      if r.Some? {
        var raw := s[..r.value.len];
        ParseLocal(s, raw);
        ScanWellFormed(s[r.value.len..]);
      } else {
        ScanWellFormed(s[1..]);
      }
    }
  }

  // ---------------------------------------------------------------- ReplaceAll

  /** All occurrences replaced in one pass, leftmost first and without overlap. */
  function ReplaceAll(s: string, pattern: string, replacement: string): string
    requires pattern != ""
    decreases |s|
  {
    if s == "" then ""
    else if HasPrefix(s, pattern) then replacement + ReplaceAll(s[|pattern|..], pattern, replacement)
    else [s[0]] + ReplaceAll(s[1..], pattern, replacement)
  }

  /** No position of s[..n] starts an occurrence: the pass copies these characters. */
  lemma {:induction false} ReplaceSkips(s: string, n: nat, pattern: string, replacement: string)
    requires pattern != "" && n <= |s|
    requires forall k :: 0 <= k < n ==> !HasPrefix(s[k..], pattern)
    ensures ReplaceAll(s, pattern, replacement) == s[..n] + ReplaceAll(s[n..], pattern, replacement)
    decreases n
  {
    if n == 0 {
      assert s[..0] == "" && s[0..] == s;
    } else {
      assert s[0..] == s;
      forall k | 0 <= k < n - 1 ensures !HasPrefix(s[1..][k..], pattern) { assert s[1..][k..] == s[k + 1..]; }
      ReplaceSkips(s[1..], n - 1, pattern, replacement);
      assert s[1..][n - 1..] == s[n..];
      assert [s[0]] + s[1..][..n - 1] == s[..n];
    }
  }

  lemma PlaceholderBraces(raw: string)
    requires IsPlaceholder(raw)
    ensures |raw| >= 5 && raw[0] == '{' && raw[1] == '{' && !IsBrace(raw[2])
  {
  }

  lemma PrefixIndices(s: string, prefix: string)
    ensures HasPrefix(s, prefix) ==> |prefix| <= |s| && forall i :: 0 <= i < |prefix| ==> s[i] == prefix[i]
  {
    assert HasPrefix(s, prefix) ==> forall i :: 0 <= i < |prefix| ==> s[i] == s[..|prefix|][i];
  }

  /** One placeholder after the other. */
  function ReplaceEach(s: string, raws: seq<string>, value: string -> string): string
    requires forall raw :: raw in raws ==> raw != ""
    decreases |raws|
  {
    if raws == [] then s
    else
      assert raws[0] in raws && forall raw :: raw in raws[1..] ==> raw in raws;
      ReplaceEach(ReplaceAll(s, raws[0], value(raws[0])), raws[1..], value)
  }

  // ---------------------------------------------------------------- the pattern

  predicate All(s: string, p: char -> bool) {
    forall i :: 0 <= i < |s| ==> p(s[i])
  }

  /** `s` starts with a text of the pattern, its parts and its white space being these. */
  ghost predicate Matches(s: string, r: Ref, before: string, after: string) {
    && r.name != "" && r.namespace != "" && r.key != ""
    && All(r.name, IsPart) && All(r.namespace, IsPart) && All(r.key, IsPart)
    && All(before, IsSpace) && All(after, IsSpace)
    && var raw := "{{" + before + r.name + ":" + r.namespace + ":" + r.key + after + "}}";
    |raw| == r.len && HasPrefix(s, raw)
  }

  /** Every text of the pattern is found, with its parts. */
  lemma ParseIsComplete(s: string, r: Ref, before: string, after: string)
    requires Matches(s, r, before, after)
    ensures Parse(s) == Some(r)
  {
    hide Locate, IsSpace, IsPart, Shaped;
    var raw := "{{" + before + r.name + ":" + r.namespace + ":" + r.key + after + "}}";
    PrefixIndices(s, raw);
    var a := 2 + |before|;
    var b := a + |r.name|;
    var c := b + 1 + |r.namespace|;
    var d := c + 1 + |r.key|;
    PatternIndices(before, r.name, r.namespace, r.key, after);
    LocateIsComplete(s, Marks(a, b, c, d, d + |after|));
    assert s[a..b] == r.name && s[b + 1..c] == r.namespace && s[c + 1..d] == r.key;
  }

  lemma PatternIndices(before: string, name: string, namespace: string, key: string, after: string)
    ensures var raw := "{{" + before + name + ":" + namespace + ":" + key + after + "}}";
      var a := 2 + |before|;
      var b := a + |name|;
      var c := b + 1 + |namespace|;
      var d := c + 1 + |key|;
      var e := d + |after|;
      && |raw| == e + 2 && raw[0] == '{' && raw[1] == '{' && raw[b] == ':' && raw[c] == ':' && raw[e] == '}' && raw[e + 1] == '}'
      && (forall i :: 2 <= i < a ==> raw[i] == before[i - 2])
      && (forall i :: a <= i < b ==> raw[i] == name[i - a])
      && (forall i :: b < i < c ==> raw[i] == namespace[i - b - 1])
      && (forall i :: c < i < d ==> raw[i] == key[i - c - 1])
      && (forall i :: d <= i < e ==> raw[i] == after[i - d])
  {
  }

  /** And nothing else is. */
  lemma ParseIsSound(s: string) returns (before: string, after: string)
    requires Parse(s).Some?
    ensures Matches(s, Parse(s).value, before, after)
  {
    hide Locate, IsSpace, IsPart, All, Marked;
    var r := Parse(s).value;
    var m := Locate(s).value;
    before, after := s[2..m.name], s[m.key..m.close];
    PartsOf(s, m) by { LocateIsSound(s); }
    RawOf(s, m) by { LocateIsSound(s); }
  }

  lemma PartsOf(s: string, m: Marks)
    requires Marked(s, m)
    ensures All(s[2..m.name], IsSpace) && All(s[m.key..m.close], IsSpace)
    ensures All(s[m.name..m.colon1], IsPart) && All(s[m.colon1 + 1..m.colon2], IsPart) && All(s[m.colon2 + 1..m.key], IsPart)
    ensures s[m.name..m.colon1] != "" && s[m.colon1 + 1..m.colon2] != "" && s[m.colon2 + 1..m.key] != ""
  {
    hide IsSpace, IsPart;
  }

  lemma RawOf(s: string, m: Marks)
    requires Marked(s, m)
    ensures "{{" + s[2..m.name] + s[m.name..m.colon1] + ":" + s[m.colon1 + 1..m.colon2] + ":" + s[m.colon2 + 1..m.key] + s[m.key..m.close] + "}}"
            == s[..m.close + 2]
  {
    hide IsSpace, IsPart;
    assert s[..2] == "{{" && s[m.colon1..m.colon1 + 1] == ":" && s[m.colon2..m.colon2 + 1] == ":" && s[m.close..m.close + 2] == "}}";
    Pieces(s, m);
  }

  lemma Pieces(s: string, m: Marks)
    requires 2 <= m.name < m.colon1 < m.colon2 < m.key <= m.close <= |s| - 2
    ensures s[..m.close + 2] == s[..2] + s[2..m.name] + s[m.name..m.colon1] + s[m.colon1..m.colon1 + 1] + s[m.colon1 + 1..m.colon2]
                                + s[m.colon2..m.colon2 + 1] + s[m.colon2 + 1..m.key] + s[m.key..m.close] + s[m.close..m.close + 2]
  {
  }

  // ---------------------------------------------------------------- patchSecretsToValue

  /** Secret data by (name, namespace). */
  type Secrets = map<(string, string), map<string, string>>

  predicate Available(secrets: Secrets, raw: string) {
    Parse(raw).Some? && (Parse(raw).value.name, Parse(raw).value.namespace) in secrets
  }

  /** The value under a placeholder's key; a missing key reads as empty. */
  function Lookup(secrets: Secrets, raw: string): string {
    if !Available(secrets, raw) then ""
    else
      var r := Parse(raw).value;
      var data := secrets[(r.name, r.namespace)];
      if r.key in data then data[r.key] else ""
  }

  function ValueUnder(secrets: Secrets): string -> string {
    raw => Lookup(secrets, raw)
  }

  /** Each string where it occurs first. */
  function Distinct(strs: seq<string>): (r: seq<string>)
    ensures forall s :: s in r <==> s in strs
    ensures forall i, j :: 0 <= i < j < |r| ==> r[i] != r[j]
  {
    if strs == [] then []
    else
      var init, last := Distinct(strs[..|strs| - 1]), strs[|strs| - 1];
      if last in init then init else init + [last]
  }

  /** `idx` are the places in `strs` where what is in `r` occurs first, in order. */
  ghost predicate Firsts(strs: seq<string>, r: seq<string>, idx: seq<nat>) {
    && |idx| == |r|
    && (forall i :: 0 <= i < |r| ==> idx[i] < |strs| && strs[idx[i]] == r[i])
    && (forall i, k :: 0 <= i < |r| && 0 <= k < idx[i] ==> strs[k] != r[i])
    && forall i, j :: 0 <= i < j < |r| ==> idx[i] < idx[j]
  }

  lemma FirstsNone(strs: seq<string>)
    ensures Firsts(strs, [], [])
  {
  }

  lemma FirstsPush(strs: seq<string>, r: seq<string>, idx: seq<nat>, i: nat)
    requires Firsts(strs, r, idx) && i < |strs| && strs[i] !in r && (forall k :: 0 <= k < |idx| ==> idx[k] < i)
    requires forall k :: 0 <= k < i ==> strs[k] in r
    ensures Firsts(strs, r + [strs[i]], idx + [i])
  {
    forall k | 0 <= k < i ensures strs[k] != strs[i] {}
  }

  method RemoveDuplicates(strs: seq<string>) returns (r: seq<string>)
    ensures r == Distinct(strs)
    ensures (forall s :: s in r <==> s in strs) && exists idx :: Firsts(strs, r, idx)
  {
    hide Firsts;
    var seen: set<string> := {};
    assert Firsts(strs, [], []) by { FirstsNone(strs); }
    ghost var idx: seq<nat> := [];
    r := [];
    for i := 0 to |strs|
      invariant r == Distinct(strs[..i])
      invariant forall s :: s in seen <==> s in r
      invariant forall k :: 0 <= k < i ==> strs[k] in r
      invariant Firsts(strs, r, idx) && forall k :: 0 <= k < |idx| ==> idx[k] < i
    {
      assert strs[..i + 1][..i] == strs[..i];
      if strs[i] !in seen {
        FirstsPush(strs, r, idx, i);
        r := r + [strs[i]];
        seen := seen + {strs[i]};
        idx := idx + [i];
      }
    }
    assert strs[..|strs|] == strs;
  }

  lemma FoundArePlaceholders(s: string)
    ensures forall raw :: raw in FindPlaceholders(s) ==> IsPlaceholder(raw) && raw != ""
  {
    forall raw | raw in FindPlaceholders(s) ensures IsPlaceholder(raw) && raw != "" {
      SlotsIn(Scan(s), raw);
      ScanWellFormed(s);
      assert raw != "" by { PlaceholderBraces(raw); }
    }
  }

  /** What patching makes of a text; None when a secret is missing. */
  function Patched(s: string, secrets: Secrets): Option<string> {
    var raws := Distinct(FindPlaceholders(s));
    FoundArePlaceholders(s);
    if forall raw :: raw in raws ==> Available(secrets, raw) then Some(ReplaceEach(s, raws, ValueUnder(secrets))) else None
  }

  /** The secret a placeholder names does not exist. */
  predicate NamesNoSecret(secrets: Secrets, raw: string) {
    Parse(raw).Some? && (Parse(raw).value.name, Parse(raw).value.namespace) !in secrets
  }

  method PatchSecretsToValue(s: string, secrets: Secrets) returns (r: Option<string>)
    ensures r == Patched(s, secrets)
    ensures r.None? <==> exists raw :: raw in FindPlaceholders(s) && NamesNoSecret(secrets, raw)
  {
    hide Parse, ReplaceAll, Scan, ReplaceEach, Distinct, FindPlaceholders;
    FoundArePlaceholders(s);
    var raws := RemoveDuplicates(FindPlaceholders(s));
    var value := s;
    for i := 0 to |raws|
      invariant forall k :: 0 <= k < i ==> Available(secrets, raws[k])
      invariant forall raw :: raw in raws[i..] ==> raw in raws
      invariant ReplaceEach(value, raws[i..], ValueUnder(secrets)) == ReplaceEach(s, raws, ValueUnder(secrets))
    {
      assert raws[i] in raws && IsPlaceholder(raws[i]);
      ReplaceEachStep(value, raws[i..], ValueUnder(secrets));
      var ref := Parse(raws[i]).value;
      if (ref.name, ref.namespace) !in secrets {
        assert !Available(secrets, raws[i]) && NamesNoSecret(secrets, raws[i]) && raws[i] in FindPlaceholders(s);
        return None;
      }
      assert raws[i..][0] == raws[i] && raws[i..][1..] == raws[i + 1..];
      value := ReplaceAll(value, raws[i], Lookup(secrets, raws[i]));
    }
    assert raws[|raws|..] == [];
    ReplaceEachNone(value, ValueUnder(secrets));
    return Some(value);
  }

  lemma ReplaceEachStep(s: string, raws: seq<string>, value: string -> string)
    requires raws != [] && forall raw :: raw in raws ==> raw != ""
    ensures raws[0] in raws && raws[0] != "" && forall raw :: raw in raws[1..] ==> raw in raws && raw != ""
    ensures ReplaceEach(s, raws, value) == ReplaceEach(ReplaceAll(s, raws[0], value(raws[0])), raws[1..], value)
  {
    hide ReplaceAll;
    assert raws[0] in raws;
    forall raw | raw in raws[1..] ensures raw in raws && raw != "" {}
  }

  lemma ReplaceEachNone(s: string, value: string -> string)
    ensures ReplaceEach(s, [], value) == s
  {
  }
}
