/**
 Masking: a sensitive value of a response is stored in a secret and replaced by the secret's
 placeholder, in the body where it is quoted and in every header. Patching undoes it.
 */
module SecretMask {
  import opened Api
  import opened Placeholders

  const QUOTE := "\""

  predicate IsNamePart(s: string) {
    s != "" && forall i :: 0 <= i < |s| ==> IsPart(s[i]) && s[i] != '"'
  }

  function PlaceholderFor(name: string, namespace: string, key: string): string {
    "{{" + name + ":" + namespace + ":" + key + "}}"
  }

  lemma PlaceholderForParses(name: string, namespace: string, key: string)
    requires IsNamePart(name) && IsNamePart(namespace) && IsNamePart(key)
    ensures var p := PlaceholderFor(name, namespace, key);
      IsPlaceholder(p) && Parse(p) == Some(Ref(name, namespace, key, |p|))
  {
    hide Parse;
    var p := PlaceholderFor(name, namespace, key);
    assert "{{" + "" + name + ":" + namespace + ":" + key + "" + "}}" == p;
    ParseIsComplete(p, Ref(name, namespace, key, |p|), "", "");
  }

  /** The text with every quoted occurrence of the value masked; headers are masked without quotes. */
  function Mask(t: string, quote: string, value: string, placeholder: string): string
    requires value != ""
  {
    ReplaceAll(t, quote + value + quote, quote + placeholder + quote)
  }

  /** How many characters of the text lie before the first masked occurrence. */
  function Before(t: string, pattern: string): (h: nat)
    requires pattern != ""
    ensures h <= |t|
  {
    if t == "" || HasPrefix(t, pattern) then 0 else 1 + Before(t[1..], pattern)
  }

  lemma {:induction false} MaskedHead(t: string, pattern: string, replacement: string)
    requires pattern != ""
    ensures var m, h := ReplaceAll(t, pattern, replacement), Before(t, pattern);
      && h <= |m| && m[..h] == t[..h]
      && (h == |t| ==> m == t)
      && (h < |t| ==> HasPrefix(m[h..], replacement))
    decreases |t|
  {
    if t != "" && !HasPrefix(t, pattern) {
      MaskedHead(t[1..], pattern, replacement);
      var m1, h1 := ReplaceAll(t[1..], pattern, replacement), Before(t[1..], pattern);
      var m, h := ReplaceAll(t, pattern, replacement), Before(t, pattern);
      assert m == [t[0]] + m1 && h == h1 + 1;
      assert m[..h] == [t[0]] + m1[..h1] && t[..h] == [t[0]] + t[1..][..h1];
      assert m[h..] == m1[h1..];
    }
  }

  /** The quotes a mask may stand in, and a placeholder for it. */
  predicate Maskable(quote: string, placeholder: string) {
    (quote == "" || quote == QUOTE) && IsPlaceholder(placeholder)
  }

  /** Masking makes no placeholder begin at a character it keeps. */
  lemma KeptStartsNothing(t: string, quote: string, value: string, placeholder: string)
    requires Maskable(quote, placeholder) && value != "" && t != ""
    requires !HasPrefix(t, quote + value + quote) && Parse(t).None?
    ensures Parse(Mask(t, quote, value, placeholder)).None?
  {
    hide Parse, ReplaceAll, Before;
    var pattern, replacement := quote + value + quote, quote + placeholder + quote;
    var m, h := ReplaceAll(t, pattern, replacement), Before(t, pattern);
    MaskedHead(t, pattern, replacement);
    assert h >= 1 by { assert Before(t, pattern) >= 1 by { BeforePositive(t, pattern); } }
    if Parse(m).Some? {
      var n := Parse(m).value.len;
      if n <= h {
        assert t[..n] == t[..h][..n] == m[..h][..n] == m[..n];
        ParseLocal(m, t);
      } else {
        HoleIsNoPlaceholder(m, n, h, quote, placeholder);
      }
    }
  }

  lemma BeforePositive(t: string, pattern: string)
    requires pattern != "" && t != "" && !HasPrefix(t, pattern)
    ensures Before(t, pattern) >= 1
  {
  }

  /** No placeholder reaches into a masked occurrence from the left. */
  lemma HoleIsNoPlaceholder(m: string, n: nat, h: nat, quote: string, placeholder: string)
    requires Maskable(quote, placeholder) && Shaped(m, n) && 1 <= h < n <= |m|
    ensures !HasPrefix(m[h..], quote + placeholder + quote)
  {
    hide Parse, Shaped;
    var replacement := quote + placeholder + quote;
    PrefixIndices(m[h..], replacement);
    PlaceholderBraces(placeholder);
    var q := |quote|;
    assert replacement[q] == '{' && replacement[q + 1] == '{' && |replacement| >= q + 5;
    assert h + q + 1 < |m| ==> m[h..][q] == m[h + q] && m[h..][q + 1] == m[h + q + 1];
    ShapedBraces(m, n, h, q);
    assert q == 1 ==> replacement[0] == '"';
    assert h < |m| ==> m[h..][0] == m[h];
  }

  lemma ShapedBraces(m: string, n: nat, h: nat, q: nat)
    requires Shaped(m, n) && 1 <= h < n && q <= 1
    ensures h + q + 1 < |m| && m[h + q] == '{' && m[h + q + 1] == '{' ==> q == 1 && h + 1 == n && m[h] == '}'
  {
  }

  // ---------------------------------------------------------------- the round trip on one text

  lemma FoundHead(t: string)
    requires t != ""
    ensures FindPlaceholders(t) == match Parse(t)
      case None => FindPlaceholders(t[1..])
      case Some(r) => [t[..r.len]] + FindPlaceholders(t[r.len..])
  {
    hide Parse, Shaped;
    match Parse(t) {
      case None =>
        assert Scan(t) == [Lit(t[0])] + Scan(t[1..]);
        assert Scan(t)[1..] == Scan(t[1..]);
      case Some(r) =>
        assert Scan(t) == [Slot(t[..r.len])] + Scan(t[r.len..]);
        assert Scan(t)[1..] == Scan(t[r.len..]);
    }
  }

  lemma FreeTail(t: string)
    requires t != "" && FindPlaceholders(t) == []
    ensures Parse(t).None? && FindPlaceholders(t[1..]) == []
  {
    hide Parse, Shaped, FindPlaceholders;
    FoundHead(t);
  }

  lemma {:induction false} FreeSuffix(t: string, n: nat)
    requires n <= |t| && FindPlaceholders(t) == []
    ensures FindPlaceholders(t[n..]) == []
    decreases n
  {
    hide FindPlaceholders;
    if n == 0 {
      assert t[0..] == t;
    } else {
      FreeTail(t);
      FreeSuffix(t[1..], n - 1);
      assert t[1..][n - 1..] == t[n..];
    }
  }

  /** A character that starts no placeholder is a literal of the scan. */
  lemma LiteralStep(c: char, rest: string, placeholder: string, value: string)
    requires Parse([c] + rest).None? && IsPlaceholder(placeholder) && placeholder != ""
    ensures FindPlaceholders([c] + rest) == FindPlaceholders(rest)
    ensures ReplaceAll([c] + rest, placeholder, value) == [c] + ReplaceAll(rest, placeholder, value)
  {
    hide Parse, Shaped;
    var s := [c] + rest;
    assert s[0] == c && s[1..] == rest;
    assert Scan(s) == [Lit(c)] + Scan(rest);
    assert Scan(s)[1..] == Scan(rest);
    if HasPrefix(s, placeholder) {
      assert placeholder[..|placeholder|] == placeholder;
      ParseLocal(placeholder, s);
    }
  }

  lemma PlaceholderStep(rest: string, placeholder: string, value: string)
    requires IsPlaceholder(placeholder) && placeholder != ""
    ensures FindPlaceholders(placeholder + rest) == [placeholder] + FindPlaceholders(rest)
    ensures ReplaceAll(placeholder + rest, placeholder, value) == value + ReplaceAll(rest, placeholder, value)
  {
    hide Parse, Shaped;
    var s := placeholder + rest;
    assert s[..|placeholder|] == placeholder == placeholder[..|placeholder|] && s[|placeholder|..] == rest;
    ParseLocal(placeholder, s);
    assert Scan(s) == [Slot(placeholder)] + Scan(rest);
    assert Scan(s)[1..] == Scan(rest);
  }

  lemma QuoteParsesToNothing(rest: string)
    ensures Parse(QUOTE + rest).None?
  {
    assert (QUOTE + rest)[0] == '"';
  }

  /** A masked occurrence, quotes and all. */
  lemma MaskedStep(quote: string, rest: string, placeholder: string, value: string)
    requires Maskable(quote, placeholder) && placeholder != ""
    ensures FindPlaceholders(quote + placeholder + quote + rest) == [placeholder] + FindPlaceholders(rest)
    ensures ReplaceAll(quote + placeholder + quote + rest, placeholder, value) == quote + value + quote + ReplaceAll(rest, placeholder, value)
  {
    hide Parse, Scan, Shaped, FindPlaceholders, ReplaceAll;
    PlaceholderStep(quote + rest, placeholder, value);
    if quote == "" {
      assert quote + placeholder + quote + rest == placeholder + rest && quote + rest == rest;
      assert quote + value + quote == value;
    } else {
      QuoteParsesToNothing(rest);
      LiteralStep('"', rest, placeholder, value);
      QuoteParsesToNothing(placeholder + (quote + rest));
      LiteralStep('"', placeholder + (quote + rest), placeholder, value);
      assert quote + placeholder + quote + rest == ['"'] + (placeholder + (quote + rest));
      assert quote == ['"'];
    }
  }

  /**
   In a text without placeholders, the only placeholders after masking are the masks, and
   replacing them by the value gives the text back.
   */
  lemma {:induction false} MaskUndone(t: string, quote: string, value: string, placeholder: string)
    requires Maskable(quote, placeholder) && placeholder != "" && value != "" && FindPlaceholders(t) == []
    ensures var m := Mask(t, quote, value, placeholder);
      && (forall raw :: raw in FindPlaceholders(m) ==> raw == placeholder)
      && (FindPlaceholders(m) == [] ==> m == t)
      && ReplaceAll(m, placeholder, value) == t
    decreases |t|
  {
    hide Parse, Scan, Shaped, FindPlaceholders, ReplaceAll, Mask;
    var pattern := quote + value + quote;
    MaskHead(t, quote, value, placeholder);
    if t == "" {
      EmptyText();
      assert ReplaceAll("", placeholder, value) == "" by { EmptyReplace(placeholder, value); }
    } else if HasPrefix(t, pattern) {
      var rest := t[|pattern|..];
      FreeSuffix(t, |pattern|);
      MaskUndone(rest, quote, value, placeholder);
      MaskedStep(quote, Mask(rest, quote, value, placeholder), placeholder, value);
      assert t == pattern + rest;
    } else {
      FreeTail(t);
      MaskUndone(t[1..], quote, value, placeholder);
      KeptStartsNothing(t, quote, value, placeholder);
      LiteralStep(t[0], Mask(t[1..], quote, value, placeholder), placeholder, value);
      assert t == [t[0]] + t[1..];
    }
  }

  lemma MaskHead(t: string, quote: string, value: string, placeholder: string)
    requires value != ""
    ensures Mask(t, quote, value, placeholder) ==
      if t == "" then "" else
        var pattern := quote + value + quote;
        if HasPrefix(t, pattern) then quote + placeholder + quote + Mask(t[|pattern|..], quote, value, placeholder)
        else [t[0]] + Mask(t[1..], quote, value, placeholder)
  {
  }

  lemma EmptyReplace(placeholder: string, value: string)
    requires placeholder != ""
    ensures ReplaceAll("", placeholder, value) == ""
  {
  }

  lemma EmptyText()
    ensures FindPlaceholders("") == []
  {
  }

  // ---------------------------------------------------------------- what a replacement means

  /** The pieces with `glue` between each two. */
  function Join(pieces: seq<string>, glue: string): string {
    if pieces == [] then "" else if |pieces| == 1 then pieces[0] else pieces[0] + glue + Join(pieces[1..], glue)
  }

  /** The text falls into these pieces at its occurrences of the pattern, taken from left to right. */
  ghost predicate SplitsInto(text: string, pattern: string, pieces: seq<string>) {
    && pieces != [] && text == Join(pieces, pattern)
    && (forall i :: 0 <= i < |pieces| ==> !Contains(pieces[i], pattern))
    && forall i, j :: 0 <= i < |pieces| - 1 && 0 <= j < |pieces[i]| ==> !HasPrefix((pieces[i] + pattern)[j..], pattern)
  }

  /** Every occurrence of the pattern, and nothing else, has become the replacement. */
  ghost predicate Replaced(before: string, after: string, pattern: string, replacement: string) {
    exists pieces :: SplitsInto(before, pattern, pieces) && after == Join(pieces, replacement)
  }

  function Pieces(s: string, pattern: string): (pieces: seq<string>)
    requires pattern != ""
    ensures pieces != []
    decreases |s|
  {
    if s == "" then [""]
    else if HasPrefix(s, pattern) then [""] + Pieces(s[|pattern|..], pattern)
    else
      var rest := Pieces(s[1..], pattern);
      [[s[0]] + rest[0]] + rest[1..]
  }

  lemma JoinHead(head: string, pieces: seq<string>, glue: string)
    requires pieces != []
    ensures Join([head + pieces[0]] + pieces[1..], glue) == head + Join(pieces, glue)
    ensures Join([head] + pieces, glue) == head + glue + Join(pieces, glue)
  {
    assert ([head] + pieces)[1..] == pieces;
    assert ([head + pieces[0]] + pieces[1..])[1..] == pieces[1..];
  }

  lemma {:induction false} PiecesJoin(s: string, pattern: string, replacement: string)
    requires pattern != ""
    ensures Join(Pieces(s, pattern), pattern) == s && Join(Pieces(s, pattern), replacement) == ReplaceAll(s, pattern, replacement)
    decreases |s|
  {
    hide Join, HasPrefix;
    if s == "" {
      assert Join([""], pattern) == "" && Join([""], replacement) == "" by { JoinOne(pattern, replacement); }
    } else if HasPrefix(s, pattern) {
      PrefixIndices(s, pattern);
      var rest := s[|pattern|..];
      PiecesJoin(rest, pattern, replacement);
      JoinHead("", Pieces(rest, pattern), pattern);
      JoinHead("", Pieces(rest, pattern), replacement);
      assert s == pattern + rest;
    } else {
      PiecesJoin(s[1..], pattern, replacement);
      JoinHead([s[0]], Pieces(s[1..], pattern), pattern);
      JoinHead([s[0]], Pieces(s[1..], pattern), replacement);
      assert s == [s[0]] + s[1..];
    }
  }

  lemma JoinOne(pattern: string, replacement: string)
    ensures Join([""], pattern) == "" && Join([""], replacement) == ""
  {
  }

  /** The text begins with its first piece, and then, if there is another, with the pattern. */
  lemma FirstPiece(s: string, pattern: string)
    requires pattern != ""
    ensures var pieces := Pieces(s, pattern);
      HasPrefix(s, pieces[0]) && (|pieces| > 1 ==> HasPrefix(s, pieces[0] + pattern))
  {
    PiecesJoin(s, pattern, pattern);
    var pieces := Pieces(s, pattern);
    if |pieces| > 1 { assert s == pieces[0] + pattern + Join(pieces[1..], pattern); }
  }

  lemma PrefixOfPrefix(s: string, t: string, u: string)
    requires HasPrefix(s, t)
    ensures HasPrefix(t, u) ==> HasPrefix(s, u)
  {
    if HasPrefix(t, u) { assert s[..|u|] == s[..|t|][..|u|]; }
  }

  lemma {:induction false} PiecesSplit(s: string, pattern: string)
    requires pattern != ""
    ensures SplitsInto(s, pattern, Pieces(s, pattern))
    decreases |s|
  {
    hide HasPrefix, Join;
    PiecesJoin(s, pattern, pattern);
    var pieces := Pieces(s, pattern);
    if s == "" {
      NotInEmpty(pattern);
    } else if HasPrefix(s, pattern) {
      PiecesSplit(s[|pattern|..], pattern) by { assert |pattern| <= |s| by { PrefixIndices(s, pattern); } }
      NotInEmpty(pattern);
    } else {
      PiecesSplit(s[1..], pattern);
      var rest := Pieces(s[1..], pattern);
      FirstPiece(s, pattern);
      PrefixOfPrefix(s, pieces[0], pattern);
      if |pieces| > 1 { PrefixOfPrefix(s, pieces[0] + pattern, pattern); }
      LongerPiece([s[0]], rest[0], pattern);
      forall j | 0 <= j < |pieces[0]| && |pieces| > 1 ensures !HasPrefix((pieces[0] + pattern)[j..], pattern) {
        if j == 0 {
          assert (pieces[0] + pattern)[0..] == pieces[0] + pattern;
        } else {
          assert (pieces[0] + pattern)[j..] == (rest[0] + pattern)[j - 1..];
        }
      }
      forall i | 0 < i < |pieces| ensures pieces[i] == rest[i] {}
    }
  }

  lemma NotInEmpty(pattern: string)
    requires pattern != ""
    ensures !Contains("", pattern)
  {
  }

  lemma LongerPiece(head: string, piece: string, pattern: string)
    requires |head| == 1 && !Contains(piece, pattern) && !HasPrefix(head + piece, pattern) && pattern != ""
    ensures !Contains(head + piece, pattern)
  {
    var s := head + piece;
    forall i | 0 <= i <= |s| ensures !HasPrefix(s[i..], pattern) {
      if i == 0 { assert s[0..] == s; } else { assert s[i..] == piece[i - 1..]; }
    }
  }

  /** One ReplaceAll replaces every occurrence and nothing else. */
  lemma ReplaceAllReplaces(s: string, pattern: string, replacement: string)
    requires pattern != ""
    ensures Replaced(s, ReplaceAll(s, pattern, replacement), pattern, replacement)
  {
    PiecesSplit(s, pattern);
    PiecesJoin(s, pattern, replacement);
  }

  // ---------------------------------------------------------------- what patching means

  /** What the secrets hold for a placeholder; a missing key reads as empty. */
  predicate Holds(secrets: Secrets, raw: string, value: string) {
    && Parse(raw).Some?
    && var r := Parse(raw).value;
       && (r.name, r.namespace) in secrets
       && var data := secrets[(r.name, r.namespace)];
          value == if r.key in data then data[r.key] else ""
  }

  /** Each placeholder in turn becomes what the secrets hold for it. */
  ghost predicate PatchedInTurn(texts: seq<string>, raws: seq<string>, values: seq<string>, secrets: Secrets) {
    && |texts| == |raws| + 1 && |values| == |raws|
    && forall i :: 0 <= i < |raws| ==> Holds(secrets, raws[i], values[i]) && Replaced(texts[i], texts[i + 1], raws[i], values[i])
  }

  /** Patching replaces the placeholders of the text one after another, each once, in the order they occur first. */
  lemma PatchIsStepwise(s: string, secrets: Secrets) returns (raws: seq<string>, idx: seq<nat>, values: seq<string>, texts: seq<string>)
    requires Patched(s, secrets).Some?
    ensures Firsts(FindPlaceholders(s), raws, idx) && forall raw :: raw in FindPlaceholders(s) <==> raw in raws
    ensures PatchedInTurn(texts, raws, values, secrets) && texts[0] == s && Some(texts[|raws|]) == Patched(s, secrets)
  {
    hide FindPlaceholders, Distinct, ReplaceEach, Available, PatchedInTurn, Firsts, Parse;
    raws := Distinct(FindPlaceholders(s));
    FoundArePlaceholders(s);
    idx := DistinctFirsts(FindPlaceholders(s));
    values, texts := EachInTurn(s, raws, secrets);
  }

  lemma {:induction false} DistinctFirsts(strs: seq<string>) returns (idx: seq<nat>)
    ensures Firsts(strs, Distinct(strs), idx) && forall k :: 0 <= k < |idx| ==> idx[k] < |strs|
  {
    if strs == [] {
      idx := [];
    } else {
      var n := |strs| - 1;
      var init := strs[..n];
      idx := DistinctFirsts(init);
      FirstsGrow(strs, Distinct(init), idx);
      if strs[n] !in Distinct(init) {
        forall k | 0 <= k < n ensures strs[k] in Distinct(init) { assert strs[k] == init[k]; }
        FirstsPush(strs, Distinct(init), idx, n);
        idx := idx + [n];
      }
    }
  }

  lemma FirstsGrow(strs: seq<string>, r: seq<string>, idx: seq<nat>)
    requires strs != [] && Firsts(strs[..|strs| - 1], r, idx)
    ensures Firsts(strs, r, idx)
  {
    var init := strs[..|strs| - 1];
    forall i, k | 0 <= i < |r| && 0 <= k < idx[i] ensures strs[k] != r[i] { assert strs[k] == init[k]; }
  }

  lemma {:induction false} EachInTurn(s: string, raws: seq<string>, secrets: Secrets) returns (values: seq<string>, texts: seq<string>)
    requires forall raw :: raw in raws ==> raw != "" && Available(secrets, raw)
    ensures PatchedInTurn(texts, raws, values, secrets) && texts[0] == s && texts[|raws|] == ReplaceEach(s, raws, ValueUnder(secrets))
    decreases |raws|
  {
    hide Parse, Replaced, ReplaceAll, ReplaceEach;
    if raws == [] {
      ReplaceEachNone(s, ValueUnder(secrets));
      values, texts := [], [s];
    } else {
      var value := Lookup(secrets, raws[0]);
      assert raws[0] in raws;
      ReplaceEachStep(s, raws, ValueUnder(secrets));
      ReplaceAllReplaces(s, raws[0], value);
      var rest, after := EachInTurn(ReplaceAll(s, raws[0], value), raws[1..], secrets);
      values, texts := [value] + rest, [s] + after;
    }
  }

  // ---------------------------------------------------------------- the secret and the response

  datatype MissingFieldStrategy = PreserveMissingField | SetEmptyMissingField | DeleteMissingField

  function SecretData(data: map<string, string>, key: string, value: Option<string>, strategy: MissingFieldStrategy): map<string, string> {
    if value.Some? then data[key := value.value]
    else
      match strategy
      case PreserveMissingField => data
      case SetEmptyMissingField => data[key := ""]
      case DeleteMissingField => data - {key}
  }

  /** A secret whose data is updated in place. */
  class Secret {
    var data: map<string, string>

    constructor (data: map<string, string>)
      ensures this.data == data
    {
      this.data := data;
    }

    /** A value found is stored; a missing one is treated by the strategy. No other key is touched. */
    method UpdateData(key: string, value: Option<string>, strategy: MissingFieldStrategy)
      modifies this
      ensures data == SecretData(old(data), key, value, strategy)
      ensures value.Some? ==> key in data && data[key] == value.value
      ensures value.None? && strategy.PreserveMissingField? ==> data == old(data)
      ensures value.None? && strategy.SetEmptyMissingField? ==> key in data && data[key] == ""
      ensures value.None? && strategy.DeleteMissingField? ==> key !in data
      ensures forall k :: k != key ==> (k in data <==> k in old(data)) && (k in data ==> data[k] == old(data)[k])
    {
      if value.Some? {
        data := data[key := value.value];
      } else {
        match strategy {
          case PreserveMissingField =>
          case SetEmptyMissingField => data := data[key := ""];
          case DeleteMissingField => data := data - {key};
        }
      }
    }
  }

  predicate IsBlank(c: char) {
    IsSpace(c) || c == '\U{000B}'
  }

  /** strings.TrimSpace. */
  function Trim(s: string): string {
    if s != "" && IsBlank(s[0]) then Trim(s[1..])
    else if s != "" && IsBlank(s[|s| - 1]) then Trim(s[..|s| - 1])
    else s
  }

  predicate IsJsonObject(s: string) {
    var t := Trim(s);
    |t| >= 2 && t[0] == '{' && t[|t| - 1] == '}'
  }

  /** The first and last characters that are not blank are braces. */
  predicate LooksLikeObject(s: string) {
    exists a, b :: 0 <= a < b < |s| && s[a] == '{' && s[b] == '}' && BlankIn(s, 0, a) && BlankIn(s, b + 1, |s|)
  }

  predicate BlankIn(s: string, from: nat, to: nat)
    requires from <= to <= |s|
  {
    forall i :: from <= i < to ==> IsBlank(s[i])
  }

  lemma {:induction false} TrimIsInner(s: string) returns (a: nat, b: nat)
    ensures a <= b <= |s| && Trim(s) == s[a..b] && BlankIn(s, 0, a) && BlankIn(s, b, |s|)
    ensures a < b ==> !IsBlank(s[a]) && !IsBlank(s[b - 1])
    decreases |s|
  {
    if s != "" && IsBlank(s[0]) {
      var rest := s[1..];
      var a1, b1 := TrimIsInner(rest);
      a, b := a1 + 1, b1 + 1;
      assert s[a..b] == rest[a1..b1];
      assert forall i :: 1 <= i < |s| ==> s[i] == rest[i - 1];
    } else if s != "" && IsBlank(s[|s| - 1]) {
      var init := s[..|s| - 1];
      a, b := TrimIsInner(init);
      assert s[a..b] == init[a..b];
      assert forall i :: 0 <= i < |s| - 1 ==> s[i] == init[i];
    } else {
      a, b := 0, |s|;
      assert s[0..|s|] == s;
    }
  }

  lemma JsonObjectsLookLikeIt(s: string)
    ensures IsJsonObject(s) <==> LooksLikeObject(s)
  {
    var a, b := TrimIsInner(s);
    if IsJsonObject(s) {
      assert s[a..b][0] == s[a] && s[a..b][b - a - 1] == s[b - 1];
    }
    if LooksLikeObject(s) {
      var c, d :| 0 <= c < d < |s| && s[c] == '{' && s[d] == '}' && BlankIn(s, 0, c) && BlankIn(s, d + 1, |s|);
      InnerIsUnique(s, a, b, c, d);
      assert s[a..b][0] == s[a] && s[a..b][b - a - 1] == s[b - 1];
    }
  }

  lemma InnerIsUnique(s: string, a: nat, b: nat, c: nat, d: nat)
    requires a <= b <= |s| && BlankIn(s, 0, a) && BlankIn(s, b, |s|) && (a < b ==> !IsBlank(s[a]) && !IsBlank(s[b - 1]))
    requires c < d < |s| && !IsBlank(s[c]) && !IsBlank(s[d]) && BlankIn(s, 0, c) && BlankIn(s, d + 1, |s|)
    ensures a == c && b == d + 1
  {
  }

  /** What masking makes of a body; `replaceObject` is replaceJSONObjectInBody. */
  function MaskedBody(body: string, value: string, placeholder: string, replaceObject: (string, string, string) -> Option<string>): string
    requires value != ""
  {
    if !IsJsonObject(value) then Mask(body, QUOTE, value, placeholder)
    else
      var replaced := replaceObject(body, value, placeholder);
      if replaced.Some? then replaced.value else ReplaceAll(body, value, QUOTE + placeholder + QUOTE)
  }

  class HttpResponse {
    var body: string
    var headers: map<string, seq<string>>

    constructor (body: string, headers: map<string, seq<string>>)
      ensures this.body == body && this.headers == headers
    {
      this.body, this.headers := body, headers;
    }

    /** Mask the value in place: in the body, then header by header, in any order of the keys. */
    method ReplaceSensitiveValues(placeholder: string, value: Option<string>, replaceObject: (string, string, string) -> Option<string>)
      modifies this
      ensures value == None || value == Some("") ==> body == old(body) && headers == old(headers)
      ensures value.Some? && value.value != "" ==>
        && body == MaskedBody(old(body), value.value, placeholder, replaceObject)
        && headers == MaskedHeaders(old(headers), value.value, placeholder)
      ensures value.Some? && value.value != "" ==> var v := value.value;
        && (!LooksLikeObject(v) ==> Replaced(old(body), body, QUOTE + v + QUOTE, QUOTE + placeholder + QUOTE))
        && (LooksLikeObject(v) && replaceObject(old(body), v, placeholder).Some? ==>
              body == replaceObject(old(body), v, placeholder).value)
        && (LooksLikeObject(v) && replaceObject(old(body), v, placeholder).None? ==>
              Replaced(old(body), body, v, QUOTE + placeholder + QUOTE))
        && headers.Keys == old(headers).Keys
        && (forall k :: k in headers ==> |headers[k]| == |old(headers)[k]|)
        && (forall k, i :: k in headers && 0 <= i < |headers[k]| ==> Replaced(old(headers)[k][i], headers[k][i], v, placeholder))
    {
      hide ReplaceAll, IsJsonObject, LooksLikeObject, Replaced;
      if value.None? || value.value == "" { return; }
      var v := value.value;
      JsonObjectsLookLikeIt(v);
      MaskReplaces(old(body), v, placeholder, replaceObject);
      HeadersReplaced(old(headers), v, placeholder);
      if IsJsonObject(v) {
        var replaced := replaceObject(body, v, placeholder);
        if replaced.Some? {
          body := replaced.value;
        } else {
          body := ReplaceAll(body, v, QUOTE + placeholder + QUOTE);
        }
      } else {
        body := ReplaceAll(body, QUOTE + v + QUOTE, QUOTE + placeholder + QUOTE);
      }
      var keys := headers.Keys;
      while keys != {}
        invariant keys <= headers.Keys == old(headers).Keys
        invariant body == MaskedBody(old(body), v, placeholder, replaceObject)
        invariant forall k :: k in keys ==> headers[k] == old(headers)[k]
        invariant forall k :: k in headers.Keys - keys ==> headers[k] == MaskedList(old(headers)[k], v, placeholder)
      {
        var k :| k in keys;
        var list := MaskList(headers[k], v, placeholder);
        headers := headers[k := list];
        keys := keys - {k};
      }
    }
  }

  lemma MaskReplaces(body: string, v: string, placeholder: string, replaceObject: (string, string, string) -> Option<string>)
    requires v != ""
    ensures var after := MaskedBody(body, v, placeholder, replaceObject);
      && (!IsJsonObject(v) ==> Replaced(body, after, QUOTE + v + QUOTE, QUOTE + placeholder + QUOTE))
      && (IsJsonObject(v) && replaceObject(body, v, placeholder).None? ==> Replaced(body, after, v, QUOTE + placeholder + QUOTE))
  {
    hide ReplaceAll, IsJsonObject, Replaced;
    ReplaceAllReplaces(body, QUOTE + v + QUOTE, QUOTE + placeholder + QUOTE);
    ReplaceAllReplaces(body, v, QUOTE + placeholder + QUOTE);
  }

  lemma HeadersReplaced(headers: map<string, seq<string>>, v: string, placeholder: string)
    requires v != ""
    ensures forall k :: k in headers ==> forall i :: 0 <= i < |headers[k]| ==>
      Replaced(headers[k][i], Mask(headers[k][i], "", v, placeholder), v, placeholder)
  {
    hide ReplaceAll, Replaced;
    assert "" + v + "" == v && "" + placeholder + "" == placeholder;
    forall k, i | k in headers && 0 <= i < |headers[k]|
      ensures Replaced(headers[k][i], Mask(headers[k][i], "", v, placeholder), v, placeholder)
    {
      ReplaceAllReplaces(headers[k][i], v, placeholder);
    }
  }

  method MaskList(list: seq<string>, value: string, placeholder: string) returns (r: seq<string>)
    requires value != ""
    ensures r == MaskedList(list, value, placeholder)
  {
    hide ReplaceAll;
    r := list;
    for i := 0 to |list|
      invariant |r| == |list|
      invariant forall j :: 0 <= j < i ==> r[j] == Mask(list[j], "", value, placeholder)
      invariant forall j :: i <= j < |list| ==> r[j] == list[j]
    {
      assert "" + value + "" == value && "" + placeholder + "" == placeholder;
      r := r[i := ReplaceAll(r[i], value, placeholder)];
    }
  }

  function MaskedList(list: seq<string>, value: string, placeholder: string): (r: seq<string>)
    requires value != ""
    ensures |r| == |list| && forall j :: 0 <= j < |list| ==> r[j] == Mask(list[j], "", value, placeholder)
  {
    seq(|list|, j requires 0 <= j < |list| => Mask(list[j], "", value, placeholder))
  }

  function MaskedHeaders(headers: map<string, seq<string>>, value: string, placeholder: string): map<string, seq<string>>
    requires value != ""
  {
    map k | k in headers :: MaskedList(headers[k], value, placeholder)
  }

  /** Patching every value of every header; None when a secret is missing. */
  ghost predicate HeadersPatchTo(masked: map<string, seq<string>>, secrets: Secrets, headers: map<string, seq<string>>) {
    && masked.Keys == headers.Keys
    && forall k :: k in headers ==>
      |masked[k]| == |headers[k]| && forall i :: 0 <= i < |headers[k]| ==> Patched(masked[k][i], secrets) == Some(headers[k][i])
  }

  // ---------------------------------------------------------------- the round trip

  /** One text, masked and patched with the secret that holds the value. */
  lemma TextRoundTrip(t: string, quote: string, value: string, name: string, namespace: string, key: string, secrets: Secrets)
    requires quote == "" || quote == QUOTE
    requires IsNamePart(name) && IsNamePart(namespace) && IsNamePart(key)
    requires value != "" && FindPlaceholders(t) == []
    requires (name, namespace) in secrets && key in secrets[(name, namespace)] && secrets[(name, namespace)][key] == value
    ensures Patched(Mask(t, quote, value, PlaceholderFor(name, namespace, key)), secrets) == Some(t)
  {
    hide Parse, FindPlaceholders, ReplaceAll, ReplaceEach, PlaceholderFor;
    var p := PlaceholderFor(name, namespace, key);
    PlaceholderForParses(name, namespace, key);
    PlaceholderBraces(p);
    MaskUndone(t, quote, value, p);
    var m := Mask(t, quote, value, p);
    var raws := Distinct(FindPlaceholders(m));
    assert Available(secrets, p) && Lookup(secrets, p) == value;
    DistinctOfOne(FindPlaceholders(m), p);
    if raws == [] {
      ReplaceEachNone(m, ValueUnder(secrets));
    } else {
      assert raws == [p] && [p][1..] == [];
      ReplaceEachStep(m, [p], ValueUnder(secrets));
      ReplaceEachNone(t, ValueUnder(secrets));
    }
  }

  lemma {:induction false} DistinctOfOne(strs: seq<string>, s: string)
    requires forall x :: x in strs ==> x == s
    ensures Distinct(strs) == if strs == [] then [] else [s]
  {
    if strs != [] {
      var init := strs[..|strs| - 1];
      assert strs[|strs| - 1] in strs;
      forall x | x in init ensures x == s { assert x in strs; }
      DistinctOfOne(init, s);
    }
  }

  /**
   Mask, then patch: body and headers come back exactly, for every simple value stored under
   its key and every response that held no placeholder before.
   */
  lemma ResponseRoundTrip(body: string, headers: map<string, seq<string>>, value: string,
                          name: string, namespace: string, key: string, secrets: Secrets,
                          data: map<string, string>, strategy: MissingFieldStrategy,
                          replaceObject: (string, string, string) -> Option<string>)
    requires IsNamePart(name) && IsNamePart(namespace) && IsNamePart(key)
    requires value != "" && !IsJsonObject(value)
    requires FindPlaceholders(body) == []
    requires forall k :: k in headers ==> forall i :: 0 <= i < |headers[k]| ==> FindPlaceholders(headers[k][i]) == []
    requires (name, namespace) in secrets
    requires secrets[(name, namespace)] == SecretData(data, key, Some(value), strategy)
    ensures var p := PlaceholderFor(name, namespace, key);
      && Patched(MaskedBody(body, value, p, replaceObject), secrets) == Some(body)
      && HeadersPatchTo(MaskedHeaders(headers, value, p), secrets, headers)
  {
    hide Patched, Mask, FindPlaceholders, IsJsonObject, PlaceholderFor;
    TextRoundTrip(body, QUOTE, value, name, namespace, key, secrets);
    forall k, i | k in headers && 0 <= i < |headers[k]|
      ensures Patched(Mask(headers[k][i], "", value, PlaceholderFor(name, namespace, key)), secrets) == Some(headers[k][i])
    {
      TextRoundTrip(headers[k][i], "", value, name, namespace, key, secrets);
    }
  }
}
