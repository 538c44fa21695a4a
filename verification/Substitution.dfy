/**
 Patching a text placeholder after placeholder, against one simultaneous substitution: exactly
 when a single replacement fills its slots and nothing else, and when the whole loop does.
 */
module Substitution {
  import opened Api
  import opened Placeholders

  // ---------------------------------------------------------------- filling slots

  function Lits(s: string): (cells: seq<Cell>)
    ensures |cells| == |s| && forall i :: 0 <= i < |s| ==> cells[i] == Lit(s[i])
  {
    if s == "" then [] else [Lit(s[0])] + Lits(s[1..])
  }

  function Fill(cells: seq<Cell>, raw: string, value: string): seq<Cell> {
    if cells == [] then []
    else (if cells[0] == Slot(raw) then Lits(value) else [cells[0]]) + Fill(cells[1..], raw, value)
  }

  /** Every slot replaced at once, by what `value` gives for it. */
  function Substitute(cells: seq<Cell>, value: string -> string): string {
    if cells == [] then ""
    else (match cells[0] case Lit(c) => [c] case Slot(raw) => value(raw)) + Substitute(cells[1..], value)
  }

  lemma {:induction false} FlattenAppend(a: seq<Cell>, b: seq<Cell>)
    ensures Flatten(a + b) == Flatten(a) + Flatten(b)
  {
    if a == [] {
      assert a + b == b;
    } else {
      assert (a + b)[1..] == a[1..] + b;
      FlattenAppend(a[1..], b);
    }
  }

  lemma {:induction false} FlattenLits(s: string)
    ensures Flatten(Lits(s)) == s
  {
    if s != "" {
      FlattenLits(s[1..]);
      assert Lits(s)[1..] == Lits(s[1..]);
    }
  }

  lemma {:induction false} FillThenSubstitute(cells: seq<Cell>, raw: string, value: string -> string)
    ensures Substitute(Fill(cells, raw, value(raw)), value) == Substitute(cells, value)
  {
    if cells != [] {
      FillThenSubstitute(cells[1..], raw, value);
      var head := if cells[0] == Slot(raw) then Lits(value(raw)) else [cells[0]];
      SubstituteAppend(head, Fill(cells[1..], raw, value(raw)), value);
      SubstituteLits(value(raw), value);
      if cells[0] != Slot(raw) { assert Substitute([cells[0]], value) == (match cells[0] case Lit(c) => [c] case Slot(r) => value(r)) + Substitute([], value); }
    }
  }

  lemma {:induction false} SubstituteAppend(a: seq<Cell>, b: seq<Cell>, value: string -> string)
    ensures Substitute(a + b, value) == Substitute(a, value) + Substitute(b, value)
  {
    if a == [] {
      assert a + b == b;
    } else {
      assert (a + b)[1..] == a[1..] + b;
      SubstituteAppend(a[1..], b, value);
    }
  }

  lemma {:induction false} SubstituteLits(s: string, value: string -> string)
    ensures Substitute(Lits(s), value) == s
  {
    if s != "" {
      SubstituteLits(s[1..], value);
      assert Lits(s)[1..] == Lits(s[1..]);
    }
  }

  lemma {:induction false} FillLits(s: string, raw: string, value: string)
    ensures Fill(Lits(s), raw, value) == Lits(s)
  {
    if s != "" {
      FillLits(s[1..], raw, value);
      assert Lits(s)[1..] == Lits(s[1..]);
    }
  }

  lemma {:induction false} FillAppend(a: seq<Cell>, b: seq<Cell>, raw: string, value: string)
    ensures Fill(a + b, raw, value) == Fill(a, raw, value) + Fill(b, raw, value)
  {
    if a == [] {
      assert a + b == b;
    } else {
      assert (a + b)[1..] == a[1..] + b;
      FillAppend(a[1..], b, raw, value);
    }
  }

  lemma {:induction false} FillSlots(cells: seq<Cell>, raw: string, value: string, other: string)
    ensures Slot(other) in Fill(cells, raw, value) <==> Slot(other) in cells && other != raw
  {
    if cells != [] { FillSlots(cells[1..], raw, value, other); }
  }

  lemma {:induction false} NoSlots(cells: seq<Cell>, value: string -> string)
    requires forall raw :: Slot(raw) !in cells
    ensures Flatten(cells) == Substitute(cells, value)
  {
    if cells != [] {
      assert cells[0] in cells;
      NoSlots(cells[1..], value);
    }
  }

  /** Inside one placeholder, and at its start unless it is the same, no other one starts. */
  lemma SlotStartsOnlyItself(slot: string, rest: string, raw: string, k: nat)
    requires IsPlaceholder(slot) && IsPlaceholder(raw) && k < |slot|
    ensures HasPrefix((slot + rest)[k..], raw) ==> k == 0 && slot == raw
  {
    hide Parse;
    var s := slot + rest;
    if HasPrefix(s[k..], raw) {
      assert forall i :: 0 <= i < |raw| ==> s[k..][i] == raw[i] by {
        forall i | 0 <= i < |raw| ensures s[k..][i] == raw[i] { assert s[k..][..|raw|][i] == raw[i]; }
      }
      assert s[k] == '{' by { assert s[k] == s[k..][0]; }
      assert s[k + 1] == '{' by { assert s[k + 1] == s[k..][1]; }
      assert k == 0;
      assert s[0..] == s;
      if |slot| <= |raw| { SamePlaceholder(slot, raw); } else { SamePlaceholder(raw, slot); }
      assert slot == s[..|slot|] == raw;
    }
  }

  lemma SamePlaceholder(a: string, b: string)
    requires Shaped(a, |a|) && Shaped(b, |b|) && |a| <= |b|
    requires forall i :: 0 <= i < |a| ==> a[i] == b[i]
    ensures |a| == |b|
  {
    assert IsBrace(b[|a| - 2]);
  }

  // ---------------------------------------------------------------- stray occurrences

  /** The placeholder occurs where the text has none: an occurrence starts at a literal. */
  predicate Strays(cells: seq<Cell>, raw: string) {
    cells != [] && ((cells[0].Lit? && HasPrefix(Flatten(cells), raw)) || Strays(cells[1..], raw))
  }

  /** How many literals the cells begin with. */
  function Lead(cells: seq<Cell>): (n: nat)
    ensures n <= |cells|
    ensures n < |cells| ==> cells[n].Slot?
  {
    if cells == [] || cells[0].Slot? then 0 else 1 + Lead(cells[1..])
  }

  lemma {:induction false} LeadIsText(cells: seq<Cell>)
    ensures var n, s := Lead(cells), Flatten(cells);
      n <= |s| && cells[..n] == Lits(s[..n]) && s[n..] == Flatten(cells[n..])
  {
    var n, s := Lead(cells), Flatten(cells);
    if n == 0 {
      assert cells[0..] == cells && s[0..] == s;
    } else {
      LeadIsText(cells[1..]);
      var rest := Flatten(cells[1..]);
      assert s == [cells[0].c] + rest;
      assert cells[n..] == cells[1..][n - 1..] && s[n..] == rest[n - 1..];
      forall i | 0 <= i < n ensures cells[..n][i] == Lit(s[..n][i]) {
        if i > 0 { assert cells[1..][..n - 1][i - 1] == cells[i]; }
      }
    }
  }

  /** A stray occurrence lies in literals entirely: no placeholder reaches into a slot. */
  lemma StrayIsLiteral(cells: seq<Cell>, raw: string)
    requires WellFormed(cells) && cells != [] && cells[0].Lit? && IsPlaceholder(raw) && HasPrefix(Flatten(cells), raw)
    ensures |raw| <= |cells| && cells[..|raw|] == Lits(raw)
  {
    hide IsPlaceholder, WellFormed, Flatten;
    var n, s := Lead(cells), Flatten(cells);
    LeadIsText(cells);
    LeadCoversStray(cells, raw);
    assert cells[..|raw|] == cells[..n][..|raw|] == Lits(s[..n])[..|raw|];
    assert s[..|raw|] == raw == s[..n][..|raw|];
  }

  lemma LeadCoversStray(cells: seq<Cell>, raw: string)
    requires WellFormed(cells) && cells != [] && cells[0].Lit? && IsPlaceholder(raw) && HasPrefix(Flatten(cells), raw)
    ensures |raw| <= Lead(cells)
  {
    hide Parse, Flatten, Lits;
    var n, s := Lead(cells), Flatten(cells);
    LeadIsText(cells);
    PrefixIndices(s, raw);
    PlaceholderBraces(raw);
    assert n >= 1;
    if n < |cells| {
      SlotText(cells[n..]);
      assert s[n] == s[n..][0] && s[n + 1] == s[n..][1];
      assert Shaped(raw, |raw|);
    } else {
      assert cells[n..] == [];
      assert Flatten(cells[n..]) == "" by { FlattenNone(); }
    }
  }

  lemma SlotText(cells: seq<Cell>)
    requires WellFormed(cells) && cells != [] && cells[0].Slot?
    ensures var s := Flatten(cells); |s| >= 5 && s[0] == '{' && s[1] == '{'
  {
    hide Parse;
    PlaceholderBraces(cells[0].raw);
  }

  lemma WellFormedTail(cells: seq<Cell>, n: nat)
    requires WellFormed(cells) && n <= |cells|
    ensures WellFormed(cells[n..])
  {
    hide IsPlaceholder;
    assert forall i :: 0 <= i < |cells| - n ==> cells[n..][i] == cells[i + n];
  }

  // ---------------------------------------------------------------- one replacement

  /** What becomes of the first cell. */
  function HeadText(cells: seq<Cell>, raw: string, value: string): string
    requires cells != []
  {
    match cells[0]
    case Lit(c) => [c]
    case Slot(slot) => if slot == raw then value else slot
  }

  lemma HeadFilled(cells: seq<Cell>, raw: string, value: string)
    requires cells != []
    ensures Flatten(Fill(cells, raw, value)) == HeadText(cells, raw, value) + Flatten(Fill(cells[1..], raw, value))
  {
    if cells[0] == Slot(raw) {
      FlattenAppend(Lits(value), Fill(cells[1..], raw, value));
      FlattenLits(value);
    } else {
      assert Fill(cells, raw, value)[1..] == Fill(cells[1..], raw, value);
    }
  }

  /** ReplaceAll treats the head of the cells as Fill does, unless a stray occurrence starts there. */
  lemma HeadReplaced(cells: seq<Cell>, raw: string, value: string)
    requires WellFormed(cells) && IsPlaceholder(raw) && raw != "" && cells != []
    requires cells[0].Lit? ==> !HasPrefix(Flatten(cells), raw)
    ensures ReplaceAll(Flatten(cells), raw, value) == HeadText(cells, raw, value) + ReplaceAll(Flatten(cells[1..]), raw, value)
    ensures Flatten(Fill(cells, raw, value)) == HeadText(cells, raw, value) + Flatten(Fill(cells[1..], raw, value))
  {
    hide Parse, Fill, IsPlaceholder;
    HeadFilled(cells, raw, value);
    var s, rest := Flatten(cells), Flatten(cells[1..]);
    match cells[0] {
      case Lit(c) => assert s[0] == c && s[1..] == rest;
      case Slot(slot) => SlotReplaced(slot, rest, raw, value);
    }
  }

  lemma SlotReplaced(slot: string, rest: string, raw: string, value: string)
    requires IsPlaceholder(slot) && IsPlaceholder(raw) && raw != ""
    ensures ReplaceAll(slot + rest, raw, value) == (if slot == raw then value else slot) + ReplaceAll(rest, raw, value)
  {
    hide Parse, Shaped, IsPlaceholder;
    var s := slot + rest;
    assert s[..|slot|] == slot && s[|slot|..] == rest;
    if slot != raw {
      hide ReplaceAll, HasPrefix;
      forall k | 0 <= k < |slot| ensures !HasPrefix(s[k..], raw) { SlotStartsOnlyItself(slot, rest, raw, k); }
      ReplaceSkips(s, |slot|, raw, value);
    }
  }

  /** How they treat a stray occurrence: ReplaceAll replaces it, Fill leaves it alone. */
  lemma StrayReplaced(cells: seq<Cell>, raw: string, value: string)
    requires WellFormed(cells) && IsPlaceholder(raw) && raw != "" && cells != [] && cells[0].Lit? && HasPrefix(Flatten(cells), raw)
    ensures |raw| <= |cells| && cells[..|raw|] == Lits(raw)
    ensures var rest := cells[|raw|..];
      && ReplaceAll(Flatten(cells), raw, value) == value + ReplaceAll(Flatten(rest), raw, value)
      && Flatten(Fill(cells, raw, value)) == raw + Flatten(Fill(rest, raw, value))
  {
    hide Parse, Strays;
    StrayIsLiteral(cells, raw);
    var rest := cells[|raw|..];
    assert cells == Lits(raw) + rest;
    FlattenAppend(Lits(raw), rest);
    FlattenLits(raw);
    assert Flatten(cells)[|raw|..] == Flatten(rest);
    FillAppend(Lits(raw), rest, raw, value);
    FillLits(raw, raw, value);
    FlattenAppend(Lits(raw), Fill(rest, raw, value));
  }

  /** Without a stray occurrence, ReplaceAll fills the slots of a placeholder and touches nothing else. */
  lemma {:induction false} ReplaceIsFill(cells: seq<Cell>, raw: string, value: string)
    requires WellFormed(cells) && IsPlaceholder(raw) && raw != "" && !Strays(cells, raw)
    ensures ReplaceAll(Flatten(cells), raw, value) == Flatten(Fill(cells, raw, value))
  {
    hide Parse, ReplaceAll, WellFormed;
    if cells == [] {
      NothingReplaced(raw, value);
    } else {
      WellFormedTail(cells, 1);
      ReplaceIsFill(cells[1..], raw, value);
      HeadReplaced(cells, raw, value);
    }
  }

  lemma NothingReplaced(raw: string, value: string)
    requires raw != ""
    ensures ReplaceAll(Flatten([]), raw, value) == Flatten(Fill([], raw, value)) == ""
  {
  }

  /** Nor does it when the value is the placeholder itself. */
  lemma {:induction false} ReplaceBySelf(cells: seq<Cell>, raw: string)
    requires WellFormed(cells) && IsPlaceholder(raw) && raw != ""
    ensures ReplaceAll(Flatten(cells), raw, raw) == Flatten(Fill(cells, raw, raw))
    decreases |cells|
  {
    hide Parse, ReplaceAll, WellFormed;
    if cells == [] {
      NothingReplaced(raw, raw);
    } else if cells[0].Lit? && HasPrefix(Flatten(cells), raw) {
      StrayReplaced(cells, raw, raw);
      WellFormedTail(cells, |raw|);
      ReplaceBySelf(cells[|raw|..], raw);
    } else {
      WellFormedTail(cells, 1);
      ReplaceBySelf(cells[1..], raw);
      HeadReplaced(cells, raw, raw);
    }
  }

  /** The stray occurrences, from left to right. */
  function StrayCount(cells: seq<Cell>, raw: string): nat
    decreases |cells|
  {
    if cells == [] then 0
    else if cells[0].Lit? && HasPrefix(Flatten(cells), raw) && 0 < |raw| <= |cells| then 1 + StrayCount(cells[|raw|..], raw)
    else StrayCount(cells[1..], raw)
  }

  /** Each stray occurrence changes the length by the difference between value and placeholder. */
  lemma {:induction false} StrayLengths(cells: seq<Cell>, raw: string, value: string)
    requires WellFormed(cells) && IsPlaceholder(raw) && raw != ""
    ensures |ReplaceAll(Flatten(cells), raw, value)| - |Flatten(Fill(cells, raw, value))| == StrayCount(cells, raw) * (|value| - |raw|)
    ensures Strays(cells, raw) ==> StrayCount(cells, raw) >= 1
    decreases |cells|
  {
    hide Parse, ReplaceAll, WellFormed, Fill;
    if cells == [] {
      NothingReplaced(raw, value);
    } else if cells[0].Lit? && HasPrefix(Flatten(cells), raw) {
      StrayReplaced(cells, raw, value);
      WellFormedTail(cells, |raw|);
      StrayLengths(cells[|raw|..], raw, value);
      OneMore(StrayCount(cells[|raw|..], raw), |value| - |raw|);
    } else {
      WellFormedTail(cells, 1);
      StrayLengths(cells[1..], raw, value);
      HeadReplaced(cells, raw, value);
    }
  }

  /** A value of the placeholder's own length shows at the first stray occurrence. */
  lemma {:induction false} StrayShows(cells: seq<Cell>, raw: string, value: string)
    requires WellFormed(cells) && IsPlaceholder(raw) && raw != "" && Strays(cells, raw) && |value| == |raw| && value != raw
    ensures ReplaceAll(Flatten(cells), raw, value) != Flatten(Fill(cells, raw, value))
    decreases |cells|
  {
    hide Parse, ReplaceAll, WellFormed, Fill;
    var r, f := ReplaceAll(Flatten(cells), raw, value), Flatten(Fill(cells, raw, value));
    if cells[0].Lit? && HasPrefix(Flatten(cells), raw) {
      StrayReplaced(cells, raw, value);
      assert r[..|raw|] == value && f[..|raw|] == raw;
    } else {
      WellFormedTail(cells, 1);
      StrayShows(cells[1..], raw, value);
      HeadReplaced(cells, raw, value);
      var head := HeadText(cells, raw, value);
      assert r[|head|..] == ReplaceAll(Flatten(cells[1..]), raw, value) && f[|head|..] == Flatten(Fill(cells[1..], raw, value));
    }
  }

  /** One replacement is exact if and only if no stray occurrence awaits it, or it replaces like by like. */
  lemma ReplacementIsExact(cells: seq<Cell>, raw: string, value: string)
    requires WellFormed(cells) && IsPlaceholder(raw) && raw != ""
    ensures ReplaceAll(Flatten(cells), raw, value) == Flatten(Fill(cells, raw, value)) <==> value == raw || !Strays(cells, raw)
  {
    hide Parse, ReplaceAll, WellFormed, Fill, Strays;
    if value == raw {
      ReplaceBySelf(cells, raw);
    } else if !Strays(cells, raw) {
      ReplaceIsFill(cells, raw, value);
    } else if |value| == |raw| {
      StrayShows(cells, raw, value);
    } else {
      StrayLengths(cells, raw, value);
      NonZeroProduct(StrayCount(cells, raw), |value| - |raw|);
    }
  }

  lemma OneMore(n: nat, d: int)
    ensures (1 + n) * d == d + n * d
  {
  }

  lemma NonZeroProduct(a: nat, b: int)
    requires a >= 1 && b != 0
    ensures a * b != 0
  {
  }

  // ---------------------------------------------------------------- the whole loop

  lemma {:induction false} FillWellFormed(cells: seq<Cell>, raw: string, value: string)
    requires WellFormed(cells)
    ensures WellFormed(Fill(cells, raw, value))
  {
    hide IsPlaceholder;
    if cells != [] {
      WellFormedTail(cells, 1);
      FillWellFormed(cells[1..], raw, value);
    }
  }

  /** Every intermediate text of the loop is the partial substitution. */
  ghost predicate Stepwise(cells: seq<Cell>, raws: seq<string>, value: string -> string)
    requires forall raw :: raw in raws ==> raw != ""
    decreases |raws|
  {
    raws == [] || (
      assert raws[0] in raws && forall raw :: raw in raws[1..] ==> raw in raws;
      var filled := Fill(cells, raws[0], value(raws[0]));
      ReplaceAll(Flatten(cells), raws[0], value(raws[0])) == Flatten(filled) && Stepwise(filled, raws[1..], value))
  }

  /** No placeholder strays when its turn comes, unless it stands for itself. */
  predicate NeverStrays(cells: seq<Cell>, raws: seq<string>, value: string -> string)
    decreases |raws|
  {
    raws == [] || (
      (value(raws[0]) == raws[0] || !Strays(cells, raws[0])) && NeverStrays(Fill(cells, raws[0], value(raws[0])), raws[1..], value))
  }

  /** The loop is a stepwise substitution if and only if no placeholder strays when its turn comes. */
  lemma {:induction false} LoopIsStepwise(cells: seq<Cell>, raws: seq<string>, value: string -> string)
    requires WellFormed(cells) && forall raw :: raw in raws ==> IsPlaceholder(raw) && raw != ""
    ensures Stepwise(cells, raws, value) <==> NeverStrays(cells, raws, value)
    decreases |raws|
  {
    hide Strays, ReplaceAll, Fill, WellFormed, IsPlaceholder;
    if raws != [] {
      var raw := raws[0];
      assert raw in raws;
      forall r | r in raws[1..] ensures IsPlaceholder(r) && r != "" { assert r in raws; }
      ReplacementIsExact(cells, raw, value(raw));
      FillWellFormed(cells, raw, value(raw));
      LoopIsStepwise(Fill(cells, raw, value(raw)), raws[1..], value);
    }
  }

  /** Once a stepwise loop has taken every placeholder, its text is the simultaneous substitution. */
  lemma {:induction false} StepwiseSubstitutes(cells: seq<Cell>, raws: seq<string>, value: string -> string)
    requires forall raw :: raw in raws ==> raw != ""
    requires Stepwise(cells, raws, value) && forall raw :: Slot(raw) in cells ==> raw in raws
    ensures ReplaceEach(Flatten(cells), raws, value) == Substitute(cells, value)
    decreases |raws|
  {
    hide ReplaceAll, Fill, Substitute, Flatten, ReplaceEach;
    if raws == [] {
      NoSlots(cells, value);
      ReplaceEachNone(Flatten(cells), value);
    } else {
      var raw := raws[0];
      var filled := Fill(cells, raw, value(raw));
      forall other | Slot(other) in filled ensures other in raws[1..] { FillSlots(cells, raw, value(raw), other); }
      ReplaceEachStep(Flatten(cells), raws, value);
      StepwiseSubstitutes(filled, raws[1..], value);
      FillThenSubstitute(cells, raw, value);
    }
  }

  /** A stray occurrence stays to the end: it consists of literals, which nothing fills. */
  lemma {:induction false} StrayStays(cells: seq<Cell>, raw: string, value: string -> string)
    requires WellFormed(cells) && IsPlaceholder(raw) && Strays(cells, raw)
    ensures Contains(Substitute(cells, value), raw)
  {
    hide IsPlaceholder, WellFormed, Flatten, Lits;
    var s := Substitute(cells, value);
    if cells[0].Lit? && HasPrefix(Flatten(cells), raw) {
      StrayIsLiteral(cells, raw);
      assert cells == Lits(raw) + cells[|raw|..];
      SubstituteAppend(Lits(raw), cells[|raw|..], value);
      SubstituteLits(raw, value);
      assert s[0..] == s && s[..|raw|] == raw;
    } else {
      WellFormedTail(cells, 1);
      StrayStays(cells[1..], raw, value);
      var rest := Substitute(cells[1..], value);
      var i :| 0 <= i <= |rest| && HasPrefix(rest[i..], raw);
      var k := |s| - |rest|;
      assert s[k + i..] == rest[i..];
    }
  }

  /** No placeholder of the text occurs in the substituted text, but for those that stand for themselves. */
  predicate Vanish(raws: seq<string>, value: string -> string, result: string) {
    forall raw :: raw in raws ==> value(raw) == raw || !Contains(result, raw)
  }

  lemma {:induction false} VanishedNeverStray(cells: seq<Cell>, raws: seq<string>, value: string -> string)
    requires WellFormed(cells) && forall raw :: raw in raws ==> IsPlaceholder(raw)
    requires Vanish(raws, value, Substitute(cells, value))
    ensures NeverStrays(cells, raws, value)
    decreases |raws|
  {
    hide Strays, Fill, WellFormed, IsPlaceholder, Contains, Substitute;
    if raws != [] {
      var raw := raws[0];
      assert raw in raws;
      forall r | r in raws[1..] ensures r in raws {}
      if Strays(cells, raw) { StrayStays(cells, raw, value); }
      FillWellFormed(cells, raw, value(raw));
      FillThenSubstitute(cells, raw, value);
      VanishedNeverStray(Fill(cells, raw, value(raw)), raws[1..], value);
    }
  }

  /**
   Replacing the placeholders of a text one after the other, in any order and with any
   repetition, is one simultaneous substitution, if none of them occurs in the substituted text.
   */
  lemma SequentialIsSimultaneous(s: string, raws: seq<string>, value: string -> string)
    requires forall raw :: raw in raws <==> raw in FindPlaceholders(s)
    requires Vanish(raws, value, Substitute(Scan(s), value))
    ensures (forall raw :: raw in raws ==> raw != "") && ReplaceEach(s, raws, value) == Substitute(Scan(s), value)
  {
    hide Parse, Scan, Substitute, Vanish, IsPlaceholder;
    var cells := Scan(s);
    ScanFlatten(s);
    ScanWellFormed(s);
    FoundArePlaceholders(s);
    forall raw | Slot(raw) in cells ensures raw in raws { SlotsIn(cells, raw); }
    VanishedNeverStray(cells, raws, value);
    LoopIsStepwise(cells, raws, value);
    StepwiseSubstitutes(cells, raws, value);
  }

  /** At first nothing strays: the scan has found every occurrence. */
  lemma {:induction false} ScanNeverStrays(s: string, raw: string)
    requires IsPlaceholder(raw)
    ensures !Strays(Scan(s), raw)
    decreases |s|
  {
    hide Parse, Shaped;
    if s != "" {
      ScanFlatten(s);
      var r := Parse(s);
      if r.Some? {
        assert Scan(s)[1..] == Scan(s[r.value.len..]);
        ScanNeverStrays(s[r.value.len..], raw);
      } else {
        assert Scan(s)[1..] == Scan(s[1..]);
        ScanNeverStrays(s[1..], raw);
        if HasPrefix(s, raw) {
          assert raw[..|raw|] == raw;
          ParseLocal(raw, s);
        }
      }
    }
  }

  /**
   The result itself: if no placeholder strays before the last one's turn, the loop yields the
   substitution if and only if the last one does not stray either.
   */
  lemma {:induction false} LastDecides(cells: seq<Cell>, raws: seq<string>, value: string -> string)
    requires WellFormed(cells) && raws != [] && forall raw :: raw in raws ==> IsPlaceholder(raw) && raw != ""
    requires forall raw :: Slot(raw) in cells ==> raw in raws
    requires NeverStrays(cells, raws[..|raws| - 1], value)
    ensures ReplaceEach(Flatten(cells), raws, value) == Substitute(cells, value) <==> NeverStrays(cells, raws, value)
    decreases |raws|
  {
    hide Strays, ReplaceAll, Fill, WellFormed, IsPlaceholder, Substitute, Flatten, ReplaceEach;
    var raw, rest := raws[0], raws[1..];
    assert raw in raws;
    forall r | r in rest ensures IsPlaceholder(r) && r != "" { assert r in raws; }
    var filled := Fill(cells, raw, value(raw));
    ReplacementIsExact(cells, raw, value(raw));
    FillWellFormed(cells, raw, value(raw));
    FillThenSubstitute(cells, raw, value);
    ReplaceEachStep(Flatten(cells), raws, value);
    forall other | Slot(other) in filled ensures other in rest { FillSlots(cells, raw, value(raw), other); }
    if rest == [] {
      NoSlots(filled, value);
      ReplaceEachNone(ReplaceAll(Flatten(cells), raw, value(raw)), value);
    } else {
      assert raws[..|raws| - 1][1..] == rest[..|rest| - 1];
      LastDecides(filled, rest, value);
    }
  }

  /**
   For a text with two placeholders the result is exact if and only if the second one does not
   stray once the first is replaced, or stands for itself.
   */
  lemma TwoPlaceholders(s: string, a: string, b: string, value: string -> string)
    requires a != b && IsPlaceholder(a) && IsPlaceholder(b) && a != "" && b != ""
    requires forall raw :: raw in FindPlaceholders(s) ==> raw == a || raw == b
    ensures ReplaceEach(s, [a, b], value) == Substitute(Scan(s), value)
            <==> value(b) == b || !Strays(Fill(Scan(s), a, value(a)), b)
  {
    hide Parse, Scan, Substitute, Strays, Fill, IsPlaceholder, WellFormed;
    var cells := Scan(s);
    ScanFlatten(s);
    ScanWellFormed(s);
    ScanNeverStrays(s, a);
    forall raw | Slot(raw) in cells ensures raw in [a, b] {
      SlotsIn(cells, raw);
      assert raw in FindPlaceholders(s);
    }
    assert [a, b][..1] == [a] && [a][1..] == [] && [a, b][1..] == [b] && [b][1..] == [];
    var filled := Fill(cells, a, value(a));
    assert NeverStrays(filled, [], value);
    assert NeverStrays(filled, [b], value) <==> value(b) == b || !Strays(filled, b);
    LastDecides(cells, [a, b], value);
  }

  /** Patching is one simultaneous substitution of the secrets' values. */
  lemma PatchIsSubstitution(s: string, secrets: Secrets)
    requires forall raw :: raw in FindPlaceholders(s) ==> Available(secrets, raw)
    requires Vanish(FindPlaceholders(s), ValueUnder(secrets), Substitute(Scan(s), ValueUnder(secrets)))
    ensures Patched(s, secrets) == Some(Substitute(Scan(s), ValueUnder(secrets)))
  {
    hide Parse, Scan, Substitute, Contains;
    SequentialIsSimultaneous(s, Distinct(FindPlaceholders(s)), ValueUnder(secrets));
  }

  // ---------------------------------------------------------------- sufficient conditions

  predicate NoDoubleBrace(s: string) {
    forall i :: 0 <= i < |s| - 1 ==> !(s[i] == '{' && s[i + 1] == '{')
  }

  /** It is enough that the substituted text holds no two opening braces in a row. */
  lemma NoDoubleBraceSuffices(raws: seq<string>, value: string -> string, result: string)
    requires NoDoubleBrace(result) && forall raw :: raw in raws ==> IsPlaceholder(raw)
    ensures Vanish(raws, value, result)
  {
    hide Parse, Shaped;
    forall raw | raw in raws ensures !Contains(result, raw) {
      PlaceholderBraces(raw);
      forall i | 0 <= i <= |result| ensures !HasPrefix(result[i..], raw) {
        PrefixIndices(result[i..], raw);
        assert |raw| <= |result| - i ==> result[i..][0] == result[i] && result[i..][1] == result[i + 1];
      }
    }
  }

  /** No two literal opening braces in a row: nothing outside the slots can look like one. */
  ghost predicate Clean(cells: seq<Cell>) {
    && WellFormed(cells)
    && forall i :: 0 <= i < |cells| - 1 ==> !(cells[i] == Lit('{') && cells[i + 1] == Lit('{'))
  }

  predicate BraceFree(s: string) {
    forall i :: 0 <= i < |s| ==> !IsBrace(s[i])
  }

  lemma LiteralHead(cells: seq<Cell>)
    requires Clean(cells) && cells != [] && cells[0].Lit?
    ensures var s := Flatten(cells); |s| >= 3 && s[0] == '{' && s[1] == '{' ==> s[2] == '{'
  {
    hide Parse, Shaped;
    var rest := Flatten(cells[1..]);
    if cells[1..] == [] {
      assert rest == "";
    } else {
      match cells[1] {
        case Lit(c) => assert rest[0] == c;
        case Slot(raw) =>
          PlaceholderBraces(raw);
          assert rest[0] == raw[0] && rest[1] == raw[1];
      }
    }
  }

  lemma CleanTail(cells: seq<Cell>)
    requires Clean(cells) && cells != []
    ensures Clean(cells[1..])
  {
    forall i | 0 <= i < |cells| - 2 ensures !(cells[1..][i] == Lit('{') && cells[1..][i + 1] == Lit('{')) {
      assert cells[1..][i] == cells[i + 1] && cells[1..][i + 1] == cells[i + 2];
    }
  }

  /** Without loose double braces in the text, non-empty values without braces leave none in the result. */
  lemma {:induction false} BraceFreeValuesSuffice(cells: seq<Cell>, value: string -> string)
    requires Clean(cells)
    requires forall raw :: Slot(raw) in cells ==> value(raw) != "" && BraceFree(value(raw))
    ensures var s := Substitute(cells, value);
      NoDoubleBrace(s) && (cells != [] ==> s != "" && (s[0] == '{' ==> cells[0] == Lit('{')))
  {
    hide Parse, IsPlaceholder;
    if cells != [] {
      CleanTail(cells);
      assert forall raw :: Slot(raw) in cells[1..] ==> Slot(raw) in cells;
      BraceFreeValuesSuffice(cells[1..], value);
      assert cells[0] in cells;
      var head := match cells[0] case Lit(c) => [c] case Slot(raw) => value(raw);
      var rest, s := Substitute(cells[1..], value), Substitute(cells, value);
      forall i | 0 <= i < |s| - 1 ensures !(s[i] == '{' && s[i + 1] == '{') {
        if i >= |head| {
          assert s[i] == rest[i - |head|] && s[i + 1] == rest[i + 1 - |head|];
        } else if i == |head| - 1 {
          assert s[i + 1] == rest[0];
        }
      }
    }
  }

  /** A literal starts no placeholder. */
  lemma LiteralStartsNothing(cells: seq<Cell>, raw: string)
    requires Clean(cells) && cells != [] && cells[0].Lit? && IsPlaceholder(raw)
    ensures !HasPrefix(Flatten(cells), raw)
  {
    hide Parse, Clean;
    LiteralHead(cells);
    PlaceholderBraces(raw);
    var s := Flatten(cells);
    PrefixIndices(s, raw);
  }

  lemma {:induction false} CleanNeverStrays(cells: seq<Cell>, raw: string)
    requires Clean(cells) && IsPlaceholder(raw)
    ensures !Strays(cells, raw)
  {
    hide Parse, Clean, IsPlaceholder;
    if cells != [] {
      CleanTail(cells);
      CleanNeverStrays(cells[1..], raw);
      if cells[0].Lit? { LiteralStartsNothing(cells, raw); }
    }
  }

  /** What a clean arrangement of cells is flattened to is scanned back to the same cells. */
  lemma {:induction false} ScanOfClean(cells: seq<Cell>)
    requires Clean(cells)
    ensures Scan(Flatten(cells)) == cells
  {
    hide Parse, Shaped, Clean;
    if cells != [] {
      var s, rest := Flatten(cells), Flatten(cells[1..]);
      CleanTail(cells);
      ScanOfClean(cells[1..]);
      match cells[0] {
        case Lit(c) =>
          assert s[0] == c && s[1..] == rest;
          LiteralParsesToNothing(cells);
        case Slot(raw) =>
          SlotWellFormed(cells);
          assert s[..|raw|] == raw == raw[..|raw|] && s[|raw|..] == rest;
          ParseLocal(raw, s);
      }
    }
  }

  lemma CleanIsWellFormed(cells: seq<Cell>)
    requires Clean(cells)
    ensures WellFormed(cells)
  {
  }

  lemma SlotWellFormed(cells: seq<Cell>)
    requires Clean(cells) && cells != [] && cells[0].Slot?
    ensures IsPlaceholder(cells[0].raw) && cells[0].raw != ""
  {
  }

  lemma LiteralParsesToNothing(cells: seq<Cell>)
    requires Clean(cells) && cells != [] && cells[0].Lit?
    ensures Parse(Flatten(cells)).None?
  {
    hide Parse, Clean, Shaped;
    var s := Flatten(cells);
    if Parse(s).Some? {
      var raw := s[..Parse(s).value.len];
      ParseLocal(s, raw);
      LiteralStartsNothing(cells, raw);
    }
  }

  // ---------------------------------------------------------------- why a condition is needed

  lemma FlattenTwo(a: Cell, b: Cell)
    ensures Flatten([a, b]) == Flatten([a]) + Flatten([b])
  {
    assert [a] + [b] == [a, b];
    FlattenAppend([a], [b]);
  }

  lemma FlattenSlot(raw: string)
    ensures Flatten([Slot(raw)]) == raw
  {
    assert [Slot(raw)][1..] == [];
    assert Flatten([]) == "";
  }

  lemma ReplacePair(a: string, b: string, raw: string, value: string)
    requires IsPlaceholder(a) && IsPlaceholder(b) && IsPlaceholder(raw) && raw != ""
    ensures ReplaceAll(a + b, raw, value) == (if a == raw then value else a) + if b == raw then value else b
  {
    hide Parse, ReplaceAll, Shaped;
    var cells := [Slot(a), Slot(b)];
    FlattenTwo(Slot(a), Slot(b));
    FlattenSlot(a);
    FlattenSlot(b);
    CleanNeverStrays(cells, raw);
    ReplaceIsFill(cells, raw, value);
    assert cells[1..] == [Slot(b)] && cells[1..][1..] == [];
    assert Fill([Slot(b)], raw, value) == (if b == raw then Lits(value) else [Slot(b)]) + Fill([], raw, value);
    assert Fill(cells, raw, value) == (if a == raw then Lits(value) else [Slot(a)]) + if b == raw then Lits(value) else [Slot(b)];
    FlattenAppend(if a == raw then Lits(value) else [Slot(a)], if b == raw then Lits(value) else [Slot(b)]);
    FlattenLits(value);
  }

  /**
   Values with braces: if the value of one placeholder is the text of another, the sequential
   loop gives different results in different orders, and only one is the substitution.
   */
  lemma BracesInValuesMakeOrderMatter(a: string, b: string, w: string, value: string -> string)
    requires IsPlaceholder(a) && IsPlaceholder(b) && a != b && a != "" && b != ""
    requires w != "" && BraceFree(w) && value(a) == b && value(b) == w
    ensures ReplaceEach(a + b, [a, b], value) == w + w
    ensures ReplaceEach(a + b, [b, a], value) == b + w == Substitute([Slot(a), Slot(b)], value)
  {
    hide IsPlaceholder, ReplaceAll, BraceFree;
    ReplacePair(a, b, a, b);
    ReplacePair(b, b, b, w);
    ReplacePair(a, b, b, w);
    ReplaceBefore(a, w, b);
    EachOfTwo(a + b, a, b, value);
    EachOfTwo(a + b, b, a, value);
    assert [Slot(a), Slot(b)][1..] == [Slot(b)] && [Slot(b)][1..] == [];
    assert Substitute([Slot(b)], value) == w + Substitute([], value);
  }

  lemma EachOfTwo(s: string, a: string, b: string, value: string -> string)
    requires a != "" && b != ""
    ensures ReplaceEach(s, [a, b], value) == ReplaceAll(ReplaceAll(s, a, value(a)), b, value(b))
  {
    hide ReplaceAll;
    assert [a, b][1..] == [b] && [b][1..] == [];
    var s1 := ReplaceAll(s, a, value(a));
    assert ReplaceEach(s1, [b], value) == ReplaceEach(ReplaceAll(s1, b, value(b)), [], value);
  }

  lemma ReplaceBefore(raw: string, w: string, value: string)
    requires IsPlaceholder(raw) && raw != "" && BraceFree(w)
    ensures ReplaceAll(raw + w, raw, value) == value + w
  {
    hide Parse, ReplaceAll, Shaped;
    var cells := [Slot(raw)] + Lits(w);
    FlattenAppend([Slot(raw)], Lits(w));
    FlattenSlot(raw);
    FlattenLits(w);
    assert cells[1..] == Lits(w);
    CleanNeverStrays(cells, raw);
    ReplaceIsFill(cells, raw, value);
    FillLits(w, raw, value);
    FlattenAppend(Lits(value), Lits(w));
    FlattenLits(value);
  }

  /** Empty values: removing a placeholder can join its surroundings to the text of another one. */
  lemma EmptyValuesMakeNewPlaceholders(a: string, b: string, w: string, value: string -> string)
    requires IsPlaceholder(a) && IsPlaceholder(b) && a != b && a != "" && b != ""
    requires w != "" && BraceFree(w) && value(a) == "" && value(b) == w
    ensures var cells := [Lit('{'), Slot(a)] + Lits(b[1..]) + [Slot(b)];
      && Clean(cells) && Scan(Flatten(cells)) == cells
      && ReplaceEach(Flatten(cells), [a, b], value) == w + w
      && Substitute(cells, value) == b + w
  {
    hide IsPlaceholder, ReplaceAll, BraceFree, Clean, Substitute, Scan;
    var head, mid := [Lit('{'), Slot(a)], Lits(b[1..]);
    var cells := head + mid + [Slot(b)];
    Surrounded(a, b);
    ScanOfClean(cells);
    CleanNeverStrays(cells, a);
    assert WellFormed(cells) by { CleanIsWellFormed(cells); }
    ReplaceIsFill(cells, a, "");
    FillSurrounded(a, b);
    FlattenAppend(Lits(b), [Slot(b)]);
    FlattenLits(b);
    FlattenSlot(b);
    ReplacePair(b, b, b, w);
    EachOfTwo(Flatten(cells), a, b, value);
    SubstituteAppend(head + mid, [Slot(b)], value);
    SubstituteAppend(head, mid, value);
    SubstituteLits(b[1..], value);
    SubstituteHead(a, b, value);
    PlaceholderBraces(b);
    assert "{" + b[1..] == b;
  }

  lemma SubstituteHead(a: string, b: string, value: string -> string)
    ensures Substitute([Lit('{'), Slot(a)], value) == "{" + value(a) && Substitute([Slot(b)], value) == value(b)
  {
    assert [Lit('{'), Slot(a)][1..] == [Slot(a)] && [Slot(a)][1..] == [] && [Slot(b)][1..] == [];
    assert Substitute([], value) == "";
    assert Substitute([Slot(a)], value) == value(a) + "";
  }

  lemma FillSurrounded(a: string, b: string)
    requires a != b && IsPlaceholder(b) && b != ""
    ensures Fill([Lit('{'), Slot(a)] + Lits(b[1..]) + [Slot(b)], a, "") == Lits(b) + [Slot(b)]
  {
    hide Fill, IsPlaceholder;
    var head, mid := [Lit('{'), Slot(a)], Lits(b[1..]);
    FillAppend(head + mid, [Slot(b)], a, "");
    FillAppend(head, mid, a, "");
    FillLits(b[1..], a, "");
    FillHead(a, b);
    PlaceholderBraces(b);
    assert [Lit('{')] + mid == Lits(b);
  }

  lemma FillHead(a: string, b: string)
    requires a != b
    ensures Fill([Lit('{'), Slot(a)], a, "") == [Lit('{')] && Fill([Slot(b)], a, "") == [Slot(b)]
  {
    assert [Lit('{'), Slot(a)][1..] == [Slot(a)] && [Slot(a)][1..] == [] && [Slot(b)][1..] == [];
    assert Fill([], a, "") == [];
    assert Fill([Slot(a)], a, "") == [] + [];
  }

  lemma PlaceholderTail(b: string)
    requires IsPlaceholder(b)
    ensures |b| >= 5 && b[0] == '{' && forall i :: 2 <= i < |b| ==> b[i] != '{'
  {
  }

  lemma Surrounded(a: string, b: string)
    requires IsPlaceholder(a) && IsPlaceholder(b) && b != ""
    ensures Clean([Lit('{'), Slot(a)] + Lits(b[1..]) + [Slot(b)])
  {
    hide Parse, Shaped;
    var cells := [Lit('{'), Slot(a)] + Lits(b[1..]) + [Slot(b)];
    PlaceholderTail(b);
    forall i | 0 <= i < |cells| - 1 ensures !(cells[i] == Lit('{') && cells[i + 1] == Lit('{')) {
      if 2 <= i < |cells| - 2 { assert cells[i + 1] == Lit(b[i]); }
    }
  }
}
