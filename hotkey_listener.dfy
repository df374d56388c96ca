/**
 * The polling hotkey listener (`HotkeyListener`): a registry of callbacks keyed
 * by a normalised hotkey string, which refuses a second registration of the
 * same normalised string, and `running` flag that start and stop flip.
 *
 * The normal form trims and lower-cases each '+'-part, spells the platform
 * modifier names the short way (command, control, option become cmd, ctrl,
 * alt), lists the modifiers first in alphabetical order and then the other
 * keys in their original order.
 */
module HotkeyListener {
  import opened Strings

  /** The four modifier names, in the alphabetical order `sorted` puts them in. */
  predicate IsModifierName(p: string) {
    p == "alt" || p == "cmd" || p == "ctrl" || p == "shift"
  }

  /** The position of a modifier name in alphabetical order. */
  function ModifierRank(p: string): nat {
    if p == "alt" then 0 else if p == "cmd" then 1 else if p == "ctrl" then 2 else 3
  }

  /** The platform spellings of the modifiers, and every other part unchanged. */
  function ModifierAlias(p: string): (r: string)
    ensures r != "command" && r != "control" && r != "option"
    ensures p == "command" || p == "control" || p == "option" <==> r != p
  {
    if p == "command" then "cmd" else if p == "control" then "ctrl" else if p == "option" then "alt" else p
  }

  /** One part as normalised: trimmed, lower-cased, and then aliased. */
  function CanonicalPart(p: string): string {
    ModifierAlias(Lower(Strip(p)))
  }

  /** Each part, normalised. */
  function CanonicalAll(parts: seq<string>): (r: seq<string>)
    ensures |r| == |parts|
  {
    if |parts| == 0 then [] else CanonicalAll(parts[..|parts| - 1]) + [CanonicalPart(parts[|parts| - 1])]
  }

  lemma {:induction false} CanonicalAllAt(parts: seq<string>, i: nat)
    requires i < |parts|
    ensures CanonicalAll(parts)[i] == CanonicalPart(parts[i])
  {
    if i < |parts| - 1 {
      CanonicalAllAt(parts[..|parts| - 1], i);
    }
  }

  /** Every part of a hotkey string, normalised. */
  function CanonicalParts(hotkey: string): (r: seq<string>)
    ensures |r| >= 1
  {
    CanonicalAll(Split(hotkey, '+'))
  }

  /** `[p for p in parts if p in ('cmd', 'ctrl', 'alt', 'shift')]`. */
  function Modifiers(parts: seq<string>): (r: seq<string>)
    ensures forall i :: 0 <= i < |r| ==> IsModifierName(r[i])
  {
    if |parts| == 0 then []
    else Modifiers(parts[..|parts| - 1]) + (if IsModifierName(parts[|parts| - 1]) then [parts[|parts| - 1]] else [])
  }

  /** `[p for p in parts if p not in ('cmd', 'ctrl', 'alt', 'shift')]`. */
  function Others(parts: seq<string>): (r: seq<string>)
    ensures forall i :: 0 <= i < |r| ==> !IsModifierName(r[i])
  {
    if |parts| == 0 then []
    else Others(parts[..|parts| - 1]) + (if IsModifierName(parts[|parts| - 1]) then [] else [parts[|parts| - 1]])
  }

  /** The other keys are some of the parts. */
  lemma {:induction false} OthersAreParts(parts: seq<string>)
    ensures forall x :: x in Others(parts) ==> x in parts
  {
    if |parts| > 0 {
      OthersAreParts(parts[..|parts| - 1]);
      assert forall x :: x in parts[..|parts| - 1] ==> x in parts;
    }
  }

  /** `n` copies of `x`. */
  function Copies(x: string, n: nat): (r: seq<string>)
    ensures |r| == n && forall i :: 0 <= i < n ==> r[i] == x
  {
    if n == 0 then [] else Copies(x, n - 1) + [x]
  }

  /** `sorted(modifiers)`: each modifier name as often as it occurs, in alphabetical order. */
  function SortedModifiers(mods: seq<string>): seq<string> {
    var m := multiset(mods);
    Copies("alt", m["alt"]) + Copies("cmd", m["cmd"]) + Copies("ctrl", m["ctrl"]) + Copies("shift", m["shift"])
  }

  /** `_normalize_hotkey`. */
  function Normalize(hotkey: string): string {
    Join(NormalParts(CanonicalParts(hotkey)), "+")
  }

  lemma {:induction false} CopiesMultiset(x: string, n: nat)
    ensures multiset(Copies(x, n)) == multiset{}[x := n]
  {
    if n > 0 {
      CopiesMultiset(x, n - 1);
    }
  }

  lemma ModifierNamesDistinct()
    ensures "alt" != "cmd" && "alt" != "ctrl" && "alt" != "shift"
    ensures "cmd" != "ctrl" && "cmd" != "shift" && "ctrl" != "shift"
  {
    assert "alt"[0] != "cmd"[0] && "alt"[0] != "ctrl"[0] && "alt"[0] != "shift"[0];
    assert "cmd"[1] != "ctrl"[1] && "cmd"[0] != "shift"[0] && "ctrl"[0] != "shift"[0];
  }

  /** `SortedModifiers` keeps every modifier given, as often as it is given. */
  lemma SortedModifiersPermutation(mods: seq<string>)
    requires forall i :: 0 <= i < |mods| ==> IsModifierName(mods[i])
    ensures multiset(SortedModifiers(mods)) == multiset(mods)
  {
    var m := multiset(mods);
    CopiesMultiset("alt", m["alt"]);
    CopiesMultiset("cmd", m["cmd"]);
    CopiesMultiset("ctrl", m["ctrl"]);
    CopiesMultiset("shift", m["shift"]);
    var a, c, t, s := Copies("alt", m["alt"]), Copies("cmd", m["cmd"]), Copies("ctrl", m["ctrl"]), Copies("shift", m["shift"]);
    assert SortedModifiers(mods) == a + c + t + s;
    assert multiset(a + c + t + s) == multiset(a) + multiset(c) + multiset(t) + multiset(s);
    ModifierNamesDistinct();
    forall e | e in m
      ensures e == "alt" || e == "cmd" || e == "ctrl" || e == "shift"
    {
      var i :| 0 <= i < |mods| && mods[i] == e;
    }
    FourCounts(m, "alt", "cmd", "ctrl", "shift");
  }

  /** A multiset over four distinct values is the sum of its four counts. */
  lemma FourCounts<T>(m: multiset<T>, w: T, x: T, y: T, z: T)
    requires w != x && w != y && w != z && x != y && x != z && y != z
    requires forall e :: e in m ==> e == w || e == x || e == y || e == z
    ensures multiset{}[w := m[w]] + multiset{}[x := m[x]] + multiset{}[y := m[y]] + multiset{}[z := m[z]] == m
  {
    var r := multiset{}[w := m[w]] + multiset{}[x := m[x]] + multiset{}[y := m[y]] + multiset{}[z := m[z]];
    forall e ensures r[e] == m[e] {
      if e !in m {
        assert m[e] == 0;
      }
    }
    assert r == m;
  }

  /** `SortedModifiers` lists the modifiers in alphabetical order. */
  lemma SortedModifiersOrdered(mods: seq<string>)
    ensures var r := SortedModifiers(mods);
      forall i, j :: 0 <= i < j < |r| ==> ModifierRank(r[i]) <= ModifierRank(r[j])
  {
    var m := multiset(mods);
    var a, c, t, s := Copies("alt", m["alt"]), Copies("cmd", m["cmd"]), Copies("ctrl", m["ctrl"]), Copies("shift", m["shift"]);
    var r := a + c + t + s;
    forall i | 0 <= i < |r|
      ensures ModifierRank(r[i]) == if i < |a| then 0 else if i < |a| + |c| then 1 else if i < |a| + |c| + |t| then 2 else 3
    {
      if i < |a| { assert r[i] == a[i]; }
      else if i < |a| + |c| { assert r[i] == c[i - |a|]; }
      else if i < |a| + |c| + |t| { assert r[i] == t[i - |a| - |c|]; }
      else { assert r[i] == s[i - |a| - |c| - |t|]; }
    }
  }

  /** A part in normal form: normalising it again leaves it as it is, and it holds no '+'. */
  predicate IsNormalPart(p: string) {
    CanonicalPart(p) == p && '+' !in p
  }

  /** Trimming and lower-casing never add a '+'. */
  lemma LowerStripKeepsOut(p: string, c: char)
    requires c !in p && !('a' <= c <= 'z')
    ensures c !in Lower(Strip(p))
  {
    var l := LStrip(p);
    assert l == p[|p| - |l|..];
    var st := RStrip(l);
    assert st == l[..|st|];
    assert Strip(p) == st;
    forall i | 0 <= i < |st| ensures LowerChar(st[i]) != c {
      assert st[i] == p[|p| - |l| + i];
    }
  }

  /** Trimmed and lower-cased text stays as it is when trimmed and lower-cased again. */
  lemma LowerStripStable(p: string)
    ensures var l := Lower(Strip(p)); Lower(Strip(l)) == l
  {
    StripIdempotent(p);
    LowerKeepsStripped(Strip(p));
    LowerIdempotent(Strip(p));
  }

  /** Every normalised part of a '+'-free part is in normal form. */
  lemma CanonicalPartIsNormal(p: string)
    requires '+' !in p
    ensures IsNormalPart(CanonicalPart(p))
  {
    var l := Lower(Strip(p));
    LowerStripKeepsOut(p, '+');
    if l == "command" || l == "control" || l == "option" {
      ModifierNameIsNormal(ModifierAlias(l));
    } else {
      LowerStripStable(p);
    }
  }

  /** The modifier names are in normal form. */
  lemma ModifierNameIsNormal(p: string)
    requires IsModifierName(p)
    ensures IsNormalPart(p)
  {
    assert |p| < 6;
    assert forall i :: 0 <= i < |p| ==> 'a' <= p[i] <= 'z';
    WordIsNormal(p);
  }

  /** A word of lower-case letters other than the three platform spellings is in normal form. */
  lemma WordIsNormal(p: string)
    requires forall i :: 0 <= i < |p| ==> 'a' <= p[i] <= 'z'
    requires p != "command" && p != "control" && p != "option"
    ensures IsNormalPart(p)
  {
    StripOfStripped(p);
    assert Lower(p) == p;
    assert '+' !in p;
  }

  lemma {:induction false} ModifiersConcat(a: seq<string>, b: seq<string>)
    ensures Modifiers(a + b) == Modifiers(a) + Modifiers(b)
    ensures Others(a + b) == Others(a) + Others(b)
    decreases |b|
  {
    if |b| > 0 {
      assert (a + b)[..|a + b| - 1] == a + b[..|b| - 1];
      ModifiersConcat(a, b[..|b| - 1]);
    } else {
      assert a + b == a;
    }
  }

  lemma {:induction false} ModifiersOfModifiers(a: seq<string>)
    requires forall i :: 0 <= i < |a| ==> IsModifierName(a[i])
    ensures Modifiers(a) == a && Others(a) == []
  {
    if |a| > 0 {
      ModifiersOfModifiers(a[..|a| - 1]);
      assert a[..|a| - 1] + [a[|a| - 1]] == a;
    }
  }

  lemma {:induction false} ModifiersOfOthers(a: seq<string>)
    requires forall i :: 0 <= i < |a| ==> !IsModifierName(a[i])
    ensures Modifiers(a) == [] && Others(a) == a
  {
    if |a| > 0 {
      ModifiersOfOthers(a[..|a| - 1]);
      assert a[..|a| - 1] + [a[|a| - 1]] == a;
    }
  }

  lemma {:induction false} PartitionLength(parts: seq<string>)
    ensures |Modifiers(parts)| + |Others(parts)| == |parts|
  {
    if |parts| > 0 {
      PartitionLength(parts[..|parts| - 1]);
    }
  }

  /** The parts of the normal form: sorted modifiers, then the other keys. */
  function NormalParts(parts: seq<string>): seq<string> {
    SortedModifiers(Modifiers(parts)) + Others(parts)
  }

  /** The parts of a hotkey string, once normalised, are each in normal form. */
  lemma CanonicalPartsAreNormal(hotkey: string)
    ensures forall i :: 0 <= i < |CanonicalParts(hotkey)| ==> IsNormalPart(CanonicalParts(hotkey)[i])
  {
    var split := Split(hotkey, '+');
    forall i | 0 <= i < |split| ensures IsNormalPart(CanonicalParts(hotkey)[i]) {
      CanonicalAllAt(split, i);
      CanonicalPartIsNormal(split[i]);
    }
  }

  /** The normal form of parts already in normal form parses back to the same parts. */
  lemma NormalPartsAreNormal(parts: seq<string>)
    requires |parts| >= 1
    requires forall i :: 0 <= i < |parts| ==> IsNormalPart(parts[i])
    ensures var out := NormalParts(parts);
      |out| >= 1 && forall i :: 0 <= i < |out| ==> IsNormalPart(out[i])
  {
    var mods, others := Modifiers(parts), Others(parts);
    var sorted := SortedModifiers(mods);
    var out := sorted + others;
    SortedModifiersPermutation(mods);
    PartitionLength(parts);
    assert |sorted| == |mods| by {
      assert |multiset(sorted)| == |multiset(mods)|;
    }
    OthersAreParts(parts);
    forall i | 0 <= i < |out| ensures IsNormalPart(out[i]) {
      if i < |sorted| {
        assert sorted[i] in multiset(mods);
        var j :| 0 <= j < |mods| && mods[j] == sorted[i];
        ModifierNameIsNormal(out[i]);
      } else {
        assert out[i] in others;
      }
    }
  }

  /** Sorted modifiers consist of modifier names only. */
  lemma SortedModifiersAreModifiers(mods: seq<string>)
    ensures forall i :: 0 <= i < |SortedModifiers(mods)| ==> IsModifierName(SortedModifiers(mods)[i])
  {
    var m := multiset(mods);
    var a, c, t, s := Copies("alt", m["alt"]), Copies("cmd", m["cmd"]), Copies("ctrl", m["ctrl"]), Copies("shift", m["shift"]);
    var r := a + c + t + s;
    forall i | 0 <= i < |r| ensures IsModifierName(r[i]) {
      if i < |a| { assert r[i] == a[i]; }
      else if i < |a| + |c| { assert r[i] == c[i - |a|]; }
      else if i < |a| + |c| + |t| { assert r[i] == t[i - |a| - |c|]; }
      else { assert r[i] == s[i - |a| - |c| - |t|]; }
    }
  }

  /** Splitting parts for modifiers and others a second time changes nothing. */
  lemma NormalPartsFixed(parts: seq<string>)
    ensures NormalParts(NormalParts(parts)) == NormalParts(parts)
  {
    var mods := Modifiers(parts);
    var sorted, others := SortedModifiers(mods), Others(parts);
    SortedModifiersAreModifiers(mods);
    ModifiersConcat(sorted, others);
    ModifiersOfModifiers(sorted);
    ModifiersOfOthers(others);
    assert Modifiers(sorted + others) == sorted && Others(sorted + others) == others;
    SortedModifiersPermutation(mods);
  }

  /** Parts in normal form, joined with '+', read back as the same parts. */
  lemma CanonicalPartsOfJoin(out: seq<string>)
    requires |out| >= 1
    requires forall i :: 0 <= i < |out| ==> IsNormalPart(out[i])
    ensures CanonicalParts(Join(out, "+")) == out
  {
    forall i | 0 <= i < |out|
      ensures '+' !in out[i] && CanonicalPart(out[i]) == out[i]
    {
      assert IsNormalPart(out[i]);
    }
    SplitJoin(out, '+');
    assert Split(Join(out, "+"), '+') == out;
    CanonicalAllFixed(out);
  }

  /** Parts that are each their own normal form are normalised to themselves. */
  lemma CanonicalAllFixed(parts: seq<string>)
    requires forall i :: 0 <= i < |parts| ==> CanonicalPart(parts[i]) == parts[i]
    ensures CanonicalAll(parts) == parts
  {
    forall i | 0 <= i < |parts|
      ensures CanonicalAll(parts)[i] == parts[i]
    {
      CanonicalAllAt(parts, i);
    }
  }

  /** Normalising an already normalised hotkey changes nothing. */
  lemma NormalizeIdempotent(hotkey: string)
    ensures Normalize(Normalize(hotkey)) == Normalize(hotkey)
  {
    var parts := CanonicalParts(hotkey);
    CanonicalPartsAreNormal(hotkey);
    NormalPartsAreNormal(parts);
    var out := NormalParts(parts);
    CanonicalPartsOfJoin(out);
    NormalPartsFixed(parts);
  }

  /** The order in which modifiers are written, and how often, does not change the normal form. */
  lemma NormalizeIgnoresModifierOrder(s: string, t: string)
    requires multiset(Modifiers(CanonicalParts(s))) == multiset(Modifiers(CanonicalParts(t)))
    requires Others(CanonicalParts(s)) == Others(CanonicalParts(t))
    ensures Normalize(s) == Normalize(t)
  {
  }

  /** An opaque callback. */
  type Callback = nat

  /** `HotkeyListener`. */
  class HotkeyListener {
    var running: bool
    var threadStarts: nat
    var hotkeys: map<string, Callback>

    constructor ()
      ensures !running && threadStarts == 0 && hotkeys == map[]
    {
      running := false;
      threadStarts := 0;
      hotkeys := map[];
    }

    /** `start`: a no-op while running; otherwise sets the flag and starts the listening thread. */
    method Start()
      modifies this`running, this`threadStarts
      ensures running
      ensures old(running) ==> threadStarts == old(threadStarts)
      ensures !old(running) ==> threadStarts == old(threadStarts) + 1
    {
      if running {
        return;
      }
      running := true;
      threadStarts := threadStarts + 1;
    }

    /** `stop`: only clears the flag. */
    method Stop()
      modifies this`running
      ensures !running
    {
      running := false;
    }

    /** `register_hotkey`: refused when the normal form is already registered. */
    method RegisterHotkey(hotkey: string, callback: Callback) returns (ok: bool)
      modifies this`hotkeys
      ensures ok <==> Normalize(hotkey) !in old(hotkeys)
      ensures ok ==> hotkeys == old(hotkeys)[Normalize(hotkey) := callback]
      ensures !ok ==> hotkeys == old(hotkeys)
    {
      var normalized := Normalize(hotkey);
      if normalized in hotkeys {
        return false;
      }
      hotkeys := hotkeys[normalized := callback];
      ok := true;
    }

    /** `unregister_hotkey`: refused when the normal form is not registered. */
    method UnregisterHotkey(hotkey: string) returns (ok: bool)
      modifies this`hotkeys
      ensures ok <==> Normalize(hotkey) in old(hotkeys)
      ensures ok ==> hotkeys == old(hotkeys) - {Normalize(hotkey)}
      ensures !ok ==> hotkeys == old(hotkeys)
    {
      var normalized := Normalize(hotkey);
      if normalized !in hotkeys {
        return false;
      }
      hotkeys := hotkeys - {normalized};
      ok := true;
    }

    /** `get_registered_hotkeys`: a copy, which the registry does not share. */
    method GetRegisteredHotkeys() returns (copy: map<string, Callback>)
      ensures copy == hotkeys
    {
      copy := hotkeys;
    }
  }

  /** Two spellings of one combination cannot both be registered. */
  method SecondSpellingIsRefused(first: string, second: string, a: Callback, b: Callback)
    returns (firstOk: bool, secondOk: bool, registered: map<string, Callback>)
    requires Normalize(first) == Normalize(second)
    ensures firstOk && !secondOk && registered == map[Normalize(first) := a]
  {
    var listener := new HotkeyListener();
    firstOk := listener.RegisterHotkey(first, a);
    secondOk := listener.RegisterHotkey(second, b);
    registered := listener.GetRegisteredHotkeys();
  }
}
