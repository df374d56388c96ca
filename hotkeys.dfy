/**
 * The global hotkey manager (`HotkeyManager`): parses `cmd+shift+t`-style
 * strings into key sets, keeps a registry of template hotkeys keyed by key set,
 * and on every key press fires at most one action, checking the built-in
 * combinations first and then the templates in registration order. A
 * combination fires when all of its keys are held, whatever else is held.
 */
module Hotkeys {
  import opened Wrappers
  import opened Strings
  import OrderedMaps

  datatype Modifier = Cmd | Ctrl | Alt | Shift

  /** A key as the keyboard library reports it. */
  datatype Key = Mod(m: Modifier) | Char(c: char) | Special(name: string)

  /** The names of the keyboard library's special keys other than the four modifiers. */
  const SPECIAL_KEY_NAMES: set<string> := {
    "alt_l", "alt_r", "alt_gr", "backspace", "caps_lock", "cmd_l", "cmd_r", "ctrl_l", "ctrl_r",
    "delete", "down", "end", "enter", "esc", "home", "left", "page_down", "page_up", "right",
    "shift_l", "shift_r", "space", "tab", "up", "insert", "menu", "num_lock", "pause",
    "print_screen", "scroll_lock", "media_play_pause", "media_volume_mute", "media_volume_down",
    "media_volume_up", "media_previous", "media_next",
    "f1", "f2", "f3", "f4", "f5", "f6", "f7", "f8", "f9", "f10",
    "f11", "f12", "f13", "f14", "f15", "f16", "f17", "f18", "f19", "f20"
  }

  /** A '+'-part as compared: trimmed, then lower-cased. */
  function Canonical(part: string): string {
    Lower(Strip(part))
  }

  /** The key one canonical part names, if any. */
  function PartKey(part: string): (r: Option<Key>)
    ensures r == Some(Mod(Cmd)) <==> part == "cmd" || part == "command"
    ensures |part| == 1 ==> r == Some(Char(part[0]))
  {
    if part == "cmd" || part == "command" then Some(Mod(Cmd))
    else if part == "ctrl" then Some(Mod(Ctrl))
    else if part == "alt" then Some(Mod(Alt))
    else if part == "shift" then Some(Mod(Shift))
    else if |part| == 1 then Some(Char(part[0]))
    else if part in SPECIAL_KEY_NAMES then Some(Special(part))
    else None
  }

  /** The key a '+'-part names, if any. */
  function KeyOfPart(part: string): Option<Key> {
    PartKey(Canonical(part))
  }

  /** The keys of the parts in turn; None as soon as a part names no key. */
  function PartsKeys(parts: seq<string>): Option<set<Key>> {
    if |parts| == 0 then Some({})
    else
      match PartsKeys(parts[..|parts| - 1])
      case None => None
      case Some(keys) =>
        match KeyOfPart(parts[|parts| - 1])
        case None => None
        case Some(k) => Some(keys + {k})
  }

  /** `_parse_hotkey_string`'s result for a whole string. */
  function ParseSpec(s: string): Option<set<Key>> {
    PartsKeys(Split(s, '+'))
  }

  /** The keys are exactly those the parts name, and there are some unless a part names none. */
  lemma {:induction false} PartsKeysMeaning(parts: seq<string>)
    ensures PartsKeys(parts).Some? <==> forall p :: p in parts ==> KeyOfPart(p).Some?
    ensures PartsKeys(parts).Some? ==>
      forall k :: k in PartsKeys(parts).value <==> exists p :: p in parts && KeyOfPart(p) == Some(k)
  {
    if |parts| > 0 {
      var init, last := parts[..|parts| - 1], parts[|parts| - 1];
      PartsKeysMeaning(init);
      PartsOfLast(parts);
      var kl := KeyOfPart(last);
      if PartsKeys(init).Some? && kl.Some? {
        var keys := PartsKeys(init).value;
        assert PartsKeys(parts) == Some(keys + {kl.value});
        forall k ensures k in keys + {kl.value} <==> exists p :: p in parts && KeyOfPart(p) == Some(k) {
          if k in keys {
            var p :| p in init && KeyOfPart(p) == Some(k);
            assert p in parts;
          }
        }
      } else {
        assert PartsKeys(parts).None?;
      }
    }
  }

  /** A non-empty list's elements are those of all but its last, and its last. */
  lemma PartsOfLast(parts: seq<string>)
    requires |parts| > 0
    ensures forall p :: p in parts <==> p in parts[..|parts| - 1] || p == parts[|parts| - 1]
  {
    assert parts == parts[..|parts| - 1] + [parts[|parts| - 1]];
  }


  /** `_parse_hotkey_string`. */
  method ParseHotkeyString(s: string) returns (r: Option<set<Key>>)
    ensures r == ParseSpec(s)
  {
    var parts := Split(s, '+');
    var keys: set<Key> := {};
    var i := 0;
    while i < |parts|
      invariant 0 <= i <= |parts|
      invariant PartsKeys(parts[..i]) == Some(keys)
    {
      var k := KeyOfPart(parts[i]);
      if k.None? {
        PartsNoKey(parts, i);
        return None;
      }
      PartsKeysStep(parts, i, keys, k.value);
      keys := keys + {k.value};
      i := i + 1;
    }
    assert parts[..i] == parts;
    r := Some(keys);
  }

  /** One more part that names a key adds that key. */
  lemma PartsKeysStep(parts: seq<string>, i: nat, keys: set<Key>, k: Key)
    requires i < |parts| && PartsKeys(parts[..i]) == Some(keys) && KeyOfPart(parts[i]) == Some(k)
    ensures PartsKeys(parts[..i + 1]) == Some(keys + {k})
  {
    PrefixSnoc(parts, i);
    PartsKeysSnoc(parts[..i], parts[i], keys, k);
  }

  lemma PrefixSnoc(parts: seq<string>, i: nat)
    requires i < |parts|
    ensures parts[..i + 1] == parts[..i] + [parts[i]]
  {
  }

  lemma PartsKeysSnoc(init: seq<string>, p: string, keys: set<Key>, k: Key)
    requires PartsKeys(init) == Some(keys) && KeyOfPart(p) == Some(k)
    ensures PartsKeys(init + [p]) == Some(keys + {k})
  {
    assert (init + [p])[..|init|] == init;
  }

  /** One part that names no key makes the whole parse fail. */
  lemma PartsNoKey(parts: seq<string>, i: nat)
    requires i < |parts| && KeyOfPart(parts[i]).None?
    ensures PartsKeys(parts).None?
  {
    PartsKeysMeaning(parts);
    assert parts[i] in parts;
  }

  /** A successful parse is never the empty set: `split` always yields a part. */
  lemma ParseNonEmpty(s: string)
    ensures ParseSpec(s).Some? ==> ParseSpec(s).value != {}
  {
    var parts := Split(s, '+');
    PartsKeysMeaning(parts);
    if ParseSpec(s).Some? {
      assert parts[0] in parts;
      assert KeyOfPart(parts[0]).value in ParseSpec(s).value;
    }
  }

  /** The keys depend only on which parts occur: not on their order, nor on repeats. */
  lemma PartsKeysIgnoreOrder(ps: seq<string>, qs: seq<string>)
    requires forall p :: p in ps <==> p in qs
    ensures PartsKeys(ps) == PartsKeys(qs)
  {
    PartsKeysMeaning(ps);
    PartsKeysMeaning(qs);
    if PartsKeys(ps).Some? {
      var a, b := PartsKeys(ps).value, PartsKeys(qs).value;
      forall k | k in a ensures k in b {
        var p :| p in ps && KeyOfPart(p) == Some(k);
        assert p in qs;
      }
      forall k | k in b ensures k in a {
        var p :| p in qs && KeyOfPart(p) == Some(k);
        assert p in ps;
      }
      assert a == b;
    }
  }

  /** So "shift+cmd+r", "cmd+shift+r" and "cmd+shift+r+cmd" name the same combination. */
  lemma ParseIgnoresOrder(s: string, t: string)
    requires forall p :: p in Split(s, '+') <==> p in Split(t, '+')
    ensures ParseSpec(s) == ParseSpec(t)
  {
    PartsKeysIgnoreOrder(Split(s, '+'), Split(t, '+'));
  }

  /** The built-in combinations. */
  const TOGGLE_HOTKEY: set<Key> := {Mod(Cmd), Mod(Shift), Char('r')}
  const JOURNAL_HOTKEY: set<Key> := {Mod(Cmd), Mod(Shift), Char('j')}
  const QUIT_HOTKEY: set<Key> := {Mod(Cmd), Char('q')}

  predicate IsBuiltIn(keys: set<Key>) {
    keys == TOGGLE_HOTKEY || keys == JOURNAL_HOTKEY || keys == QUIT_HOTKEY
  }

  /** The callbacks the application registers for hotkeys. */
  datatype Callback = TemplateCallback | NoteTypeCallback(noteTypeId: string)

  /** The one action a key press fires. */
  datatype Fired =
    | NothingFired
    | ToggleRecording
    | ToggleJournal
    | Quit
    | TemplateFired(templateName: string, callback: Callback)

  type Registry = OrderedMaps.OMap<set<Key>, (string, Callback)>

  /** The index of the first combination in `combos` whose keys are all held. */
  function FirstHeld(pressed: set<Key>, combos: seq<set<Key>>): (r: Option<nat>)
    ensures r.Some? ==>
      (r.value < |combos| && combos[r.value] <= pressed
       && forall j :: 0 <= j < r.value ==> !(combos[j] <= pressed))
    ensures r.None? <==> forall j :: 0 <= j < |combos| ==> !(combos[j] <= pressed)
  {
    if |combos| == 0 then None
    else if combos[0] <= pressed then Some(0)
    else
      match FirstHeld(pressed, combos[1..])
      case None => None
      case Some(i) => Some(i + 1)
  }

  /**
   * What `on_press` fires once the key is held: toggle, then journal, then
   * quit, then the first registered template whose keys are all held.
   */
  function Dispatched(pressed: set<Key>, registry: Registry): (r: Fired)
    requires OrderedMaps.Valid(registry)
    ensures r == ToggleRecording <==> TOGGLE_HOTKEY <= pressed
    ensures r == ToggleJournal <==> !(TOGGLE_HOTKEY <= pressed) && JOURNAL_HOTKEY <= pressed
    ensures r == Quit <==> !(TOGGLE_HOTKEY <= pressed) && !(JOURNAL_HOTKEY <= pressed) && QUIT_HOTKEY <= pressed
    ensures r.TemplateFired? <==>
      !(TOGGLE_HOTKEY <= pressed) && !(JOURNAL_HOTKEY <= pressed) && !(QUIT_HOTKEY <= pressed)
      && exists i :: 0 <= i < |registry.keys| && registry.keys[i] <= pressed
    ensures r.TemplateFired? ==>
      exists i :: 0 <= i < |registry.keys| && registry.keys[i] <= pressed
        && registry.values[registry.keys[i]] == (r.templateName, r.callback)
        && forall j :: 0 <= j < i ==> !(registry.keys[j] <= pressed)
    ensures r == NothingFired <==>
      !(TOGGLE_HOTKEY <= pressed) && !(JOURNAL_HOTKEY <= pressed) && !(QUIT_HOTKEY <= pressed)
      && forall j :: 0 <= j < |registry.keys| ==> !(registry.keys[j] <= pressed)
  {
    if TOGGLE_HOTKEY <= pressed then ToggleRecording
    else if JOURNAL_HOTKEY <= pressed then ToggleJournal
    else if QUIT_HOTKEY <= pressed then Quit
    else
      match FirstHeld(pressed, registry.keys)
      case None => NothingFired
      case Some(i) =>
        var entry := registry.values[registry.keys[i]];
        TemplateFired(entry.0, entry.1)
  }

  /** The checks of `on_press` in order, ending at the first that matches. */
  method Dispatch(pressed: set<Key>, registry: Registry) returns (fired: Fired)
    requires OrderedMaps.Valid(registry)
    ensures fired == Dispatched(pressed, registry)
  {
    if TOGGLE_HOTKEY <= pressed {
      return ToggleRecording;
    }
    if JOURNAL_HOTKEY <= pressed {
      return ToggleJournal;
    }
    if QUIT_HOTKEY <= pressed {
      return Quit;
    }
    var i := 0;
    while i < |registry.keys|
      invariant 0 <= i <= |registry.keys|
      invariant forall j :: 0 <= j < i ==> !(registry.keys[j] <= pressed)
    {
      var combo := registry.keys[i];
      if combo <= pressed {
        assert FirstHeld(pressed, registry.keys) == Some(i);
        var (name, callback) := registry.values[combo];
        return TemplateFired(name, callback);
      }
      i := i + 1;
    }
    fired := NothingFired;
  }

  /** `HotkeyManager`. */
  class HotkeyManager {
    var pressedKeys: set<Key>
    var hotkeyActive: bool
    var templateHotkeys: Registry

    ghost predicate Valid()
      reads this
    {
      OrderedMaps.Valid(templateHotkeys)
    }

    constructor ()
      ensures Valid() && pressedKeys == {} && hotkeyActive && templateHotkeys.values == map[]
    {
      pressedKeys := {};
      hotkeyActive := true;
      templateHotkeys := OrderedMaps.Empty();
    }

    /**
     * `register_template_hotkey`: False for a string that does not parse or
     * that equals a built-in combination; otherwise the entry for that key set
     * is stored, replacing any earlier one.
     */
    method RegisterTemplateHotkey(hotkey: string, templateName: string, callback: Callback) returns (ok: bool)
      requires Valid()
      modifies this`templateHotkeys
      ensures Valid()
      ensures var p := ParseSpec(hotkey);
        ok <==> p.Some? && p.value != {} && !IsBuiltIn(p.value)
      ensures ok ==> templateHotkeys == OrderedMaps.Put(old(templateHotkeys), ParseSpec(hotkey).value, (templateName, callback))
      ensures !ok ==> templateHotkeys == old(templateHotkeys)
    {
      var keys := ParseHotkeyString(hotkey);
      ParseNonEmpty(hotkey);
      if keys.None? || keys.value == {} {
        return false;
      }
      if IsBuiltIn(keys.value) {
        return false;
      }
      templateHotkeys := OrderedMaps.Put(templateHotkeys, keys.value, (templateName, callback));
      ok := true;
    }

    /** `unregister_template_hotkey`: False unless the string parses to a registered key set, which is then removed. */
    method UnregisterTemplateHotkey(hotkey: string) returns (ok: bool)
      requires Valid()
      modifies this`templateHotkeys
      ensures Valid()
      ensures var p := ParseSpec(hotkey);
        ok <==> p.Some? && p.value != {} && p.value in old(templateHotkeys.values)
      ensures ok ==> templateHotkeys == OrderedMaps.Remove(old(templateHotkeys), ParseSpec(hotkey).value)
      ensures !ok ==> templateHotkeys == old(templateHotkeys)
    {
      var keys := ParseHotkeyString(hotkey);
      ParseNonEmpty(hotkey);
      if keys.None? || keys.value == {} {
        return false;
      }
      if keys.value !in templateHotkeys.values {
        return false;
      }
      templateHotkeys := OrderedMaps.Remove(templateHotkeys, keys.value);
      ok := true;
    }

    /** `on_press`: ignored while inactive; otherwise the key is held and at most one action fires. */
    method OnPress(key: Key) returns (fired: Fired)
      requires Valid()
      modifies this`pressedKeys
      ensures Valid()
      ensures !hotkeyActive ==> pressedKeys == old(pressedKeys) && fired == NothingFired
      ensures hotkeyActive ==> pressedKeys == old(pressedKeys) + {key}
      ensures hotkeyActive ==> fired == Dispatched(pressedKeys, templateHotkeys)
    {
      if !hotkeyActive {
        return NothingFired;
      }
      pressedKeys := pressedKeys + {key};
      fired := Dispatch(pressedKeys, templateHotkeys);
    }

    /** `on_release`: the key is no longer held (a no-op if it was not). */
    method OnRelease(key: Key)
      modifies this`pressedKeys
      ensures pressedKeys == old(pressedKeys) - {key}
    {
      if key in pressedKeys {
        pressedKeys := pressedKeys - {key};
      }
    }
  }
}
