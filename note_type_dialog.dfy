/**
 * The note-type editor dialog: a widget that turns one key press into a
 * `Shift+Ctrl+Alt+Meta+Key` string, a storage group whose path editors are
 * enabled exactly when "use default" is unchecked, and the form that is read
 * back as a note-type record.
 *
 * Key codes are the toolkit's integer key codes; modifiers are the four flags
 * of the event's modifier state.
 */
module NoteTypeDialog {
  import opened Wrappers
  import opened Strings
  import opened ConfigModels

  const KEY_SPACE := 0x20
  const KEY_0 := 0x30
  const KEY_9 := 0x39
  const KEY_A := 0x41
  const KEY_Z := 0x5a
  const KEY_ESCAPE := 0x0100_0000
  const KEY_TAB := 0x0100_0001
  const KEY_BACKSPACE := 0x0100_0003
  const KEY_RETURN := 0x0100_0004
  const KEY_ENTER := 0x0100_0005
  const KEY_SHIFT := 0x0100_0020
  const KEY_CONTROL := 0x0100_0021
  const KEY_META := 0x0100_0022
  const KEY_ALT := 0x0100_0023
  const KEY_F1 := 0x0100_0030
  const KEY_F35 := 0x0100_0052

  /** The modifier flags held during a key press. */
  datatype ModifierState = ModifierState(shift: bool, ctrl: bool, alt: bool, meta: bool)

  /** The key codes that are themselves modifiers. */
  predicate IsModifierKey(key: int) {
    key == KEY_SHIFT || key == KEY_CONTROL || key == KEY_ALT || key == KEY_META
  }

  /** `_get_key_name`. */
  function KeyName(key: int): (r: Option<string>)
    ensures KEY_A <= key <= KEY_Z ==> r == Some([key as char])
    ensures KEY_0 <= key <= KEY_9 ==> r == Some([key as char])
    ensures KEY_F1 <= key <= KEY_F35 ==> r == Some("F" + NatToString(key - KEY_F1 + 1))
    ensures key == KEY_SPACE ==> r == Some("Space")
    ensures key == KEY_RETURN ==> r == Some("Return")
    ensures key == KEY_ENTER ==> r == Some("Enter")
    ensures key == KEY_BACKSPACE ==> r == Some("Backspace")
    ensures key == KEY_TAB ==> r == Some("Tab")
    ensures key == KEY_ESCAPE ==> r == Some("Escape")
    ensures r.Some? <==>
      KEY_A <= key <= KEY_Z || KEY_0 <= key <= KEY_9 || KEY_F1 <= key <= KEY_F35
      || key == KEY_SPACE || key == KEY_RETURN || key == KEY_ENTER
      || key == KEY_BACKSPACE || key == KEY_TAB || key == KEY_ESCAPE
    ensures r.Some? ==> |r.value| > 0 && '+' !in r.value
    ensures IsModifierKey(key) ==> r.None?
  {
    if KEY_A <= key <= KEY_Z then Some([key as char])
    else if KEY_0 <= key <= KEY_9 then Some([key as char])
    else if key == KEY_SPACE then Some("Space")
    else if key == KEY_RETURN then Some("Return")
    else if key == KEY_ENTER then Some("Enter")
    else if key == KEY_BACKSPACE then Some("Backspace")
    else if key == KEY_TAB then Some("Tab")
    else if key == KEY_ESCAPE then Some("Escape")
    else if KEY_F1 <= key <= KEY_F35 then Some("F" + NatToString(key - KEY_F1 + 1))
    else None
  }

  /** The held modifiers' names in the fixed order Shift, Ctrl, Alt, Meta. */
  function ModifierNames(m: ModifierState): seq<string> {
    (if m.shift then ["Shift"] else []) + (if m.ctrl then ["Ctrl"] else [])
    + (if m.alt then ["Alt"] else []) + (if m.meta then ["Meta"] else [])
  }

  /** The rank of a modifier name in that order. */
  function ModifierRank(name: string): nat {
    if name == "Shift" then 0 else if name == "Ctrl" then 1 else if name == "Alt" then 2 else 3
  }

  predicate IsModifierName(name: string) {
    name == "Shift" || name == "Ctrl" || name == "Alt" || name == "Meta"
  }

  /** The key list a (non-modifier) key press builds. */
  function CaptureParts(key: int, m: ModifierState): seq<string> {
    var names := ModifierNames(m);
    var name := KeyName(key);
    if name.Some? && name.value != "" && name.value !in names then names + [name.value] else names
  }

  /** No key name is a modifier's name. */
  lemma KeyNameIsNoModifier(key: int)
    requires KeyName(key).Some?
    ensures !IsModifierName(KeyName(key).value)
  {
    var n := KeyName(key).value;
    if KEY_F1 <= key <= KEY_F35 {
      assert n[0] == 'F';
    }
  }

  /**
   * What a capture lists: each held modifier once, in the order Shift, Ctrl,
   * Alt, Meta, and then the key's own name when it has one.
   */
  lemma CapturePartsMeaning(key: int, m: ModifierState)
    ensures var parts := CaptureParts(key, m);
      (forall i :: 0 <= i < |parts| && IsModifierName(parts[i]) ==> i < |ModifierNames(m)|)
      && (forall i, j :: 0 <= i < j < |ModifierNames(m)| ==> ModifierRank(parts[i]) < ModifierRank(parts[j]))
      && ("Shift" in parts <==> m.shift) && ("Ctrl" in parts <==> m.ctrl)
      && ("Alt" in parts <==> m.alt) && ("Meta" in parts <==> m.meta)
      && (KeyName(key).Some? <==> |parts| == |ModifierNames(m)| + 1)
      && (KeyName(key).Some? ==> parts[|parts| - 1] == KeyName(key).value)
  {
    var names := ModifierNames(m);
    var parts := CaptureParts(key, m);
    ModifierNamesMeaning(m);
    if KeyName(key).Some? {
      KeyNameIsNoModifier(key);
      assert KeyName(key).value !in names;
      assert parts == names + [KeyName(key).value];
      assert parts[..|names|] == names;
    } else {
      assert parts == names;
    }
  }

  /** The held modifiers' names are modifier names, in rank order, one per held modifier. */
  lemma ModifierNamesMeaning(m: ModifierState)
    ensures var names := ModifierNames(m);
      (forall i :: 0 <= i < |names| ==> IsModifierName(names[i]))
      && (forall i, j :: 0 <= i < j < |names| ==> ModifierRank(names[i]) < ModifierRank(names[j]))
      && ("Shift" in names <==> m.shift) && ("Ctrl" in names <==> m.ctrl)
      && ("Alt" in names <==> m.alt) && ("Meta" in names <==> m.meta)
  {
    assert "Shift"[0] != "Ctrl"[0] && "Shift"[0] != "Alt"[0] && "Shift"[0] != "Meta"[0];
    assert "Ctrl"[0] != "Alt"[0] && "Ctrl"[0] != "Meta"[0] && "Alt"[0] != "Meta"[0];
  }

  /** The captured text splits back into exactly the key list. */
  lemma CaptureSplitsBack(key: int, m: ModifierState)
    requires CaptureParts(key, m) != []
    ensures Split(Join(CaptureParts(key, m), "+"), '+') == CaptureParts(key, m)
  {
    var parts := CaptureParts(key, m);
    forall i | 0 <= i < |parts| ensures '+' !in parts[i] {
      if i >= |ModifierNames(m)| {
        assert parts[i] == KeyName(key).value;
      }
    }
    SplitJoin(parts, '+');
  }

  /** `HotkeyCaptureWidget`: a read-only line edit that shows the last captured combination. */
  class HotkeyCaptureWidget {
    var text: string
    var captured: seq<string>

    constructor ()
      ensures text == "" && captured == []
    {
      text := "";
      captured := [];
    }

    /**
     * `keyPressEvent`: a modifier key alone captures nothing; otherwise the
     * held modifiers and the key's name, if any, are joined with '+', shown
     * and emitted. A press that yields no name and no modifier changes nothing.
     */
    method KeyPressEvent(key: int, m: ModifierState)
      modifies this
      ensures IsModifierKey(key) || CaptureParts(key, m) == [] ==> text == old(text) && captured == old(captured)
      ensures !IsModifierKey(key) && CaptureParts(key, m) != [] ==>
        text == Join(CaptureParts(key, m), "+") && captured == old(captured) + [text]
    {
      if IsModifierKey(key) {
        return;
      }
      var keys: seq<string> := [];
      if m.shift {
        keys := keys + ["Shift"];
      }
      if m.ctrl {
        keys := keys + ["Ctrl"];
      }
      if m.alt {
        keys := keys + ["Alt"];
      }
      if m.meta {
        keys := keys + ["Meta"];
      }
      assert keys == ModifierNames(m);
      var name := KeyName(key);
      if name.Some? && name.value != "" && name.value !in keys {
        keys := keys + [name.value];
      }
      assert keys == CaptureParts(key, m);
      if keys != [] {
        var hotkey := Join(keys, "+");
        text := hotkey;
        captured := captured + [hotkey];
      }
    }
  }

  /** A stored path value: the key may be absent, hold None, or hold a path. */
  datatype PathValue = Absent | PathNone | Path(path: string)

  /** `text() or None`: the empty text reads as no path. */
  function PathFromText(t: string): (r: Option<PathString>)
    ensures r.None? <==> t == ""
    ensures r.Some? ==> r.value == t
  {
    if t == "" then None else Some(t)
  }

  /** `str(config.get(key, ''))` as written: None becomes the text "None". */
  function PathTextAsWritten(v: PathValue): string {
    match v
    case Absent => ""
    case PathNone => "None"
    case Path(p) => p
  }

  /** A None path written by `set_storage_config` is read back as the path "None". */
  lemma NonePathDoesNotRoundTrip()
    ensures PathFromText(PathTextAsWritten(PathNone)).Some? && PathFromText(PathTextAsWritten(PathNone)).value == "None"
  {
  }

  /** The evident intent: no path is shown as empty text. */
  function PathText(v: PathValue): (r: string)
    ensures v.Path? ==> r == v.path
    ensures !v.Path? ==> r == ""
  {
    match v
    case Path(p) => p
    case _ => ""
  }

  /** With no path shown as empty text, what is read back is what was set. */
  lemma PathRoundTrip(v: PathValue)
    ensures PathFromText(PathText(v)).Some? <==> v.Path? && v.path != ""
    ensures PathFromText(PathText(v)).Some? ==> PathFromText(PathText(v)).value == v.path
  {
  }

  /** `StorageConfigWidget`. */
  class StorageConfigWidget {
    var useDefault: bool
    var audioPathText: string
    var markdownPathText: string
    /** Whether the path editors and their browse buttons are enabled. */
    var pathsEnabled: bool

    ghost predicate Valid()
      reads this
    {
      pathsEnabled == !useDefault
    }

    /** `_setup_ui`: "use default" checked, the editors disabled and empty. */
    constructor ()
      ensures Valid() && useDefault && audioPathText == "" && markdownPathText == ""
    {
      useDefault := true;
      audioPathText := "";
      markdownPathText := "";
      pathsEnabled := false;
    }

    /** `_on_use_default_toggled`. */
    method OnUseDefaultToggled(checked: bool)
      modifies this`pathsEnabled
      ensures pathsEnabled == !checked
    {
      pathsEnabled := !checked;
    }

    /** `setChecked`: the toggled slot runs only when the state changes. */
    method SetUseDefault(checked: bool)
      requires Valid()
      modifies this`useDefault, this`pathsEnabled
      ensures Valid() && useDefault == checked
    {
      if useDefault != checked {
        useDefault := checked;
        OnUseDefaultToggled(checked);
      }
    }

    /** `get_storage_config`. */
    method GetStorageConfig() returns (c: StorageConfig)
      ensures c == StorageConfig(PathFromText(audioPathText), PathFromText(markdownPathText), useDefault)
    {
      c := StorageConfig(PathFromText(audioPathText), PathFromText(markdownPathText), useDefault);
    }

    /**
     * `set_storage_config`, with no path shown as empty text (see
     * `PathTextAsWritten` for the text "None" the code writes). An absent
     * `use_default` means checked.
     */
    method SetStorageConfig(useDefaultValue: Option<bool>, audio: PathValue, markdown: PathValue)
      requires Valid()
      modifies this
      ensures Valid()
      ensures useDefault == (if useDefaultValue.Some? then useDefaultValue.value else true)
      ensures audioPathText == PathText(audio) && markdownPathText == PathText(markdown)
    {
      SetUseDefault(if useDefaultValue.Some? then useDefaultValue.value else true);
      audioPathText := PathText(audio);
      markdownPathText := PathText(markdown);
    }
  }

  /** A configuration read from the widget is read back unchanged after being set. */
  method StorageConfigRoundTrip(c: StorageConfig) returns (back: StorageConfig)
    ensures back == c
  {
    var w := new StorageConfigWidget();
    var audio := if c.audioPath.Some? then Path(c.audioPath.value) else PathNone;
    var markdown := if c.markdownPath.Some? then Path(c.markdownPath.value) else PathNone;
    w.SetStorageConfig(Some(c.useDefault), audio, markdown);
    back := w.GetStorageConfig();
  }

  /** The note-type record `get_note_type` returns. */
  datatype NoteTypeForm = NoteTypeForm(
    name: string,
    hotkey: Option<string>,
    storage: StorageConfig,
    summaryPrompt: string,
    template: string)

  /** `get_note_type`: trimmed texts, and no hotkey when its text is blank. */
  function GetNoteType(nameText: string, hotkeyText: string, storage: StorageConfig,
                       promptText: string, templateText: string): (r: NoteTypeForm)
    ensures r.name == Strip(nameText) && r.summaryPrompt == Strip(promptText) && r.template == Strip(templateText)
    ensures r.hotkey.None? <==> Strip(hotkeyText) == ""
    ensures r.hotkey.Some? ==> r.hotkey.value == Strip(hotkeyText)
    ensures r.hotkey.Some? ==> Strip(r.hotkey.value) == r.hotkey.value
    ensures Strip(r.name) == r.name && Strip(r.summaryPrompt) == r.summaryPrompt && Strip(r.template) == r.template
    ensures r.storage == storage
  {
    StripIdempotent(nameText);
    StripIdempotent(hotkeyText);
    StripIdempotent(promptText);
    StripIdempotent(templateText);
    NoteTypeForm(Strip(nameText), PathFromText(Strip(hotkeyText)), storage, Strip(promptText), Strip(templateText))
  }

  /** `_validate_and_accept`: only a name that is not blank is accepted. */
  function ValidateAndAccept(nameText: string): (accepted: bool)
    ensures accepted <==> exists i :: 0 <= i < |nameText| && !IsSpace(nameText[i])
  {
    StripEmptyIffBlank(nameText);
    Strip(nameText) != ""
  }

  /** Whitespace typed around the texts makes no difference to the record read from the form. */
  lemma GetNoteTypeIgnoresPadding(a: string, b: string, nameText: string, hotkeyText: string,
                                  storage: StorageConfig, promptText: string, templateText: string)
    requires Blank(a) && Blank(b)
    ensures GetNoteType(a + nameText + b, a + hotkeyText + b, storage, a + promptText + b, a + templateText + b)
         == GetNoteType(nameText, hotkeyText, storage, promptText, templateText)
  {
    StripPadded(a, nameText, b);
    StripPadded(a, hotkeyText, b);
    StripPadded(a, promptText, b);
    StripPadded(a, templateText, b);
  }

  /**
   * A record whose texts are already trimmed comes back unchanged when loaded
   * into the form, surrounded by any whitespace, and read again.
   */
  lemma PaddedLoadThenGetNoteType(nt: NoteTypeForm, a: string, b: string)
    requires Blank(a) && Blank(b)
    requires Strip(nt.name) == nt.name && Strip(nt.summaryPrompt) == nt.summaryPrompt && Strip(nt.template) == nt.template
    requires nt.hotkey.Some? ==> nt.hotkey.value != "" && Strip(nt.hotkey.value) == nt.hotkey.value
    ensures var h := if nt.hotkey.Some? then nt.hotkey.value else "";
      GetNoteType(a + nt.name + b, a + h + b, nt.storage, a + nt.summaryPrompt + b, a + nt.template + b) == nt
  {
    var h := if nt.hotkey.Some? then nt.hotkey.value else "";
    GetNoteTypeIgnoresPadding(a, b, nt.name, h, nt.storage, nt.summaryPrompt, nt.template);
    LoadThenGetNoteType(nt);
  }

  /** A record whose texts are already trimmed comes back unchanged when loaded into the form and read again. */
  lemma LoadThenGetNoteType(nt: NoteTypeForm)
    requires Strip(nt.name) == nt.name && Strip(nt.summaryPrompt) == nt.summaryPrompt && Strip(nt.template) == nt.template
    requires nt.hotkey.Some? ==> nt.hotkey.value != "" && Strip(nt.hotkey.value) == nt.hotkey.value
    ensures GetNoteType(nt.name, if nt.hotkey.Some? then nt.hotkey.value else "", nt.storage, nt.summaryPrompt, nt.template) == nt
  {
  }
}
