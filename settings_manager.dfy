/**
 * The settings manager (`SettingsManager`): the application configuration
 * held in memory, loaded from its JSON file (or created with defaults, with a
 * corrupt file moved aside to `.bak`), the note types kept in it by id, and
 * the general settings updated by keyword.
 *
 * The configuration file and its `.bak` sibling are fields: absent, or what
 * reading them yields. Whether a write succeeds is a parameter (`writeOk`);
 * a failed write leaves the file as it was and raises.
 */
module SettingsManager {
  import opened Wrappers
  import opened ConfigModels
  import OrderedMaps

  /** What reading the file yields: a JSON document, or text that does not parse or cannot be read. */
  datatype FileContent = Document(json: Json) | Unreadable

  /** A document in the file came from `json.load`. */
  predicate FileLoadable(f: Option<FileContent>) {
    f.Some? && f.value.Document? ==> Loadable(f.value.json)
  }

  /** The configuration the file holds, if it reads and validates. */
  function Parsed(f: Option<FileContent>, home: string, newId: string -> string): Option<AppConfig> {
    if f.Some? && f.value.Document? && ValidateApp(f.value.json, home, newId).Ok?
    then Some(ValidateApp(f.value.json, home, newId).value)
    else None
  }

  /** The saved defaults are a loadable file, and the defaults' note-type map is well formed. */
  lemma DefaultsLoadable(home: string)
    ensures FileLoadable(Some(Document(DumpApp(DefaultApp(home)))))
    ensures OrderedMaps.Valid(DefaultApp(home).noteTypes)
  {
  }

  /** A configuration read from a loadable file has a well-formed note-type map. */
  lemma ParsedValid(f: Option<FileContent>, home: string, newId: string -> string)
    requires FileLoadable(f)
    ensures Parsed(f, home, newId).Some? ==> OrderedMaps.Valid(Parsed(f, home, newId).value.noteTypes)
  {
  }

  /** A file written from a configuration is read back as that configuration. */
  lemma SavedFileReloads(c: AppConfig, home: string, newId: string -> string)
    ensures Parsed(Some(Document(DumpApp(c))), home, newId) == Some(c)
  {
    AppRoundTrip(c, home, newId);
  }

  /** A keyword argument of `update_general_settings`, classified by its key. */
  datatype Kwarg =
    | RecordingDevice(device: Option<string>)
    | DefaultStorage(storage: StorageConfig)
    | DefaultJournalDir(dir: PathString)
    | DefaultSummaryPrompt(prompt: string)
    | OllamaModel(model: string)
    | GlobalRecordHotkey(hotkey: string)
    | MaxRecordingDuration(seconds: real)
    | TranscriptionTimeout(timeout: int)
      /** A key that names an attribute of the model other than a field: assigning it raises. */
    | OtherAttribute(name: string)
      /** A key that names no attribute: skipped. */
    | NoAttribute(name: string)

  /** `setattr(general, key, value)` for a field key; any other key leaves the settings as they are. */
  function SetField(g: GeneralConfig, kw: Kwarg): GeneralConfig {
    match kw
    case RecordingDevice(d) => g.(recordingDevice := d)
    case DefaultStorage(s) => g.(defaultStorage := s)
    case DefaultJournalDir(d) => g.(defaultJournalDir := d)
    case DefaultSummaryPrompt(p) => g.(defaultSummaryPrompt := p)
    case OllamaModel(m) => g.(ollamaModel := m)
    case GlobalRecordHotkey(h) => g.(globalRecordHotkey := h)
    case MaxRecordingDuration(s) => g.(maxRecordingDuration := s)
    case TranscriptionTimeout(t) => g.(transcriptionTimeout := t)
    case _ => g
  }

  /** The settings after the keyword arguments are assigned in order. */
  function Applied(g: GeneralConfig, kwargs: seq<Kwarg>): GeneralConfig {
    if |kwargs| == 0 then g else SetField(Applied(g, kwargs[..|kwargs| - 1]), kwargs[|kwargs| - 1])
  }

  /** The keyword arguments whose keys name an attribute. */
  function Attributes(kwargs: seq<Kwarg>): (r: seq<Kwarg>)
    ensures forall i :: 0 <= i < |r| ==> !r[i].NoAttribute?
    ensures |r| <= |kwargs|
  {
    if |kwargs| == 0 then []
    else
      var last := kwargs[|kwargs| - 1];
      Attributes(kwargs[..|kwargs| - 1]) + (if last.NoAttribute? then [] else [last])
  }

  /** Keys that name no attribute are ignored: the settings are as if they had not been passed. */
  lemma {:induction false} NoAttributeIgnored(g: GeneralConfig, kwargs: seq<Kwarg>)
    ensures Applied(g, kwargs) == Applied(g, Attributes(kwargs))
  {
    if |kwargs| > 0 {
      var init := kwargs[..|kwargs| - 1];
      var last := kwargs[|kwargs| - 1];
      NoAttributeIgnored(g, init);
      if !last.NoAttribute? {
        var a := Attributes(init) + [last];
        assert a[..|a| - 1] == Attributes(init);
      } else {
        assert Attributes(init) + [] == Attributes(init);
      }
    }
  }

  /** The position of the first key that makes the assignment raise, or the length when none does. */
  function FirstRaising(kwargs: seq<Kwarg>): (n: nat)
    ensures n <= |kwargs|
    ensures forall i :: 0 <= i < n ==> !kwargs[i].OtherAttribute?
    ensures n < |kwargs| ==> kwargs[n].OtherAttribute?
  {
    if |kwargs| == 0 then 0
    else if kwargs[0].OtherAttribute? then 0
    else 1 + FirstRaising(kwargs[1..])
  }

  /** `SettingsManager`. */
  class SettingsManager {
    /** `Path.home()`, where the default locations live. */
    const home: string
    /** The id `uuid4()` gives a note type stored under a key whose document has none. */
    const newId: string -> string
    var configFile: Option<FileContent>
    var backupFile: Option<FileContent>
    var config: Option<AppConfig>

    ghost predicate Valid()
      reads this
    {
      config.Some? && OrderedMaps.Valid(config.value.noteTypes) && FileLoadable(configFile)
    }

    /** The fields `__init__` sets before it loads (see `LoadConfig`). */
    constructor (home: string, newId: string -> string, configFile: Option<FileContent>, backupFile: Option<FileContent>)
      ensures this.home == home && this.newId == newId
      ensures this.configFile == configFile && this.backupFile == backupFile && config == None
    {
      this.home := home;
      this.newId := newId;
      this.configFile := configFile;
      this.backupFile := backupFile;
      config := None;
    }

    /** `_save_config`: writes the configuration's dump, or raises and leaves the file as it was. */
    method SaveConfig(writeOk: bool) returns (raised: bool)
      requires config.Some?
      modifies this`configFile
      ensures raised == !writeOk
      ensures configFile == if writeOk then Some(Document(DumpApp(config.value))) else old(configFile)
    {
      if writeOk {
        configFile := Some(Document(DumpApp(config.value)));
      }
      raised := !writeOk;
    }

    /**
     * `_load_config`: a file that reads and validates becomes the configuration;
     * a missing file gives the defaults, which are saved; any other file is
     * renamed to `.bak` and replaced by the saved defaults. `raised` is an
     * exception escaping `__init__`: the second failed save.
     */
    method LoadConfig(writeOk: bool) returns (raised: bool)
      requires FileLoadable(configFile)
      modifies this`configFile, this`backupFile, this`config
      ensures Valid()
      ensures var loaded := Parsed(old(configFile), home, newId);
        if loaded.Some? then
          config == loaded && !raised && configFile == old(configFile) && backupFile == old(backupFile)
        else
          && config == Some(DefaultApp(home))
          && raised == !writeOk
          && backupFile == (if old(configFile).Some? then old(configFile) else old(backupFile))
          && configFile == (if writeOk then Some(Document(DumpApp(DefaultApp(home)))) else None)
    {
      DefaultsLoadable(home);
      ParsedValid(configFile, home, newId);
      var loaded := Parsed(configFile, home, newId);
      if configFile.Some? {
        if loaded.Some? {
          config := loaded;
          return false;
        }
      } else {
        config := Some(DefaultApp(home));
        raised := SaveConfig(writeOk);
        if !raised {
          return;
        }
      }
      if configFile.Some? {
        backupFile := configFile;
        configFile := None;
      }
      config := Some(DefaultApp(home));
      raised := SaveConfig(writeOk);
    }

    /** `get_note_type`: the note type stored under the id, or None. */
    method GetNoteType(id: string) returns (r: Option<NoteTypeConfig>)
      requires config.Some?
      ensures r.None? <==> id !in config.value.noteTypes.values
      ensures r.Some? ==> r.value == config.value.noteTypes.values[id]
    {
      var noteTypes := config.value.noteTypes.values;
      r := if id in noteTypes then Some(noteTypes[id]) else None;
    }

    /** `get_all_note_types`: every stored note type, in insertion order. */
    method GetAllNoteTypes() returns (r: seq<NoteTypeConfig>)
      requires Valid()
      ensures |r| == |config.value.noteTypes.keys|
      ensures forall i :: 0 <= i < |r| ==> r[i] == config.value.noteTypes.values[config.value.noteTypes.keys[i]]
      ensures forall id :: id in config.value.noteTypes.values ==> config.value.noteTypes.values[id] in r
    {
      var nts := config.value.noteTypes;
      r := [];
      var i := 0;
      while i < |nts.keys|
        invariant 0 <= i <= |nts.keys|
        invariant |r| == i
        invariant forall j :: 0 <= j < i ==> r[j] == nts.values[nts.keys[j]]
      {
        r := r + [nts.values[nts.keys[i]]];
        i := i + 1;
      }
      forall id | id in nts.values
        ensures nts.values[id] in r
      {
        var j :| 0 <= j < |nts.keys| && nts.keys[j] == id;
        assert r[j] == nts.values[id];
      }
    }

    /** `save_note_type`: stores the note type under its id, replacing any there, then saves. */
    method SaveNoteType(nt: NoteTypeConfig, writeOk: bool) returns (ok: bool)
      requires Valid()
      modifies this`config, this`configFile
      ensures Valid()
      ensures config == Some(old(config).value.(noteTypes := OrderedMaps.Put(old(config).value.noteTypes, nt.id, nt)))
      ensures ok == writeOk
      ensures configFile == if writeOk then Some(Document(DumpApp(config.value))) else old(configFile)
    {
      config := Some(config.value.(noteTypes := OrderedMaps.Put(config.value.noteTypes, nt.id, nt)));
      var raised := SaveConfig(writeOk);
      ok := !raised;
    }

    /**
     * `delete_note_type`: False, with nothing changed, for an unknown id;
     * otherwise the note type is removed and saved. A failed save returns
     * False with the note type already gone from memory.
     */
    method DeleteNoteType(id: string, writeOk: bool) returns (ok: bool)
      requires Valid()
      modifies this`config, this`configFile
      ensures Valid()
      ensures id !in old(config).value.noteTypes.values ==>
        !ok && config == old(config) && configFile == old(configFile)
      ensures id in old(config).value.noteTypes.values ==>
        && config == Some(old(config).value.(noteTypes := OrderedMaps.Remove(old(config).value.noteTypes, id)))
        && ok == writeOk
        && configFile == if writeOk then Some(Document(DumpApp(config.value))) else old(configFile)
    {
      if id in config.value.noteTypes.values {
        config := Some(config.value.(noteTypes := OrderedMaps.Remove(config.value.noteTypes, id)));
        var raised := SaveConfig(writeOk);
        ok := !raised;
      } else {
        ok := false;
      }
    }

    /**
     * `update_general_settings`: assigns the keyword arguments in order; a key
     * whose assignment raises stops the loop with the earlier ones kept, and
     * returns False without saving. Otherwise the result is that of the save.
     */
    method UpdateGeneralSettings(kwargs: seq<Kwarg>, writeOk: bool) returns (ok: bool)
      requires Valid()
      modifies this`config, this`configFile
      ensures Valid()
      ensures var n := FirstRaising(kwargs);
        && config == Some(old(config).value.(general := Applied(old(config).value.general, kwargs[..n])))
        && ok == (n == |kwargs| && writeOk)
        && configFile == if ok then Some(Document(DumpApp(config.value))) else old(configFile)
    {
      var i := 0;
      while i < |kwargs|
        invariant 0 <= i <= FirstRaising(kwargs)
        invariant Valid()
        invariant config == Some(old(config).value.(general := Applied(old(config).value.general, kwargs[..i])))
        invariant configFile == old(configFile)
      {
        if kwargs[i].OtherAttribute? {
          return false;
        }
        assert kwargs[..i + 1][..i] == kwargs[..i];
        config := Some(config.value.(general := SetField(config.value.general, kwargs[i])));
        i := i + 1;
      }
      assert kwargs[..i] == kwargs;
      var raised := SaveConfig(writeOk);
      ok := !raised;
    }
  }

  /**
   * A note type saved by one manager is found by id by a second manager
   * that loads the file the first one wrote.
   */
  method SaveNoteTypeThenReload(home: string, newId: string -> string, nt: NoteTypeConfig) returns (reloaded: Option<NoteTypeConfig>)
    ensures reloaded == Some(nt)
  {
    var first := new SettingsManager(home, newId, None, None);
    var raised := first.LoadConfig(true);
    var ok := first.SaveNoteType(nt, true);
    SavedFileReloads(first.config.value, home, newId);
    var second := new SettingsManager(home, newId, first.configFile, first.backupFile);
    raised := second.LoadConfig(true);
    reloaded := second.GetNoteType(nt.id);
  }

  /** A note type saved and then deleted is no longer found, and a second delete reports False. */
  method SaveThenDelete(home: string, newId: string -> string, nt: NoteTypeConfig) returns (found: Option<NoteTypeConfig>, again: bool)
    ensures found == None && !again
  {
    var manager := new SettingsManager(home, newId, None, None);
    var raised := manager.LoadConfig(true);
    var ok := manager.SaveNoteType(nt, true);
    ok := manager.DeleteNoteType(nt.id, true);
    found := manager.GetNoteType(nt.id);
    again := manager.DeleteNoteType(nt.id, true);
  }
}
