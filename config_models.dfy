/**
 * The configuration models (`StorageConfig`, `NoteTypeConfig`, `GeneralConfig`
 * and `AppConfig`): their defaults, how `model_validate` turns a JSON document
 * into them (an absent key takes its default, the storage-path validator
 * runs first, a number, a boolean or a numeric string is coerced the way
 * pydantic's lax mode does, any other value of the wrong JSON type is an
 * error, unknown keys are ignored), and how `model_dump(mode='json')` turns them back into JSON.
 *
 * A `Path` is its text. `Path.home()` and `uuid4()` are parameters: `home`,
 * and `newId`, which gives the id a note type stored under a key receives
 * when its document has none.
 */
module ConfigModels {
  import opened Wrappers
  import OrderedMaps
  import Paths
  import Strings

  /** A JSON value as `json.load` returns it; an object keeps its keys in document order. */
  datatype Json =
    | JNull
    | JBool(b: bool)
    | JInt(i: int)
    | JFloat(f: real)
    | JStr(s: string)
    | JArray(items: seq<Json>)
    | JObject(members: OrderedMaps.OMap<string, Json>)

  /** `json.load` builds dictionaries, so the keys of the document and of its note types are distinct. */
  predicate Loadable(j: Json) {
    j.JObject? ==>
      OrderedMaps.Valid(j.members)
      && ("note_types" in j.members.values && j.members.values["note_types"].JObject?
          ==> OrderedMaps.Valid(j.members.values["note_types"].members))
  }

  /** The text of a `Path`: never empty, since `Path("")` is `"."`. */
  type PathString = s: string | s != "" witness "."

  /** `Path(s)`. */
  function ToPath(s: string): (r: PathString)
    ensures s != "" ==> r == s
  {
    if s == "" then "." else s
  }

  /** What the `pre` validator `convert_str_to_path` hands on. */
  datatype PreValidated = PreNone | PrePath(path: PathString) | PreOther(value: Json)

  /** `convert_str_to_path`: None and "" become None, any other string a path, and the rest passes through. */
  function ConvertStrToPath(v: Json): (r: PreValidated)
    ensures r.PreNone? <==> v == JNull || v == JStr("")
    ensures r.PrePath? <==> v.JStr? && v.s != ""
    ensures r.PrePath? ==> r.path == v.s
    ensures r.PreOther? ==> r.value == v
  {
    if v == JNull || v == JStr("") then PreNone
    else if v.JStr? then PrePath(v.s)
    else PreOther(v)
  }

  /** An `Optional[Path]` field after its validator: anything but None or a path is a type error. */
  function OptionalPath(v: Json): Result<Option<PathString>> {
    match ConvertStrToPath(v)
    case PreNone => Ok(None)
    case PrePath(p) => Ok(Some(p))
    case PreOther(_) => Err("path expected")
  }

  function AsStr(v: Json): Result<string> {
    if v.JStr? then Ok(v.s) else Err("string expected")
  }

  function AsOptionalStr(v: Json): Result<Option<string>> {
    if v.JNull? then Ok(None) else if v.JStr? then Ok(Some(v.s)) else Err("string or null expected")
  }

  /** The strings pydantic's lax mode reads as False and as True, compared ignoring ASCII case. */
  const FALSE_WORDS: set<string> := {"f", "n", "no", "off", "false"}
  const TRUE_WORDS: set<string> := {"t", "y", "yes", "on", "true"}

  /** A string read as a boolean: "0", "1" or one of the words in any letter case. */
  function StrAsBool(s: string): Option<bool> {
    if s == "0" || Strings.Lower(s) in FALSE_WORDS then Some(false)
    else if s == "1" || Strings.Lower(s) in TRUE_WORDS then Some(true)
    else None
  }

  /** A `bool` field in lax mode: a boolean, 0 or 1, 0.0 or 1.0, or a string `StrAsBool` reads. */
  function AsBool(v: Json): Result<bool> {
    match v
    case JBool(b) => Ok(b)
    case JInt(i) => if i == 0 then Ok(false) else if i == 1 then Ok(true) else Err("boolean expected")
    case JFloat(f) => if f == 0.0 then Ok(false) else if f == 1.0 then Ok(true) else Err("boolean expected")
    case JStr(s) => if StrAsBool(s).Some? then Ok(StrAsBool(s).value) else Err("boolean expected")
    case _ => Err("boolean expected")
  }

  predicate AllDigits(s: string) {
    forall i :: 0 <= i < |s| ==> '0' <= s[i] <= '9'
  }

  /** Whether a number's text starts with '-'. */
  function Negative(s: string): bool {
    |s| > 0 && s[0] == '-'
  }

  /** The text after an optional leading sign. */
  function Unsigned(s: string): string {
    if |s| > 0 && (s[0] == '-' || s[0] == '+') then s[1..] else s
  }

  /** An optionally signed decimal integer, after surrounding whitespace is stripped. */
  function StrAsInt(s: string): Option<int> {
    var t := Strings.Strip(s);
    var body := Unsigned(t);
    if body != "" && AllDigits(body) then
      Some(if Negative(t) then -(Strings.DecimalValue(body) as int) else Strings.DecimalValue(body))
    else None
  }

  /** The value of digits, a point and fraction digits. */
  function PointValue(whole: string, frac: string): real
    requires AllDigits(whole) && AllDigits(frac)
  {
    Strings.DecimalValue(whole) as real + Strings.DecimalValue(frac) as real / Strings.Pow10(|frac|) as real
  }

  /** Digits with at most one point and at least one digit: their value. */
  function PointNumber(body: string): Option<real> {
    var dot := Strings.RFind(body, '.');
    if dot < 0 then
      if body != "" && AllDigits(body) then Some(Strings.DecimalValue(body) as real) else None
    else
      var whole, frac := body[..dot], body[dot + 1..];
      if |whole| + |frac| > 0 && AllDigits(whole) && AllDigits(frac) then Some(PointValue(whole, frac)) else None
  }

  /** An optionally signed decimal number, with or without a fraction part, after surrounding whitespace is stripped. */
  function StrAsFloat(s: string): Option<real> {
    var t := Strings.Strip(s);
    var value := PointNumber(Unsigned(t));
    if value.Some? then Some(if Negative(t) then -value.value else value.value) else None
  }

  /** An `int` field in lax mode: an integer, a boolean as 0 or 1, a float without fractional part, or a string `StrAsInt` reads. */
  function AsInt(v: Json): Result<int> {
    match v
    case JInt(i) => Ok(i)
    case JBool(b) => Ok(if b then 1 else 0)
    case JFloat(f) => if f.Floor as real == f then Ok(f.Floor) else Err("integer expected")
    case JStr(s) => if StrAsInt(s).Some? then Ok(StrAsInt(s).value) else Err("integer expected")
    case _ => Err("integer expected")
  }

  /** A `float` field in lax mode: any number, a boolean as 0.0 or 1.0, or a string `StrAsFloat` reads. */
  function AsFloat(v: Json): Result<real> {
    match v
    case JInt(i) => Ok(i as real)
    case JBool(b) => Ok(if b then 1.0 else 0.0)
    case JFloat(f) => Ok(f)
    case JStr(s) => if StrAsFloat(s).Some? then Ok(StrAsFloat(s).value) else Err("number expected")
    case _ => Err("number expected")
  }

  /** A string of digits reads as its decimal value. */
  lemma DigitStringAsInt(d: string)
    requires d != "" && AllDigits(d)
    ensures StrAsInt(d) == Some(Strings.DecimalValue(d))
  {
    Strings.StripOfStripped(d);
    assert Unsigned(d) == d;
  }

  /** A string of digits reads as its decimal value as a float too. */
  lemma DigitStringAsFloat(d: string)
    requires d != "" && AllDigits(d)
    ensures StrAsFloat(d) == Some(Strings.DecimalValue(d) as real)
  {
    Strings.StripOfStripped(d);
    assert Unsigned(d) == d;
    assert Strings.RFind(d, '.') == -1;
  }

  /** Lax mode reads a decimal integer string as that integer. */
  lemma LaxIntStrings(n: nat)
    ensures AsInt(JStr(Strings.NatToString(n))) == Ok(n)
  {
    var d := Strings.NatToString(n);
    Strings.DecimalValueOfNatToString(n);
    DigitStringAsInt(d);
  }

  /** Lax mode reads a decimal integer string in a float field as that number. */
  lemma LaxFloatIntStrings(n: nat)
    ensures AsFloat(JStr(Strings.NatToString(n))) == Ok(n as real)
  {
    var d := Strings.NatToString(n);
    Strings.DecimalValueOfNatToString(n);
    DigitStringAsFloat(d);
  }

  /** Digits, a point and digits: no whitespace to strip, no sign, and the point splits them back. */
  lemma PointStringParts(whole: string, frac: string)
    requires AllDigits(whole) && AllDigits(frac) && |whole| + |frac| > 0
    ensures var m := whole + "." + frac;
      && Strings.Strip(m) == m && Unsigned(m) == m && !Negative(m)
      && Strings.RFind(m, '.') == |whole| && m[..|whole|] == whole && m[|whole| + 1..] == frac
  {
    var m := whole + "." + frac;
    assert m[|whole|] == '.';
    assert m[0] == '.' || '0' <= m[0] <= '9';
    assert m[|m| - 1] == '.' || '0' <= m[|m| - 1] <= '9';
    Strings.StripOfStripped(m);
    assert Strings.RFind(m, '.') == |whole|;
  }

  /** Lax mode reads digits, a point and digits as that decimal number. */
  lemma LaxPointStrings(whole: string, frac: string)
    requires AllDigits(whole) && AllDigits(frac) && |whole| + |frac| > 0
    ensures AsFloat(JStr(whole + "." + frac)) == Ok(PointValue(whole, frac))
  {
    PointStringParts(whole, frac);
  }

  /** A leading minus sign negates what lax mode reads from the rest, in both number fields. */
  lemma LaxMinusNegates(m: string)
    requires |m| > 1 && m[0] == '-' && m[1] != '-' && m[1] != '+'
    requires !Strings.IsSpace(m[1]) && !Strings.IsSpace(m[|m| - 1])
    ensures AsInt(JStr(m)).Ok? == AsInt(JStr(m[1..])).Ok?
    ensures AsInt(JStr(m)).Ok? ==> AsInt(JStr(m)).value == -AsInt(JStr(m[1..])).value
    ensures AsFloat(JStr(m)).Ok? == AsFloat(JStr(m[1..])).Ok?
    ensures AsFloat(JStr(m)).Ok? ==> AsFloat(JStr(m)).value == -AsFloat(JStr(m[1..])).value
  {
    var body := m[1..];
    Strings.StripOfStripped(m);
    Strings.StripOfStripped(body);
    assert Unsigned(m) == body && Unsigned(body) == body;
    assert Negative(m) && !Negative(body);
  }

  /** Lax booleans ignore letter case: a string reads as its lower-case form does. */
  lemma LaxBoolIgnoresCase(s: string)
    ensures AsBool(JStr(Strings.Lower(s))) == AsBool(JStr(s))
  {
    Strings.LowerIdempotent(s);
    var l := Strings.Lower(s);
    if l == "0" || l == "1" {
      assert |s| == 1 && Strings.LowerChar(s[0]) == l[0];
      assert s == l;
    }
  }

  /** The examples of lax booleans: 1, 0.0, "true" and "Off" are read, 2 and "maybe" are refused. */
  lemma LaxBoolExamples()
    ensures AsBool(JInt(1)) == Ok(true) && AsBool(JFloat(0.0)) == Ok(false)
    ensures AsBool(JStr("true")) == Ok(true) && AsBool(JStr("Off")) == Ok(false)
    ensures AsBool(JInt(2)).Err? && AsBool(JStr("maybe")).Err?
  {
    assert Strings.Lower("true") == "true";
    assert Strings.Lower("Off") == "off";
    assert Strings.Lower("maybe") == "maybe";
  }

  /** A `Path` field without a validator: a string, made a path. */
  function AsPath(v: Json): Result<PathString> {
    if v.JStr? then Ok(ToPath(v.s)) else Err("path expected")
  }

  /** The member `key` of `o` read by `read`, or `default` when `o` has no such key. */
  function Field<T>(o: OrderedMaps.OMap<string, Json>, key: string, read: Json -> Result<T>, default: T): Result<T> {
    if key in o.values then read(o.values[key]) else Ok(default)
  }

  function PathJson(p: Option<PathString>): Json {
    if p.Some? then JStr(p.value) else JNull
  }

  function OptionalStrJson(s: Option<string>): Json {
    if s.Some? then JStr(s.value) else JNull
  }

  /** A JSON object with the given keys, in order, and values. */
  function Object(keys: seq<string>, values: map<string, Json>): Json {
    JObject(OrderedMaps.OMap(keys, values))
  }

  // ---------------------------------------------------------------- StorageConfig

  datatype StorageConfig = StorageConfig(audioPath: Option<PathString>, markdownPath: Option<PathString>, useDefault: bool)

  /** `StorageConfig()`: no paths, and the default locations in use. */
  const DEFAULT_STORAGE := StorageConfig(None, None, true)

  function ValidateStorage(v: Json): Result<StorageConfig> {
    if !v.JObject? then Err("storage must be an object")
    else
      var o := v.members;
      var audio := Field(o, "audio_path", OptionalPath, None);
      var markdown := Field(o, "markdown_path", OptionalPath, None);
      var useDefault := Field(o, "use_default", AsBool, true);
      if audio.Err? then Err(audio.error)
      else if markdown.Err? then Err(markdown.error)
      else if useDefault.Err? then Err(useDefault.error)
      else Ok(StorageConfig(audio.value, markdown.value, useDefault.value))
  }

  function DumpStorage(s: StorageConfig): Json {
    Object(["audio_path", "markdown_path", "use_default"],
      map["audio_path" := PathJson(s.audioPath), "markdown_path" := PathJson(s.markdownPath),
          "use_default" := JBool(s.useDefault)])
  }

  /** An empty string for a path reads as no path, exactly as null does. */
  lemma EmptyPathIsNone(useDefault: bool)
    ensures ValidateStorage(Object(["audio_path", "use_default"],
              map["audio_path" := JStr(""), "use_default" := JBool(useDefault)]))
            == Ok(StorageConfig(None, None, useDefault))
  {
    var o := OrderedMaps.OMap(["audio_path", "use_default"], map["audio_path" := JStr(""), "use_default" := JBool(useDefault)]);
    assert Field(o, "audio_path", OptionalPath, None) == Ok(None);
    assert "markdown_path" !in o.values;
  }

  /** A dumped storage configuration validates back to itself. */
  lemma StorageRoundTrip(s: StorageConfig)
    ensures ValidateStorage(DumpStorage(s)) == Ok(s)
  {
    var o := DumpStorage(s).members;
    assert Field(o, "audio_path", OptionalPath, None) == Ok(s.audioPath);
    assert Field(o, "markdown_path", OptionalPath, None) == Ok(s.markdownPath);
    assert Field(o, "use_default", AsBool, true) == Ok(s.useDefault);
  }

  // ---------------------------------------------------------------- NoteTypeConfig

  datatype NoteTypeConfig = NoteTypeConfig(
    id: string,
    name: string,
    hotkey: Option<string>,
    storage: StorageConfig,
    summaryPrompt: string,
    template: string)

  /** `NoteTypeConfig(name=name)`: a fresh id, no hotkey, default storage, empty prompt and template. */
  function NewNoteType(name: string, freshId: string): NoteTypeConfig {
    NoteTypeConfig(freshId, name, None, DEFAULT_STORAGE, "", "")
  }

  /** A note type from a document; the name is required, and `freshId` is the id a document without one gets. */
  function ValidateNoteType(v: Json, freshId: string): Result<NoteTypeConfig> {
    if !v.JObject? then Err("note type must be an object")
    else
      var o := v.members;
      var id := Field(o, "id", AsStr, freshId);
      var name := if "name" in o.values then AsStr(o.values["name"]) else Err("name is required");
      var hotkey := Field(o, "hotkey", AsOptionalStr, None);
      var storage := Field(o, "storage", ValidateStorage, DEFAULT_STORAGE);
      var prompt := Field(o, "summary_prompt", AsStr, "");
      var template := Field(o, "template", AsStr, "");
      if id.Err? then Err(id.error)
      else if name.Err? then Err(name.error)
      else if hotkey.Err? then Err(hotkey.error)
      else if storage.Err? then Err(storage.error)
      else if prompt.Err? then Err(prompt.error)
      else if template.Err? then Err(template.error)
      else Ok(NoteTypeConfig(id.value, name.value, hotkey.value, storage.value, prompt.value, template.value))
  }

  function DumpNoteType(n: NoteTypeConfig): Json {
    Object(["id", "name", "hotkey", "storage", "summary_prompt", "template"],
      map["id" := JStr(n.id), "name" := JStr(n.name), "hotkey" := OptionalStrJson(n.hotkey),
          "storage" := DumpStorage(n.storage), "summary_prompt" := JStr(n.summaryPrompt),
          "template" := JStr(n.template)])
  }

  /** A document holding only a name gives that name with every other field at its default. */
  lemma NameOnlyNoteType(name: string, freshId: string)
    ensures ValidateNoteType(Object(["name"], map["name" := JStr(name)]), freshId) == Ok(NewNoteType(name, freshId))
  {
    var o := OrderedMaps.OMap(["name"], map["name" := JStr(name)]);
    assert "id" !in o.values && "hotkey" !in o.values && "storage" !in o.values;
    assert "summary_prompt" !in o.values && "template" !in o.values;
  }

  /** A document without a name is rejected, whatever else it holds. */
  lemma NameIsRequired(o: OrderedMaps.OMap<string, Json>, freshId: string)
    requires "name" !in o.values
    ensures ValidateNoteType(JObject(o), freshId).Err?
  {
  }

  /** A dumped note type validates back to itself, id included. */
  lemma NoteTypeRoundTrip(n: NoteTypeConfig, freshId: string)
    ensures ValidateNoteType(DumpNoteType(n), freshId) == Ok(n)
  {
    var o := DumpNoteType(n).members;
    StorageRoundTrip(n.storage);
    assert Field(o, "id", AsStr, freshId) == Ok(n.id);
    assert Field(o, "hotkey", AsOptionalStr, None) == Ok(n.hotkey);
    assert Field(o, "storage", ValidateStorage, DEFAULT_STORAGE) == Ok(n.storage);
    assert Field(o, "summary_prompt", AsStr, "") == Ok(n.summaryPrompt);
    assert Field(o, "template", AsStr, "") == Ok(n.template);
  }

  // ---------------------------------------------------------------- GeneralConfig

  datatype GeneralConfig = GeneralConfig(
    recordingDevice: Option<string>,
    defaultStorage: StorageConfig,
    defaultJournalDir: PathString,
    defaultSummaryPrompt: string,
    ollamaModel: string,
    globalRecordHotkey: string,
    maxRecordingDuration: real,
    transcriptionTimeout: int)

  const DEFAULT_SUMMARY_PROMPT := "Summarize the following transcription in a concise and informative way."

  /** `~/WhisperNotes/<leaf>`. */
  function UnderAppHome(home: string, leaf: string): PathString {
    ToPath(Paths.PathJoin(Paths.PathJoin(home, "WhisperNotes"), leaf))
  }

  /** `GeneralConfig()`: recordings and notes under ~/WhisperNotes, a 15-minute limit and a 120-second timeout. */
  function DefaultGeneral(home: string): GeneralConfig {
    GeneralConfig(
      None,
      StorageConfig(Some(UnderAppHome(home, "Recordings")), Some(UnderAppHome(home, "Notes")), true),
      UnderAppHome(home, "Journal"),
      DEFAULT_SUMMARY_PROMPT,
      "whisper",
      "ctrl+shift+r",
      900.0,
      120)
  }

  function ValidateGeneral(v: Json, home: string): Result<GeneralConfig> {
    if !v.JObject? then Err("general must be an object")
    else
      var o := v.members;
      var d := DefaultGeneral(home);
      var device := Field(o, "recording_device", AsOptionalStr, d.recordingDevice);
      var storage := Field(o, "default_storage", ValidateStorage, d.defaultStorage);
      var journal := Field(o, "default_journal_dir", AsPath, d.defaultJournalDir);
      var prompt := Field(o, "default_summary_prompt", AsStr, d.defaultSummaryPrompt);
      var model := Field(o, "ollama_model", AsStr, d.ollamaModel);
      var hotkey := Field(o, "global_record_hotkey", AsStr, d.globalRecordHotkey);
      var duration := Field(o, "max_recording_duration", AsFloat, d.maxRecordingDuration);
      var timeout := Field(o, "transcription_timeout", AsInt, d.transcriptionTimeout);
      if device.Err? then Err(device.error)
      else if storage.Err? then Err(storage.error)
      else if journal.Err? then Err(journal.error)
      else if prompt.Err? then Err(prompt.error)
      else if model.Err? then Err(model.error)
      else if hotkey.Err? then Err(hotkey.error)
      else if duration.Err? then Err(duration.error)
      else if timeout.Err? then Err(timeout.error)
      else Ok(GeneralConfig(device.value, storage.value, journal.value, prompt.value, model.value,
                            hotkey.value, duration.value, timeout.value))
  }

  function DumpGeneral(g: GeneralConfig): Json {
    Object(["recording_device", "default_storage", "default_journal_dir", "default_summary_prompt",
            "ollama_model", "global_record_hotkey", "max_recording_duration", "transcription_timeout"],
      map["recording_device" := OptionalStrJson(g.recordingDevice),
          "default_storage" := DumpStorage(g.defaultStorage),
          "default_journal_dir" := JStr(g.defaultJournalDir),
          "default_summary_prompt" := JStr(g.defaultSummaryPrompt),
          "ollama_model" := JStr(g.ollamaModel),
          "global_record_hotkey" := JStr(g.globalRecordHotkey),
          "max_recording_duration" := JFloat(g.maxRecordingDuration),
          "transcription_timeout" := JInt(g.transcriptionTimeout)])
  }

  /** The members of a dumped general configuration. */
  lemma DumpGeneralMembers(g: GeneralConfig)
    ensures var o := DumpGeneral(g).members;
      && o.values["recording_device"] == OptionalStrJson(g.recordingDevice)
      && o.values["default_storage"] == DumpStorage(g.defaultStorage)
      && o.values["default_journal_dir"] == JStr(g.defaultJournalDir)
      && o.values["default_summary_prompt"] == JStr(g.defaultSummaryPrompt)
      && o.values["ollama_model"] == JStr(g.ollamaModel)
      && o.values["global_record_hotkey"] == JStr(g.globalRecordHotkey)
      && o.values["max_recording_duration"] == JFloat(g.maxRecordingDuration)
      && o.values["transcription_timeout"] == JInt(g.transcriptionTimeout)
  {
  }

  /** A dumped general configuration validates back to itself. */
  lemma GeneralRoundTrip(g: GeneralConfig, home: string)
    ensures ValidateGeneral(DumpGeneral(g), home) == Ok(g)
  {
    GeneralRoundTripHead(g, home);
    GeneralRoundTripTail(g, home);
  }

  /** The first four dumped fields of a general configuration read back as they were. */
  lemma GeneralRoundTripHead(g: GeneralConfig, home: string)
    ensures var o := DumpGeneral(g).members;
      var d := DefaultGeneral(home);
      && Field(o, "recording_device", AsOptionalStr, d.recordingDevice) == Ok(g.recordingDevice)
      && Field(o, "default_storage", ValidateStorage, d.defaultStorage) == Ok(g.defaultStorage)
      && Field(o, "default_journal_dir", AsPath, d.defaultJournalDir) == Ok(g.defaultJournalDir)
      && Field(o, "default_summary_prompt", AsStr, d.defaultSummaryPrompt) == Ok(g.defaultSummaryPrompt)
  {
    DumpGeneralMembers(g);
    StorageRoundTrip(g.defaultStorage);
  }

  /** The last four dumped fields of a general configuration read back as they were. */
  lemma GeneralRoundTripTail(g: GeneralConfig, home: string)
    ensures var o := DumpGeneral(g).members;
      var d := DefaultGeneral(home);
      && Field(o, "ollama_model", AsStr, d.ollamaModel) == Ok(g.ollamaModel)
      && Field(o, "global_record_hotkey", AsStr, d.globalRecordHotkey) == Ok(g.globalRecordHotkey)
      && Field(o, "max_recording_duration", AsFloat, d.maxRecordingDuration) == Ok(g.maxRecordingDuration)
      && Field(o, "transcription_timeout", AsInt, d.transcriptionTimeout) == Ok(g.transcriptionTimeout)
  {
    DumpGeneralMembers(g);
  }


  // ---------------------------------------------------------------- AppConfig

  datatype AppConfig = AppConfig(version: string, general: GeneralConfig, noteTypes: OrderedMaps.OMap<string, NoteTypeConfig>)

  /** `AppConfig()`: version "1.0", the default general settings, and no note types. */
  function DefaultApp(home: string): AppConfig {
    AppConfig("1.0", DefaultGeneral(home), OrderedMaps.Empty())
  }

  /** The `note_types` dictionary: every value must validate; the keys keep their order. */
  function ValidateNoteTypes(o: OrderedMaps.OMap<string, Json>, newId: string -> string): (r: Result<OrderedMaps.OMap<string, NoteTypeConfig>>)
    ensures r.Ok? <==> forall k :: k in o.values ==> ValidateNoteType(o.values[k], newId(k)).Ok?
    ensures r.Ok? ==> r.value.keys == o.keys && r.value.values.Keys == o.values.Keys
    ensures r.Ok? ==> forall k :: k in o.values ==> Ok(r.value.values[k]) == ValidateNoteType(o.values[k], newId(k))
  {
    if forall k :: k in o.values ==> ValidateNoteType(o.values[k], newId(k)).Ok? then
      Ok(OrderedMaps.OMap(o.keys, map k | k in o.values :: ValidateNoteType(o.values[k], newId(k)).value))
    else Err("invalid note type")
  }

  function AsNoteTypes(v: Json, newId: string -> string): Result<OrderedMaps.OMap<string, NoteTypeConfig>> {
    if v.JObject? then ValidateNoteTypes(v.members, newId) else Err("note_types must be an object")
  }

  /** `AppConfig.model_validate`. */
  function ValidateApp(v: Json, home: string, newId: string -> string): (r: Result<AppConfig>)
    ensures r.Ok? && Loadable(v) ==> OrderedMaps.Valid(r.value.noteTypes)
  {
    if !v.JObject? then Err("configuration must be an object")
    else
      var o := v.members;
      var version := Field(o, "version", AsStr, "1.0");
      var general := if "general" in o.values then ValidateGeneral(o.values["general"], home) else Ok(DefaultGeneral(home));
      var noteTypes := if "note_types" in o.values then AsNoteTypes(o.values["note_types"], newId) else Ok(OrderedMaps.Empty());
      if version.Err? then Err(version.error)
      else if general.Err? then Err(general.error)
      else if noteTypes.Err? then Err(noteTypes.error)
      else Ok(AppConfig(version.value, general.value, noteTypes.value))
  }

  function DumpNoteTypes(m: OrderedMaps.OMap<string, NoteTypeConfig>): Json {
    JObject(OrderedMaps.OMap(m.keys, map k | k in m.values :: DumpNoteType(m.values[k])))
  }

  /** `model_dump(mode='json')`. */
  function DumpApp(c: AppConfig): (r: Json)
    ensures OrderedMaps.Valid(c.noteTypes) ==> Loadable(r)
  {
    Object(["version", "general", "note_types"],
      map["version" := JStr(c.version), "general" := DumpGeneral(c.general), "note_types" := DumpNoteTypes(c.noteTypes)])
  }

  /** An empty document gives the default configuration. */
  lemma EmptyDocumentIsDefault(home: string, newId: string -> string)
    ensures ValidateApp(JObject(OrderedMaps.Empty()), home, newId) == Ok(DefaultApp(home))
  {
  }

  /**
   * The defaults an empty document yields: version "1.0", no note types, a
   * 900-second limit, a 120-second timeout, "ctrl+shift+r" to record, no
   * device, and default storage under ~/WhisperNotes that uses the default.
   */
  lemma EmptyDocumentDefaults(home: string, newId: string -> string)
    ensures var r := ValidateApp(JObject(OrderedMaps.Empty()), home, newId);
      && r.Ok?
      && r.value.version == "1.0"
      && r.value.noteTypes.keys == []
      && r.value.general.maxRecordingDuration == 900.0
      && r.value.general.transcriptionTimeout == 120
      && r.value.general.globalRecordHotkey == "ctrl+shift+r"
      && r.value.general.recordingDevice == None
      && r.value.general.defaultStorage.useDefault
      && r.value.general.defaultStorage.audioPath == Some(UnderAppHome(home, "Recordings"))
      && r.value.general.defaultStorage.markdownPath == Some(UnderAppHome(home, "Notes"))
  {
    EmptyDocumentIsDefault(home, newId);
  }

  /** A dumped configuration validates back to itself. */
  lemma AppRoundTrip(c: AppConfig, home: string, newId: string -> string)
    ensures ValidateApp(DumpApp(c), home, newId) == Ok(c)
  {
    var o := DumpApp(c).members;
    DumpAppMembers(c);
    GeneralRoundTrip(c.general, home);
    NoteTypesRoundTrip(c.noteTypes, newId);
    assert Field(o, "version", AsStr, "1.0") == Ok(c.version);
  }

  lemma DumpAppMembers(c: AppConfig)
    ensures var o := DumpApp(c).members;
      && "general" in o.values && o.values["general"] == DumpGeneral(c.general)
      && "note_types" in o.values && o.values["note_types"] == DumpNoteTypes(c.noteTypes)
      && "version" in o.values && o.values["version"] == JStr(c.version)
  {
  }


  /** The dumped note-type map validates back to the same map, key order included. */
  lemma NoteTypesRoundTrip(m: OrderedMaps.OMap<string, NoteTypeConfig>, newId: string -> string)
    ensures AsNoteTypes(DumpNoteTypes(m), newId) == Ok(m)
  {
    var nts := DumpNoteTypes(m).members;
    forall k | k in nts.values
      ensures ValidateNoteType(nts.values[k], newId(k)) == Ok(m.values[k])
    {
      NoteTypeRoundTrip(m.values[k], newId(k));
    }
    ValidatedEach(nts, newId, m);
  }

  /** When every member validates to the entry under the same key, the whole map validates to that map. */
  lemma ValidatedEach(o: OrderedMaps.OMap<string, Json>, newId: string -> string, m: OrderedMaps.OMap<string, NoteTypeConfig>)
    requires o.keys == m.keys && o.values.Keys == m.values.Keys
    requires forall k :: k in o.values ==> ValidateNoteType(o.values[k], newId(k)) == Ok(m.values[k])
    ensures ValidateNoteTypes(o, newId) == Ok(m)
  {
    var r := ValidateNoteTypes(o, newId);
    assert r.value.values == m.values;
  }
}
