/**
 * The file-based template manager (`TemplateManager`): template contents with
 * a built-in fallback, placeholder substitution of an entry's fields, and the
 * per-template configuration map with lookup by hotkey.
 *
 * The template directory is a map from template name to file path; what
 * reading a file yields (its text, or a failure) is an input.
 */
module TemplateManager {
  import opened Wrappers
  import opened Strings
  import OrderedMaps

  const DEFAULT_TEMPLATE: string :=
    "# {title}\n\n## Summary\n{summary}\n\n## Transcript\n{transcript}\n\n## Metadata\n- **Date**: {timestamp}\n- **Tags**: {tags}\n\n{audio}\n"

  /** `get_template_content`: the file's text, or the default for an unknown name or an unreadable file. */
  function GetTemplateContent(templates: map<string, string>, name: string, fileText: Option<string>): (r: string)
    ensures name !in templates ==> r == DEFAULT_TEMPLATE
    ensures name in templates && fileText.Some? ==> r == fileText.value
    ensures name in templates && fileText.None? ==> r == DEFAULT_TEMPLATE
  {
    if name !in templates then DEFAULT_TEMPLATE
    else if fileText.None? then DEFAULT_TEMPLATE
    else fileText.value
  }

  /** The fields of an entry that substitution reads; a missing key is None. */
  datatype EntryData = EntryData(
    title: Option<string>,
    summary: Option<string>,
    formattedText: Option<string>,
    transcription: Option<string>,
    timestamp: Option<string>,
    tags: Option<string>,
    relativeAudioPath: Option<string>)

  /** One substitution: the variable's name and its value. */
  datatype Variable = Variable(name: string, value: string)

  function Placeholder(name: string): (r: string)
    ensures |r| == |name| + 2
  {
    "{" + name + "}"
  }

  function OrElse(o: Option<string>, d: string): string {
    if o.Some? then o.value else d
  }

  /**
   * The variables in the order they are substituted, with their defaults: the
   * title names the timestamp, the transcript prefers the formatted text, the
   * timestamp defaults to `now`, and the audio line appears only for a
   * non-empty relative audio path.
   */
  function Variables(e: EntryData, now: string): (r: seq<Variable>)
    ensures |r| == 6
    ensures r[0] == Variable("title", OrElse(e.title, "Journal Entry - " + OrElse(e.timestamp, "")))
    ensures r[1] == Variable("summary", OrElse(e.summary, ""))
    ensures r[2].name == "transcript"
    ensures e.formattedText.Some? ==> r[2].value == e.formattedText.value
    ensures e.formattedText.None? ==> r[2].value == OrElse(e.transcription, "")
    ensures r[3] == Variable("timestamp", OrElse(e.timestamp, now))
    ensures r[4] == Variable("tags", OrElse(e.tags, ""))
    ensures r[5].name == "audio"
    ensures r[5].value == "" <==> e.relativeAudioPath.None? || e.relativeAudioPath.value == ""
  {
    var audio :=
      if e.relativeAudioPath.Some? && e.relativeAudioPath.value != ""
      then "\U{1f50a} [Listen to recording](" + e.relativeAudioPath.value + ")"
      else "";
    [ Variable("title", OrElse(e.title, "Journal Entry - " + OrElse(e.timestamp, ""))),
      Variable("summary", OrElse(e.summary, "")),
      Variable("transcript", OrElse(e.formattedText, OrElse(e.transcription, ""))),
      Variable("timestamp", OrElse(e.timestamp, now)),
      Variable("tags", OrElse(e.tags, "")),
      Variable("audio", audio) ]
  }

  /** The text after substituting the variables one at a time, in order. */
  function Substituted(content: string, vars: seq<Variable>): string {
    if |vars| == 0 then content
    else
      var last := vars[|vars| - 1];
      ReplaceAll(Substituted(content, vars[..|vars| - 1]), Placeholder(last.name), last.value)
  }

  /** A text holding none of the placeholders comes back unchanged (so `{foo}` stays). */
  lemma {:induction false} SubstitutedAbsent(content: string, vars: seq<Variable>)
    requires forall i :: 0 <= i < |vars| ==> Count(content, Placeholder(vars[i].name)) == 0
    ensures Substituted(content, vars) == content
  {
    if |vars| > 0 {
      var last := vars[|vars| - 1];
      SubstitutedAbsent(content, vars[..|vars| - 1]);
      ReplaceAllAbsent(content, Placeholder(last.name), last.value);
    }
  }

  /** A variable's value that holds a later placeholder is itself substituted. */
  lemma SubstitutionCascades(a: string, b: string, v: string)
    requires |a| > 0 && |b| > 0 && Placeholder(a) != Placeholder(b)
    ensures Substituted(Placeholder(a), [Variable(a, Placeholder(b)), Variable(b, v)]) == v
  {
    var vars := [Variable(a, Placeholder(b)), Variable(b, v)];
    assert vars[..1] == [Variable(a, Placeholder(b))];
    assert vars[..1][..0] == [];
    ReplaceAllWhole(Placeholder(a), Placeholder(b));
    assert Substituted(Placeholder(a), vars[..1]) == Placeholder(b);
    ReplaceAllWhole(Placeholder(b), v);
  }

  /** Replacing a whole string that is exactly the pattern yields the replacement. */
  lemma ReplaceAllWhole(p: string, v: string)
    requires |p| > 0
    ensures ReplaceAll(p, p, v) == v
  {
    assert p[..|p|] == p;
    assert p[|p|..] == [];
    assert v + [] == v;
  }

  /** `apply_template`'s substitution loop. */
  method ApplyVariables(content: string, vars: seq<Variable>) returns (result: string)
    ensures result == Substituted(content, vars)
  {
    result := content;
    var i := 0;
    while i < |vars|
      invariant 0 <= i <= |vars|
      invariant result == Substituted(content, vars[..i])
    {
      assert vars[..i + 1][..i] == vars[..i];
      result := ReplaceAll(result, Placeholder(vars[i].name), vars[i].value);
      i := i + 1;
    }
    assert vars[..i] == vars;
  }

  /** Each occurrence replaced changes the length by the value's length less the placeholder's. */
  lemma SubstitutedLastLength(content: string, vars: seq<Variable>)
    requires |vars| > 0
    ensures var before := Substituted(content, vars[..|vars| - 1]);
      var last := vars[|vars| - 1];
      |Substituted(content, vars)|
        == |before| + Count(before, Placeholder(last.name)) * (|last.value| - |Placeholder(last.name)|)
  {
    var last := vars[|vars| - 1];
    ReplaceAllLength(Substituted(content, vars[..|vars| - 1]), Placeholder(last.name), last.value);
  }

  /** A template configuration: its string settings, among them possibly "hotkey". */
  type TemplateConfig = map<string, string>

  /** `TemplateManager`. */
  class TemplateManager {
    /** Template name to file path, as found in the templates directory. */
    const templates: map<string, string>
    var templateConfigs: OrderedMaps.OMap<string, TemplateConfig>

    ghost predicate Valid()
      reads this
    {
      OrderedMaps.Valid(templateConfigs)
    }

    constructor (templates: map<string, string>)
      ensures Valid() && this.templates == templates && templateConfigs == OrderedMaps.Empty()
    {
      this.templates := templates;
      templateConfigs := OrderedMaps.Empty();
    }

    /** `apply_template`: the template's content with the entry's variables substituted. */
    method ApplyTemplate(name: string, fileText: Option<string>, entry: EntryData, now: string) returns (result: string)
      ensures result == Substituted(GetTemplateContent(templates, name, fileText), Variables(entry, now))
    {
      var content := GetTemplateContent(templates, name, fileText);
      result := ApplyVariables(content, Variables(entry, now));
    }

    /** `load_template_configs`: None (or an empty map) leaves no configurations. */
    method LoadTemplateConfigs(data: Option<OrderedMaps.OMap<string, TemplateConfig>>)
      requires data.Some? ==> OrderedMaps.Valid(data.value)
      modifies this`templateConfigs
      ensures Valid()
      ensures data.None? ==> templateConfigs == OrderedMaps.Empty()
      ensures data.Some? ==> templateConfigs == data.value
    {
      if data.None? {
        templateConfigs := OrderedMaps.Empty();
      } else {
        templateConfigs := data.value;
      }
    }

    /** `save_template_config`: stores the configuration under the name and returns them all. */
    method SaveTemplateConfig(name: string, config: TemplateConfig) returns (all: OrderedMaps.OMap<string, TemplateConfig>)
      requires Valid()
      modifies this`templateConfigs
      ensures Valid()
      ensures templateConfigs.values == old(templateConfigs.values)[name := config]
      ensures name in old(templateConfigs.values) ==> templateConfigs.keys == old(templateConfigs.keys)
      ensures name !in old(templateConfigs.values) ==> templateConfigs.keys == old(templateConfigs.keys) + [name]
      ensures all == templateConfigs
    {
      templateConfigs := OrderedMaps.Put(templateConfigs, name, config);
      all := templateConfigs;
    }

    /** `get_template_config`: an empty configuration for an unknown name. */
    method GetTemplateConfig(name: string) returns (config: TemplateConfig)
      ensures name in templateConfigs.values ==> config == templateConfigs.values[name]
      ensures name !in templateConfigs.values ==> config == map[]
    {
      config := if name in templateConfigs.values then templateConfigs.values[name] else map[];
    }

    /**
     * `get_template_by_hotkey`: the first template, in insertion order, whose
     * configured hotkey is exactly the given string (no normalisation).
     */
    method GetTemplateByHotkey(hotkey: string) returns (r: Option<string>)
      requires Valid()
      ensures r.Some? ==>
        (exists i :: 0 <= i < |templateConfigs.keys| && templateConfigs.keys[i] == r.value
          && HasHotkey(templateConfigs.values[r.value], hotkey)
          && forall j :: 0 <= j < i ==> !HasHotkey(templateConfigs.values[templateConfigs.keys[j]], hotkey))
      ensures r.None? <==> forall n :: n in templateConfigs.values ==> !HasHotkey(templateConfigs.values[n], hotkey)
    {
      var keys := templateConfigs.keys;
      var i := 0;
      while i < |keys|
        invariant 0 <= i <= |keys|
        invariant forall j :: 0 <= j < i ==> !HasHotkey(templateConfigs.values[keys[j]], hotkey)
      {
        var config := templateConfigs.values[keys[i]];
        if "hotkey" in config && config["hotkey"] == hotkey {
          return Some(keys[i]);
        }
        i := i + 1;
      }
      r := None;
    }
  }

  /** `config.get("hotkey") == hotkey_str`. */
  predicate HasHotkey(config: TemplateConfig, hotkey: string) {
    "hotkey" in config && config["hotkey"] == hotkey
  }

  /** A configuration just saved with a hotkey no other configuration uses is found by that hotkey. */
  method SavedHotkeyIsFound(name: string, hotkey: string) returns (found: Option<string>)
    ensures found == Some(name)
  {
    var manager := new TemplateManager(map[]);
    var _ := manager.SaveTemplateConfig(name, map["hotkey" := hotkey]);
    found := manager.GetTemplateByHotkey(hotkey);
  }
}
