/**
 * The template service (`TemplateService`): templates kept by id in insertion
 * order, an active template, id generation from a template's name, and the
 * listing ordered by lower-cased name.
 *
 * A template is a dictionary of string fields ("id", "name", "content",
 * "hotkey", "created_at", "updated_at"). Timestamps and the clock are inputs;
 * writing the templates file is an outcome given to each operation (None for
 * success, or the failure's message).
 */
module TemplateService {
  import opened Wrappers
  import opened Strings
  import OrderedMaps
  import opened Sorting

  type Template = map<string, string>

  /** What the service emits. */
  datatype Signal =
    | TemplateAdded(template: Template)
    | TemplateUpdated(template: Template)
    | TemplateDeleted(id: string)
    | ErrorOccurred(message: string)

  const DEFAULT_ID := "default"

  /** `d.get(key, default)`. */
  function Get(d: map<string, string>, key: string, default: string): string {
    if key in d then d[key] else default
  }

  // ---------------------------------------------------------------- ids

  /** The characters `re.sub(r'[^a-z0-9_]', '', ...)` keeps. */
  predicate IsIdChar(c: char) {
    ('a' <= c <= 'z') || ('0' <= c <= '9') || c == '_'
  }

  predicate IsId(s: string) {
    forall i :: 0 <= i < |s| ==> IsIdChar(s[i])
  }

  /** Drops every character outside [a-z0-9_], keeping the others in order. */
  function KeepIdChars(s: string): (r: string)
    ensures IsId(r)
    ensures |r| <= |s|
  {
    if |s| == 0 then ""
    else (if IsIdChar(s[0]) then [s[0]] else "") + KeepIdChars(s[1..])
  }

  /** Filtering distributes over concatenation. */
  lemma {:induction false} KeepIdCharsConcat(a: string, b: string)
    ensures KeepIdChars(a + b) == KeepIdChars(a) + KeepIdChars(b)
  {
    if |a| == 0 {
      assert a + b == b;
    } else {
      var h := if IsIdChar(a[0]) then [a[0]] else "";
      assert (a + b)[0] == a[0];
      assert (a + b)[1..] == a[1..] + b;
      assert KeepIdChars(a + b) == h + KeepIdChars(a[1..] + b);
      KeepIdCharsConcat(a[1..], b);
      assert h + (KeepIdChars(a[1..]) + KeepIdChars(b)) == (h + KeepIdChars(a[1..])) + KeepIdChars(b);
    }
  }

  /** A string made only of id characters passes the filter untouched. */
  lemma {:induction false} KeepIdCharsOfId(s: string)
    requires IsId(s)
    ensures KeepIdChars(s) == s
  {
    if |s| > 0 {
      KeepIdCharsOfId(s[1..]);
    }
  }

  /** The name lower-cased, spaces turned into '_', and everything outside [a-z0-9_] dropped. */
  function IdBase(name: string): (r: string)
    ensures IsId(r)
  {
    KeepIdChars(ReplaceChar(Lower(name), ' ', '_'))
  }

  /** A string of id characters is its own base, so deriving a base twice changes nothing. */
  lemma IdBaseOfId(s: string)
    requires IsId(s)
    ensures IdBase(s) == s
  {
    assert Lower(s) == s;
    assert ReplaceChar(s, ' ', '_') == s;
    KeepIdCharsOfId(s);
  }

  lemma IdBaseIdempotent(name: string)
    ensures IdBase(IdBase(name)) == IdBase(name)
  {
    IdBaseOfId(IdBase(name));
  }

  /** The base is computed character by character, so it distributes over concatenation. */
  lemma IdBaseConcat(a: string, b: string)
    ensures IdBase(a + b) == IdBase(a) + IdBase(b)
  {
    assert Lower(a + b) == Lower(a) + Lower(b);
    assert ReplaceChar(Lower(a + b), ' ', '_') == ReplaceChar(Lower(a), ' ', '_') + ReplaceChar(Lower(b), ' ', '_');
    KeepIdCharsConcat(ReplaceChar(Lower(a), ' ', '_'), ReplaceChar(Lower(b), ' ', '_'));
  }

  /**
   * `_generate_template_id`: the base, or on a collision the base followed by
   * '_' and the whole seconds of `time`. The suffixed id is not checked again.
   */
  function GenerateTemplateId(name: string, existing: set<string>, time: nat): (r: string)
    ensures IsId(r)
    ensures IdBase(name) !in existing ==> r == IdBase(name) && r !in existing
    ensures IdBase(name) in existing ==> StartsWith(r, IdBase(name) + "_") && |r| > |IdBase(name)| + 1
  {
    var base := IdBase(name);
    if base in existing then
      var r := base + "_" + NatToString(time);
      assert r[..|base + "_"|] == base + "_";
      r
    else base
  }

  // ---------------------------------------------------------------- listing

  /** The sort key of `get_all_templates`: `x.get('name', '').lower()`. */
  function NameKey(t: Template): string {
    Lower(Get(t, "name", ""))
  }

  /** The templates' values in insertion order. */
  function ValuesInOrder(keys: seq<string>, values: map<string, Template>): (r: seq<Template>)
    requires forall k :: k in keys ==> k in values
    ensures |r| == |keys|
    ensures forall i :: 0 <= i < |keys| ==> r[i] == values[keys[i]]
  {
    if |keys| == 0 then [] else [values[keys[0]]] + ValuesInOrder(keys[1..], values)
  }

  // ---------------------------------------------------------------- updates

  /** A field `update_template` never changes from the caller's dictionary. */
  predicate Protected(key: string) {
    key == "id" || key == "created_at"
  }

  /** The template with the given fields merged in: only fields it already has, and never the protected ones. */
  function Merged(t: Template, updates: map<string, string>): (r: Template)
    ensures r.Keys == t.Keys
    ensures forall k :: k in t && (k !in updates || Protected(k)) ==> r[k] == t[k]
    ensures forall k :: k in t && k in updates && !Protected(k) ==> r[k] == updates[k]
  {
    map k | k in t :: if k in updates && !Protected(k) then updates[k] else t[k]
  }

  /** `update_template`'s field loop over the updates in their order. */
  method MergeUpdates(t: Template, updates: OrderedMaps.OMap<string, string>) returns (r: Template)
    requires OrderedMaps.Valid(updates)
    ensures r == Merged(t, updates.values)
  {
    r := t;
    var i := 0;
    assert r == MergedPrefix(t, updates, 0);
    while i < |updates.keys|
      invariant 0 <= i <= |updates.keys|
      invariant r == MergedPrefix(t, updates, i)
    {
      var key := updates.keys[i];
      MergedPrefixStep(t, updates, i);
      if !Protected(key) && key in r {
        r := r[key := updates.values[key]];
      }
      i := i + 1;
    }
    assert updates.keys[..i] == updates.keys;
  }

  /** The template after the loop has seen the first `i` updates. */
  ghost function MergedPrefix(t: Template, updates: OrderedMaps.OMap<string, string>, i: nat): Template
    requires OrderedMaps.Valid(updates) && i <= |updates.keys|
  {
    map k | k in t :: if k in updates.keys[..i] && !Protected(k) then updates.values[k] else t[k]
  }

  lemma MergedPrefixStep(t: Template, updates: OrderedMaps.OMap<string, string>, i: nat)
    requires OrderedMaps.Valid(updates) && i < |updates.keys|
    ensures var key, before := updates.keys[i], MergedPrefix(t, updates, i);
      MergedPrefix(t, updates, i + 1) ==
        if !Protected(key) && key in before then before[key := updates.values[key]] else before
  {
    assert updates.keys[..i + 1] == updates.keys[..i] + [updates.keys[i]];
  }

  /** The template `update_template` stores: merged fields and a fresh "updated_at". */
  function UpdatedTemplate(t: Template, updates: map<string, string>, now: string): (r: Template)
    ensures r.Keys == t.Keys + {"updated_at"}
    ensures r["updated_at"] == now
    ensures "id" in t ==> r["id"] == t["id"]
    ensures "created_at" in t ==> r["created_at"] == t["created_at"]
    ensures forall k :: k in t && k !in updates && k != "updated_at" ==> r[k] == t[k]
  {
    Merged(t, updates)["updated_at" := now]
  }

  /** Applying the same updates twice at the same time is applying them once. */
  lemma UpdateIdempotent(t: Template, updates: map<string, string>, now: string)
    ensures UpdatedTemplate(UpdatedTemplate(t, updates, now), updates, now) == UpdatedTemplate(t, updates, now)
  {
    var once := UpdatedTemplate(t, updates, now);
    var twice := UpdatedTemplate(once, updates, now);
    assert twice.Keys == once.Keys;
    forall k | k in once ensures twice[k] == once[k] {
    }
  }

  /** The template `add_template` builds: missing fields get their defaults, both timestamps are `now`. */
  function NewTemplate(id: string, data: map<string, string>, now: string): (r: Template)
    ensures r.Keys == {"id", "name", "content", "hotkey", "created_at", "updated_at"}
    ensures r["id"] == id
    ensures r["name"] == (if "name" in data then data["name"] else "Untitled Template")
    ensures r["content"] == (if "content" in data then data["content"] else "")
    ensures r["hotkey"] == (if "hotkey" in data then data["hotkey"] else "")
    ensures r["created_at"] == now && r["updated_at"] == now
  {
    map["id" := id,
        "name" := Get(data, "name", "Untitled Template"),
        "content" := Get(data, "content", ""),
        "hotkey" := Get(data, "hotkey", ""),
        "created_at" := now,
        "updated_at" := now]
  }

  /** Python truthiness of an optional id: None and "" are both false. */
  predicate Truthy(o: Option<string>) {
    o.Some? && o.value != ""
  }

  /** `TemplateService`. */
  class TemplateService {
    var templates: OrderedMaps.OMap<string, Template>
    var active: Option<string>
    var events: seq<Signal>

    ghost predicate Valid()
      reads this
    {
      OrderedMaps.Valid(templates)
    }

    /** The active id, when there is one, names a stored template. */
    ghost predicate ActiveExists()
      reads this
    {
      active.Some? ==> active.value in templates.values
    }

    /** The state `load_templates` produced. */
    constructor (templates: OrderedMaps.OMap<string, Template>, active: Option<string>)
      requires OrderedMaps.Valid(templates)
      ensures Valid() && this.templates == templates && this.active == active && events == []
    {
      this.templates := templates;
      this.active := active;
      events := [];
    }

    /** `save_templates`: reports a failed write. */
    method SaveTemplates(failure: Option<string>) returns (ok: bool)
      modifies this`events
      ensures ok <==> failure.None?
      ensures failure.None? ==> events == old(events)
      ensures failure.Some? ==> events == old(events) + [ErrorOccurred("Failed to save templates: " + failure.value)]
    {
      if failure.Some? {
        events := events + [ErrorOccurred("Failed to save templates: " + failure.value)];
        return false;
      }
      return true;
    }

    /**
     * `add_template`: the id is the given one, or generated from the name when
     * it is missing or empty. An existing id is refused; otherwise the new
     * template is stored (even when the write then fails) and becomes active
     * when no template is.
     */
    method AddTemplate(data: map<string, string>, now: string, time: nat, failure: Option<string>) returns (ok: bool)
      requires Valid()
      modifies this`templates, this`active, this`events
      ensures Valid()
      ensures old(ActiveExists()) ==> ActiveExists()
      ensures var id := if Truthy(if "id" in data then Some(data["id"]) else None) then data["id"]
                        else GenerateTemplateId(Get(data, "name", ""), old(templates.values).Keys, time);
        && (id in old(templates.values) ==>
              !ok && templates == old(templates) && active == old(active)
              && events == old(events) + [ErrorOccurred("Template with ID '" + id + "' already exists")])
        && (id !in old(templates.values) ==>
              templates == OrderedMaps.Put(old(templates), id, NewTemplate(id, data, now))
              && templates.keys == old(templates.keys) + [id]
              && active == (if Truthy(old(active)) then old(active) else Some(id))
              && (ok <==> failure.None?)
              && (ok ==> events == old(events) + [TemplateAdded(NewTemplate(id, data, now))])
              && (failure.Some? ==> events == old(events) + [ErrorOccurred("Failed to save templates: " + failure.value)]))
    {
      var id: string;
      if "id" in data && data["id"] != "" {
        id := data["id"];
      } else {
        id := GenerateTemplateId(Get(data, "name", ""), templates.values.Keys, time);
      }
      if id in templates.values {
        events := events + [ErrorOccurred("Template with ID '" + id + "' already exists")];
        return false;
      }
      var template := NewTemplate(id, data, now);
      templates := OrderedMaps.Put(templates, id, template);
      if !Truthy(active) {
        active := Some(id);
      }
      ok := SaveTemplates(failure);
      if ok {
        events := events + [TemplateAdded(template)];
      }
    }

    /**
     * `update_template`: an unknown id is refused; otherwise the stored
     * template becomes `UpdatedTemplate` of it, even when the write then fails.
     */
    method UpdateTemplate(id: string, updates: OrderedMaps.OMap<string, string>, now: string, failure: Option<string>)
      returns (ok: bool)
      requires Valid() && OrderedMaps.Valid(updates)
      modifies this`templates, this`events
      ensures Valid()
      ensures old(ActiveExists()) ==> ActiveExists()
      ensures id !in old(templates.values) ==>
        !ok && templates == old(templates)
        && events == old(events) + [ErrorOccurred("Template with ID '" + id + "' not found")]
      ensures id in old(templates.values) ==>
        templates.keys == old(templates.keys)
        && templates.values == old(templates.values)[id := UpdatedTemplate(old(templates.values)[id], updates.values, now)]
        && (ok <==> failure.None?)
        && (ok ==> events == old(events) + [TemplateUpdated(templates.values[id])])
        && (failure.Some? ==> events == old(events) + [ErrorOccurred("Failed to save templates: " + failure.value)])
    {
      if id !in templates.values {
        events := events + [ErrorOccurred("Template with ID '" + id + "' not found")];
        return false;
      }
      var template := MergeUpdates(templates.values[id], updates);
      template := template["updated_at" := now];
      templates := OrderedMaps.Put(templates, id, template);
      ok := SaveTemplates(failure);
      if ok {
        events := events + [TemplateUpdated(template)];
      }
    }

    /**
     * `delete_template`: an unknown id and "default" are refused. Deleting the
     * active template makes the first other id in insertion order active, or
     * none when it was the last.
     */
    method DeleteTemplate(id: string, failure: Option<string>) returns (ok: bool)
      requires Valid()
      modifies this`templates, this`active, this`events
      ensures Valid()
      ensures old(ActiveExists()) ==> ActiveExists()
      ensures id !in old(templates.values) ==>
        !ok && templates == old(templates) && active == old(active) && events == old(events)
      ensures id in old(templates.values) && id == DEFAULT_ID ==>
        !ok && templates == old(templates) && active == old(active)
        && events == old(events) + [ErrorOccurred("Cannot delete the default template")]
      ensures id in old(templates.values) && id != DEFAULT_ID ==>
        templates == OrderedMaps.Remove(old(templates), id)
        && (old(active) == Some(id) ==> active == OrderedMaps.FirstOther(old(templates.keys), id))
        && (old(active) != Some(id) ==> active == old(active))
        && (ok <==> failure.None?)
        && (ok ==> events == old(events) + [TemplateDeleted(id)])
        && (failure.Some? ==> events == old(events) + [ErrorOccurred("Failed to save templates: " + failure.value)])
    {
      if id !in templates.values {
        return false;
      }
      if id == DEFAULT_ID {
        events := events + [ErrorOccurred("Cannot delete the default template")];
        return false;
      }
      if active == Some(id) {
        active := OrderedMaps.FirstOther(templates.keys, id);
      }
      templates := OrderedMaps.Remove(templates, id);
      ok := SaveTemplates(failure);
      if ok {
        events := events + [TemplateDeleted(id)];
      }
    }

    /** `set_active_template`: an unknown id is refused and leaves the active template alone. */
    method SetActiveTemplate(id: string, failure: Option<string>) returns (ok: bool)
      requires Valid()
      modifies this`active, this`events
      ensures old(ActiveExists()) ==> ActiveExists()
      ensures id !in templates.values ==>
        !ok && active == old(active) && events == old(events) + [ErrorOccurred("Template with ID '" + id + "' not found")]
      ensures id in templates.values ==>
        active == Some(id) && (ok <==> failure.None?)
        && (ok ==> events == old(events))
        && (failure.Some? ==> events == old(events) + [ErrorOccurred("Failed to save templates: " + failure.value)])
    {
      if id !in templates.values {
        events := events + [ErrorOccurred("Template with ID '" + id + "' not found")];
        return false;
      }
      active := Some(id);
      ok := SaveTemplates(failure);
    }

    /** `get_active_template`: None when no id is active (None or "") or the id is not stored. */
    method GetActiveTemplate() returns (r: Option<Template>)
      ensures r.Some? <==> Truthy(active) && active.value in templates.values
      ensures r.Some? ==> r.value == templates.values[active.value]
    {
      if !Truthy(active) {
        return None;
      }
      if active.value in templates.values {
        return Some(templates.values[active.value]);
      }
      return None;
    }

    /** `get_all_templates`: every stored template, ordered by lower-cased name; templates with equal names keep their insertion order. */
    method GetAllTemplates() returns (r: seq<Template>)
      requires Valid()
      ensures SortedBy(r, NameKey, false)
      ensures multiset(r) == multiset(ValuesInOrder(templates.keys, templates.values))
      ensures forall k :: WithKey(r, NameKey, k) == WithKey(ValuesInOrder(templates.keys, templates.values), NameKey, k)
    {
      r := SortBy(ValuesInOrder(templates.keys, templates.values), NameKey, false);
      forall k ensures WithKey(r, NameKey, k) == WithKey(ValuesInOrder(templates.keys, templates.values), NameKey, k) {
        SortByStable(ValuesInOrder(templates.keys, templates.values), NameKey, false, k);
      }
    }
  }

  /**
   * A name with no character in [a-z0-9_ ] yields the empty id; the first such
   * template is made active, yet `get_active_template` reports none because
   * the empty id is false, and the next template added takes its place.
   */
  method EmptyIdIsNeverActive(now: string, time: nat) returns (activeTemplate: Option<Template>, activeId: Option<string>)
    ensures activeTemplate == None
    ensures activeId == Some("second")
  {
    var service := new TemplateService(OrderedMaps.Empty(), None);
    assert IdBase("!") == "" by {
      assert Lower("!") == "!";
      assert ReplaceChar("!", ' ', '_') == "!";
      assert KeepIdChars("!"[1..]) == "";
    }
    var first := map["name" := "!"];
    assert "id" !in first by {
      assert "id"[0] != "name"[0];
    }
    assert GenerateTemplateId(Get(first, "name", ""), {}, time) == "";
    var ok := service.AddTemplate(first, now, time, None);
    assert service.active == Some("");
    assert service.templates.values.Keys == {""};
    activeTemplate := service.GetActiveTemplate();
    var second := map["id" := "second"];
    assert second["id"] != "";
    ok := service.AddTemplate(second, now, time, None);
    activeId := service.active;
  }
}
