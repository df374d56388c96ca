/**
 * The note-types tab of the configuration dialog (`NoteTypesTab`): the list
 * of note-type dictionaries it edits and the list widget showing their names,
 * with add, edit, delete, import and duplicate.
 *
 * What the user does in a dialog is a parameter: the row selected, the form
 * accepted (or None when cancelled), the answer to a confirmation, the
 * document an import reads. `note_types_updated` is recorded in `updates`;
 * its slot `_on_note_types_updated` runs at once, as a direct connection does.
 */
module NoteTypesTab {
  import opened Wrappers
  import opened Strings
  import ConfigModels
  import NoteTypeDialog

  type Json = ConfigModels.Json

  /** A note-type dictionary. */
  type NoteType = map<string, Json>

  /**
   * The text a list item shows: `get('name', 'Unnamed')`. A name that is not
   * a string is handed to `addItem` as it is, which refuses it: None.
   */
  function Label(nt: NoteType): (r: Option<string>)
    ensures "name" !in nt ==> r == Some("Unnamed")
    ensures "name" in nt ==> (r.Some? <==> nt["name"].JStr?)
    ensures "name" in nt && nt["name"].JStr? ==> r == Some(nt["name"].s)
  {
    if "name" !in nt then Some("Unnamed")
    else if nt["name"].JStr? then Some(nt["name"].s)
    else None
  }

  /** Every entry can be shown: none has a name that is not a string. */
  predicate Listable(nts: seq<NoteType>) {
    forall i :: 0 <= i < |nts| ==> Label(nts[i]).Some?
  }

  /**
   * The list widget's items after it is cleared and the entries are added in
   * turn: the labels of the entries up to the first one `addItem` refuses.
   */
  function Labels(nts: seq<NoteType>): (r: seq<string>)
    ensures |r| <= |nts|
    ensures forall i :: 0 <= i < |r| ==> Label(nts[i]) == Some(r[i])
    ensures |r| < |nts| ==> Label(nts[|r|]).None?
    ensures |r| == |nts| <==> Listable(nts)
  {
    if |nts| == 0 then []
    else match Label(nts[0])
      case None => []
      case Some(l) =>
        var rest := Labels(nts[1..]);
        assert forall i :: 1 <= i < |nts| ==> nts[i] == nts[1..][i - 1];
        [l] + rest
  }

  /** Showing one more entry: its label is added when the others could all be shown. */
  lemma {:induction false} LabelsSnoc(nts: seq<NoteType>, nt: NoteType)
    requires Listable(nts)
    ensures Labels(nts + [nt]) == Labels(nts) + (if Label(nt).Some? then [Label(nt).value] else [])
  {
    if |nts| > 0 {
      assert (nts + [nt])[1..] == nts[1..] + [nt];
      assert Listable(nts[1..]) by {
        forall i | 0 <= i < |nts[1..]| ensures Label(nts[1..][i]).Some? {
          assert nts[1..][i] == nts[i + 1];
        }
      }
      LabelsSnoc(nts[1..], nt);
    } else {
      assert nts + [nt] == [nt];
    }
  }

  /** At the first entry that cannot be shown, the widget holds the labels before it. */
  lemma LabelsStop(nts: seq<NoteType>, i: nat)
    requires i < |nts| && Listable(nts[..i]) && Label(nts[i]).None?
    ensures Labels(nts) == Labels(nts[..i])
  {
    var r, p := Labels(nts), nts[..i];
    assert forall j :: 0 <= j < i ==> Label(nts[j]).Some? by {
      forall j | 0 <= j < i ensures Label(nts[j]).Some? {
        assert p[j] == nts[j];
      }
    }
    assert |r| == i;
    forall j | 0 <= j < i ensures r[j] == Labels(p)[j] {
      assert p[j] == nts[j];
    }
  }

  /** An entry that can be shown, in front of others: its label comes first. */
  lemma LabelsCons(nt: NoteType, nts: seq<NoteType>)
    requires Label(nt).Some?
    ensures Labels([nt] + nts) == [Label(nt).value] + Labels(nts)
  {
    assert ([nt] + nts)[1..] == nts;
  }

  /** Taking out an entry that is shown takes out its item and no other. */
  lemma {:induction false} LabelsRemove(nts: seq<NoteType>, row: nat)
    requires row < |Labels(nts)|
    ensures Labels(nts[..row] + nts[row + 1..]) == Labels(nts)[..row] + Labels(nts)[row + 1..]
  {
    var tail := nts[1..];
    var l := Label(nts[0]).value;
    LabelsCons(nts[0], tail);
    assert [nts[0]] + tail == nts;
    if row == 0 {
      RemoveHead(nts);
      RemoveHead(Labels(nts));
    } else {
      var rest := tail[..row - 1] + tail[row..];
      LabelsRemove(tail, row - 1);
      LabelsCons(nts[0], rest);
      RemoveBehindHead(nts[0], tail, row);
      RemoveBehindHead(l, Labels(tail), row);
    }
  }

  /** Taking out the head of a sequence leaves its tail. */
  lemma RemoveHead<T>(s: seq<T>)
    requires |s| > 0
    ensures s[..0] + s[1..] == s[1..]
  {
  }

  /** Taking out an element behind the head of a sequence takes it out of the tail. */
  lemma RemoveBehindHead<T>(x: T, t: seq<T>, row: nat)
    requires 0 < row <= |t|
    ensures ([x] + t)[..row] + ([x] + t)[row + 1..] == [x] + (t[..row - 1] + t[row..])
  {
    assert ([x] + t)[..row] == [x] + t[..row - 1];
    assert ([x] + t)[row + 1..] == t[row..];
  }

  /** Python's `str()` of a name value, for the values whose text the model spells out. */
  function NameText(j: Json, absent: string): (r: string)
    ensures j.JStr? ==> r == j.s
    ensures j.JNull? ==> r == "None"
    ensures j.JBool? ==> r == (if j.b then "True" else "False")
    ensures j.JInt? ==> r == IntToString(j.i)
  {
    match j
    case JStr(s) => s
    case JNull => "None"
    case JBool(b) => if b then "True" else "False"
    case JInt(i) => IntToString(i)
    case _ => absent
  }

  /** `f"note_type_{n + 1}"`: the id given to an entry added to a list of `n`. */
  function IdFor(n: nat): (r: string)
    ensures StartsWith(r, "note_type_") && r[|"note_type_"|..] == NatToString(n + 1)
  {
    "note_type_" + NatToString(n + 1)
  }

  /** Two lists of different lengths give different ids. */
  lemma IdForInjective(a: nat, b: nat)
    requires IdFor(a) == IdFor(b)
    ensures a == b
  {
    assert IdFor(a)[|"note_type_"|..] == NatToString(a + 1);
    assert IdFor(b)[|"note_type_"|..] == NatToString(b + 1);
    NatToStringInjective(a + 1, b + 1);
  }

  /** The `storage` dictionary `get_storage_config` returns. */
  function StorageDict(s: ConfigModels.StorageConfig): Json {
    ConfigModels.Object(["use_default", "audio_path", "markdown_path"],
      map["use_default" := ConfigModels.JBool(s.useDefault),
          "audio_path" := ConfigModels.PathJson(s.audioPath),
          "markdown_path" := ConfigModels.PathJson(s.markdownPath)])
  }

  /** The dictionary `get_note_type` returns for the accepted form (it has no id). */
  function FormDict(f: NoteTypeDialog.NoteTypeForm): (r: NoteType)
    ensures "id" !in r
    ensures Label(r) == Some(f.name)
  {
    map["name" := ConfigModels.JStr(f.name),
        "hotkey" := ConfigModels.OptionalStrJson(f.hotkey),
        "storage" := StorageDict(f.storage),
        "summary_prompt" := ConfigModels.JStr(f.summaryPrompt),
        "template" := ConfigModels.JStr(f.template)]
  }

  /**
   * `_duplicate_note_type`'s copy: a new id, the name's text followed by
   * " (Copy)" ("Copy (Copy)" without a name), and a hotkey key cleared.
   */
  function Duplicate(nt: NoteType, n: nat): (r: NoteType)
    ensures r.Keys == nt.Keys + {"id", "name"}
    ensures r["id"] == ConfigModels.JStr(IdFor(n))
    ensures "name" !in nt ==> r["name"] == ConfigModels.JStr("Copy (Copy)")
    ensures "name" in nt && nt["name"].JStr? ==> r["name"] == ConfigModels.JStr(nt["name"].s + " (Copy)")
    ensures "name" in nt && nt["name"].JNull? ==> r["name"] == ConfigModels.JStr("None (Copy)")
    ensures r["name"].JStr? && Label(r) == Some(r["name"].s)
    ensures "hotkey" in nt ==> r["hotkey"] == ConfigModels.JNull
    ensures forall k :: k in nt && k != "id" && k != "name" && k != "hotkey" ==> r[k] == nt[k]
  {
    var name := if "name" in nt then NameText(nt["name"], "Copy") else "Copy";
    var copy := nt["id" := ConfigModels.JStr(IdFor(n))]["name" := ConfigModels.JStr(name + " (Copy)")];
    assert "hotkey"[0] != "name"[0] && "hotkey"[0] != "id"[0];
    assert "None" + " (Copy)" == "None (Copy)" && "Copy" + " (Copy)" == "Copy (Copy)";
    if "hotkey" in copy then copy["hotkey" := ConfigModels.JNull] else copy
  }

  /** Every entry's id is the one an append at its position gives, as after adds, imports and duplicates alone. */
  ghost predicate IdsByPosition(nts: seq<NoteType>) {
    forall i :: 0 <= i < |nts| ==> "id" in nts[i] && nts[i]["id"] == ConfigModels.JStr(IdFor(i))
  }

  /** Appending an entry with the id for its position keeps ids following positions. */
  lemma IdsByPositionAppend(nts: seq<NoteType>, nt: NoteType)
    requires IdsByPosition(nts) && "id" in nt && nt["id"] == ConfigModels.JStr(IdFor(|nts|))
    ensures IdsByPosition(nts + [nt])
  {
    var r := nts + [nt];
    forall i | 0 <= i < |r| ensures "id" in r[i] && r[i]["id"] == ConfigModels.JStr(IdFor(i)) {
      if i < |nts| {
        assert r[i] == nts[i];
      }
    }
  }

  /** While ids follow positions, no two entries share an id. */
  lemma IdsByPositionDistinct(nts: seq<NoteType>, i: nat, j: nat)
    requires IdsByPosition(nts) && i < |nts| && j < |nts| && i != j
    ensures nts[i]["id"] != nts[j]["id"]
  {
    if nts[i]["id"] == nts[j]["id"] {
      IdForInjective(i, j);
    }
  }

  /** `NoteTypesTab`. */
  class NoteTypesTab {
    var noteTypes: seq<NoteType>
    /** The list widget's item texts. */
    var items: seq<string>
    var editEnabled: bool
    var deleteEnabled: bool
    /** Each emission of `note_types_updated`, with the list it carried. */
    var updates: seq<seq<NoteType>>
    /** The messages of the error boxes shown. */
    var errors: seq<string>

    ghost predicate Valid()
      reads this
    {
      items == Labels(noteTypes)
    }

    constructor ()
      ensures Valid() && noteTypes == [] && !editEnabled && !deleteEnabled && updates == [] && errors == []
    {
      noteTypes := [];
      items := [];
      editEnabled := false;
      deleteEnabled := false;
      updates := [];
      errors := [];
    }

    /**
     * After an action changed the entries: the list widget is rebuilt and, when
     * every entry could be shown, `note_types_updated` is emitted; when
     * `addItem` refused a name, the action's error box shows `prefix` and the
     * toolkit's message `refusal`, and nothing is emitted.
     */
    ghost predicate Reported(oldUpdates: seq<seq<NoteType>>, oldErrors: seq<string>, prefix: string, refusal: string)
      reads this
    {
      && (Listable(noteTypes) ==> updates == oldUpdates + [noteTypes] && errors == oldErrors)
      && (!Listable(noteTypes) ==> updates == oldUpdates && errors == oldErrors + [prefix + refusal])
    }

    /**
     * `_update_note_types_list`: clears the list widget and adds each entry's
     * label; it raises (false) at the first name `addItem` refuses.
     */
    method UpdateNoteTypesList() returns (ok: bool)
      modifies this`items
      ensures Valid()
      ensures ok <==> Listable(noteTypes)
    {
      items := [];
      var i := 0;
      while i < |noteTypes|
        invariant 0 <= i <= |noteTypes|
        invariant Listable(noteTypes[..i]) && items == Labels(noteTypes[..i])
      {
        var shown := Label(noteTypes[i]);
        if shown.None? {
          LabelsStop(noteTypes, i);
          return false;
        }
        LabelsSnoc(noteTypes[..i], noteTypes[i]);
        assert noteTypes[..i + 1] == noteTypes[..i] + [noteTypes[i]];
        items := items + [shown.value];
        i := i + 1;
      }
      assert noteTypes[..i] == noteTypes;
      return true;
    }

    /** `load_note_types`: the given list replaces the entries, without an update signal; a refused name raises (false). */
    method LoadNoteTypes(nts: seq<NoteType>) returns (ok: bool)
      modifies this`noteTypes, this`items
      ensures Valid() && noteTypes == nts
      ensures ok <==> Listable(nts)
    {
      noteTypes := nts;
      ok := UpdateNoteTypesList();
    }

    /** `get_note_types`. */
    method GetNoteTypes() returns (r: seq<NoteType>)
      ensures r == noteTypes
    {
      r := noteTypes;
    }

    /** Emits `note_types_updated`; its slot stores the same list and rebuilds the widget. */
    method EmitUpdated()
      modifies this`items, this`updates
      ensures Valid() && updates == old(updates) + [noteTypes]
    {
      updates := updates + [noteTypes];
      var _ := UpdateNoteTypesList();
    }

    /** The common end of the actions: rebuild the widget, then announce or report, as `Reported` says. */
    method ShowChanged(prefix: string, refusal: string)
      modifies this`items, this`updates, this`errors
      ensures Valid()
      ensures Reported(old(updates), old(errors), prefix, refusal)
    {
      var ok := UpdateNoteTypesList();
      if ok {
        EmitUpdated();
      } else {
        errors := errors + [prefix + refusal];
      }
    }

    /** `_add_note_type`: an accepted form is appended with id `note_type_<len+1>`. */
    method AddNoteType(accepted: Option<NoteTypeDialog.NoteTypeForm>, refusal: string)
      requires Valid()
      modifies this`noteTypes, this`items, this`updates, this`errors
      ensures Valid()
      ensures accepted.None? ==> noteTypes == old(noteTypes) && updates == old(updates) && errors == old(errors)
      ensures accepted.Some? ==>
        && noteTypes == old(noteTypes) + [FormDict(accepted.value)["id" := ConfigModels.JStr(IdFor(|old(noteTypes)|))]]
        && Reported(old(updates), old(errors), "Failed to add note type: ", refusal)
      ensures IdsByPosition(old(noteTypes)) ==> IdsByPosition(noteTypes)
    {
      if accepted.Some? {
        var nt := FormDict(accepted.value)["id" := ConfigModels.JStr(IdFor(|noteTypes|))];
        if IdsByPosition(noteTypes) {
          IdsByPositionAppend(noteTypes, nt);
        }
        noteTypes := noteTypes + [nt];
        ShowChanged("Failed to add note type: ", refusal);
      }
    }

    /**
     * `_edit_note_type`: the accepted form replaces the selected row and keeps
     * its id; an entry without an id raises, which shows an error and changes nothing.
     */
    method EditNoteType(row: int, accepted: Option<NoteTypeDialog.NoteTypeForm>, refusal: string)
      requires Valid()
      modifies this`noteTypes, this`items, this`updates, this`errors
      ensures Valid()
      ensures var edits := 0 <= row < |old(noteTypes)| && accepted.Some? && "id" in old(noteTypes)[row];
        && (edits ==>
              && noteTypes == old(noteTypes)[row := FormDict(accepted.value)["id" := old(noteTypes)[row]["id"]]]
              && Reported(old(updates), old(errors), "Failed to edit note type: ", refusal))
        && (!edits ==> noteTypes == old(noteTypes) && updates == old(updates))
        && (0 <= row < |old(noteTypes)| && accepted.Some? && "id" !in old(noteTypes)[row] ==>
              errors == old(errors) + ["Failed to edit note type: 'id'"])
        && (!(0 <= row < |old(noteTypes)| && accepted.Some?) ==> errors == old(errors))
    {
      if 0 <= row < |noteTypes| && accepted.Some? {
        var original := noteTypes[row];
        if "id" in original {
          noteTypes := noteTypes[row := FormDict(accepted.value)["id" := original["id"]]];
          ShowChanged("Failed to edit note type: ", refusal);
        } else {
          errors := errors + ["Failed to edit note type: 'id'"];
        }
      }
    }

    /** `_delete_note_type`: after a Yes, exactly the selected row is removed. */
    method DeleteNoteType(row: int, confirmed: bool, refusal: string)
      requires Valid() && row < |noteTypes|
      modifies this`noteTypes, this`items, this`updates, this`errors
      ensures Valid()
      ensures row >= 0 && confirmed ==>
        noteTypes == old(noteTypes)[..row] + old(noteTypes)[row + 1..]
        && Reported(old(updates), old(errors), "Failed to delete note type: ", refusal)
      ensures !(row >= 0 && confirmed) ==> noteTypes == old(noteTypes) && updates == old(updates) && errors == old(errors)
    {
      if row >= 0 && confirmed {
        noteTypes := noteTypes[..row] + noteTypes[row + 1..];
        ShowChanged("Failed to delete note type: ", refusal);
      }
    }

    /**
     * `_import_note_type`: a document that is a dictionary is appended with id
     * `note_type_<len+1>` (and stays appended when its name is then refused);
     * one that is not raises and shows an error. None is a cancelled file
     * dialog, Err a file that could not be read or parsed.
     */
    method ImportNoteType(document: Option<Result<Json>>, refusal: string)
      requires Valid()
      modifies this`noteTypes, this`items, this`updates, this`errors
      ensures Valid()
      ensures document.Some? && document.value.Ok? && document.value.value.JObject? ==>
        && noteTypes == old(noteTypes) + [document.value.value.members.values["id" := ConfigModels.JStr(IdFor(|old(noteTypes)|))]]
        && Reported(old(updates), old(errors), "Failed to import note type: ", refusal)
      ensures !(document.Some? && document.value.Ok? && document.value.value.JObject?) ==>
        noteTypes == old(noteTypes) && updates == old(updates)
      ensures document.None? ==> errors == old(errors)
      ensures document.Some? && !(document.value.Ok? && document.value.value.JObject?) ==> |errors| == |old(errors)| + 1
      ensures IdsByPosition(old(noteTypes)) ==> IdsByPosition(noteTypes)
    {
      if document.Some? {
        if document.value.Ok? && document.value.value.JObject? {
          var nt := document.value.value.members.values["id" := ConfigModels.JStr(IdFor(|noteTypes|))];
          if IdsByPosition(noteTypes) {
            IdsByPositionAppend(noteTypes, nt);
          }
          noteTypes := noteTypes + [nt];
          ShowChanged("Failed to import note type: ", refusal);
        } else {
          var reason := if document.value.Err? then document.value.error else "not a dictionary";
          errors := errors + ["Failed to import note type: " + reason];
        }
      }
    }

    /** `_duplicate_note_type`: a copy of the selected row is appended (see `Duplicate`). */
    method DuplicateNoteType(row: int, refusal: string)
      requires Valid() && row < |noteTypes|
      modifies this`noteTypes, this`items, this`updates, this`errors
      ensures Valid()
      ensures row >= 0 ==>
        noteTypes == old(noteTypes) + [Duplicate(old(noteTypes)[row], |old(noteTypes)|)]
        && Reported(old(updates), old(errors), "Failed to duplicate note type: ", refusal)
      ensures row < 0 ==> noteTypes == old(noteTypes) && updates == old(updates) && errors == old(errors)
      ensures IdsByPosition(old(noteTypes)) ==> IdsByPosition(noteTypes)
    {
      if row >= 0 {
        var copy := Duplicate(noteTypes[row], |noteTypes|);
        if IdsByPosition(noteTypes) {
          IdsByPositionAppend(noteTypes, copy);
        }
        noteTypes := noteTypes + [copy];
        ShowChanged("Failed to duplicate note type: ", refusal);
      }
    }

    /**
     * `_on_note_type_selected`, as last defined in the class: the buttons are
     * enabled when a row of the widget is current, and a Yes to the question
     * that follows removes that row from the widget and the list, without an
     * update signal.
     */
    method OnNoteTypeSelected(row: int, confirmed: bool)
      requires Valid() && -1 <= row < |items|
      modifies this`noteTypes, this`items, this`editEnabled, this`deleteEnabled
      ensures Valid()
      ensures editEnabled == (row >= 0) && deleteEnabled == (row >= 0)
      ensures row >= 0 && confirmed ==>
        noteTypes == old(noteTypes)[..row] + old(noteTypes)[row + 1..]
        && items == old(items)[..row] + old(items)[row + 1..]
      ensures !(row >= 0 && confirmed) ==> noteTypes == old(noteTypes) && items == old(items)
    {
      editEnabled := row >= 0;
      deleteEnabled := row >= 0;
      if row >= 0 && confirmed {
        LabelsRemove(noteTypes, row);
        items := items[..row] + items[row + 1..];
        noteTypes := noteTypes[..row] + noteTypes[row + 1..];
      }
    }
  }

  /**
   * Adding two note types, deleting the first and adding a third gives the
   * last two the same id: the id depends only on the length of the list.
   */
  method AddAfterDeleteRepeatsId(a: NoteTypeDialog.NoteTypeForm, b: NoteTypeDialog.NoteTypeForm, c: NoteTypeDialog.NoteTypeForm)
    returns (ids: seq<Json>)
    ensures ids == [ConfigModels.JStr("note_type_2"), ConfigModels.JStr("note_type_2")]
  {
    assert NatToString(2) == "2";
    assert IdFor(1) == "note_type_2";
    var tab := new NoteTypesTab();
    tab.AddNoteType(Some(a), "");
    tab.AddNoteType(Some(b), "");
    tab.DeleteNoteType(0, true, "");
    tab.AddNoteType(Some(c), "");
    assert |tab.noteTypes| == 2;
    ids := [tab.noteTypes[0]["id"], tab.noteTypes[1]["id"]];
  }
}
