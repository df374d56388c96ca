/**
 * The application controller (`WhisperNotes`): the recording flag it keeps
 * beside the audio service's own state, the toggle, start and stop paths,
 * the watchdog that stops an over-long recording, the hand-over of a
 * finished recording to transcription, error handling, and the hotkeys for
 * note types and templates.
 *
 * The controller owns an `AudioService`, a `TranscriptionService`, a
 * `HotkeyManager` and a `TemplateManager`, modelled in their own modules.
 * Tray-icon updates, tray messages and error dialogs are appended to
 * `events`. The clock is the `now` parameter; what the services' fallible
 * steps do is passed in as their `Option<string>` failure inputs.
 */
module WhisperNotes {
  import opened Wrappers
  import opened Constants
  import OrderedMaps
  import Strings
  import AudioService
  import TranscriptionService
  import Hotkeys
  import TemplateManager
  import ConfigModels

  /** What the controller shows the user. */
  datatype AppEvent =
    | TrayIconUpdate(recording: bool)
    | TrayMessage(title: string, message: string)
    | ErrorDialog(title: string, message: string)

  /** The watchdog's margin over the configured maximum duration, in seconds. */
  const WATCHDOG_MARGIN := 2.0

  /** The watchdog's test: strictly more than the maximum plus the margin has elapsed. */
  predicate TimedOut(elapsed: real, maxDuration: real)
  {
    elapsed > maxDuration + WATCHDOG_MARGIN
  }

  /** With the default 900-second maximum, a recording is stopped only once more than 902 seconds have passed. */
  lemma DefaultTimeout(elapsed: real)
    ensures TimedOut(elapsed, 900.0) <==> elapsed > 902.0
  {
  }

  /**
   * The message the module-level `handle_error(e, context)` evidently means to
   * return, which `_on_recording_finished` would show when starting
   * transcription raises. As written the call never returns it: the function
   * logs `traceback.format_exc()` although `traceback` is not imported at
   * module level, and it is not defined at all when the package import of
   * `hotkeys` succeeds; either way it raises NameError (see "## Findings").
   */
  function TranscriptionStartMessage(errorText: string): (r: string)
    ensures |r| > |errorText| && r[|r| - |errorText|..] == errorText
  {
    "An error occurred: " + errorText
  }

  /** `_on_note_type_hotkey`'s lookup: the note type stored under the key it is given, if any. */
  function NoteTypeFor(noteTypes: OrderedMaps.OMap<string, ConfigModels.NoteTypeConfig>, key: string): (r: Option<ConfigModels.NoteTypeConfig>)
    ensures r.Some? <==> key in noteTypes.values
    ensures r.Some? ==> r.value == noteTypes.values[key]
  {
    if key in noteTypes.values then Some(noteTypes.values[key]) else None
  }

  /** A registry entry `_register_note_type_hotkeys` makes: a note type's name beside a callback carrying its id. */
  predicate NoteTypeEntry(entry: (string, Hotkeys.Callback), noteTypes: OrderedMaps.OMap<string, ConfigModels.NoteTypeConfig>)
  {
    entry.1.NoteTypeCallback? && entry.1.noteTypeId in noteTypes.values
    && noteTypes.values[entry.1.noteTypeId].name == entry.0
  }

  /**
   * As intended, the callback looks the note type up by the id it was
   * registered with: every registered note-type hotkey then finds its note type.
   */
  lemma HotkeyFindsNoteType(entry: (string, Hotkeys.Callback), noteTypes: OrderedMaps.OMap<string, ConfigModels.NoteTypeConfig>)
    requires NoteTypeEntry(entry, noteTypes)
    ensures NoteTypeFor(noteTypes, entry.1.noteTypeId) == Some(noteTypes.values[entry.1.noteTypeId])
    ensures NoteTypeFor(noteTypes, entry.1.noteTypeId).value.name == entry.0
  {
  }

  /**
   * As written, the hotkey manager calls the callback with the entry's name,
   * which takes the place of the lambda's default id: the lookup succeeds only
   * when some note type's id equals the pressed one's name.
   */
  lemma HotkeyLookupAsWritten(entry: (string, Hotkeys.Callback), noteTypes: OrderedMaps.OMap<string, ConfigModels.NoteTypeConfig>)
    requires NoteTypeEntry(entry, noteTypes)
    ensures NoteTypeFor(noteTypes, entry.0).Some? <==> entry.0 in noteTypes.values
  {
  }

  const MEETING_ID := "6f1c2e9a-0b7d-4c55-9e21-3a8f4d7b2c10"
  const MEETING := ConfigModels.NoteTypeConfig(MEETING_ID, "Meeting", Some("ctrl+alt+m"), ConfigModels.DEFAULT_STORAGE, "", "")

  /** A note type keyed by a generated id and named "Meeting": as written its hotkey finds nothing. */
  lemma NoteTypeHotkeyMissesAsWritten()
    ensures var noteTypes := OrderedMaps.OMap([MEETING_ID], map[MEETING_ID := MEETING]);
      var entry := ("Meeting", Hotkeys.NoteTypeCallback(MEETING_ID));
      NoteTypeEntry(entry, noteTypes)
      && NoteTypeFor(noteTypes, entry.0) == None
      && NoteTypeFor(noteTypes, entry.1.noteTypeId) == Some(MEETING)
  {
    assert "Meeting" != MEETING_ID by {
      assert |"Meeting"| != |MEETING_ID|;
    }
  }

  /** `hotkey.strip()` is non-empty. */
  predicate HasHotkey(config: TemplateManager.TemplateConfig)
  {
    "hotkey" in config && Strings.Strip(config["hotkey"]) != ""
  }

  /** `note_type.hotkey` is truthy: present and non-empty. */
  predicate HasNoteTypeHotkey(n: ConfigModels.NoteTypeConfig)
  {
    n.hotkey.Some? && n.hotkey.value != ""
  }

  /** A note type's hotkey that the manager accepts: it parses to a non-empty combination other than the built-in ones. */
  predicate Registrable(n: ConfigModels.NoteTypeConfig)
  {
    HasNoteTypeHotkey(n)
    && var p := Hotkeys.ParseSpec(n.hotkey.value);
    p.Some? && p.value != {} && !Hotkeys.IsBuiltIn(p.value)
  }

  type Bindings = map<set<Hotkeys.Key>, (string, Hotkeys.Callback)>
  type TemplateConfigs = OrderedMaps.OMap<string, TemplateManager.TemplateConfig>
  type NoteTypes = OrderedMaps.OMap<string, ConfigModels.NoteTypeConfig>

  /** The values present in a list of optional values. */
  function Present<K(==)>(opts: seq<Option<K>>): set<K>
  {
    set m | 0 <= m < |opts| && opts[m].Some? :: opts[m].value
  }

  /** Removing the present values of one more element. */
  lemma PresentStep<K, V>(opts: seq<Option<K>>, n: nat, b: map<K, V>)
    requires n < |opts|
    ensures opts[n].None? ==> b - Present(opts[..n + 1]) == b - Present(opts[..n])
    ensures opts[n].Some? ==> b - Present(opts[..n + 1]) == (b - Present(opts[..n])) - {opts[n].value}
  {
    var p := opts[..n + 1];
    var q := opts[..n];
    assert forall m :: 0 <= m < n ==> p[m] == q[m];
    if opts[n].Some? {
      assert Present(p) == Present(q) + {opts[n].value};
    } else {
      assert Present(p) == Present(q);
    }
  }

  /**
   * The bindings after a series of registration calls, each of which stores
   * its entry under its key set when it accepts (the key set is present) and
   * otherwise changes nothing.
   */
  function Bound<K(==), V>(b: map<K, V>, regs: seq<(Option<K>, V)>): map<K, V>
  {
    if |regs| == 0 then b
    else
      var prev := Bound(b, regs[..|regs| - 1]);
      var last := regs[|regs| - 1];
      if last.0.Some? then prev[last.0.value := last.1] else prev
  }

  /**
   * What a series of registrations leaves: a key set is bound exactly when it
   * was before or some accepted call used it; the last call that used it
   * wins; a key set no call used keeps its earlier entry.
   */
  lemma {:induction false} BoundMeaning<K, V>(b: map<K, V>, regs: seq<(Option<K>, V)>, k: K)
    ensures var r := Bound(b, regs);
      (k in r <==> k in b || exists m :: 0 <= m < |regs| && regs[m].0 == Some(k))
      && ((forall m :: 0 <= m < |regs| ==> regs[m].0 != Some(k)) && k in b ==> r[k] == b[k])
      && (forall m :: 0 <= m < |regs| && regs[m].0 == Some(k)
            && (forall m' :: m < m' < |regs| ==> regs[m'].0 != Some(k))
            ==> k in r && r[k] == regs[m].1)
      && (k in r ==> (k in b && r[k] == b[k]) || exists m :: 0 <= m < |regs| && regs[m].0 == Some(k) && r[k] == regs[m].1)
  {
    if |regs| > 0 {
      var n := |regs| - 1;
      var init := regs[..n];
      assert forall i :: 0 <= i < n ==> init[i] == regs[i];
      BoundMeaning(b, init, k);
      var prev := Bound(b, init);
      var r := Bound(b, regs);
      if regs[n].0 == Some(k) {
        assert r == prev[k := regs[n].1];
      } else {
        assert k in r <==> k in prev;
        assert k in r ==> r[k] == prev[k];
        if k in r && !(k in b && r[k] == b[k]) {
          var m :| 0 <= m < |init| && init[m].0 == Some(k) && prev[k] == init[m].1;
          assert regs[m].0 == Some(k) && r[k] == regs[m].1;
        }
      }
    }
  }

  /** One more registration call. */
  lemma BoundStep<K, V>(b: map<K, V>, regs: seq<(Option<K>, V)>, j: nat)
    requires j < |regs|
    ensures regs[j].0.Some? ==> Bound(b, regs[..j + 1]) == Bound(b, regs[..j])[regs[j].0.value := regs[j].1]
    ensures regs[j].0.None? ==> Bound(b, regs[..j + 1]) == Bound(b, regs[..j])
  {
    assert regs[..j + 1][..j] == regs[..j];
  }

  /** The key set `_unregister_all_template_hotkeys` unregisters for one template configuration, if any. */
  function TemplateHotkeyKeys(tc: TemplateManager.TemplateConfig): Option<set<Hotkeys.Key>>
  {
    if HasHotkey(tc) then Hotkeys.ParseSpec(Strings.Strip(tc["hotkey"])) else None
  }

  /** Those key sets for the template configurations in insertion order. */
  function TemplateKeyList(configs: TemplateConfigs): (r: seq<Option<set<Hotkeys.Key>>>)
    requires OrderedMaps.Valid(configs)
    ensures |r| == |configs.keys|
  {
    seq(|configs.keys|, i requires 0 <= i < |configs.keys| => TemplateHotkeyKeys(configs.values[configs.keys[i]]))
  }

  /** The key sets of all template configurations with a hotkey. */
  function TemplateKeys(configs: TemplateConfigs): set<set<Hotkeys.Key>>
    requires OrderedMaps.Valid(configs)
  {
    Present(TemplateKeyList(configs))
  }

  /** The key set under which `register_template_hotkey` stores a note type, when it accepts it. */
  function RegKey(noteTypes: NoteTypes, id: string): Option<set<Hotkeys.Key>>
    requires id in noteTypes.values
  {
    var nt := noteTypes.values[id];
    if Registrable(nt) then Some(Hotkeys.ParseSpec(nt.hotkey.value).value) else None
  }

  /** The registration calls `_register_note_type_hotkeys` makes: each note type's key set and its entry, its name beside a callback carrying its id. */
  function Registrations(noteTypes: NoteTypes, ids: seq<string>): (r: seq<(Option<set<Hotkeys.Key>>, (string, Hotkeys.Callback))>)
    requires forall i :: 0 <= i < |ids| ==> ids[i] in noteTypes.values
    ensures |r| == |ids|
    ensures forall i :: 0 <= i < |ids| ==> NoteTypeEntry(r[i].1, noteTypes) && r[i].1.1 == Hotkeys.NoteTypeCallback(ids[i])
  {
    seq(|ids|, i requires 0 <= i < |ids| => (RegKey(noteTypes, ids[i]), (noteTypes.values[ids[i]].name, Hotkeys.NoteTypeCallback(ids[i]))))
  }

  /**
   * After the note types are registered: each one that can be registered is
   * bound, and every binding is one that was there before or a note type's
   * own entry.
   */
  lemma BoundRegistrations(base: Bindings, noteTypes: NoteTypes, ids: seq<string>)
    requires forall i :: 0 <= i < |ids| ==> ids[i] in noteTypes.values
    requires forall id :: id in noteTypes.values ==> id in ids
    ensures var r := Bound(base, Registrations(noteTypes, ids));
      (forall id :: id in noteTypes.values && Registrable(noteTypes.values[id]) ==>
         Hotkeys.ParseSpec(noteTypes.values[id].hotkey.value).value in r)
      && (forall k :: k in r ==> (k in base && r[k] == base[k]) || NoteTypeEntry(r[k], noteTypes))
  {
    var regs := Registrations(noteTypes, ids);
    var r := Bound(base, regs);
    forall id | id in noteTypes.values && Registrable(noteTypes.values[id])
      ensures Hotkeys.ParseSpec(noteTypes.values[id].hotkey.value).value in r
    {
      var m :| 0 <= m < |ids| && ids[m] == id;
      var k := Hotkeys.ParseSpec(noteTypes.values[id].hotkey.value).value;
      assert regs[m].0 == Some(k);
      BoundMeaning(base, regs, k);
    }
    forall k | k in r
      ensures (k in base && r[k] == base[k]) || NoteTypeEntry(r[k], noteTypes)
    {
      BoundMeaning(base, regs, k);
    }
  }

  class WhisperNotes {
    const audio: AudioService.AudioService
    const transcription: TranscriptionService.TranscriptionService
    const hotkeys: Hotkeys.HotkeyManager
    const templates: TemplateManager.TemplateManager
    /** Whether a journaling manager is present for `_set_active_template` to configure. */
    const hasJournalManager: bool
    var config: ConfigModels.AppConfig
    var isRecording: bool
    var journalingMode: bool
    var lastRecordingTime: real
    var activeNoteType: Option<ConfigModels.NoteTypeConfig>
    var audioData: Option<seq<int>>
    /** The journaling manager's active template, output directory and tags. */
    var activeTemplate: Option<string>
    var customOutputDir: Option<string>
    var customTags: Option<string>
    var events: seq<AppEvent>

    ghost predicate Valid()
      reads this, audio, transcription, hotkeys, templates
    {
      audio.Valid() && transcription.Valid() && hotkeys.Valid() && templates.Valid()
      && OrderedMaps.Valid(config.noteTypes)
    }

    /** The controller believes it records only while the service records. */
    predicate Consistent()
      reads this, audio
    {
      isRecording ==> audio.recordingState == Recording
    }

    /** The state `__init__` sets up before any hotkey is registered. */
    constructor (config: ConfigModels.AppConfig, templateFiles: map<string, string>, hasJournalManager: bool)
      requires OrderedMaps.Valid(config.noteTypes)
      ensures Valid() && Consistent()
      ensures fresh(audio) && fresh(transcription) && fresh(hotkeys) && fresh(templates)
      ensures this.config == config && this.hasJournalManager == hasJournalManager
      ensures !isRecording && !journalingMode && lastRecordingTime == 0.0
      ensures activeNoteType == None && audioData == None && events == []
      ensures audio.recordingState == Stopped && hotkeys.templateHotkeys.values == map[]
      ensures transcription.modelName == "base"
    {
      audio := new AudioService.AudioService();
      transcription := new TranscriptionService.TranscriptionService("base");
      hotkeys := new Hotkeys.HotkeyManager();
      templates := new TemplateManager.TemplateManager(templateFiles);
      this.hasJournalManager := hasJournalManager;
      this.config := config;
      isRecording := false;
      journalingMode := false;
      lastRecordingTime := 0.0;
      activeNoteType := None;
      audioData := None;
      activeTemplate := None;
      customOutputDir := None;
      customTags := None;
      events := [];
    }

    /**
     * `_toggle_recording`: while recording, stop the service and clear the
     * flag whatever the service answers; otherwise set the flag and the start
     * time only if the service agreed to start.
     */
    method ToggleRecording(now: real, setupError: Option<string>, stopError: Option<string>)
      requires Valid()
      modifies this`isRecording, this`lastRecordingTime, this`events, audio, audio.worker
      ensures Valid()
      ensures old(Consistent()) ==> Consistent()
      ensures old(isRecording) ==>
        !isRecording && lastRecordingTime == old(lastRecordingTime)
        && events == old(events) + [TrayIconUpdate(false)]
        && audio.recordingState == (if old(audio.recordingState) == Recording && stopError.Some? then Recording else Stopped)
      ensures !old(isRecording) ==>
        (isRecording <==> old(audio.recordingState) == Stopped && setupError.None?)
      ensures !old(isRecording) && isRecording ==>
        lastRecordingTime == now && events == old(events) + [TrayIconUpdate(true)]
        && audio.recordingState == Recording
      ensures !old(isRecording) && !isRecording ==>
        lastRecordingTime == old(lastRecordingTime) && events == old(events)
        && audio.recordingState == old(audio.recordingState)
    {
      if isRecording {
        var _ := audio.StopRecording(stopError);
        isRecording := false;
        events := events + [TrayIconUpdate(false)];
      } else {
        var started := audio.StartRecording(setupError);
        if started {
          isRecording := true;
          lastRecordingTime := now;
          events := events + [TrayIconUpdate(true)];
        }
      }
    }

    /**
     * `start_recording`: a no-op while recording; otherwise the flag and the
     * start time are set before the service is asked, and its answer is
     * ignored.
     */
    method StartRecording(now: real, setupError: Option<string>)
      requires Valid()
      modifies this`isRecording, this`lastRecordingTime, this`events, audio
      ensures Valid() && isRecording
      ensures old(isRecording) ==>
        lastRecordingTime == old(lastRecordingTime) && events == old(events) && unchanged(audio)
      ensures !old(isRecording) ==>
        lastRecordingTime == now && events == old(events) + [TrayIconUpdate(true)]
        && audio.recordingState == (if old(audio.recordingState) == Stopped && setupError.Some? then Stopped else Recording)
    {
      if isRecording {
        return;
      }
      isRecording := true;
      lastRecordingTime := now;
      events := events + [TrayIconUpdate(true)];
      var _ := audio.StartRecording(setupError);
    }

    /** `stop_recording`: a no-op unless recording; otherwise the flag is cleared before the service is told to stop. */
    method StopRecording(stopError: Option<string>)
      requires Valid()
      modifies this`isRecording, this`events, audio, audio.worker
      ensures Valid() && !isRecording
      ensures audio.worker == old(audio.worker)
      ensures !old(isRecording) ==> events == old(events) && unchanged(audio)
      ensures old(isRecording) ==>
        events == old(events) + [TrayIconUpdate(false)]
        && audio.recordingState == (if old(audio.recordingState) == Recording && stopError.Some? then Recording else Stopped)
    {
      if !isRecording {
        return;
      }
      isRecording := false;
      events := events + [TrayIconUpdate(false)];
      var _ := audio.StopRecording(stopError);
    }

    /**
     * `check_application_state`, run every second: stop through the ordinary
     * path only when both the controller and the service record and the
     * recording is older than the configured maximum plus the margin.
     */
    method CheckApplicationState(now: real, stopError: Option<string>)
      requires Valid()
      modifies this`isRecording, this`events, audio, audio.worker
      ensures Valid()
      ensures var fire := old(isRecording) && old(audio.recordingState) == Recording
        && TimedOut(now - lastRecordingTime, config.general.maxRecordingDuration);
        (fire ==> (!isRecording && events == old(events) + [TrayIconUpdate(false)]
                   && audio.recordingState == (if stopError.Some? then Recording else Stopped)))
        && (!fire ==> (isRecording == old(isRecording) && events == old(events)
                       && unchanged(audio)))
    {
      if isRecording && audio.recordingState == Recording
        && TimedOut(now - lastRecordingTime, config.general.maxRecordingDuration)
      {
        StopRecording(stopError);
      }
    }

    /**
     * `_on_recording_finished`: no audio (None or empty) only resets the
     * icon. Otherwise the audio is kept, the flag and the active note type
     * cleared, and transcription started at the service's sample rate; if
     * starting it raises (`startFailure`), a tray message and an error dialog
     * show the message and the exception propagates (`raised`).
     */
    method OnRecordingFinished(data: Option<seq<int>>, startFailure: Option<string>) returns (raised: bool)
      requires Valid()
      modifies this`audioData, this`isRecording, this`activeNoteType, this`events
      modifies transcription`worker, transcription`signals
      ensures Valid()
      ensures data.None? || data.value == [] ==>
        !raised && events == old(events) + [TrayIconUpdate(false)]
        && isRecording == old(isRecording) && audioData == old(audioData) && activeNoteType == old(activeNoteType)
        && unchanged(transcription)
      ensures data.Some? && data.value != [] ==>
        !isRecording && audioData == data && activeNoteType == None
      ensures data.Some? && data.value != [] && startFailure.Some? ==>
        raised && unchanged(transcription)
        && events == old(events) + [TrayIconUpdate(false),
          TrayMessage("Transcription Error", TranscriptionStartMessage(startFailure.value)),
          ErrorDialog("Transcription Error", TranscriptionStartMessage(startFailure.value))]
      ensures data.Some? && data.value != [] && startFailure.None? ==>
        !raised && events == old(events) + [TrayIconUpdate(false)]
        && (transcription.model.Some? || transcription.loading ==>
          transcription.worker != null && transcription.worker.audioData == data.value
          && transcription.worker.sampleRate == audio.sampleRate)
    {
      if data.None? || data.value == [] {
        events := events + [TrayIconUpdate(false)];
        return false;
      }
      audioData := data;
      isRecording := false;
      events := events + [TrayIconUpdate(false)];
      activeNoteType := None;
      if startFailure.Some? {
        var message := TranscriptionStartMessage(startFailure.value);
        events := events + [TrayMessage("Transcription Error", message), ErrorDialog("Transcription Error", message)];
        return true;
      }
      transcription.TranscribeAudio(data.value, audio.sampleRate);
      raised := false;
    }

    /**
     * `_on_recording_finished` as written: when starting transcription raises,
     * the module-level `handle_error` raises NameError in turn, so neither the
     * tray message nor the error dialog is shown and the slot raises.
     */
    method OnRecordingFinishedAsWritten(data: Option<seq<int>>, startFailure: Option<string>) returns (raised: bool)
      requires Valid()
      modifies this`audioData, this`isRecording, this`activeNoteType, this`events
      modifies transcription`worker, transcription`signals
      ensures Valid()
      ensures data.None? || data.value == [] ==>
        !raised && events == old(events) + [TrayIconUpdate(false)]
        && isRecording == old(isRecording) && audioData == old(audioData) && activeNoteType == old(activeNoteType)
        && unchanged(transcription)
      ensures data.Some? && data.value != [] ==>
        !isRecording && audioData == data && activeNoteType == None
      ensures data.Some? && data.value != [] && startFailure.Some? ==>
        raised && unchanged(transcription) && events == old(events) + [TrayIconUpdate(false)]
      ensures data.Some? && data.value != [] && startFailure.None? ==>
        !raised && events == old(events) + [TrayIconUpdate(false)]
        && (transcription.model.Some? || transcription.loading ==>
          transcription.worker != null && transcription.worker.audioData == data.value
          && transcription.worker.sampleRate == audio.sampleRate)
    {
      if data.None? || data.value == [] {
        events := events + [TrayIconUpdate(false)];
        return false;
      }
      audioData := data;
      isRecording := false;
      events := events + [TrayIconUpdate(false)];
      activeNoteType := None;
      if startFailure.Some? {
        return true;
      }
      transcription.TranscribeAudio(data.value, audio.sampleRate);
      raised := false;
    }

    /**
     * `handle_error`: the controller never sets the `tray_icon` attribute this
     * method looks for, so no message is shown; recording is stopped.
     */
    method HandleError(message: string, stopError: Option<string>)
      requires Valid()
      modifies this`isRecording, this`events, audio, audio.worker
      ensures Valid() && !isRecording
      ensures !old(isRecording) ==> events == old(events) && unchanged(audio)
      ensures old(isRecording) ==> events == old(events) + [TrayIconUpdate(false)]
    {
      StopRecording(stopError);
    }

    /** The audio service's signals as connected in `__init__`: errors to `handle_error`, finished audio to `_on_recording_finished`. */
    method OnAudioSignal(signal: AudioService.ServiceSignal, stopError: Option<string>, startFailure: Option<string>)
      requires Valid()
      modifies this`audioData, this`isRecording, this`activeNoteType, this`events
      modifies transcription`worker, transcription`signals, audio, audio.worker
      ensures Valid()
      ensures signal.ErrorOccurred? ==> !isRecording
      ensures signal.RecordingStarted? ==> isRecording == old(isRecording) && events == old(events)
      ensures signal.RecordingFinished? && signal.audio != [] ==> !isRecording && audioData == Some(signal.audio)
    {
      match signal {
        case RecordingStarted =>
        case RecordingFinished(a) =>
          var _ := OnRecordingFinished(Some(a), startFailure);
        case ErrorOccurred(m) =>
          HandleError(m, stopError);
      }
    }

    /** The transcription service's errors also go to `handle_error`. */
    method OnTranscriptionSignal(signal: TranscriptionService.ServiceSignal, stopError: Option<string>)
      requires Valid()
      modifies this`isRecording, this`events, audio, audio.worker
      ensures Valid()
      ensures signal.ErrorOccurred? ==> !isRecording
      ensures !signal.ErrorOccurred? ==> isRecording == old(isRecording) && events == old(events)
    {
      if signal.ErrorOccurred? {
        HandleError(signal.message, stopError);
      }
    }

    /** One turn of `_unregister_all_template_hotkeys`: a configuration's hotkey, when it has one, is unregistered. */
    method UnregisterConfigHotkey(tc: TemplateManager.TemplateConfig)
      requires hotkeys.Valid()
      modifies hotkeys`templateHotkeys
      ensures hotkeys.Valid()
      ensures TemplateHotkeyKeys(tc).None? ==> hotkeys.templateHotkeys.values == old(hotkeys.templateHotkeys.values)
      ensures TemplateHotkeyKeys(tc).Some? ==>
        hotkeys.templateHotkeys.values == old(hotkeys.templateHotkeys.values) - {TemplateHotkeyKeys(tc).value}
    {
      if HasHotkey(tc) {
        var hotkey := Strings.Strip(tc["hotkey"]);
        Hotkeys.ParseNonEmpty(hotkey);
        ghost var before := hotkeys.templateHotkeys.values;
        var removed := hotkeys.UnregisterTemplateHotkey(hotkey);
        if !removed && Hotkeys.ParseSpec(hotkey).Some? {
          assert before - {Hotkeys.ParseSpec(hotkey).value} == before;
        }
      }
    }

    /** `_unregister_all_template_hotkeys`: the key set of every template configuration with a hotkey is unregistered. */
    method UnregisterAllTemplateHotkeys()
      requires Valid()
      modifies hotkeys`templateHotkeys
      ensures Valid()
      ensures hotkeys.templateHotkeys.values == old(hotkeys.templateHotkeys.values) - TemplateKeys(templates.templateConfigs)
    {
      ghost var before := hotkeys.templateHotkeys.values;
      ghost var opts := TemplateKeyList(templates.templateConfigs);
      var names := templates.templateConfigs.keys;
      assert opts[..0] == [];
      var i := 0;
      while i < |names|
        invariant 0 <= i <= |names|
        invariant hotkeys.Valid()
        invariant hotkeys.templateHotkeys.values == before - Present(opts[..i])
      {
        var tc := templates.templateConfigs.values[names[i]];
        PresentStep(opts, i, before);
        assert opts[i] == TemplateHotkeyKeys(tc);
        UnregisterConfigHotkey(tc);
        i := i + 1;
      }
      assert opts[..i] == opts;
    }

    /**
     * `_register_note_type_hotkeys`: first the hotkeys of the template
     * configurations are unregistered, then every note type with a hotkey is
     * registered, in insertion order, under its name with a callback carrying
     * its id; a later note type with the same combination replaces an earlier one.
     */
    method RegisterNoteTypeHotkeys()
      requires Valid()
      modifies hotkeys`templateHotkeys
      ensures Valid()
      ensures hotkeys.templateHotkeys.values
        == Bound(old(hotkeys.templateHotkeys.values) - TemplateKeys(templates.templateConfigs),
                 Registrations(config.noteTypes, config.noteTypes.keys))
      ensures forall id :: id in config.noteTypes.values && Registrable(config.noteTypes.values[id]) ==>
        Hotkeys.ParseSpec(config.noteTypes.values[id].hotkey.value).value in hotkeys.templateHotkeys.values
      ensures forall k :: k in hotkeys.templateHotkeys.values ==>
        (k in old(hotkeys.templateHotkeys.values) && k !in TemplateKeys(templates.templateConfigs)
         && hotkeys.templateHotkeys.values[k] == old(hotkeys.templateHotkeys.values)[k])
        || NoteTypeEntry(hotkeys.templateHotkeys.values[k], config.noteTypes)
    {
      ghost var before := hotkeys.templateHotkeys.values;
      UnregisterAllTemplateHotkeys();
      ghost var base := hotkeys.templateHotkeys.values;
      var ids := config.noteTypes.keys;
      ghost var regs := Registrations(config.noteTypes, ids);
      assert regs[..0] == [];
      var j := 0;
      while j < |ids|
        invariant 0 <= j <= |ids|
        invariant hotkeys.Valid()
        invariant hotkeys.templateHotkeys.values == Bound(base, regs[..j])
      {
        var id := ids[j];
        var nt := config.noteTypes.values[id];
        BoundStep(base, regs, j);
        if HasNoteTypeHotkey(nt) {
          var _ := hotkeys.RegisterTemplateHotkey(nt.hotkey.value, nt.name, Hotkeys.NoteTypeCallback(id));
        }
        j := j + 1;
      }
      assert regs[..j] == regs;
      BoundRegistrations(base, config.noteTypes, ids);
    }

    /**
     * `_on_note_type_hotkey`: a key naming a configured note type makes it
     * the active one and toggles recording; any other key changes nothing.
     */
    method OnNoteTypeHotkey(key: string, now: real, setupError: Option<string>, stopError: Option<string>)
      requires Valid()
      modifies this`activeNoteType, this`isRecording, this`lastRecordingTime, this`events, audio, audio.worker
      ensures Valid()
      ensures NoteTypeFor(config.noteTypes, key).None? ==>
        activeNoteType == old(activeNoteType) && isRecording == old(isRecording) && events == old(events)
        && unchanged(audio)
      ensures NoteTypeFor(config.noteTypes, key).Some? ==>
        activeNoteType == NoteTypeFor(config.noteTypes, key)
        && (old(isRecording) ==> !isRecording)
        && (!old(isRecording) ==> (isRecording <==> old(audio.recordingState) == Stopped && setupError.None?))
    {
      if key in config.noteTypes.values {
        activeNoteType := Some(config.noteTypes.values[key]);
        ToggleRecording(now, setupError, stopError);
      }
    }

    /**
     * `_set_active_template`: without a journaling manager nothing changes;
     * otherwise the template becomes active and its configuration supplies
     * the output directory (a non-empty "save_location") and the tags.
     */
    method SetActiveTemplate(name: string)
      modifies this`activeTemplate, this`customOutputDir, this`customTags
      ensures !hasJournalManager ==>
        activeTemplate == old(activeTemplate) && customOutputDir == old(customOutputDir) && customTags == old(customTags)
      ensures hasJournalManager ==>
        var tc := if name in templates.templateConfigs.values then templates.templateConfigs.values[name] else map[];
        activeTemplate == Some(name)
        && (customOutputDir.Some? <==> "save_location" in tc && tc["save_location"] != "")
        && (customOutputDir.Some? ==> customOutputDir.value == tc["save_location"])
        && (customTags.Some? <==> "tags" in tc)
        && (customTags.Some? ==> customTags.value == tc["tags"])
    {
      if !hasJournalManager {
        return;
      }
      activeTemplate := Some(name);
      var tc := templates.GetTemplateConfig(name);
      if "save_location" in tc && tc["save_location"] != "" {
        customOutputDir := Some(tc["save_location"]);
      } else {
        customOutputDir := None;
      }
      if "tags" in tc {
        customTags := Some(tc["tags"]);
      } else {
        customTags := None;
      }
    }

    /**
     * `_on_template_hotkey`: while recording the refusal calls a
     * `show_message` the tray manager does not have, so it raises
     * (`failed`) and nothing changes. Otherwise journaling mode is switched
     * on, the template made active and recording toggled on.
     */
    method OnTemplateHotkey(name: string, now: real, setupError: Option<string>, stopError: Option<string>) returns (failed: bool)
      requires Valid()
      modifies this`journalingMode, this`activeTemplate, this`customOutputDir, this`customTags
      modifies this`isRecording, this`lastRecordingTime, this`events, audio, audio.worker
      ensures Valid()
      ensures failed <==> old(isRecording)
      ensures old(isRecording) ==>
        isRecording && journalingMode == old(journalingMode) && activeTemplate == old(activeTemplate)
        && events == old(events) && unchanged(audio)
      ensures !old(isRecording) ==>
        journalingMode
        && (hasJournalManager ==> activeTemplate == Some(name))
        && (isRecording <==> old(audio.recordingState) == Stopped && setupError.None?)
    {
      if isRecording {
        return true;
      }
      journalingMode := true;
      SetActiveTemplate(name);
      ToggleRecording(now, setupError, stopError);
      failed := false;
    }

    /**
     * A fired registry entry as written: the manager calls the callback with
     * the entry's name, so a note-type callback looks its note type up by name.
     */
    method OnHotkeyEntryAsWritten(entry: (string, Hotkeys.Callback), now: real, setupError: Option<string>, stopError: Option<string>)
      requires Valid() && NoteTypeEntry(entry, config.noteTypes)
      modifies this`activeNoteType, this`isRecording, this`lastRecordingTime, this`events, audio, audio.worker
      ensures Valid()
      ensures entry.0 !in config.noteTypes.values ==>
        activeNoteType == old(activeNoteType) && isRecording == old(isRecording) && events == old(events)
    {
      OnNoteTypeHotkey(entry.0, now, setupError, stopError);
    }

    /** A fired note-type entry as intended: the callback receives the id it was registered with. */
    method OnHotkeyEntry(entry: (string, Hotkeys.Callback), now: real, setupError: Option<string>, stopError: Option<string>)
      requires Valid() && NoteTypeEntry(entry, config.noteTypes)
      modifies this`activeNoteType, this`isRecording, this`lastRecordingTime, this`events, audio, audio.worker
      ensures Valid()
      ensures activeNoteType == Some(config.noteTypes.values[entry.1.noteTypeId])
      ensures activeNoteType.value.name == entry.0
      ensures old(isRecording) ==> !isRecording
    {
      HotkeyFindsNoteType(entry, config.noteTypes);
      OnNoteTypeHotkey(entry.1.noteTypeId, now, setupError, stopError);
    }
  }

  /** `stop_recording` twice is `stop_recording` once. */
  method StopTwice(app: WhisperNotes, stopError: Option<string>)
    requires app.Valid()
    modifies app, app.audio, app.audio.worker
    ensures app.Valid() && !app.isRecording
    ensures app.events == old(app.events) + (if old(app.isRecording) then [TrayIconUpdate(false)] else [])
  {
    app.StopRecording(stopError);
    ghost var once := app.events;
    app.StopRecording(stopError);
    assert app.events == once;
  }

  /**
   * Unlike the toggle, `start_recording` sets the flag even when the service
   * fails to start, so the controller believes it records while the service
   * is stopped.
   */
  /**
   * A one-sample recording whose transcription fails to start with "boom":
   * as written only the icon update is added, while the corrected slot also
   * shows the tray message and the error dialog.
   */
  method StartFailureShownOnlyWhenCorrected(app: WhisperNotes) returns (asWritten: seq<AppEvent>, corrected: seq<AppEvent>)
    requires app.Valid()
    modifies app, app.transcription
    ensures asWritten == [TrayIconUpdate(false)]
    ensures corrected == [TrayIconUpdate(false),
      TrayMessage("Transcription Error", "An error occurred: boom"),
      ErrorDialog("Transcription Error", "An error occurred: boom")]
  {
    var before := app.events;
    var _ := app.OnRecordingFinishedAsWritten(Some([1]), Some("boom"));
    asWritten := app.events[|before|..];
    before := app.events;
    var _ := app.OnRecordingFinished(Some([1]), Some("boom"));
    assert TranscriptionStartMessage("boom") == "An error occurred: boom";
    corrected := app.events[|before|..];
  }

  method FailedStartLeavesFlagSet(app: WhisperNotes, now: real, failure: string)
    requires app.Valid() && !app.isRecording && app.audio.recordingState == Stopped
    modifies app, app.audio
    ensures app.isRecording && app.audio.recordingState == Stopped && !app.Consistent()
  {
    app.StartRecording(now, Some(failure));
  }
}
