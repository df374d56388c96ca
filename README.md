# WhisperNotes in Dafny

WhisperNotes is a desktop dictation tool. A global hotkey starts and stops a
microphone recording; the recording is transcribed by a local speech model;
the text goes to the clipboard or, in journal mode, into a markdown journal
entry rendered from a template. Note types give each kind of note its own
hotkey, prompt, template and storage folders.

This project models the logic behind that, one Dafny module per source file:

- `WhisperNotes` (whisper_notes.py): the controller's recording flag beside
  the audio service's state, toggle, start and stop, the one-second watchdog,
  the hand-over of finished audio to transcription, error handling, and the
  note-type and template hotkeys.
- `AudioService` and its `RecordingWorker` (services/audio_service.py),
  `RecordingThread` (audio.py) and `TranscriptionService` with its
  `TranscriptionWorker` (services/transcription_service.py): guarded state
  machines, append-only audio buffers and a cooperative stop flag.
- `Hotkeys` (hotkeys.py), `HotkeyListener` (hotkey_listener.py) and the key
  capture of `NoteTypeDialog` (ui/note_type_dialog.py): parsing, normalising
  and capturing key combinations, the registries and the key-press dispatch.
- `TemplateManager` (template_manager.py), `TemplateService`
  (services/template_service.py), `ConfigModels` (models/config.py),
  `SettingsManager` (core/settings_manager.py) and `NoteTypesTab`
  (ui/note_types_tab.py): templates, placeholders, note types and settings.
- `JournalService` (services/journal_service.py): rendering an entry as
  markdown, reading it back, and the in-memory entries.
- `FileUtils`, `AudioUtils`, `PlatformUtils` (utils/), `Exceptions`
  (exceptions.py) and `FixSyntax` (fix_syntax.py).
- `TrayIcon` (ui/tray_icon.py) and `AudioMeter` (ui/widgets/audio_meter.py):
  the two widget state machines.

Shared modules give Python's semantics to what the code relies on:
`Strings` (`split`, `join`, `strip`, `replace`, `count`, whitespace
`split()`, integer text, and a `lower` that folds only the ASCII letters A-Z:
Python's `str.lower` also folds other scripts, see "## Left out"), `OrderedMaps` (the insertion-ordered
`dict`), `Sorting` (`sorted` with a key, as a stable sorted permutation), `Paths`
(POSIX `os.path.join` and `basename`), `Wrappers` (`Option`, `Result`) and
`Constants` (`RecordingState`, the sample rate, the chunk size and the
maximum recording length). The built-in hotkeys live in `Hotkeys`.

Conventions used throughout:

- Objects whose fields the source updates in place are classes; their
  methods say what they change with `modifies` and state the new state.
- Qt signals, tray messages and dialogs are appended to an event log field.
- Threads and signal deliveries are sequential calls, each atomic.
- Clocks, uuids, the platform, the home directory, device lists, file
  contents and whether a library call fails are parameters.
- The file system is a value: a set or a map of paths.
- Times are given in two ways. The capture loops of `AudioService` and
  `RecordingThread` take whole milliseconds (`nowMs`, `startMs`, `maxMs`):
  their clock parameter stands for `time.time()` already rounded to a
  millisecond. `WhisperNotes` takes the clock as an exact `real` number of
  seconds (`now`, `lastRecordingTime`), as do configured durations and
  meter levels. Audio blocks are
  sequences whose length and order are all that matter.

Where the code and its documentation disagree, the model follows the code.
The five defects listed under "## Findings" are modelled both as written and
as evidently intended; the rest of the model uses the corrected version.

## Model

| member | source | states |
|---|---|---|
| AudioService.ConcatLength | services/audio_service.py:179-181 | concatenating the kept blocks loses no sample: the length is the sum of the block lengths |
| AudioService.ConcatUniformLength | services/audio_service.py:179-181 | N blocks of n samples concatenate to N·n samples |
| AudioService.ConcatAt | services/audio_service.py:179-181 | sample j of block i sits right after every sample of the earlier blocks, so arrival order is kept |
| AudioService.PolledAppendOnly | services/audio_service.py:162-178 | while the worker polls, its buffer only grows: kept blocks stay where they are |
| AudioService.PolledKeepsTimelyBlocks | services/audio_service.py:162-178 | blocks that arrive in time before `stop()` are all kept, in arrival order, and the loop then exits |
| AudioService.PolledStopsAtFlag | services/audio_service.py:165-178 | once `stop()` has raised the flag the loop ends and later blocks are ignored |
| AudioService.RecordingWorker.constructor | services/audio_service.py:146-153 | a new worker has its parameters, no flag and an empty buffer |
| AudioService.RecordingWorker.Stop | services/audio_service.py:187-188 | `stop()` only raises the flag |
| AudioService.RecordingWorker.OnStreamBlock | services/audio_service.py:162-170 | the callback ends the stream when stopped or over time, and otherwise keeps a copy of the block; a stopped worker keeps nothing more |
| AudioService.RecordingWorker.Run | services/audio_service.py:155-186 | an open failure emits "Recording error: …"; otherwise the poll result is the buffer; once the loop has returned, a failure while closing the stream or concatenating emits "Recording error: …" and no `finished`, and without one the concatenation is emitted only when something was kept (no signal at all for an empty capture) |
| AudioService.AudioService.constructor | services/audio_service.py:28-35 | a new service is STOPPED with no audio and the application sample rate |
| AudioService.AudioService.StartRecording | services/audio_service.py:37-75 | refused (False, nothing changes) unless STOPPED; a started recording is RECORDING with an empty buffer and a fresh worker; a setup failure restores STOPPED and reports "Failed to start recording: …" |
| AudioService.AudioService.StopRecording | services/audio_service.py:78-95 | refused unless RECORDING, so a second stop is a no-op; otherwise the worker is told to stop and the state becomes STOPPED, or an error is reported and the state stays |
| AudioService.AudioService.OnRecordingFinished | services/audio_service.py:127-131 | the service is STOPPED, keeps the audio as a one-element list and passes it on |
| AudioService.AudioService.OnRecordingError | services/audio_service.py:133-136 | the service is STOPPED and passes the message on |
| AudioService.AudioService.SaveRecordingAsWritten | services/audio_service.py:98-125 | as written: False with no audio; with audio the undefined `save_audio_to_file` raises NameError, which is reported, and the result is False every time |
| AudioService.AudioService.SaveRecording | services/audio_service.py:98-125 | corrected: True exactly when there is audio and the write succeeds |
| RecordingThread.Callback | audio.py:59-72 | device trouble (overflow, input error) is raised first, then the stop flag ends the stream, and only a non-empty block is kept |
| RecordingThread.PyIndex | audio.py:79-83 | Python indexing of the device tuple, a negative index counting from the end |
| RecordingThread.CheckDevice | audio.py:74-85 | the three device checks in order, each with its own message: no devices, default index out of range, no input channels |
| RecordingThread.Waited | audio.py:100-106 | the wait loop runs while the flag is down and the elapsed time is under the maximum |
| RecordingThread.WaitedAfterStreamEnd | audio.py:59-106 | once the stream has stopped or aborted nothing more is captured |
| RecordingThread.OverflowEndsCapture | audio.py:62-64 | an overflow ends the capture: that block and everything after it are lost |
| RecordingThread.WaitedEndsAtTimeout | audio.py:103 | the loop is left as soon as the clock reaches the maximum duration |
| RecordingThread.RecordingThread.constructor | audio.py:42-51 | a new thread has the given maximum (900 000 ms when none is given) and no flag |
| RecordingThread.DefaultMaximum | audio.py:42 | a thread made without a maximum gets 900 seconds |
| RecordingThread.RecordingThread.Stop | audio.py:145-148 | `stop()` only raises the flag |
| RecordingThread.RecordingThread.OnStreamBlock | audio.py:59-72 | the callback's effect on the thread's buffer and stream |
| RecordingThread.RecordingThread.Run | audio.py:53-143 | a failed device check is emitted and re-raised; a stream that fails to open emits its message and raises, with no audio; a stream error reported when the wait ends is emitted as "Audio device error: " and its message; otherwise an empty capture fails with the re-wrapped "No audio data" message, and a non-empty one is emitted as the concatenation |
| TranscriptionService.TranscriptText | services/transcription_service.py:209-217 | the segments joined by single spaces and stripped |
| TranscriptionService.TranscriptTextSingle | services/transcription_service.py:209-217 | a single trimmed segment comes back unchanged |
| TranscriptionService.TranscriptTextPair | services/transcription_service.py:209-217 | two segments are separated by exactly one space |
| TranscriptionService.TranscriptionWorker.constructor | services/transcription_service.py:170-182 | a new worker holds the model name, audio and rate and no stop request |
| TranscriptionService.TranscriptionWorker.RequestStop | services/transcription_service.py:227-229 | `request_stop()` only raises the flag |
| TranscriptionService.TranscriptionWorker.Run | services/transcription_service.py:184-225 | the flag is checked once, after recognition: a stopped run emits no text; a failure emits "Transcription failed: …"; `finished` is emitted every time |
| TranscriptionService.TranscriptionService.constructor | services/transcription_service.py:31-42 | construction starts the one model load |
| TranscriptionService.TranscriptionService.LoadModel | services/transcription_service.py:44-59 | a load starts only when none is in flight and no model is held |
| TranscriptionService.TranscriptionService.TranscribeAudio | services/transcription_service.py:61-92 | rejected with "Whisper model is not loaded" only when no model is held and none is loading; otherwise a new worker replaces any earlier one and `transcription_started` is emitted |
| TranscriptionService.TranscriptionService.OnModelLoaded | services/transcription_service.py:94-99 | the model is held and the load is over |
| TranscriptionService.TranscriptionService.OnModelError | services/transcription_service.py:101-105 | the load is over, no model is held, and the message is prefixed |
| TranscriptionService.TranscriptionService.OnTranscriptionReady | services/transcription_service.py:107-110 | the text is passed on unchanged |
| TranscriptionService.TranscriptionService.OnTranscriptionError | services/transcription_service.py:112-115 | the worker's message gains a second "Transcription failed: " prefix |
| TranscriptionService.FailedLoadIsNeverRetried | services/transcription_service.py:31-59 | after a failed first load every request is rejected: only the constructor starts a load (see also lines 68-72, 101-105) |
| TranscriptionService.RequestDuringLoadIsAccepted | services/transcription_service.py:68-79 | a request made while the first load is in flight is accepted and gets a worker |
| Hotkeys.PartKey | hotkeys.py:129-146 | "cmd"/"command", "ctrl", "alt" and "shift" name modifiers, a one-character part names that character, a known special name names that key, anything else names none |
| Hotkeys.PartsKeysMeaning | hotkeys.py:126-148 | the parsed set holds exactly the keys the parts name, and parsing fails when one part names no key |
| Hotkeys.ParseHotkeyString | hotkeys.py:115-151 | the parsing loop returns what the parse specification gives |
| Hotkeys.PartsNoKey | hotkeys.py:144-146 | one unknown part makes the whole parse fail |
| Hotkeys.ParseNonEmpty | hotkeys.py:126-148 | a successful parse is never empty, since splitting always yields a part |
| Hotkeys.PartsKeysIgnoreOrder | hotkeys.py:126-148 | the keys depend only on which parts occur, not on their order or repeats |
| Hotkeys.ParseIgnoresOrder | hotkeys.py:126-148 | "shift+cmd+r", "cmd+shift+r" and "cmd+shift+r+cmd" parse to the same combination |
| Hotkeys.FirstHeld | hotkeys.py:193-202 | the first combination whose keys are all held: it is held, no earlier one is, and there is none exactly when no combination is held |
| Hotkeys.Dispatched | hotkeys.py:163-202 | toggle fires exactly when its keys are held; journal exactly when its keys are and toggle's are not; quit exactly when only its keys are; otherwise a template fires exactly when some registered combination is held, and it is the first such one in registration order with its name and callback; nothing fires exactly when none of these holds |
| Hotkeys.Dispatch | hotkeys.py:163-202 | the loop over the registry fires exactly what `Dispatched` says |
| Hotkeys.HotkeyManager.constructor | hotkeys.py:27-48 | no keys are held, the manager is active and no template is registered |
| Hotkeys.HotkeyManager.RegisterTemplateHotkey | hotkeys.py:54-85 | True exactly for a string that parses to a combination other than the three built-in ones; then the bindings are the old ones with that key set bound to the template: an earlier binding is replaced in its place, a new one goes last; otherwise nothing changes |
| Hotkeys.HotkeyManager.UnregisterTemplateHotkey | hotkeys.py:87-113 | True exactly when the string parses to a registered key set; then the bindings are the old ones without that key set, the others keeping their order; otherwise nothing changes |
| Hotkeys.HotkeyManager.OnPress | hotkeys.py:153-202 | ignored while inactive; otherwise the key is added to the held keys and what fires is `Dispatched` on the held keys and the registry |
| Hotkeys.HotkeyManager.OnRelease | hotkeys.py:204-209 | the key is no longer held |
| HotkeyListener.ModifierAlias | hotkey_listener.py:127-134 | "command", "control" and "option" become "cmd", "ctrl" and "alt"; every other part is kept |
| HotkeyListener.CanonicalParts | hotkey_listener.py:124-134 | one normalised part per '+'-separated piece |
| HotkeyListener.Modifiers | hotkey_listener.py:137 | the parts that are modifier names, in order |
| HotkeyListener.Others | hotkey_listener.py:138 | the other parts, in order |
| HotkeyListener.SortedModifiersPermutation | hotkey_listener.py:141 | sorting keeps every modifier as often as it is given |
| HotkeyListener.SortedModifiersOrdered | hotkey_listener.py:141 | the sorted modifiers are in alphabetical order |
| HotkeyListener.CanonicalPartsAreNormal | hotkey_listener.py:124-134 | each normalised part is already in normal form |
| HotkeyListener.NormalPartsFixed | hotkey_listener.py:137-141 | splitting normalised parts into modifiers and others a second time changes nothing |
| HotkeyListener.CanonicalPartsOfJoin | hotkey_listener.py:124-141 | normal-form parts joined with '+' read back as the same parts |
| HotkeyListener.NormalizeIdempotent | hotkey_listener.py:113-141 | normalising a normalised hotkey changes nothing |
| HotkeyListener.NormalizeIgnoresModifierOrder | hotkey_listener.py:113-141 | the order in which modifiers are written does not change the normal form |
| HotkeyListener.HotkeyListener.constructor | hotkey_listener.py:22-27 | a new listener is not running and has no hotkeys |
| HotkeyListener.HotkeyListener.Start | hotkey_listener.py:29-38 | a no-op while running; otherwise the flag is set and a thread started |
| HotkeyListener.HotkeyListener.Stop | hotkey_listener.py:40-43 | only the flag is cleared |
| HotkeyListener.HotkeyListener.RegisterHotkey | hotkey_listener.py:51-78 | refused when the normal form is registered; otherwise the callback is stored under the normal form |
| HotkeyListener.HotkeyListener.UnregisterHotkey | hotkey_listener.py:80-106 | refused when the normal form is not registered; otherwise it is removed |
| HotkeyListener.HotkeyListener.GetRegisteredHotkeys | hotkey_listener.py:108-111 | a copy equal to the registry and not shared with it |
| HotkeyListener.SecondSpellingIsRefused | hotkey_listener.py:51-78 | two spellings of one combination cannot both be registered (see also lines 113-141) |
| TemplateManager.GetTemplateContent | template_manager.py:148-167 | the default template for an unknown name or an unreadable file, otherwise the file's text |
| TemplateManager.Placeholder | template_manager.py:201 | a variable's placeholder is its name in braces |
| TemplateManager.Variables | template_manager.py:184-196 | the six variables in substitution order with their defaults: the title built from the timestamp, the transcript preferring the formatted text, the timestamp defaulting to now, and an empty audio line exactly when no relative audio path is set |
| TemplateManager.SubstitutedAbsent | template_manager.py:199-202 | a text holding none of the placeholders comes back unchanged, so `{foo}` survives |
| TemplateManager.SubstitutionCascades | template_manager.py:199-202 | a value holding a later variable's placeholder is itself substituted |
| TemplateManager.ReplaceAllWhole | template_manager.py:202 | replacing a text that is exactly the placeholder yields the value |
| TemplateManager.ApplyVariables | template_manager.py:199-204 | the replace loop computes the sequential substitution |
| TemplateManager.SubstitutedLastLength | template_manager.py:202 | each substituted occurrence changes the length by the value's length less the placeholder's |
| TemplateManager.TemplateManager.constructor | template_manager.py:48-73 | the templates found are kept and there are no configurations |
| TemplateManager.TemplateManager.ApplyTemplate | template_manager.py:169-204 | the template's content with the entry's variables substituted in order |
| TemplateManager.TemplateManager.LoadTemplateConfigs | template_manager.py:206-213 | None leaves an empty map, otherwise the given map replaces the configurations |
| TemplateManager.TemplateManager.SaveTemplateConfig | template_manager.py:215-227 | the configuration is stored under the name (a new name goes last in insertion order) and the whole map is returned |
| TemplateManager.TemplateManager.GetTemplateConfig | template_manager.py:229-239 | the stored configuration, or an empty one for an unknown name |
| TemplateManager.TemplateManager.GetTemplateByHotkey | template_manager.py:241-254 | the first name in insertion order whose hotkey is exactly the string, and None exactly when no configuration has it |
| TemplateManager.SavedHotkeyIsFound | template_manager.py:215-254 | a configuration saved with a hotkey no other one uses is found by that hotkey |
| TemplateService.KeepIdChars | services/template_service.py:383 | only characters in [a-z0-9_] remain, in order |
| TemplateService.KeepIdCharsConcat | services/template_service.py:383 | the filter works character by character |
| TemplateService.KeepIdCharsOfId | services/template_service.py:383 | a string of id characters passes untouched |
| TemplateService.IdBase | services/template_service.py:380-383 | the name lower-cased, spaces made '_', other characters outside [a-z0-9_] dropped; the result is an id |
| TemplateService.IdBaseOfId | services/template_service.py:380-383 | an id is its own base |
| TemplateService.IdBaseIdempotent | services/template_service.py:380-383 | deriving the base twice changes nothing |
| TemplateService.IdBaseConcat | services/template_service.py:380-383 | the base of a concatenation is the concatenation of the bases |
| TemplateService.GenerateTemplateId | services/template_service.py:368-390 | the base when it is unused, otherwise the base, '_' and the whole seconds of the clock |
| TemplateService.ValuesInOrder | services/template_service.py:164-167 | the templates' values in insertion order |
| TemplateService.Merged | services/template_service.py:227-232 | only fields the template already has change, and never "id" or "created_at" |
| TemplateService.MergeUpdates | services/template_service.py:230-232 | the update loop computes the merge |
| TemplateService.UpdatedTemplate | services/template_service.py:227-235 | the merged template with a fresh "updated_at"; "id" and "created_at" are kept |
| TemplateService.UpdateIdempotent | services/template_service.py:227-235 | applying the same updates twice at one time is applying them once |
| TemplateService.NewTemplate | services/template_service.py:190-197 | the given fields, or the defaults 'Untitled Template', '' and '', with both timestamps now |
| TemplateService.TemplateService.constructor | services/template_service.py:31-49 | the templates and active id `load_templates` produced are kept, with no signal emitted |
| TemplateService.TemplateService.SaveTemplates | services/template_service.py:122-145 | False and an error signal exactly when the write fails; nothing else changes |
| TemplateService.TemplateService.AddTemplate | services/template_service.py:169-212 | an existing id is refused with no change; otherwise the new template is stored, made active when none is active, and reported by the write result: a failed write adds exactly one "Failed to save templates: " event, a successful one none |
| TemplateService.TemplateService.UpdateTemplate | services/template_service.py:214-252 | an unknown id is refused with no change; otherwise the stored template becomes the updated one, the result is the write result, and a failed write adds exactly one "Failed to save templates: " event |
| TemplateService.TemplateService.DeleteTemplate | services/template_service.py:254-291 | unknown ids and "default" are refused; otherwise the id is removed and, if it was active, the first other id in insertion order (or none) becomes active; the result is the write result, and a failed write adds exactly one "Failed to save templates: " event |
| TemplateService.TemplateService.SetActiveTemplate | services/template_service.py:293-309 | an unknown id is refused and leaves the active id; otherwise it becomes active, the result is the write result, and a failed write adds exactly one "Failed to save templates: " event |
| TemplateService.TemplateService.GetActiveTemplate | services/template_service.py:311-319 | None when no id is active or the active id is not stored, otherwise that template |
| TemplateService.TemplateService.GetAllTemplates | services/template_service.py:158-167 | every stored template, ordered by lower-cased name, a permutation of the values; templates whose lower-cased names are equal keep their insertion order |
| TemplateService.EmptyIdIsNeverActive | services/template_service.py:177-201 | a name with no id character gives the empty id, which is made active yet reported as none, and the next template added becomes active (see also lines 311-319) |
| JournalService.TagToken | services/journal_service.py:159 | a tag token is '#' followed by the tag with its spaces made '_' |
| JournalService.TagTokens | services/journal_service.py:159 | one token per tag, in order |
| JournalService.MarkdownLines | services/journal_service.py:152-168 | the heading and time lines, a tags piece exactly when there are tags, the content piece, and an audio link last exactly when an audio path is set |
| JournalService.FormatStartsWithHead | services/journal_service.py:152-170 | the rendering starts with "# <title>", a blank line, the time line and another blank line |
| JournalService.FormatEndsWithLast | services/journal_service.py:163-170 | the rendering ends with the audio link when there is an audio path, with the content otherwise |
| JournalService.TagsOfTokens | services/journal_service.py:313-314 | at most one tag per token, from the tokens that start with '#' |
| JournalService.FirstHashLine | services/journal_service.py:311-312 | the index found is a '#' line, or the end |
| JournalService.FirstHashLineMin | services/journal_service.py:311-312 | no '#' line comes before the one found |
| JournalService.TagLineAndContent | services/journal_service.py:307-317 | only the first '#' line after the second line is the tags line; every other line, later '#' lines included, stays in the content in order |
| JournalService.TagsAndContent | services/journal_service.py:307-317 | the tags read from that line (none without one) and the remaining lines |
| JournalService.SplitTagLine | services/journal_service.py:307-317 | the `in_tags` loop picks that tags line and collects those content lines |
| JournalService.AudioTarget | services/journal_service.py:321-323 | a line is an audio link exactly when it starts with "[Audio](" and holds ')', and the target is the text up to the first ')' |
| JournalService.SplitAudio | services/journal_service.py:319-328 | the last content line is dropped exactly when it is an audio link whose file exists, and only then is an audio path returned |
| JournalService.ParseEntry | services/journal_service.py:286-337 | the parse of one file's text equals the parsed-entry specification |
| JournalService.TagsOfHashTokens | services/journal_service.py:313-314 | tokens that all start with '#' are read back as their cleaned forms |
| JournalService.TagsOfTagTokens | services/journal_service.py:159 | rendered tag tokens read back as the tags, for tags that round-trip (see also lines 313-314) |
| JournalService.TagsLineRoundTrip | services/journal_service.py:159-160 | a rendered tags line reads back as its tags (see also lines 313-314) |
| JournalService.TagsLineShape | services/journal_service.py:159 | the tags line is one line, and a '#' line when there are tags |
| JournalService.RenderedLines | services/journal_service.py:152-170 | the rendered text's lines are the title line, a blank line, the time line, a blank line, then the rest (see also line 294) |
| JournalService.RenderedTagLines | services/journal_service.py:158-160 | with tags, the rest starts with a blank line, the tags line and a blank line |
| JournalService.ContentKeepsTimeLine | services/journal_service.py:333 | stripping the content keeps the time line at its head |
| JournalService.TitleOfHeading | services/journal_service.py:153 | a "# " heading line gives back the trimmed title (see also line 295) |
| JournalService.ParseRenderedHead | services/journal_service.py:295-333 | reading a rendered entry gives the title and the current time, and the content starts with the time line |
| JournalService.ParseRenderedTags | services/journal_service.py:311-317 | the tags are read from the first '#' line after the time line |
| JournalService.FormatThenParse | services/journal_service.py:143-170 | rendering then reading keeps id, title and tags, loses the timestamp (the reader uses the current time) and leaves the time line at the head of the content (see also lines 286-337) |
| JournalService.RenderedTagsRoundTrip | services/journal_service.py:158-160 | the rendered tags are read back unchanged (see also lines 311-317) |
| JournalService.RenderedContentLines | services/journal_service.py:163 | without tags, the line after the blank one is the content's first line (see also line 294) |
| JournalService.HeadingContentBecomesTags | services/journal_service.py:163 | without tags, a content whose first line starts with '#' is read back as tags (see also lines 311-317) |
| JournalService.Merge | services/journal_service.py:210 | a field given in the update replaces the stored one; the others are kept |
| JournalService.MergeThen | services/journal_service.py:210 | two updates in a row are one update where the later wins, and repeating an update changes nothing |
| JournalService.Snapshots | services/journal_service.py:190 | the entries' values in insertion order |
| JournalService.Loaded | services/journal_service.py:282-339 | the entries read from the listing form a valid ordered map |
| JournalService.LoadedStep | services/journal_service.py:282-339 | one listing step adds the entry of a readable ".md" file under its name without ".md", and nothing otherwise |
| JournalService.ReadListing | services/journal_service.py:282-343 | the reading loop computes the loaded entries, skipping unreadable and non-".md" files |
| JournalService.NewEntries | services/journal_service.py:330-339 | one new entry object per loaded entry, under the same keys in the same order |
| JournalService.JournalService.constructor | services/journal_service.py:31-43 | no entries, no current entry and no signal |
| JournalService.JournalService.LoadEntries | services/journal_service.py:268-351 | the entries are cleared; a missing directory returns False with no event; a listing that raises returns False and reports "Failed to load journal entries: …"; otherwise True and the entries mirror what the listing loads |
| JournalService.JournalService.UpdateEntry | services/journal_service.py:195-227 | an unknown id is refused; otherwise the update is merged into the stored entry and the file is rewritten with its rendering, or emptied or left as it was when opening or formatting fails |
| JournalService.JournalService.DeleteEntry | services/journal_service.py:229-266 | an unknown id is refused; a removal of the entry file that raises changes nothing on disk or in memory and reports the error; a removal of the audio file that raises leaves the entry file deleted but the entry in memory, and reports the error; otherwise the file and any audio file are removed, the entry is dropped, and the current entry is cleared exactly when it was that one |
| JournalService.JournalService.GetAllEntries | services/journal_service.py:183-193 | every entry, newest timestamp first, a permutation of the stored ones; entries with equal timestamps keep their insertion order |
| Sorting.SortByStable | services/journal_service.py:189-193 | `sorted` is stable in both directions, also with `reverse=True`: the elements sharing a key come out in the order they went in |
| ConfigModels.ToPath | models/config.py:18 | a non-empty string is its own path |
| ConfigModels.ConvertStrToPath | models/config.py:13-19 | None and "" become None, any other string a path with that text, and every other value passes through |
| ConfigModels.EmptyPathIsNone | models/config.py:13-19 | an empty path string validates to no path, as null does |
| ConfigModels.StorageRoundTrip | models/config.py:7-24 | a dumped storage configuration validates back to itself |
| ConfigModels.NameOnlyNoteType | models/config.py:26-33 | a document holding only a name gives a fresh id, no hotkey, default storage and empty prompt and template |
| ConfigModels.NameIsRequired | models/config.py:29 | a note-type document without a name is rejected |
| ConfigModels.NoteTypeRoundTrip | models/config.py:26-38 | a dumped note type validates back to itself, id included |
| ConfigModels.DumpGeneralMembers | models/config.py:40-56 | the dump of the general settings has one member per field |
| ConfigModels.GeneralRoundTrip | models/config.py:40-56 | dumped general settings validate back to themselves |
| ConfigModels.ValidateNoteTypes | models/config.py:62 | the note-type map validates exactly when every value does, keeping keys and their order |
| ConfigModels.ValidateApp | models/config.py:58-67 | a validated document keeps distinct note-type keys |
| ConfigModels.LaxIntStrings | models/config.py:56 | an `int` field reads the decimal text of a number as that number, as pydantic's lax mode does |
| ConfigModels.LaxFloatIntStrings | models/config.py:55 | a `float` field reads the decimal text of a whole number as that number |
| ConfigModels.LaxPointStrings | models/config.py:55 | a `float` field reads digits, a point and digits as the decimal number they spell |
| ConfigModels.LaxMinusNegates | models/config.py:55-56 | a leading minus sign is accepted exactly when the rest is, and negates its value, in both number fields |
| ConfigModels.LaxBoolIgnoresCase | models/config.py:11 | a `bool` field reads a string ignoring letter case |
| ConfigModels.LaxBoolExamples | models/config.py:11 | 1, 0.0, "true" and "Off" are read as booleans; 2 and "maybe" are refused |
| ConfigModels.DumpApp | models/config.py:58-67 | a dumped configuration is a loadable document |
| ConfigModels.EmptyDocumentIsDefault | models/config.py:9-62 | an empty document validates to the default configuration |
| ConfigModels.EmptyDocumentDefaults | models/config.py:9-62 | the defaults: version "1.0", no note types, 900.0 seconds, a 120-second timeout, "ctrl+shift+r", no device, storage under ~/WhisperNotes using the default |
| ConfigModels.AppRoundTrip | models/config.py:58-67 | a dumped configuration validates back to itself |
| SettingsManager.SavedFileReloads | core/settings_manager.py:41-73 | a file written from a configuration reads back as that configuration |
| SettingsManager.Attributes | core/settings_manager.py:150 | only keys that name attributes are kept, in order |
| SettingsManager.NoAttributeIgnored | core/settings_manager.py:149-151 | keys that name no attribute are ignored, as if not passed |
| SettingsManager.FirstRaising | core/settings_manager.py:149-157 | the first key whose assignment raises, with no earlier one raising |
| SettingsManager.SettingsManager.constructor | core/settings_manager.py:18-25 | the paths and the file contents are kept and no configuration is loaded yet |
| SettingsManager.SettingsManager.SaveConfig | core/settings_manager.py:61-77 | raises exactly when the write fails; otherwise the file holds the configuration's dump |
| SettingsManager.SettingsManager.LoadConfig | core/settings_manager.py:38-59 | a file that parses becomes the configuration; a missing file gives the saved defaults; any other file is moved to .bak and replaced by the saved defaults; a second failed save escapes |
| SettingsManager.SettingsManager.GetNoteType | core/settings_manager.py:81-90 | the note type stored under the id, and None exactly for an unknown id |
| SettingsManager.SettingsManager.GetAllNoteTypes | core/settings_manager.py:92-98 | every stored note type once, in insertion order |
| SettingsManager.SettingsManager.SaveNoteType | core/settings_manager.py:100-116 | the note type is stored under its id, replacing any there, and the result is that of the save |
| SettingsManager.SettingsManager.DeleteNoteType | core/settings_manager.py:118-135 | False with nothing changed for an unknown id; otherwise the note type is removed and the result is that of the save |
| SettingsManager.SettingsManager.UpdateGeneralSettings | core/settings_manager.py:139-157 | the keyword arguments are assigned in order up to the first that raises; True exactly when none raises and the save succeeds |
| SettingsManager.SaveNoteTypeThenReload | core/settings_manager.py:38-45 | a note type saved by one manager is found by a second that loads the same file (see also lines 100-113) |
| SettingsManager.SaveThenDelete | core/settings_manager.py:90-135 | a saved then deleted note type is not found, and a second delete returns False |
| NoteTypeDialog.KeyName | ui/note_type_dialog.py:151-171 | letters give their upper-case letter, digits themselves, F1..F35 "F<n>", and Space, Return, Enter, Backspace, Tab and Escape their names; exactly these keys have a name, so a modifier key has none; a name is never empty and holds no '+' |
| NoteTypeDialog.KeyNameIsNoModifier | ui/note_type_dialog.py:143-171 | no key name is one of the modifier names, so the `not in keys` test never drops a key |
| NoteTypeDialog.CapturePartsMeaning | ui/note_type_dialog.py:131-144 | a capture lists each held modifier once in the order Shift, Ctrl, Alt, Meta, then the key's name when it has one |
| NoteTypeDialog.CaptureSplitsBack | ui/note_type_dialog.py:147 | the captured text splits on '+' back into exactly the key list |
| NoteTypeDialog.HotkeyCaptureWidget.constructor | ui/note_type_dialog.py:114-119 | the widget starts with empty text and nothing captured |
| NoteTypeDialog.HotkeyCaptureWidget.KeyPressEvent | ui/note_type_dialog.py:121-149 | a modifier key alone, or a press giving no part, changes nothing; otherwise the parts joined with '+' are shown and emitted |
| NoteTypeDialog.PathFromText | ui/note_type_dialog.py:94-95 | empty text reads as no path, any other text as that path |
| NoteTypeDialog.NonePathDoesNotRoundTrip | ui/note_type_dialog.py:94-106 | a None path written with `str` reads back as the path "None" |
| NoteTypeDialog.PathText | ui/note_type_dialog.py:105-106 | the intended text: the path itself, or empty for no path |
| NoteTypeDialog.PathRoundTrip | ui/note_type_dialog.py:94-106 | with no path written as empty text, a non-empty path reads back as itself and no path as none |
| NoteTypeDialog.StorageConfigWidget.constructor | ui/note_type_dialog.py:19-57 | "use default" is checked, the path editors are empty and disabled |
| NoteTypeDialog.StorageConfigWidget.OnUseDefaultToggled | ui/note_type_dialog.py:59-64 | the path editors are enabled exactly when "use default" is unchecked |
| NoteTypeDialog.StorageConfigWidget.SetUseDefault | ui/note_type_dialog.py:26 | checking the box sets the flag and keeps the editors' state consistent with it (see also line 104) |
| NoteTypeDialog.StorageConfigWidget.GetStorageConfig | ui/note_type_dialog.py:86-96 | the flag and the two path texts, with empty text as no path |
| NoteTypeDialog.StorageConfigWidget.SetStorageConfig | ui/note_type_dialog.py:98-106 | the flag (checked when absent) and the path texts are set, with no path shown as empty text |
| NoteTypeDialog.StorageConfigRoundTrip | ui/note_type_dialog.py:86-106 | a configuration read from the widget reads back unchanged after it is set |
| NoteTypeDialog.GetNoteType | ui/note_type_dialog.py:292-304 | name, prompt and template are their texts with surrounding whitespace stripped, the storage as read, and the hotkey is None exactly when its text is blank and otherwise the stripped text |
| NoteTypeDialog.GetNoteTypeIgnoresPadding | ui/note_type_dialog.py:292-304 | whitespace around the name, hotkey, prompt and template texts does not change the note type read from the form |
| NoteTypeDialog.PaddedLoadThenGetNoteType | ui/note_type_dialog.py:269-304 | a note type with trimmed texts comes back unchanged even when whitespace was typed around its texts |
| NoteTypeDialog.ValidateAndAccept | ui/note_type_dialog.py:283-290 | accepted exactly when the name holds a non-whitespace character |
| NoteTypeDialog.LoadThenGetNoteType | ui/note_type_dialog.py:269-304 | a note type with trimmed texts comes back unchanged when loaded into the form and read again |
| NoteTypesTab.Label | ui/note_types_tab.py:168-169 | an entry without a name shows "Unnamed"; one whose name is a string shows it; any other name is refused by `addItem` |
| NoteTypesTab.Labels | ui/note_types_tab.py:165-169 | the widget holds the labels of the entries in order up to the first refused one; it holds one per entry exactly when no name is refused |
| NoteTypesTab.LabelsSnoc | ui/note_types_tab.py:165-169 | when every entry can be shown, one more entry adds its label at the end, or nothing when it is refused |
| NoteTypesTab.LabelsRemove | ui/note_types_tab.py:254-272 | removing a shown entry removes its label and no other |
| NoteTypesTab.NameText | ui/note_types_tab.py:236 | `str()` of a name: a string itself, None "None", booleans "True"/"False", integers their decimal text |
| NoteTypesTab.IdFor | ui/note_types_tab.py:105 | the id is "note_type_" followed by the length plus one |
| NoteTypesTab.IdForInjective | ui/note_types_tab.py:105 | different lengths give different ids |
| NoteTypesTab.FormDict | ui/note_types_tab.py:103 | the accepted form gives a dictionary without an id, labelled by its name |
| NoteTypesTab.Duplicate | ui/note_types_tab.py:234-241 | the copy gets the new id, the text of the name followed by " (Copy)" ("Copy (Copy)" without a name, "None (Copy)" for a None name), so its name is always a string; a hotkey key set to None, and every other key unchanged |
| NoteTypesTab.IdsByPositionDistinct | ui/note_types_tab.py:105 | while each id names its position, no two entries share one |
| NoteTypesTab.NoteTypesTab.constructor | ui/note_types_tab.py:19-25 | an empty list, disabled buttons, no signal and no error |
| NoteTypesTab.NoteTypesTab.UpdateNoteTypesList | ui/note_types_tab.py:165-169 | the list widget holds the labels up to the first refused name, and the call succeeds exactly when no name is refused |
| NoteTypesTab.NoteTypesTab.LoadNoteTypes | ui/note_types_tab.py:72-82 | the given list replaces the entries and the widget, with no signal; it raises exactly when a name is refused |
| NoteTypesTab.NoteTypesTab.GetNoteTypes | ui/note_types_tab.py:84-90 | the entries themselves |
| NoteTypesTab.NoteTypesTab.EmitUpdated | ui/note_types_tab.py:171-174 | the signal carries the entries and its slot leaves them as they are |
| NoteTypesTab.NoteTypesTab.ShowChanged | ui/note_types_tab.py:108-113 | the widget is rebuilt; the update signal carries the entries when every name can be shown, and otherwise the action's error box shows the refusal and no signal is sent |
| NoteTypesTab.NoteTypesTab.AddNoteType | ui/note_types_tab.py:98-115 | a cancelled dialog changes nothing; an accepted form is appended with id "note_type_<len+1>", then the signal or, when a name is refused, "Failed to add note type: " and the refusal |
| NoteTypesTab.NoteTypesTab.EditNoteType | ui/note_types_tab.py:117-137 | only a row in range with an accepted form is edited: the form replaces that entry and keeps its id, then the signal or "Failed to edit note type: " and the refusal; an entry without an id raises, shows "Failed to edit note type: 'id'" and changes nothing |
| NoteTypesTab.NoteTypesTab.DeleteNoteType | ui/note_types_tab.py:139-163 | after a Yes exactly the selected row is removed, then the signal or "Failed to delete note type: " and the refusal; otherwise nothing changes |
| NoteTypesTab.NoteTypesTab.ImportNoteType | ui/note_types_tab.py:201-227 | a dictionary document is appended with id "note_type_<len+1>", then the signal or "Failed to import note type: " and the refusal; a cancelled dialog changes nothing; anything else shows one error |
| NoteTypesTab.NoteTypesTab.DuplicateNoteType | ui/note_types_tab.py:229-252 | a copy of the selected row is appended, then the signal or "Failed to duplicate note type: " and the refusal |
| NoteTypesTab.NoteTypesTab.OnNoteTypeSelected | ui/note_types_tab.py:254-272 | the buttons are enabled exactly when a row is current, and a Yes removes that row from the widget and the list without a signal |
| NoteTypesTab.AddAfterDeleteRepeatsId | ui/note_types_tab.py:105-154 | add, add, delete the first, add: the last two entries share the id "note_type_2" |
| FileUtils.ReplaceInvalid | utils/file_utils.py:42-44 | each of the ten invalid characters becomes '_', every other character is kept, and the length is unchanged |
| FileUtils.DropControls | utils/file_utils.py:47 | no character below code 32 remains, nothing else is removed, and no invalid character appears |
| FileUtils.UnnamedIsClean | utils/file_utils.py:50-51 | the fallback name "unnamed_file" is clean |
| FileUtils.UnnamedIsStripped | utils/file_utils.py:50-51 | the fallback name is not blank |
| FileUtils.SanitizedIsClean | utils/file_utils.py:32-53 | a sanitised name holds no invalid or control character and is not blank |
| FileUtils.SanitizeIdempotent | utils/file_utils.py:32-53 | sanitising twice is sanitising once |
| FileUtils.SanitizedOfClean | utils/file_utils.py:32-53 | a clean name that is not blank is left as it is |
| FileUtils.SanitizeFilename | utils/file_utils.py:32-53 | the replacement loop computes the sanitised name |
| FileUtils.Candidate | utils/file_utils.py:75-78 | counter 1 gives "base.ext", a larger counter "base_<counter>.ext" |
| FileUtils.ManyDigits | utils/file_utils.py:78 | a counter of at least 10^n has more than n digits |
| FileUtils.LongCandidateIsNew | utils/file_utils.py:74-85 | a candidate longer than every existing path is new, so the search ends |
| FileUtils.TakenExtends | utils/file_utils.py:82-85 | a taken candidate extends the run of taken ones |
| FileUtils.GetUniqueFilename | utils/file_utils.py:55-85 | the result does not exist and is the first candidate (never "base_1") after which all earlier ones exist, with the base sanitised and the extension's leading dots stripped |
| FileUtils.CopyFile | utils/file_utils.py:87-115 | False for a missing source and for an existing destination without overwrite; True exactly when the source is a file and the copy is allowed; then only the target file changes |
| FileUtils.CopyKeepsExisting | utils/file_utils.py:105-107 | a copy without overwrite never replaces an existing file |
| FileUtils.DeleteFile | utils/file_utils.py:117-133 | True for a missing path; a directory fails; a file is removed unless the unlink fails |
| FileUtils.DeleteTwice | utils/file_utils.py:126-130 | deleting again after a delete succeeds and changes nothing |
| FileUtils.Suffix | utils/file_utils.py:155 | a suffix is empty or a dot followed by at least one character and no other dot |
| FileUtils.ListFiles | utils/file_utils.py:135-158 | [] for a path that is not a directory; otherwise exactly the listed entries that are files and match the extensions |
| FileUtils.Filtered | utils/file_utils.py:151-158 | exactly the listed files that match the filter |
| FileUtils.NormalizeExtForms | utils/file_utils.py:152 | a leading dot or upper case in a requested extension makes no difference |
| FileUtils.LowerLStripDots | utils/file_utils.py:152-155 | lower-casing and stripping leading dots commute |
| FileUtils.SuffixExtIsNormalized | utils/file_utils.py:152-155 | a file's suffix and a requested extension are normalised the same way |
| AudioUtils.Described | utils/audio_utils.py:33-41 | one description per device, in order, with its list index as id |
| AudioUtils.Inputs | utils/audio_utils.py:43-44 | the devices with input channels, in order |
| AudioUtils.Outputs | utils/audio_utils.py:46-47 | the devices with output channels, in order |
| AudioUtils.InputsMembership | utils/audio_utils.py:43-44 | a description is an input exactly when its device has input channels |
| AudioUtils.OutputsMembership | utils/audio_utils.py:46-47 | a description is an output exactly when its device has output channels |
| AudioUtils.GetAudioDevices | utils/audio_utils.py:18-53 | the loop yields the input and output lists, a negative host-API index counting from the end; a failed query or a host-API index out of range yields two empty lists |
| AudioUtils.DevicePartition | utils/audio_utils.py:33-47 | each listed device carries its position as id, and a device with both kinds of channels is in both lists |
| AudioUtils.RecordDtype | utils/audio_utils.py:107-109 | 'int16' and 'float32' are kept and every other dtype becomes 'float32' |
| AudioUtils.PlayAudio | utils/audio_utils.py:147-150 | None or empty data returns False before the device is used; otherwise the result is whether playback started |
| AudioUtils.SaveSubtype | utils/audio_utils.py:198-207 | an explicit subtype is kept; otherwise wav and flac give PCM_16, ogg VORBIS, mp3 MP3 and anything else none |
| AudioUtils.SaveSubtypeIgnoresCase | utils/audio_utils.py:199-207 | the default subtype does not depend on the format's letter case |
| AudioUtils.RoundHalfEven | utils/audio_utils.py:315-329 | the nearest integer, with ties going to the even one |
| AudioUtils.ResampleMethod | utils/audio_utils.py:307-330 | equal rates return the input; a change under 10% goes to scipy with the scaled, rounded sample count; other changes go to librosa, or to scipy when librosa is missing |
| AudioUtils.NameSuffix | utils/audio_utils.py:435 | a file name's suffix starts at its last dot unless that dot leads or ends it |
| AudioUtils.WithSuffix | utils/audio_utils.py:435 | the path with its suffix replaced by ".format", or none where pathlib raises |
| AudioUtils.WithSuffixIdempotent | utils/audio_utils.py:435 | changing to a dot-free format twice is changing once |
| AudioUtils.StemIsName | utils/audio_utils.py:435 | what is left of a name without its suffix is non-empty |
| AudioUtils.SuffixOfFormatted | utils/audio_utils.py:435 | the suffix of "stem.format" is ".format" |
| AudioUtils.BaseNameOfJoined | utils/audio_utils.py:435 | a directory part joined with a plain name has that name as its final part |
| AudioUtils.DirectoryPartEnds | utils/audio_utils.py:435 | the directory part kept ends in a separator or is empty |
| AudioUtils.OutputPath | utils/audio_utils.py:433-437 | the given output path, or the input with the format as its suffix |
| AudioUtils.Present | utils/audio_utils.py:460 | the entries that are not None, in order |
| AudioUtils.Somes | utils/audio_utils.py:460 | every string as a present entry |
| AudioUtils.PresentAppend | utils/audio_utils.py:460 | dropping Nones works piece by piece over a concatenation |
| AudioUtils.PresentSomes | utils/audio_utils.py:460 | a list with no None loses nothing |
| AudioUtils.PresentMembership | utils/audio_utils.py:460 | an entry is kept exactly when it is present |
| AudioUtils.FfmpegArgs | utils/audio_utils.py:448-460 | the arguments in order; the codec 'pcm_s16le' only for wav, and for any other format '-acodec' comes directly before '-f' |
| AudioUtils.ConvertAudioToWav | utils/audio_utils.py:405-482 | None for a missing input, an unusable output path, a failed mkdir, a missing or failing ffmpeg and an empty or missing output; otherwise the output path |
| AudioUtils.DefaultOutputBesideInput | utils/audio_utils.py:433-472 | with no output given, a successful conversion returns the input with the format as suffix |
| PlatformUtils.PlatformName | utils/platform_utils.py:23-35 | win32 gives Windows, darwin macOS, linux Linux, and every other string Unknown |
| PlatformUtils.AppDataDir | utils/platform_utils.py:95-104 | APPDATA (or ~/AppData/Roaming) on Windows, ~/Library/Application Support on macOS, ~/.local/share otherwise, followed by the app name |
| PlatformUtils.JoinKeepsPrefix | utils/platform_utils.py:102 | joining a relative name keeps the directory as a prefix |
| PlatformUtils.JoinedThreeUnder | utils/platform_utils.py:98-102 | three relative steps below home stay below it and end in the last step |
| PlatformUtils.AppDataDirUnderHome | utils/platform_utils.py:95-104 | unless APPDATA is used the directory lies under home and ends in the app name; APPDATA matters only on Windows |
| PlatformUtils.Trunc | utils/platform_utils.py:245-247 | Python's `int` truncates toward zero |
| PlatformUtils.PadInt | utils/platform_utils.py:250-252 | the `:0Nd` format of a non-negative number is its zero-padded digits |
| PlatformUtils.WholeHasNoMillis | utils/platform_utils.py:246-247 | a whole number has no millisecond part |
| PlatformUtils.AsWrittenIsWhole | utils/platform_utils.py:245-252 | as written, only the whole seconds reach the text, with 0 milliseconds |
| PlatformUtils.DurationTextEnds | utils/platform_utils.py:250-252 | the text ends with a dot and the millisecond field |
| PlatformUtils.AsWrittenDropsMilliseconds | utils/platform_utils.py:246-252 | as written, the text always ends in ".000" |
| PlatformUtils.AsWrittenIgnoresFraction | utils/platform_utils.py:245-252 | as written, a duration reads the same as its whole seconds |
| PlatformUtils.AsWrittenOneAndAHalf | utils/platform_utils.py:245-252 | as written, 1.5 seconds gives "00:01.000" |
| PlatformUtils.Millis | utils/platform_utils.py:247 | the intended millisecond field lies in [0, 1000) for a non-negative input |
| PlatformUtils.DecimalValueLeadingZeros | utils/platform_utils.py:250-252 | leading zeros do not change a field's value |
| PlatformUtils.ZeroPadValue | utils/platform_utils.py:250-252 | a zero-padded field reads back as its number |
| PlatformUtils.ZeroPadWidth | utils/platform_utils.py:250-252 | a number that fits is padded to exactly the width |
| PlatformUtils.DurationTextShort | utils/platform_utils.py:251-252 | "MM:SS.mmm" fields read back as minutes, seconds and milliseconds |
| PlatformUtils.HoursField | utils/platform_utils.py:250 | the hours field has at least two digits and reads back as the hours |
| PlatformUtils.LongLayout | utils/platform_utils.py:250 | where the pieces of "HH:MM:SS.mmm" sit |
| PlatformUtils.DurationTextLong | utils/platform_utils.py:249-250 | "HH:MM:SS.mmm" fields read back as hours, minutes, seconds and milliseconds |
| PlatformUtils.FormatDurationShort | utils/platform_utils.py:236-252 | under an hour the corrected text is "MM:SS.mmm" whose fields read back as whole minutes, the seconds and the milliseconds |
| PlatformUtils.FormatDurationLong | utils/platform_utils.py:236-252 | from an hour on the corrected text is "HH:MM:SS.mmm" whose fields read back as hours, minutes, seconds and milliseconds |
| PlatformUtils.CorrectedOneAndAHalf | utils/platform_utils.py:236-252 | once corrected, 1.5 seconds gives "00:01.500" |
| PlatformUtils.AgreeOnWholeSeconds | utils/platform_utils.py:245-252 | for whole seconds the written and corrected versions agree |
| Exceptions.Base | exceptions.py:3-41 | every direct base class is WhisperNotesError or AudioError |
| Exceptions.AllDeriveFromRoot | exceptions.py:3-41 | every class the application defines derives from WhisperNotesError, and no foreign class does |
| Exceptions.AudioFamily | exceptions.py:7-21 | exactly AudioError and its three subclasses are audio errors |
| Exceptions.ChainInOrder | exceptions.py:60-75 | walking the chain tests the seven classes in order |
| Exceptions.HandleError | exceptions.py:43-78 | the message of the first class in the chain the error is an instance of, the generic one otherwise; only the message is returned |
| Exceptions.GenericMessage | exceptions.py:74-75 | the generic message goes exactly to foreign errors, WhisperNotesError, AudioError and AudioPlaybackError |
| Exceptions.TestedClassesAreLeaves | exceptions.py:3-41 | a tested class has no subclass, so only that class matches it (see also lines 60-73) |
| TrayIcon.MenuFor | ui/tray_icon.py:118-141 | the menu holds the start entry exactly when idle and the (disabled) stop entry exactly when recording, never an enabled stop entry, and always the show/hide, journal and quit entries |
| TrayIcon.TrayIcon.constructor | ui/tray_icon.py:31-77 | idle, not in journal mode, visible, frame 0, base icon, unchecked journal entry, no events |
| TrayIcon.TrayIcon.SetJournalChecked | ui/tray_icon.py:104-109 | the mark takes the value, and a change of mark forwards `journal_mode_toggled` with it (see also lines 259-266) |
| TrayIcon.TrayIcon.UpdateMenu | ui/tray_icon.py:118-141 | the menu follows the recording state and the journal mark follows the journal-mode flag |
| TrayIcon.TrayIcon.SetRecordingState | ui/tray_icon.py:173-202 | the current value changes nothing; otherwise the icon, the animation timer and the menu follow the new state, and only the change into recording shows "Recording Started" |
| TrayIcon.TrayIcon.SetJournalMode | ui/tray_icon.py:204-223 | the current value changes nothing; otherwise the flag and the mark take the new value and the mode notification follows |
| TrayIcon.TrayIcon.SetVisibleState | ui/tray_icon.py:225-232 | the visibility is recorded and the menu is rebuilt |
| TrayIcon.TrayIcon.ClickJournalEntry | ui/tray_icon.py:104-109 | a click flips the mark and forwards the new value (see also lines 259-266) |
| TrayIcon.TrayIcon.OnActivated | ui/tray_icon.py:234-252 | emits the signals the activation reason calls for |
| TrayIcon.TrayIcon.OnMessageClicked | ui/tray_icon.py:254-257 | clicking a notification emits `show_window` |
| TrayIcon.TrayIcon.OnQuitTriggered | ui/tray_icon.py:268-276 | emits the quit signals for the recording state |
| TrayIcon.TrayIcon.UpdateAnimation | ui/tray_icon.py:278-290 | idle ticks change nothing; while recording the icon follows the frame's parity and the frame advances |
| TrayIcon.ModeNotification | ui/tray_icon.py:217-223 | "Journal Mode" / "Switched to journal mode" when enabled, "Transcription Mode" / "Switched to transcription mode" otherwise |
| TrayIcon.ActivationEvents | ui/tray_icon.py:241-252 | a single click toggles the window, a double click shows it, a middle click stops when recording and records otherwise, other reasons emit nothing |
| TrayIcon.QuitEvents | ui/tray_icon.py:271-276 | `quit_triggered` comes last, preceded by `stop_triggered` exactly when recording |
| TrayIcon.FrameIcon | ui/tray_icon.py:285-288 | the recording icon exactly on even frames |
| TrayIcon.ClickThenRecord | ui/tray_icon.py:118-141 | a clicked journal mark does not change the journal-mode flag, so the next menu rebuild restores the old mark and forwards the old value again (see also lines 193 and 259-266) |
| TrayIcon.SetRecordingTwice | ui/tray_icon.py:179-180 | setting the same recording state twice is setting it once |
| TrayIcon.FramesAlternate | ui/tray_icon.py:281-290 | consecutive animation frames show different icons, and every second frame the same one |
| AudioMeter.Clamp | ui/widgets/audio_meter.py:99 | the value itself inside the bounds, the nearer bound outside them |
| AudioMeter.InsideMembership | ui/widgets/audio_meter.py:264-267 | a value survives the range filter exactly when it lies in the scale |
| AudioMeter.RangeMembership | ui/widgets/audio_meter.py:258-262 | `range(a, b, 10)` holds exactly the values a + 10k below b |
| AudioMeter.TickValuesMembership | ui/widgets/audio_meter.py:257-267 | the ticks are exactly the multiples of 10 between the two ends of the scale |
| AudioMeter.RangeAscends | ui/widgets/audio_meter.py:258-262 | the range rises in steps of 10 |
| AudioMeter.InsideAscending | ui/widgets/audio_meter.py:264-267 | filtering keeps a rising list rising |
| AudioMeter.TickValuesAscend | ui/widgets/audio_meter.py:257-267 | the ticks are drawn bottom up, each value once |
| AudioMeter.TickLabel | ui/widgets/audio_meter.py:279-288 | every label, zero included, is the value's decimal text followed by "dB", so the separate zero case gives "0dB" like the general form |
| AudioMeter.AudioMeter.constructor | ui/widgets/audio_meter.py:29-87 | the level and the peak start at the bottom of the scale, with the default colours and no timer running |
| AudioMeter.AudioMeter.SetLevel | ui/widgets/audio_meter.py:98-112 | the clamped value becomes the level; only a value above the peak raises it, and only then with a positive hold time is the hold timer restarted |
| AudioMeter.AudioMeter.SetPeakHoldTime | ui/widgets/audio_meter.py:114-120 | the hold time is max(0, ms) |
| AudioMeter.AudioMeter.ResetPeak | ui/widgets/audio_meter.py:122-125 | the peak returns to the bottom of the scale |
| AudioMeter.AudioMeter.OnPeakTimeout | ui/widgets/audio_meter.py:318-323 | the peak returns to the bottom of the scale and the timer stops |
| AudioMeter.AudioMeter.SetColor | ui/widgets/audio_meter.py:127-137 | only a role that exists is recoloured; an unknown role changes nothing |
| AudioMeter.AudioMeter.ValueToPos | ui/widgets/audio_meter.py:292-311 | 0 at or below the bottom and for an empty or inverted scale, 1 at or above the top, between 0 and 1 otherwise |
| AudioMeter.AudioMeter.TickMarks | ui/widgets/audio_meter.py:257-290 | the loop yields the tick values with their labels |
| AudioMeter.Labelled | ui/widgets/audio_meter.py:264-290 | each tick value beside its label, in order |
| AudioMeter.LabelledSnoc | ui/widgets/audio_meter.py:264-290 | labelling one more value adds its pair at the end |
| AudioMeter.InsideAppend | ui/widgets/audio_meter.py:264-267 | the range filter works piece by piece |
| AudioMeter.InsideSnoc | ui/widgets/audio_meter.py:264-267 | one more value is kept exactly when it lies in the scale |
| AudioMeter.PeakWithoutHold | ui/widgets/audio_meter.py:105-125 | with no hold time, setting a level starts no timer and never lowers the peak |
| FixSyntax.CountAcrossNewline | fix_syntax.py:11-15 | no `"""` spans a newline, so the count across one is the sum of the counts on either side |
| FixSyntax.CountJoin | fix_syntax.py:11-24 | the whole text holds as many `"""` as its lines together |
| FixSyntax.SumCountsAppend | fix_syntax.py:19-24 | per-line counts add up over consecutive lines |
| FixSyntax.JoinAppend | fix_syntax.py:26-31 | joining one more line appends a newline and that line |
| FixSyntax.FixFile | fix_syntax.py:6-38 | True exactly when the count is odd; an even count writes nothing; otherwise the flag ends open and the text written is the original followed by "\n" and `"""` |
| FixSyntax.ClosingLineAddsOne | fix_syntax.py:26-28 | the closing line adds exactly one `"""` |
| FixSyntax.FixTwice | fix_syntax.py:6-38 | after a repair the count is even, so a second run returns False |
| WhisperNotes.DefaultTimeout | whisper_notes.py:613-622 | with the default 900 seconds a recording is stopped only after more than 902 seconds (see also models/config.py line 55) |
| WhisperNotes.TranscriptionStartMessage | whisper_notes.py:124 | the message the module-level `handle_error` evidently means to return: "An error occurred: " followed by the exception's text; as written the function raises before returning it (see "## Findings") |
| WhisperNotes.NoteTypeFor | whisper_notes.py:1075-1077 | the note type stored under the given key, and None exactly when there is none |
| WhisperNotes.HotkeyFindsNoteType | whisper_notes.py:1059-1080 | with the intended argument every registered note-type hotkey finds its note type |
| WhisperNotes.HotkeyLookupAsWritten | hotkeys.py:198 | as written the lookup succeeds exactly when some note type's id equals the pressed one's name (see also whisper_notes.py lines 1068-1080) |
| WhisperNotes.NoteTypeHotkeyMissesAsWritten | hotkeys.py:198 | a note type with a generated id named "Meeting" is not found by its own hotkey (see also whisper_notes.py lines 1059-1063 and 1075-1080, models/config.py line 28) |
| WhisperNotes.WhisperNotes.constructor | whisper_notes.py:180-290 | idle, not journaling, no active note type, no audio, no events, and the services wired in |
| WhisperNotes.WhisperNotes.ToggleRecording | whisper_notes.py:299-313 | while recording the service is stopped and the flag cleared; otherwise the flag and start time are set only when the service starts; the flag and the service agree afterwards |
| WhisperNotes.WhisperNotes.StartRecording | whisper_notes.py:685-704 | a no-op while recording; otherwise the flag and start time are set before the service is asked, whatever it answers |
| WhisperNotes.WhisperNotes.StopRecording | whisper_notes.py:706-724 | a no-op unless recording; otherwise the flag is cleared and the service told to stop |
| WhisperNotes.WhisperNotes.CheckApplicationState | whisper_notes.py:607-622 | stops through `stop_recording` exactly when both record and more than the maximum plus 2 seconds have passed; otherwise nothing changes |
| WhisperNotes.WhisperNotes.OnRecordingFinished | whisper_notes.py:643-679 | corrected: None or empty audio only resets the icon; otherwise the flag and active note type are cleared and transcription is started at the service's sample rate; a start that raises is shown as a tray message and an error dialog and re-raised |
| WhisperNotes.WhisperNotes.OnRecordingFinishedAsWritten | whisper_notes.py:643-679 | as written: the same, except that a start that raises shows nothing (the error handler itself raises NameError) and the slot raises |
| WhisperNotes.StartFailureShownOnlyWhenCorrected | whisper_notes.py:664-679 | with one sample and a start failing with "boom", as written only the icon update is added; corrected, the tray message and the error dialog "An error occurred: boom" follow |
| WhisperNotes.WhisperNotes.HandleError | whisper_notes.py:726-735 | no message is shown, and recording is stopped |
| WhisperNotes.WhisperNotes.OnAudioSignal | whisper_notes.py:188-191 | an audio error goes to `handle_error` and finished audio to `_on_recording_finished` |
| WhisperNotes.WhisperNotes.OnTranscriptionSignal | whisper_notes.py:188-191 | a transcription error goes to `handle_error` |
| WhisperNotes.BoundMeaning | whisper_notes.py:1055-1066 | after registering in order, a key set is bound exactly when it was bound before or some registration used it; an untouched key set keeps its binding; the last registration that used a key set wins |
| WhisperNotes.BoundRegistrations | whisper_notes.py:1055-1066 | registering every note type binds the hotkey of each one that has a usable hotkey, and every binding is either an old one or a note type's name with a callback for its id |
| WhisperNotes.WhisperNotes.UnregisterConfigHotkey | whisper_notes.py:1143-1145 | a configuration with a non-blank hotkey takes the key set its stripped text parses to out of the bindings; any other configuration leaves them as they are |
| WhisperNotes.WhisperNotes.UnregisterAllTemplateHotkeys | whisper_notes.py:1134-1145 | the bindings afterwards are the old ones minus the key sets of every template configuration with a non-blank hotkey |
| WhisperNotes.WhisperNotes.RegisterNoteTypeHotkeys | whisper_notes.py:1047-1066 | the bindings are the old ones minus the template configurations' key sets, then each note type with a hotkey registered in order; so every note type with a usable hotkey is bound to its name and id, and every other binding is an old one the templates did not use |
| WhisperNotes.WhisperNotes.OnNoteTypeHotkey | whisper_notes.py:1068-1080 | a key naming a note type makes it active and toggles recording; any other key changes nothing |
| WhisperNotes.WhisperNotes.SetActiveTemplate | whisper_notes.py:1171-1200 | without a journaling manager nothing changes; otherwise the template becomes active and its configuration gives the output directory and tags |
| WhisperNotes.WhisperNotes.OnTemplateHotkey | whisper_notes.py:1147-1169 | while recording the call fails and changes nothing; otherwise journaling is switched on, the template made active and recording toggled (see also hotkeys.py lines 198-201) |
| WhisperNotes.WhisperNotes.OnHotkeyEntryAsWritten | hotkeys.py:194-201 | a fired note-type entry whose name is no note type's id changes nothing (see also whisper_notes.py lines 1059-1063) |
| WhisperNotes.WhisperNotes.OnHotkeyEntry | whisper_notes.py:1059-1080 | a fired note-type entry makes its own note type active and stops a running recording |
| WhisperNotes.StopTwice | whisper_notes.py:706-724 | two stops in a row do what one does |
| WhisperNotes.FailedStartLeavesFlagSet | whisper_notes.py:685-704 | a failed service start leaves the controller believing it records |

## Left out

- Clipboard and paste automation (whisper_notes.py:377-559): operating-system calls with nothing to state about the data.
- Dialog slots, the configuration dialog round trip, legacy-settings migration and QThread teardown (whisper_notes.py:737-1045, 1202-1260): widget and thread lifecycle.
- `toggle_journal_mode` passes a `journaling=` keyword to the tray's `update_icon`; it belongs to tray.py, which is not part of this model.
- The speech model itself (services/transcription_service.py:134-159, 192-207), transcription.py and transcribe_worker.py: foreign model calls, temporary files and a subprocess. What the model recognises is an input.
- The sound and file libraries (sounddevice, soundfile, librosa, scipy) and the ffmpeg subprocess: their results are parameters.
- Floating-point numerics: `normalize_audio`, the resampling arithmetic, `trim_silence` and the `load_audio` frame maths (utils/audio_utils.py:224-403), `format_bytes` (utils/platform_utils.py:219-234), the int16 scaling before transcription (services/transcription_service.py:188-189), and the quiet-audio threshold, which only logs.
- AudioMeter.AudioMeter.ValueToPos: states the clamp and the bounds of the position but not the 0.7 power curve (ui/widgets/audio_meter.py:314), which is real exponentiation.
- Painting in audio_meter and tray_icon, and the pure widget files (tray.py, ui/main_window.py, ui/general_settings_tab.py, ui/config_dialog.py, template_config_dialog.py, journal_preview_dialog.py, ui/widgets/transcription_view.py).
- The polling thread of `hotkey_listener._listen` (hotkey_listener.py:143-193), the pynput listener and `moveToThread`: concurrency is reduced to sequential calls.
- core/application.py: stub methods and imports of modules that do not exist.
- `TemplateService.apply_template` (services/template_service.py:321-366) relies on `str.format`; `load_templates`, `_create_default_templates` and `get_template` are file reading and a plain lookup. The constructor takes the loaded templates as a parameter.
- `TemplateManager._load_templates` and `_create_default_template_if_needed`: directory scanning and file writing. The template files are a parameter.
- `JournalService.create_entry`, `set_journal_dir` and `get_entry`: clock-driven creation, a directory change and a plain lookup.
- `ensure_directory_exists`, `read_text_file` and `write_text_file` in utils/file_utils.py: thin wrappers over the operating system.
- Datetime formatting and parsing: timestamps are inputs given as the text the library would produce.
- Path normalisation: paths are compared as text and joined with POSIX `os.path.join`.
- The `@Slot()` decorator on `_on_peak_timeout` (ui/widgets/audio_meter.py:318) is used without being imported, so the module as written fails to import; the model describes the class as evidently intended.
- The log lines written by every module are not modelled.
- ConfigModels.ValidateApp: pydantic's lax mode is modelled for booleans (0 and 1, 0.0 and 1.0, "0", "1" and the yes/no/on/off/true/false words and their one-letter forms in any case) and for decimal numbers with an optional sign and point; underscores between digits, exponents, "inf" and "nan", and integral decimals such as "1.0" in an `int` field are refused by the model although pydantic may accept them. The repository does not pin a pydantic version; the model follows version 2.
- SettingsManager.SettingsManager.SaveConfig: a failed save leaves the file as it was. That matches a failure in `mkdir` or `open`; a failure inside `json.dump` comes after `open(..., 'w')` has truncated the file, which then stays empty or partial, and the model does not capture that.
- TemplateService.TemplateService.GetAllTemplates: names are ordered by the ASCII-only `lower` of `Strings`; Python's `str.lower` also folds letters outside A-Z (É, Σ, ...), so names with such letters may sort differently in the source.
- TemplateService.IdBase: lower-cases with the same ASCII-only `lower`; a non-ASCII letter is dropped by both versions, but an upper-case one that Python folds to an ASCII letter (the Kelvin sign K, for instance) would survive there and not here.
- PlatformUtils.AppDataDir: gives the directory path only; its `mkdir(parents=True, exist_ok=True)` (utils/platform_utils.py:103), the directories it creates and its failure are not modelled.
- NoteTypesTab.Duplicate: `str()` of a float, list or dictionary name is not spelled out; the model names such a copy "Copy (Copy)". `addItem`'s message for a refused name is a parameter (`refusal`).
- FileUtils.CopyFile: the file-system value does not track parent directories, so `ensure_directory_exists(dst.parent)` is not modelled: neither the directories it creates nor its failure when a parent is a file.

## Findings

| source | as written | input that shows it | evidently intended | confidence | as-written member | corrected member |
|---|---|---|---|---|---|---|
| whisper_notes.py:1059-1063 | the hotkey manager calls the callback with the entry's name, which replaces the lambda's default note-type id, so `_on_note_type_hotkey` looks the note type up by name (see also hotkeys.py line 198) | a note type with id "6f1c2e9a-0b7d-4c55-9e21-3a8f4d7b2c10", name "Meeting" and hotkey "ctrl+alt+m": pressing the hotkey finds nothing | the callback receives the id it was registered with and finds its note type | high, not executed | WhisperNotes.NoteTypeHotkeyMissesAsWritten, WhisperNotes.WhisperNotes.OnHotkeyEntryAsWritten | WhisperNotes.HotkeyFindsNoteType, WhisperNotes.WhisperNotes.OnHotkeyEntry |
| services/audio_service.py:117 | `save_recording` calls `save_audio_to_file`, which is never imported (line 15 imports `save_audio`), so with audio present it always fails with a NameError that is caught and reported | any recording with at least one sample | the audio is saved through `save_audio` and the result reported | high, not executed | AudioService.AudioService.SaveRecordingAsWritten | AudioService.AudioService.SaveRecording |
| utils/platform_utils.py:245-247 | `seconds` is already a whole number after `divmod`, so the millisecond field is always "000" | 1.5 seconds gives "00:01.000" | "00:01.500" | high, not executed | PlatformUtils.AsWrittenOneAndAHalf | PlatformUtils.CorrectedOneAndAHalf |
| ui/note_type_dialog.py:94-106 | `set_storage_config` writes `str(path)`, so a path of None is shown as the text "None", which `get_storage_config` then reads back as the path "None" | a storage configuration with no audio path | an absent path is shown as empty text and read back as None | high, not executed | NoteTypeDialog.NonePathDoesNotRoundTrip | NoteTypeDialog.StorageConfigRoundTrip |
| whisper_notes.py:664-679 | `_on_recording_finished` (line 666) reports a failed transcription start through the module-level `handle_error` (lines 122-124), which logs `traceback.format_exc()` although `traceback` is not imported at module level (only inside the `__main__` failure handler, line 1292), and which is not defined at all when `from .hotkeys import HotkeyManager` succeeds; either way line 666 raises NameError, so the tray message and the error dialog at lines 667-677 are never shown | a one-sample recording whose `transcribe_audio` raises "boom" | the message "An error occurred: boom" is shown in the tray and in an error dialog, then the error is re-raised | high, not executed | WhisperNotes.WhisperNotes.OnRecordingFinishedAsWritten, WhisperNotes.StartFailureShownOnlyWhenCorrected | WhisperNotes.WhisperNotes.OnRecordingFinished, WhisperNotes.TranscriptionStartMessage |
