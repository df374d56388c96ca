/**
 * The system-tray icon (`TrayIcon`): the recording and journal-mode state,
 * the context menu rebuilt from that state, the blinking recording
 * indicator and the signals clicks on the icon and the menu emit.
 *
 * Signals and balloon notifications are appended to `events`; the menu is
 * the list of entries `_update_menu` puts in it. The journal-mode menu entry
 * is checkable, and setting its check mark to a new value emits `toggled`,
 * which the icon forwards as `journal_mode_toggled`.
 */
module TrayIcon {

  /** What the icon shows. */
  datatype Icon = BaseIcon | RecordingIcon

  /** A menu entry; the stop entry is created disabled and nothing enables it. */
  datatype MenuEntry =
    | ShowHideAction
    | StartRecordingAction
    | StopRecordingAction(enabled: bool)
    | JournalModeAction
    | QuitAction
    | Separator

  /** What the icon reports to the rest of the application. */
  datatype Event =
    | ShowWindow
    | ToggleWindow
    | RecordTriggered
    | StopTriggered
    | JournalModeToggled(checked: bool)
    | QuitTriggered
    | Notification(title: string, message: string)

  /** Why the icon was activated. */
  datatype ActivationReason = Trigger | DoubleClick | MiddleClick | Context | Unknown

  /** The entries `_update_menu` adds: the start entry when idle, the (disabled) stop entry when recording. */
  function MenuFor(isRecording: bool): (r: seq<MenuEntry>)
    ensures StartRecordingAction in r <==> !isRecording
    ensures StopRecordingAction(false) in r <==> isRecording
    ensures StopRecordingAction(true) !in r
    ensures JournalModeAction in r && QuitAction in r && ShowHideAction in r
  {
    var recording := if isRecording then StopRecordingAction(false) else StartRecordingAction;
    [ShowHideAction, Separator, recording, Separator, JournalModeAction, Separator, QuitAction]
  }

  class TrayIcon {
    var isRecording: bool
    var isJournalMode: bool
    var isVisible: bool
    var animationFrame: nat
    var timerActive: bool
    var icon: Icon
    /** The check mark of the journal-mode entry. */
    var journalChecked: bool
    var menu: seq<MenuEntry>
    var events: seq<Event>

    /** The menu matches the recording state, the timer runs exactly while recording, and idle shows the base icon. */
    predicate Valid()
      reads this
    {
      menu == MenuFor(isRecording)
      && timerActive == isRecording
      && (!isRecording ==> icon == BaseIcon)
    }

    constructor ()
      ensures Valid()
      ensures !isRecording && !isJournalMode && isVisible && animationFrame == 0
      ensures !journalChecked && icon == BaseIcon && events == []
    {
      isRecording := false;
      isJournalMode := false;
      isVisible := true;
      animationFrame := 0;
      timerActive := false;
      icon := BaseIcon;
      journalChecked := false;
      menu := MenuFor(false);
      events := [];
    }

    /** `QAction.setChecked` on the journal entry: a change of the mark emits `toggled`, forwarded. */
    method SetJournalChecked(checked: bool)
      modifies this`journalChecked, this`events
      ensures journalChecked == checked
      ensures events == old(events) + (if checked != old(journalChecked) then [JournalModeToggled(checked)] else [])
    {
      if checked != journalChecked {
        journalChecked := checked;
        events := events + [JournalModeToggled(checked)];
      }
    }

    /** `_update_menu`: rebuild the entries and set the journal mark to the journal-mode flag. */
    method UpdateMenu()
      modifies this`menu, this`journalChecked, this`events
      ensures menu == MenuFor(isRecording) && journalChecked == isJournalMode
      ensures events == old(events) + (if isJournalMode != old(journalChecked) then [JournalModeToggled(isJournalMode)] else [])
    {
      menu := MenuFor(isRecording);
      SetJournalChecked(isJournalMode);
    }

    /**
     * `set_recording_state`: the current value changes nothing; otherwise the
     * icon, the animation timer and the menu follow the new state, and only
     * the transition into recording shows "Recording Started".
     */
    method SetRecordingState(recording: bool)
      requires Valid()
      modifies this`isRecording, this`icon, this`timerActive, this`menu, this`journalChecked, this`events
      ensures Valid()
      ensures recording == old(isRecording) ==> unchanged(this)
      ensures isRecording == recording
      ensures recording != old(isRecording) ==>
        icon == (if recording then RecordingIcon else BaseIcon)
        && journalChecked == isJournalMode
        && events == old(events)
          + (if isJournalMode != old(journalChecked) then [JournalModeToggled(isJournalMode)] else [])
          + (if recording then [Notification("Recording Started", "Click to stop recording")] else [])
    {
      if isRecording == recording {
        return;
      }
      isRecording := recording;
      if recording {
        icon := RecordingIcon;
        timerActive := true;
      } else {
        timerActive := false;
        icon := BaseIcon;
      }
      UpdateMenu();
      if recording {
        events := events + [Notification("Recording Started", "Click to stop recording")];
      }
    }

    /**
     * `set_journal_mode`: the current value changes nothing; otherwise the
     * flag and the check mark take the new value and a notification names
     * the mode.
     */
    method SetJournalMode(enabled: bool)
      modifies this`isJournalMode, this`journalChecked, this`events
      ensures enabled == old(isJournalMode) ==> unchanged(this)
      ensures isJournalMode == enabled
      ensures enabled != old(isJournalMode) ==>
        journalChecked == enabled
        && events == old(events)
          + (if enabled != old(journalChecked) then [JournalModeToggled(enabled)] else [])
          + [ModeNotification(enabled)]
    {
      if isJournalMode == enabled {
        return;
      }
      isJournalMode := enabled;
      SetJournalChecked(enabled);
      events := events + [ModeNotification(enabled)];
    }

    /** `set_visible_state`: record the window's visibility and rebuild the menu. */
    method SetVisibleState(visible: bool)
      requires Valid()
      modifies this`isVisible, this`menu, this`journalChecked, this`events
      ensures Valid() && isVisible == visible && journalChecked == isJournalMode
      ensures events == old(events) + (if isJournalMode != old(journalChecked) then [JournalModeToggled(isJournalMode)] else [])
    {
      isVisible := visible;
      UpdateMenu();
    }

    /** The user clicks the journal-mode entry: its mark flips and the new value is forwarded. */
    method ClickJournalEntry()
      modifies this`journalChecked, this`events
      ensures journalChecked == !old(journalChecked)
      ensures events == old(events) + [JournalModeToggled(journalChecked)]
    {
      SetJournalChecked(!journalChecked);
    }

    /**
     * `_on_activated`: a single click toggles the window, a double click shows
     * it, a middle click stops or starts recording; other reasons do nothing.
     */
    method OnActivated(reason: ActivationReason)
      modifies this`events
      ensures events == old(events) + ActivationEvents(reason, isRecording)
    {
      match reason {
        case Trigger => events := events + [ToggleWindow];
        case DoubleClick => events := events + [ShowWindow];
        case MiddleClick =>
          if isRecording {
            events := events + [StopTriggered];
          } else {
            events := events + [RecordTriggered];
          }
        case _ =>
      }
    }

    /** `_on_message_clicked`: clicking a notification shows the window. */
    method OnMessageClicked()
      modifies this`events
      ensures events == old(events) + [ShowWindow]
    {
      events := events + [ShowWindow];
    }

    /** `_on_quit_triggered`: stop first when recording, then quit. */
    method OnQuitTriggered()
      modifies this`events
      ensures events == old(events) + QuitEvents(isRecording)
    {
      if isRecording {
        events := events + [StopTriggered];
      }
      events := events + [QuitTriggered];
    }

    /**
     * `_update_animation`: while recording, show the recording icon on even
     * frames and the base icon on odd ones, then advance the frame; idle
     * ticks do nothing.
     */
    method UpdateAnimation()
      requires Valid()
      modifies this`icon, this`animationFrame
      ensures Valid()
      ensures !isRecording ==> unchanged(this)
      ensures isRecording ==>
        icon == FrameIcon(old(animationFrame)) && animationFrame == old(animationFrame) + 1
    {
      if !isRecording {
        return;
      }
      if animationFrame % 2 == 0 {
        icon := RecordingIcon;
      } else {
        icon := BaseIcon;
      }
      animationFrame := animationFrame + 1;
    }
  }

  /** The notification for a new mode: "Journal Mode" or "Transcription Mode". */
  function ModeNotification(enabled: bool): (r: Event)
    ensures r.Notification?
    ensures enabled ==> r == Notification("Journal Mode", "Switched to journal mode")
    ensures !enabled ==> r == Notification("Transcription Mode", "Switched to transcription mode")
  {
    var mode := if enabled then "Journal" else "Transcription";
    var lower := if enabled then "journal" else "transcription";
    ModeTexts();
    Notification(mode + " Mode", "Switched to " + lower + " mode")
  }

  /** The two notification texts spelled out. */
  lemma ModeTexts()
    ensures "Journal" + " Mode" == "Journal Mode"
    ensures "Switched to " + "journal" + " mode" == "Switched to journal mode"
    ensures "Transcription" + " Mode" == "Transcription Mode"
    ensures "Switched to " + "transcription" + " mode" == "Switched to transcription mode"
  {
  }

  /** The signals one activation emits. */
  function ActivationEvents(reason: ActivationReason, isRecording: bool): (r: seq<Event>)
    ensures |r| <= 1
    ensures r == [StopTriggered] <==> reason == MiddleClick && isRecording
    ensures r == [RecordTriggered] <==> reason == MiddleClick && !isRecording
    ensures r == [] <==> reason == Context || reason == Unknown
  {
    match reason
    case Trigger => [ToggleWindow]
    case DoubleClick => [ShowWindow]
    case MiddleClick => if isRecording then [StopTriggered] else [RecordTriggered]
    case _ => []
  }

  /** The signals quitting emits: `quit_triggered` last, preceded by `stop_triggered` exactly when recording. */
  function QuitEvents(isRecording: bool): (r: seq<Event>)
    ensures |r| >= 1 && r[|r| - 1] == QuitTriggered
    ensures StopTriggered in r <==> isRecording
    ensures isRecording ==> r == [StopTriggered, QuitTriggered]
  {
    if isRecording then [StopTriggered, QuitTriggered] else [QuitTriggered]
  }

  /** The icon an animation frame shows. */
  function FrameIcon(frame: nat): (r: Icon)
    ensures r == RecordingIcon <==> frame % 2 == 0
  {
    if frame % 2 == 0 then RecordingIcon else BaseIcon
  }

  /** Consecutive frames alternate between the two icons. */
  lemma FramesAlternate(frame: nat)
    ensures FrameIcon(frame) != FrameIcon(frame + 1)
    ensures FrameIcon(frame) == FrameIcon(frame + 2)
  {
  }

  /**
   * A clicked journal mark is not reflected in the journal-mode flag, so the
   * next menu rebuild (here: starting to record) puts the old mark back and
   * forwards the old value again.
   */
  method ClickThenRecord(t: TrayIcon)
    requires t.Valid() && !t.isRecording && t.journalChecked == t.isJournalMode
    modifies t
    ensures t.isRecording && t.journalChecked == t.isJournalMode == old(t.isJournalMode)
    ensures t.events == old(t.events) + [JournalModeToggled(!old(t.isJournalMode)),
      JournalModeToggled(old(t.isJournalMode)), Notification("Recording Started", "Click to stop recording")]
  {
    t.ClickJournalEntry();
    t.SetRecordingState(true);
  }

  /** Setting the recording state twice to the same value is setting it once. */
  method SetRecordingTwice(t: TrayIcon, recording: bool)
    requires t.Valid()
    modifies t
    ensures t.Valid() && t.isRecording == recording
    ensures recording == old(t.isRecording) ==> t.events == old(t.events)
  {
    t.SetRecordingState(recording);
    ghost var once := t.events;
    t.SetRecordingState(recording);
    assert t.events == once;
  }
}
