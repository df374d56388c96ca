/**
 * The application's exception hierarchy and the user-facing message
 * `handle_error` picks for each (`exceptions.py`).
 *
 * An exception is represented by its class; `Foreign` stands for any
 * exception class the application does not define. The log line
 * `handle_error` writes is not modelled.
 */
module Exceptions {
  import opened Wrappers

  datatype ErrorClass =
    | WhisperNotesError
    | AudioError
    | AudioRecordingError
    | AudioSaveError
    | AudioPlaybackError
    | TranscriptionError
    | ModelError
    | JournalingError
    | FileSystemError
    | ConfigurationError
    | Foreign(name: string)

  /** The direct base class, None for the root of the application's hierarchy and for foreign classes. */
  function Base(c: ErrorClass): (r: Option<ErrorClass>)
    ensures r.Some? ==> r.value == WhisperNotesError || r.value == AudioError
  {
    match c
    case AudioRecordingError | AudioSaveError | AudioPlaybackError => Some(AudioError)
    case AudioError | TranscriptionError | ModelError | JournalingError | FileSystemError | ConfigurationError =>
      Some(WhisperNotesError)
    case WhisperNotesError | Foreign(_) => None
  }

  /** How many base classes lie above `c`. */
  function Depth(c: ErrorClass): nat
  {
    match c
    case WhisperNotesError | Foreign(_) => 0
    case AudioRecordingError | AudioSaveError | AudioPlaybackError => 2
    case _ => 1
  }

  /** `isinstance(error, c)`: the error's class is `c` or derives from it. */
  predicate IsInstance(e: ErrorClass, c: ErrorClass)
    decreases Depth(e)
  {
    e == c || (Base(e).Some? && IsInstance(Base(e).value, c))
  }

  /** Every class the application defines derives from WhisperNotesError; a foreign one does not. */
  lemma AllDeriveFromRoot(e: ErrorClass)
    ensures IsInstance(e, WhisperNotesError) <==> !e.Foreign?
  {
  }

  /** Exactly the three audio classes and AudioError itself are audio errors. */
  lemma AudioFamily(e: ErrorClass)
    ensures IsInstance(e, AudioError) <==>
      e in {AudioError, AudioRecordingError, AudioSaveError, AudioPlaybackError}
  {
  }

  const RECORDING_MSG := "An error occurred while recording audio. Please check your microphone and try again."
  const SAVE_MSG := "Failed to save the audio file. Please check available disk space and permissions."
  const TRANSCRIPTION_MSG := "An error occurred during transcription. The audio might be too short or inaudible."
  const MODEL_MSG := "An error occurred with the AI model. Please check your model configuration."
  const JOURNALING_MSG := "An error occurred while saving your journal entry. Your data might not have been saved."
  const FILE_SYSTEM_MSG := "A file system error occurred. Please check disk space and permissions."
  const CONFIGURATION_MSG := "There's a problem with the application configuration. Please check your settings."
  const GENERIC_MSG := "An unexpected error occurred. Please try again later."

  /** The classes `handle_error` tests, in the order it tests them, with their messages. */
  const CHAIN: seq<(ErrorClass, string)> := [
    (AudioRecordingError, RECORDING_MSG), (AudioSaveError, SAVE_MSG),
    (TranscriptionError, TRANSCRIPTION_MSG), (ModelError, MODEL_MSG),
    (JournalingError, JOURNALING_MSG), (FileSystemError, FILE_SYSTEM_MSG),
    (ConfigurationError, CONFIGURATION_MSG)]

  /** The message of the first entry of `chain` the error is an instance of, else the generic one. */
  function FirstMatch(e: ErrorClass, chain: seq<(ErrorClass, string)>): (r: string)
  {
    if |chain| == 0 then GENERIC_MSG
    else if IsInstance(e, chain[0].0) then chain[0].1
    else FirstMatch(e, chain[1..])
  }

  /** Walking the chain tests the seven classes in order. */
  lemma ChainInOrder(e: ErrorClass)
    ensures FirstMatch(e, CHAIN) ==
      if IsInstance(e, AudioRecordingError) then RECORDING_MSG
      else if IsInstance(e, AudioSaveError) then SAVE_MSG
      else if IsInstance(e, TranscriptionError) then TRANSCRIPTION_MSG
      else if IsInstance(e, ModelError) then MODEL_MSG
      else if IsInstance(e, JournalingError) then JOURNALING_MSG
      else if IsInstance(e, FileSystemError) then FILE_SYSTEM_MSG
      else if IsInstance(e, ConfigurationError) then CONFIGURATION_MSG
      else GENERIC_MSG
  {
    FirstMatchOfSeven(e, CHAIN);
  }

  /** Walking a chain of seven entries tests them one after the other. */
  lemma FirstMatchOfSeven(e: ErrorClass, c: seq<(ErrorClass, string)>)
    requires |c| == 7
    ensures FirstMatch(e, c) ==
      if IsInstance(e, c[0].0) then c[0].1
      else if IsInstance(e, c[1].0) then c[1].1
      else if IsInstance(e, c[2].0) then c[2].1
      else if IsInstance(e, c[3].0) then c[3].1
      else if IsInstance(e, c[4].0) then c[4].1
      else if IsInstance(e, c[5].0) then c[5].1
      else if IsInstance(e, c[6].0) then c[6].1
      else GENERIC_MSG
  {
    FirstMatchStep(e, c, 0);
    FirstMatchStep(e, c, 1);
    FirstMatchStep(e, c, 2);
    FirstMatchStep(e, c, 3);
    FirstMatchStep(e, c, 4);
    FirstMatchStep(e, c, 5);
    FirstMatchStep(e, c, 6);
    assert c[0..] == c && c[7..] == [];
  }

  /** One step of the walk: the entry at `i` is tested before the rest. */
  lemma FirstMatchStep(e: ErrorClass, c: seq<(ErrorClass, string)>, i: nat)
    requires i < |c|
    ensures FirstMatch(e, c[i..]) == if IsInstance(e, c[i].0) then c[i].1 else FirstMatch(e, c[i + 1..])
  {
    assert c[i..][1..] == c[i + 1..];
  }


  /**
   * `handle_error`: the fixed message of the first class in the chain the
   * error is an instance of; any other error, AudioPlaybackError and a bare
   * AudioError included, gets the generic message. Only the message is
   * returned; no dialog is shown.
   */
  function HandleError(e: ErrorClass, context: string): (r: string)
    ensures r == FirstMatch(e, CHAIN)
  {
    ChainInOrder(e);
    if IsInstance(e, AudioRecordingError) then RECORDING_MSG
    else if IsInstance(e, AudioSaveError) then SAVE_MSG
    else if IsInstance(e, TranscriptionError) then TRANSCRIPTION_MSG
    else if IsInstance(e, ModelError) then MODEL_MSG
    else if IsInstance(e, JournalingError) then JOURNALING_MSG
    else if IsInstance(e, FileSystemError) then FILE_SYSTEM_MSG
    else if IsInstance(e, ConfigurationError) then CONFIGURATION_MSG
    else GENERIC_MSG
  }

  /** The generic message goes exactly to foreign errors and to the three classes no test names. */
  lemma GenericMessage(e: ErrorClass, context: string)
    ensures HandleError(e, context) == GENERIC_MSG <==>
      (e.Foreign? || e == WhisperNotesError || e == AudioError || e == AudioPlaybackError)
  {
    var r := HandleError(e, context);
    if e.Foreign? || e == WhisperNotesError || e == AudioError || e == AudioPlaybackError {
      assert !IsInstance(e, AudioRecordingError) && !IsInstance(e, AudioSaveError);
      assert !IsInstance(e, TranscriptionError) && !IsInstance(e, ModelError);
      assert !IsInstance(e, JournalingError) && !IsInstance(e, FileSystemError);
      assert !IsInstance(e, ConfigurationError);
    } else {
      assert |r| > |GENERIC_MSG|;
    }
  }

  /** A tested class has no subclass, so an instance of it is that class. */
  lemma TestedClassesAreLeaves(e: ErrorClass, i: nat)
    requires i < |CHAIN| && IsInstance(e, CHAIN[i].0)
    ensures e == CHAIN[i].0
  {
  }
}
