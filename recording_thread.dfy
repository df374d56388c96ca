/**
 * The stand-alone recording thread (`RecordingThread`): checks the default
 * input device, keeps every non-empty block the stream callback delivers until
 * `stop()` is called or the maximum duration has elapsed, and then either emits
 * the concatenated audio or fails because nothing was captured.
 *
 * The callback runs on the audio library's thread. An exception other than
 * `CallbackStop` raised inside it aborts the stream and is not passed back to
 * the recording thread, whose wait loop carries on until stop or time-out.
 */
module RecordingThread {
  import opened Wrappers
  import opened Strings
  import AudioService

  type Block = AudioService.Block

  /** The flags of a callback's status argument. */
  datatype Status = Status(inputOverflow: bool, inputError: bool, otherFlags: bool)

  /** What one callback does with its block. */
  datatype CallbackOutcome =
    | Keep          // the block is appended
    | Skip          // no data: nothing is appended, the stream goes on
    | StopStream    // `CallbackStop`: the stream completes
    | Raise(message: string)  // `AudioRecordingError`: the stream is aborted

  const OVERFLOW_MESSAGE := "Audio input overflow - system can't keep up with recording"
  const INPUT_ERROR_MESSAGE := "Error in audio input device"
  const NO_AUDIO_MESSAGE := "No audio data was recorded. Please check your microphone."

  /** The callback's decision: device trouble first, then the stop flag, then the data. */
  function Callback(status: Status, block: Option<Block>, stopFlag: bool): (r: CallbackOutcome)
    ensures r == Keep <==> !status.inputOverflow && !status.inputError && !stopFlag && block.Some? && |block.value| > 0
    ensures status.inputOverflow ==> r == Raise(OVERFLOW_MESSAGE)
    ensures !status.inputOverflow && status.inputError ==> r == Raise(INPUT_ERROR_MESSAGE)
    ensures r == StopStream <==> !status.inputOverflow && !status.inputError && stopFlag
  {
    if status.inputOverflow then Raise(OVERFLOW_MESSAGE)
    else if status.inputError then Raise(INPUT_ERROR_MESSAGE)
    else if stopFlag then StopStream
    else if block.Some? && |block.value| > 0 then Keep
    else Skip
  }

  /** One entry of `sd.query_devices()`. */
  datatype Device = Device(name: string, maxInputChannels: int)

  /** Python's `devices[i]` on a tuple, negative indices counting from the end. */
  function PyIndex(n: nat, i: int): (r: Option<nat>)
    ensures r.Some? <==> -(n as int) <= i < n
    ensures r.Some? ==> r.value < n && (i >= 0 ==> r.value == i) && (i < 0 ==> r.value == n + i)
  {
    if 0 <= i < n then Some(i) else if -(n as int) <= i < 0 then Some(n + i) else None
  }

  /**
   * The device checks before the stream opens: some device exists, the default
   * input index is below the device count, and that device has input channels.
   */
  function CheckDevice(devices: seq<Device>, defaultInput: int): (r: Result<Device>)
    ensures |devices| == 0 ==> r == Err("No audio input devices found")
    ensures |devices| > 0 && defaultInput >= |devices| ==>
      r == Err("Default input device " + IntToString(defaultInput) + " is out of range")
    ensures r.Ok? <==> |devices| > 0 && -|devices| <= defaultInput < |devices|
                       && devices[PyIndex(|devices|, defaultInput).value].maxInputChannels != 0
    ensures r.Ok? ==> r.value in devices && r.value.maxInputChannels != 0
  {
    if |devices| == 0 then Err("No audio input devices found")
    else if defaultInput >= |devices| then
      Err("Default input device " + IntToString(defaultInput) + " is out of range")
    else
      match PyIndex(|devices|, defaultInput)
      case None => Err("tuple index out of range")
      case Some(k) =>
        if devices[k].maxInputChannels == 0 then Err("Default device has no input channels")
        else Ok(devices[k])
  }

  /** What happens while the thread waits. */
  datatype Event =
    | BlockArrives(status: Status, block: Option<Block>)
    | StopCalled
    | Tick(nowMs: int)   // the clock as read by the wait loop

  /** The part of the thread the wait loop changes. */
  datatype Capture = Capture(stopFlag: bool, streamActive: bool, blocks: seq<Block>, nowMs: int)

  function Step(c: Capture, e: Event): Capture {
    match e
    case BlockArrives(status, block) =>
      if !c.streamActive then c
      else (match Callback(status, block, c.stopFlag)
        case Keep => c.(blocks := c.blocks + [block.value])
        case Skip => c
        case StopStream => c.(streamActive := false)
        case Raise(_) => c.(streamActive := false))
    case StopCalled => c.(stopFlag := true)
    case Tick(t) => c.(nowMs := t)
  }

  /** The wait loop goes on while neither the flag is set nor the maximum duration reached. */
  predicate Waiting(c: Capture, startMs: int, maxMs: int) {
    !c.stopFlag && c.nowMs - startMs < maxMs
  }

  /** `while not stop_flag and elapsed < max_duration`, with the events that happen meanwhile. */
  function Waited(c: Capture, evs: seq<Event>, startMs: int, maxMs: int): (r: Capture)
    ensures c.blocks <= r.blocks
    decreases |evs|
  {
    if !Waiting(c, startMs, maxMs) || |evs| == 0 then c
    else Waited(Step(c, evs[0]), evs[1..], startMs, maxMs)
  }

  /** Once the stream has stopped or aborted, nothing more is captured. */
  lemma {:induction false} WaitedAfterStreamEnd(c: Capture, evs: seq<Event>, startMs: int, maxMs: int)
    requires !c.streamActive
    ensures Waited(c, evs, startMs, maxMs).blocks == c.blocks
    decreases |evs|
  {
    if Waiting(c, startMs, maxMs) && |evs| > 0 {
      WaitedAfterStreamEnd(Step(c, evs[0]), evs[1..], startMs, maxMs);
    }
  }

  /** An overflow ends the capture: the block that reported it and everything after it are lost. */
  lemma OverflowEndsCapture(c: Capture, block: Option<Block>, evs: seq<Event>, startMs: int, maxMs: int)
    requires c.streamActive && Waiting(c, startMs, maxMs)
    ensures Waited(c, [BlockArrives(Status(true, false, false), block)] + evs, startMs, maxMs).blocks == c.blocks
  {
    var all := [BlockArrives(Status(true, false, false), block)] + evs;
    assert all[1..] == evs;
    WaitedAfterStreamEnd(Step(c, all[0]), evs, startMs, maxMs);
  }

  /** The loop is left as soon as the clock reads the maximum duration, whatever follows. */
  lemma WaitedEndsAtTimeout(c: Capture, t: int, evs: seq<Event>, startMs: int, maxMs: int)
    requires Waiting(c, startMs, maxMs) && t - startMs >= maxMs
    ensures Waited(c, [Tick(t)] + evs, startMs, maxMs) == c.(nowMs := t)
  {
    assert ([Tick(t)] + evs)[1..] == evs;
  }

  /** What the thread emits. */
  datatype ThreadSignal = Finished(audio: seq<int>) | Error(message: string)

  /** How `run()` ends: still waiting when the events ran out, returned, or re-raised an error. */
  datatype RunEnd = StillWaiting | Returned | Raised

  class RecordingThread {
    const maxDurationMs: nat
    var stopFlag: bool
    var audioData: seq<Block>
    var streamActive: bool
    var nowMs: int
    var emitted: seq<ThreadSignal>

    function State(): Capture
      reads this
    {
      Capture(stopFlag, streamActive, audioData, nowMs)
    }

    /** `RecordingThread(max_duration=900.0)`: the maximum in milliseconds, by default 900 seconds. */
    constructor (maxDurationMs: nat := 900_000)
      ensures this.maxDurationMs == maxDurationMs && !stopFlag && !streamActive
      ensures audioData == [] && emitted == []
    {
      this.maxDurationMs := maxDurationMs;
      stopFlag := false;
      streamActive := false;
      audioData := [];
      nowMs := 0;
      emitted := [];
    }

    /** `stop()`: only raises the flag. */
    method Stop()
      modifies this`stopFlag
      ensures stopFlag
    {
      stopFlag := true;
    }

    /** The stream callback. */
    method OnStreamBlock(status: Status, block: Option<Block>) returns (outcome: CallbackOutcome)
      modifies this`streamActive, this`audioData
      ensures State() == Step(old(State()), BlockArrives(status, block))
      ensures old(streamActive) ==> outcome == Callback(status, block, stopFlag)
      ensures old(stopFlag) ==> audioData == old(audioData)
    {
      outcome := Callback(status, block, stopFlag);
      if !streamActive {
        return;
      }
      match outcome {
        case Keep => audioData := audioData + [block.value];
        case Skip =>
        case StopStream => streamActive := false;
        case Raise(_) => streamActive := false;
      }
    }

    /**
     * `run()`. A failed device check is emitted as it stands and re-raised.
     * Opening the input stream may fail (`openError`, the library's message):
     * that message is emitted and re-raised. Otherwise the thread waits; when
     * the loop ends the stream is stopped. A PortAudioError from stopping it
     * (`stopError`) is emitted as "Audio device error: …"; otherwise an empty
     * capture fails with the re-wrapped "No audio data" message, while a
     * non-empty one is emitted concatenated, however quiet it is.
     */
    method Run(devices: seq<Device>, defaultInput: int, openError: Option<string>, startMs: int, events: seq<Event>,
               stopError: Option<string>) returns (end: RunEnd)
      modifies this
      ensures CheckDevice(devices, defaultInput).Err? ==>
        end == Raised && audioData == []
        && emitted == old(emitted) + [Error(CheckDevice(devices, defaultInput).error)]
      ensures CheckDevice(devices, defaultInput).Ok? && openError.Some? ==>
        end == Raised && audioData == [] && stopFlag == old(stopFlag)
        && emitted == old(emitted) + [Error(openError.value)]
      ensures CheckDevice(devices, defaultInput).Ok? && openError.None? ==>
        var c := Waited(Capture(old(stopFlag), true, [], startMs), events, startMs, maxDurationMs);
        stopFlag == c.stopFlag && audioData == c.blocks && nowMs == c.nowMs
        && (Waiting(c, startMs, maxDurationMs) ==> end == StillWaiting && emitted == old(emitted))
        && (!Waiting(c, startMs, maxDurationMs) && stopError.Some? ==>
              end == Raised && emitted == old(emitted) + [Error("Audio device error: " + stopError.value)])
        && (!Waiting(c, startMs, maxDurationMs) && stopError.None? && c.blocks == [] ==>
              end == Raised && emitted == old(emitted) + [Error("Error during recording: " + NO_AUDIO_MESSAGE)])
        && (!Waiting(c, startMs, maxDurationMs) && stopError.None? && c.blocks != [] ==>
              end == Returned && emitted == old(emitted) + [Finished(AudioService.Concat(c.blocks))])
    {
      audioData := [];
      var device := CheckDevice(devices, defaultInput);
      if device.Err? {
        emitted := emitted + [Error(device.error)];
        return Raised;
      }
      if openError.Some? {
        emitted := emitted + [Error(openError.value)];
        return Raised;
      }
      streamActive := true;
      nowMs := startMs;
      ghost var start := State();
      var i := 0;
      while !stopFlag && nowMs - startMs < maxDurationMs && i < |events|
        invariant 0 <= i <= |events|
        invariant emitted == old(emitted)
        decreases |events| - i
        invariant Waited(State(), events[i..], startMs, maxDurationMs) == Waited(start, events, startMs, maxDurationMs)
      {
        assert events[i..][1..] == events[i + 1..];
        match events[i] {
          case BlockArrives(status, block) =>
            var _ := OnStreamBlock(status, block);
          case StopCalled => Stop();
          case Tick(t) => nowMs := t;
        }
        i := i + 1;
      }
      if !stopFlag && nowMs - startMs < maxDurationMs {
        return StillWaiting;
      }
      streamActive := false;
      if stopError.Some? {
        emitted := emitted + [Error("Audio device error: " + stopError.value)];
        return Raised;
      }
      if audioData == [] {
        emitted := emitted + [Error("Error during recording: " + NO_AUDIO_MESSAGE)];
        return Raised;
      }
      emitted := emitted + [Finished(AudioService.Concat(audioData))];
      end := Returned;
    }
  }

  /** A thread made without a maximum has the 900-second default. */
  method DefaultMaximum() returns (t: RecordingThread)
    ensures t.maxDurationMs == 900_000 && !t.stopFlag && t.audioData == [] && t.emitted == []
  {
    t := new RecordingThread();
  }
}
