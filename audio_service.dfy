/**
 * The recording service (`AudioService`): a state machine over
 * `RecordingState` that starts a `RecordingWorker` and stops it, and the worker
 * itself, which keeps a copy of every block the input stream delivers until it
 * is told to stop and then hands back the blocks concatenated in arrival order.
 *
 * Threads are sequential here: the worker's `Run` consumes a script of what the
 * stream and the controlling thread do while it polls, and every Qt signal is
 * appended to a log field.
 */
module AudioService {
  import opened Constants
  import opened Wrappers

  /** One block of samples delivered by the input stream (only lengths and order matter). */
  type Block = seq<int>

  /** `np.concatenate(blocks)`. */
  function Concat(blocks: seq<Block>): seq<int> {
    if |blocks| == 0 then [] else Concat(blocks[..|blocks| - 1]) + blocks[|blocks| - 1]
  }

  /** The number of samples in all the blocks. */
  function TotalLength(blocks: seq<Block>): nat {
    if |blocks| == 0 then 0 else TotalLength(blocks[..|blocks| - 1]) + |blocks[|blocks| - 1]|
  }

  /** Concatenation keeps every sample: its length is the sum of the block lengths. */
  lemma {:induction false} ConcatLength(blocks: seq<Block>)
    ensures |Concat(blocks)| == TotalLength(blocks)
  {
    if |blocks| > 0 {
      ConcatLength(blocks[..|blocks| - 1]);
    }
  }

  /** N blocks of n samples each concatenate to N * n samples. */
  lemma {:induction false} ConcatUniformLength(blocks: seq<Block>, n: nat)
    requires forall i :: 0 <= i < |blocks| ==> |blocks[i]| == n
    ensures |Concat(blocks)| == |blocks| * n
  {
    if |blocks| > 0 {
      ConcatUniformLength(blocks[..|blocks| - 1], n);
      assert (|blocks| - 1) * n + n == |blocks| * n;
    }
  }

  /** Sample j of block i comes right after all samples of the blocks before block i. */
  lemma {:induction false} ConcatAt(blocks: seq<Block>, i: nat, j: nat)
    requires i < |blocks| && j < |blocks[i]|
    ensures TotalLength(blocks[..i]) + j < |Concat(blocks)|
    ensures Concat(blocks)[TotalLength(blocks[..i]) + j] == blocks[i][j]
  {
    var init := blocks[..|blocks| - 1];
    ConcatLength(init);
    ConcatLength(blocks);
    if i == |blocks| - 1 {
      assert blocks[..i] == init;
    } else {
      ConcatAt(init, i, j);
      assert init[..i] == blocks[..i];
      assert init[i] == blocks[i];
    }
  }

  /** What happens while the worker's polling loop runs. */
  datatype StreamEvent =
    | BlockArrives(block: Block, nowMs: int)  // the stream callback fires with a block at a time
    | StopCalled                             // another thread calls `stop()`
    | Sleep                                  // one `sd.sleep(100)` of the polling loop

  /** The part of the worker the polling loop changes. */
  datatype Capture = Capture(stopFlag: bool, streamActive: bool, blocks: seq<Block>)

  /**
   * One stream callback: a stopped or over-time recording raises `CallbackStop`,
   * which ends the stream without keeping the block; otherwise a copy is kept.
   * A stream that has ended calls back no more.
   */
  function OnBlock(c: Capture, block: Block, nowMs: int, startMs: int, maxMs: int): Capture {
    if !c.streamActive then c
    else if c.stopFlag || nowMs - startMs > maxMs then c.(streamActive := false)
    else c.(blocks := c.blocks + [block])
  }

  function Step(c: Capture, e: StreamEvent, startMs: int, maxMs: int): Capture {
    match e
    case BlockArrives(b, t) => OnBlock(c, b, t, startMs, maxMs)
    case StopCalled => c.(stopFlag := true)
    case Sleep => c
  }

  /**
   * `while not self.stop_flag: sd.sleep(100)` with the events that happen
   * meanwhile: the state when the loop sees the flag, or when the events run out.
   */
  function Polled(c: Capture, evs: seq<StreamEvent>, startMs: int, maxMs: int): Capture
    decreases |evs|
  {
    if c.stopFlag || |evs| == 0 then c
    else Polled(Step(c, evs[0], startMs, maxMs), evs[1..], startMs, maxMs)
  }

  /** The buffer only grows: every block kept before is still kept, in the same place. */
  lemma {:induction false} PolledAppendOnly(c: Capture, evs: seq<StreamEvent>, startMs: int, maxMs: int)
    ensures c.blocks <= Polled(c, evs, startMs, maxMs).blocks
    decreases |evs|
  {
    if !c.stopFlag && |evs| > 0 {
      PolledAppendOnly(Step(c, evs[0], startMs, maxMs), evs[1..], startMs, maxMs);
    }
  }

  /** Blocks that all arrive in time before `stop()` are all kept, in arrival order, and the loop then exits. */
  lemma {:induction false} PolledKeepsTimelyBlocks(c: Capture, arrivals: seq<StreamEvent>, rest: seq<StreamEvent>,
                                                   startMs: int, maxMs: int)
    requires c.streamActive && !c.stopFlag
    requires forall k :: 0 <= k < |arrivals| ==> arrivals[k].BlockArrives? && arrivals[k].nowMs - startMs <= maxMs
    ensures var r := Polled(c, arrivals + [StopCalled] + rest, startMs, maxMs);
      r.stopFlag && r.blocks == c.blocks + seq(|arrivals|, k requires 0 <= k < |arrivals| => arrivals[k].block)
    decreases |arrivals|
  {
    var evs := arrivals + [StopCalled] + rest;
    if |arrivals| == 0 {
      assert evs[0] == StopCalled && evs[1..] == rest;
    } else {
      var c' := Step(c, arrivals[0], startMs, maxMs);
      assert c' == c.(blocks := c.blocks + [arrivals[0].block]);
      assert evs[0] == arrivals[0] && evs[1..] == arrivals[1..] + [StopCalled] + rest;
      PolledKeepsTimelyBlocks(c', arrivals[1..], rest, startMs, maxMs);
      var tail := seq(|arrivals| - 1, k requires 0 <= k < |arrivals| - 1 => arrivals[1..][k].block);
      var all := seq(|arrivals|, k requires 0 <= k < |arrivals| => arrivals[k].block);
      assert all == [arrivals[0].block] + tail;
    }
  }

  /** Once the flag is set, the loop ends without looking at any further event. */
  lemma PolledStopsAtFlag(c: Capture, evs: seq<StreamEvent>, startMs: int, maxMs: int)
    requires !c.stopFlag
    ensures Polled(c, [StopCalled] + evs, startMs, maxMs) == c.(stopFlag := true)
  {
    assert ([StopCalled] + evs)[1..] == evs;
  }

  /** What the worker emits. */
  datatype WorkerSignal = Finished(audio: seq<int>) | Error(message: string)

  /** `RecordingWorker`: records on its own thread until `stop()` is called. */
  class RecordingWorker {
    const sampleRate: nat
    const channels: nat
    const chunkSize: nat
    const maxDurationMs: nat
    var stopFlag: bool
    var audioData: seq<Block>
    var streamActive: bool
    var startedAtMs: int
    var emitted: seq<WorkerSignal>

    function State(): Capture
      reads this
    {
      Capture(stopFlag, streamActive, audioData)
    }

    constructor (sampleRate: nat, channels: nat, chunkSize: nat, maxDurationMs: nat)
      ensures this.sampleRate == sampleRate && this.channels == channels
      ensures this.chunkSize == chunkSize && this.maxDurationMs == maxDurationMs
      ensures !stopFlag && audioData == [] && !streamActive && emitted == []
    {
      this.sampleRate := sampleRate;
      this.channels := channels;
      this.chunkSize := chunkSize;
      this.maxDurationMs := maxDurationMs;
      stopFlag := false;
      audioData := [];
      streamActive := false;
      startedAtMs := 0;
      emitted := [];
    }

    /** `stop()`: only raises the flag. */
    method Stop()
      modifies this`stopFlag
      ensures stopFlag
    {
      stopFlag := true;
    }

    /** The stream callback. */
    method OnStreamBlock(block: Block, nowMs: int)
      modifies this`streamActive, this`audioData
      ensures State() == OnBlock(old(State()), block, nowMs, startedAtMs, maxDurationMs)
      ensures old(stopFlag) ==> audioData == old(audioData)
    {
      if !streamActive {
        return;
      }
      if stopFlag || nowMs - startedAtMs > maxDurationMs {
        streamActive := false;
        return;
      }
      audioData := audioData + [block];
    }

    /**
     * `run()`. When the stream cannot be opened the error is emitted. Otherwise
     * the loop polls until `stop()` has been called; `returned` is false when the
     * events run out first (the worker is still polling). On return the stream is
     * closed, and the concatenation is emitted only if some block was kept:
     * with no block, neither `finished` nor `error` is emitted. `closeError` is
     * an exception raised on the way out, when the stream is stopped and closed
     * or the blocks are concatenated: it is emitted as a recording error
     * instead of `finished`.
     */
    method Run(startMs: int, openError: Option<string>, events: seq<StreamEvent>, closeError: Option<string>) returns (returned: bool)
      modifies this
      ensures startedAtMs == startMs
      ensures openError.Some? ==>
        returned && audioData == [] && stopFlag == old(stopFlag)
        && emitted == old(emitted) + [Error("Recording error: " + openError.value)]
      ensures openError.None? ==>
        var c := Polled(Capture(old(stopFlag), true, []), events, startMs, maxDurationMs);
        returned == c.stopFlag && stopFlag == c.stopFlag && audioData == c.blocks
        && streamActive == (c.streamActive && !returned)
        && (!returned ==> emitted == old(emitted))
        && (returned && closeError.Some? ==> emitted == old(emitted) + [Error("Recording error: " + closeError.value)])
        && (returned && closeError.None? ==>
              emitted == old(emitted) + (if c.blocks != [] then [Finished(Concat(c.blocks))] else []))
    {
      audioData := [];
      startedAtMs := startMs;
      if openError.Some? {
        emitted := emitted + [Error("Recording error: " + openError.value)];
        return true;
      }
      streamActive := true;
      ghost var start := State();
      var i := 0;
      while !stopFlag && i < |events|
        invariant 0 <= i <= |events|
        invariant startedAtMs == startMs && emitted == old(emitted)
        invariant Polled(State(), events[i..], startMs, maxDurationMs) == Polled(start, events, startMs, maxDurationMs)
      {
        assert events[i..][1..] == events[i + 1..];
        match events[i] {
          case BlockArrives(b, t) => OnStreamBlock(b, t);
          case StopCalled => Stop();
          case Sleep =>
        }
        i := i + 1;
      }
      returned := stopFlag;
      if returned {
        streamActive := false;
        if closeError.Some? {
          emitted := emitted + [Error("Recording error: " + closeError.value)];
        } else if audioData != [] {
          emitted := emitted + [Finished(Concat(audioData))];
        }
      }
    }
  }

  /** What the service emits. */
  datatype ServiceSignal = RecordingStarted | RecordingFinished(audio: seq<int>) | ErrorOccurred(message: string)

  /** The text of the `NameError` raised by the call to the undefined `save_audio_to_file`. */
  const UNDEFINED_SAVE_ERROR := "name 'save_audio_to_file' is not defined"

  /** `AudioService`. */
  class AudioService {
    var recordingState: RecordingState
    var audioData: Option<seq<Block>>
    const sampleRate: nat
    var worker: RecordingWorker?
    var signals: seq<ServiceSignal>

    /** PROCESSING is declared but never assigned: the service is always STOPPED or RECORDING. */
    ghost predicate Valid()
      reads this
    {
      recordingState != Processing
    }

    constructor ()
      ensures Valid() && recordingState == Stopped && audioData == None
      ensures sampleRate == SAMPLE_RATE && worker == null && signals == []
    {
      recordingState := Stopped;
      audioData := None;
      sampleRate := SAMPLE_RATE;
      worker := null;
      signals := [];
    }

    /**
     * `start_recording()`: refused unless STOPPED. Otherwise the state becomes
     * RECORDING and the buffer empty before the thread and a fresh worker are
     * set up; a failure in that setup (`setupError`) restores STOPPED.
     */
    method StartRecording(setupError: Option<string>) returns (started: bool)
      requires Valid()
      modifies this
      ensures Valid()
      ensures old(recordingState) != Stopped ==>
        !started && recordingState == old(recordingState) && audioData == old(audioData)
        && worker == old(worker) && signals == old(signals)
      ensures old(recordingState) == Stopped && setupError.Some? ==>
        !started && recordingState == Stopped && audioData == Some([]) && worker == old(worker)
        && signals == old(signals) + [ErrorOccurred("Failed to start recording: " + setupError.value)]
      ensures old(recordingState) == Stopped && setupError.None? ==>
        started && recordingState == Recording && audioData == Some([])
        && worker != null && fresh(worker) && !worker.stopFlag && worker.audioData == []
        && worker.sampleRate == sampleRate && worker.channels == 1
        && worker.chunkSize == CHUNK_SIZE && worker.maxDurationMs == MAX_RECORDING_DURATION_MS
        && signals == old(signals) + [RecordingStarted]
    {
      if recordingState != Stopped {
        return false;
      }
      recordingState := Recording;
      audioData := Some([]);
      if setupError.Some? {
        recordingState := Stopped;
        signals := signals + [ErrorOccurred("Failed to start recording: " + setupError.value)];
        return false;
      }
      worker := new RecordingWorker(sampleRate, 1, CHUNK_SIZE, MAX_RECORDING_DURATION_MS);
      signals := signals + [RecordingStarted];
      started := true;
    }

    /**
     * `stop_recording()`: refused unless RECORDING, so a repeated stop is a
     * no-op. Otherwise the worker is told to stop and the state becomes STOPPED;
     * a failure while waiting for the thread (`stopError`) is reported instead.
     */
    method StopRecording(stopError: Option<string>) returns (stopped: bool)
      requires Valid()
      modifies this, worker
      ensures Valid() && worker == old(worker) && audioData == old(audioData)
      ensures old(recordingState) != Recording ==>
        !stopped && recordingState == old(recordingState) && signals == old(signals)
        && (worker != null ==> worker.stopFlag == old(worker.stopFlag))
      ensures old(recordingState) == Recording ==> (worker != null ==> worker.stopFlag)
      ensures old(recordingState) == Recording && stopError.None? ==>
        stopped && recordingState == Stopped && signals == old(signals)
      ensures old(recordingState) == Recording && stopError.Some? ==>
        !stopped && recordingState == Recording
        && signals == old(signals) + [ErrorOccurred("Error stopping recording: " + stopError.value)]
    {
      if recordingState != Recording {
        return false;
      }
      if worker != null {
        worker.Stop();
      }
      if stopError.Some? {
        signals := signals + [ErrorOccurred("Error stopping recording: " + stopError.value)];
        return false;
      }
      recordingState := Stopped;
      stopped := true;
    }

    /** `_on_recording_finished`: STOPPED, and the audio kept as a one-element list. */
    method OnRecordingFinished(audio: seq<int>)
      modifies this`recordingState, this`audioData, this`signals
      ensures Valid() && recordingState == Stopped && audioData == Some([audio])
      ensures signals == old(signals) + [RecordingFinished(audio)]
    {
      recordingState := Stopped;
      audioData := Some([audio]);
      signals := signals + [RecordingFinished(audio)];
    }

    /** `_on_recording_error`: STOPPED, and the message passed on. */
    method OnRecordingError(message: string)
      modifies this`recordingState, this`signals
      ensures Valid() && recordingState == Stopped
      ensures signals == old(signals) + [ErrorOccurred(message)]
    {
      recordingState := Stopped;
      signals := signals + [ErrorOccurred(message)];
    }

    /**
     * `save_recording()` as written: with no audio it returns False; with audio
     * the call to the never-imported `save_audio_to_file` raises `NameError`,
     * which is reported, and it returns False all the same.
     */
    method SaveRecordingAsWritten(filePath: string, format: string) returns (saved: bool)
      modifies this`signals
      ensures !saved
      ensures audioData.None? || audioData == Some([]) ==> signals == old(signals)
      ensures audioData.Some? && audioData != Some([]) ==>
        signals == old(signals) + [ErrorOccurred("Failed to save audio: " + UNDEFINED_SAVE_ERROR)]
    {
      if audioData.None? || audioData.value == [] {
        return false;
      }
      signals := signals + [ErrorOccurred("Failed to save audio: " + UNDEFINED_SAVE_ERROR)];
      saved := false;
    }

    /**
     * `save_recording()` calling the imported `save_audio(file_path, audio,
     * sample_rate, format)`, whose own result (`writeSucceeds`) is the answer;
     * `save_audio` reports its failures by returning False.
     */
    method SaveRecording(filePath: string, format: string, writeSucceeds: bool) returns (saved: bool)
      ensures saved <==> audioData.Some? && audioData != Some([]) && writeSucceeds
    {
      if audioData.None? || audioData.value == [] {
        return false;
      }
      saved := writeSucceeds;
    }
  }
}
