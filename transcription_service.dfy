/**
 * The transcription service (`TranscriptionService`): a single-flight gate
 * around loading the speech model, and a worker per request that joins the
 * recognised segments and honours a cooperative stop flag.
 *
 * The speech model is opaque: a loaded model is a handle, and what the model
 * recognises is an input (`Result` of segment texts).
 */
module TranscriptionService {
  import opened Wrappers
  import opened Strings

  /** A loaded speech model. */
  type ModelHandle = nat

  /** What a worker emits. */
  datatype WorkerSignal = TranscriptionReady(text: string) | WorkerError(message: string) | Finished

  /** `" ".join(segment.text for segment in segments).strip()`. */
  function TranscriptText(segments: seq<string>): (r: string)
    ensures |r| > 0 ==> !IsSpace(r[0]) && !IsSpace(r[|r| - 1])
  {
    Strip(Join(segments, " "))
  }

  /** A single segment that is already trimmed comes back as it is. */
  lemma TranscriptTextSingle(segment: string)
    requires Strip(segment) == segment
    ensures TranscriptText([segment]) == segment
  {
  }

  /** Segments are separated by exactly one space. */
  lemma TranscriptTextPair(a: string, b: string)
    requires |a| > 0 && |b| > 0 && !IsSpace(a[0]) && !IsSpace(b[|b| - 1])
    ensures TranscriptText([a, b]) == a + " " + b
  {
    var j := a + " " + b;
    assert Join([a, b], " ") == j by {
      assert [a, b][1..] == [b];
    }
    assert j[0] == a[0] && j[|j| - 1] == b[|b| - 1];
    StripOfStripped(j);
  }

  /** `TranscriptionWorker`: one transcription on its own thread. */
  class TranscriptionWorker {
    const modelName: string
    const audioData: seq<int>
    const sampleRate: nat
    var shouldStop: bool
    var emitted: seq<WorkerSignal>

    constructor (modelName: string, audioData: seq<int>, sampleRate: nat)
      ensures this.modelName == modelName && this.audioData == audioData && this.sampleRate == sampleRate
      ensures !shouldStop && emitted == []
    {
      this.modelName := modelName;
      this.audioData := audioData;
      this.sampleRate := sampleRate;
      shouldStop := false;
      emitted := [];
    }

    /** `request_stop()`: only raises the flag. */
    method RequestStop()
      modifies this`shouldStop
      ensures shouldStop
    {
      shouldStop := true;
    }

    /**
     * `run()`. `recognised` is what the model returns, or the failure it raises;
     * `stopRequested` says whether `request_stop()` ran while the model worked.
     * The flag is checked once, after recognition: a stopped run emits no text.
     * Whatever happens, `finished` is emitted last, exactly once.
     */
    method Run(recognised: Result<seq<string>>, stopRequested: bool)
      modifies this
      ensures shouldStop == (old(shouldStop) || stopRequested)
      ensures recognised.Err? ==>
        emitted == old(emitted) + [WorkerError("Transcription failed: " + recognised.error), Finished]
      ensures recognised.Ok? && shouldStop ==> emitted == old(emitted) + [Finished]
      ensures recognised.Ok? && !shouldStop ==>
        emitted == old(emitted) + [TranscriptionReady(TranscriptText(recognised.value)), Finished]
    {
      if stopRequested {
        RequestStop();
      }
      if recognised.Err? {
        emitted := emitted + [WorkerError("Transcription failed: " + recognised.error)];
      } else {
        var text := Join(recognised.value, " ");
        if !shouldStop {
          emitted := emitted + [TranscriptionReady(Strip(text))];
        }
      }
      emitted := emitted + [Finished];
    }
  }

  /** What the service emits. */
  datatype ServiceSignal =
    | ModelLoaded
    | TranscriptionStarted
    | TranscriptionFinished(text: string)
    | ErrorOccurred(message: string)

  const NOT_LOADED_MESSAGE := "Whisper model is not loaded"

  /** `TranscriptionService`. */
  class TranscriptionService {
    const modelName: string
    var model: Option<ModelHandle>
    var loading: bool
    /** How many model loads have been started. */
    var loadsStarted: nat
    var worker: TranscriptionWorker?
    var signals: seq<ServiceSignal>

    /** A load is in flight only while no model is held. */
    ghost predicate Valid()
      reads this
    {
      loading ==> model.None?
    }

    /** `__init__`: starts the one and only model load. */
    constructor (modelName: string)
      ensures Valid() && this.modelName == modelName
      ensures model.None? && loading && loadsStarted == 1 && worker == null && signals == []
    {
      this.modelName := modelName;
      model := None;
      loading := false;
      loadsStarted := 0;
      worker := null;
      signals := [];
      new;
      LoadModel();
    }

    /** `_load_model()`: starts a load only when none is in flight and no model is held. */
    method LoadModel()
      requires Valid()
      modifies this`loading, this`loadsStarted
      ensures Valid()
      ensures old(loading) || old(model).Some? ==> loading == old(loading) && loadsStarted == old(loadsStarted)
      ensures !old(loading) && old(model).None? ==> loading && loadsStarted == old(loadsStarted) + 1
    {
      if loading || model.Some? {
        return;
      }
      loading := true;
      loadsStarted := loadsStarted + 1;
    }

    /**
     * `transcribe_audio()`: rejected only when no model is held and none is
     * loading; otherwise a new worker replaces any previous one (there is no
     * busy check) and `transcription_started` is emitted.
     */
    method TranscribeAudio(audio: seq<int>, sampleRate: nat)
      requires Valid()
      modifies this`worker, this`signals
      ensures Valid()
      ensures model.None? && !loading ==>
        worker == old(worker) && signals == old(signals) + [ErrorOccurred(NOT_LOADED_MESSAGE)]
      ensures model.Some? || loading ==>
        worker != null && fresh(worker) && worker.audioData == audio && worker.sampleRate == sampleRate
        && worker.modelName == modelName && !worker.shouldStop && worker.emitted == []
        && signals == old(signals) + [TranscriptionStarted]
    {
      if model.None? && !loading {
        signals := signals + [ErrorOccurred(NOT_LOADED_MESSAGE)];
        return;
      }
      worker := new TranscriptionWorker(modelName, audio, sampleRate);
      signals := signals + [TranscriptionStarted];
    }

    /** `_on_model_loaded`: the model is held and the load is over. */
    method OnModelLoaded(m: ModelHandle)
      modifies this`model, this`loading, this`signals
      ensures Valid() && model == Some(m) && !loading
      ensures signals == old(signals) + [ModelLoaded]
    {
      model := Some(m);
      loading := false;
      signals := signals + [ModelLoaded];
    }

    /** `_on_model_error`: the load is over and no model is held; nothing retries. */
    method OnModelError(message: string)
      requires Valid()
      modifies this`loading, this`signals
      ensures Valid() && !loading && model == old(model)
      ensures signals == old(signals) + [ErrorOccurred("Failed to load Whisper model: " + message)]
    {
      loading := false;
      signals := signals + [ErrorOccurred("Failed to load Whisper model: " + message)];
    }

    /** `_on_transcription_ready`: passes the text on. */
    method OnTranscriptionReady(text: string)
      modifies this`signals
      ensures signals == old(signals) + [TranscriptionFinished(text)]
    {
      signals := signals + [TranscriptionFinished(text)];
    }

    /** `_on_transcription_error`: the worker's message gains a second "Transcription failed: " prefix. */
    method OnTranscriptionError(message: string)
      modifies this`signals
      ensures signals == old(signals) + [ErrorOccurred("Transcription failed: " + message)]
    {
      signals := signals + [ErrorOccurred("Transcription failed: " + message)];
    }
  }

  /**
   * A service whose first load fails stays without a model: the constructor is
   * the only caller of `_load_model`, so every later request is rejected.
   */
  method FailedLoadIsNeverRetried(modelName: string, failure: string, audio: seq<int>, sampleRate: nat)
    returns (loadsStarted: nat, last: ServiceSignal)
    ensures loadsStarted == 1 && last == ErrorOccurred(NOT_LOADED_MESSAGE)
  {
    var service := new TranscriptionService(modelName);
    service.OnModelError(failure);
    service.TranscribeAudio(audio, sampleRate);
    service.TranscribeAudio(audio, sampleRate);
    loadsStarted := service.loadsStarted;
    last := service.signals[|service.signals| - 1];
  }

  /** While the first load is still in flight, a request is accepted and gets a worker. */
  method RequestDuringLoadIsAccepted(modelName: string, audio: seq<int>, sampleRate: nat)
    returns (last: ServiceSignal, hasWorker: bool)
    ensures last == TranscriptionStarted && hasWorker
  {
    var service := new TranscriptionService(modelName);
    service.TranscribeAudio(audio, sampleRate);
    last := service.signals[|service.signals| - 1];
    hasWorker := service.worker != null;
  }
}
