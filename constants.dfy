/** Application-wide constants and the recording state enumeration. */
module Constants {

  /** `RecordingState`: STOPPED = 0, RECORDING = 1, PROCESSING = 2. */
  datatype RecordingState = Stopped | Recording | Processing

  /** Audio sample rate in Hz. */
  const SAMPLE_RATE: nat := 16000

  /** Samples per audio block handed to the stream callback. */
  const CHUNK_SIZE: nat := 1024

  /** Maximum recording length: 15 minutes, in milliseconds. */
  const MAX_RECORDING_DURATION_MS: nat := 900_000
}
