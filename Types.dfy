/** The records and the enumeration shared by the player's components
    (types.ts), plus the two stock wrapper datatypes the model uses for
    optional values and for calls that can fail. */
module Types {

  datatype Option<+T> = None | Some(value: T)

  /** The outcome of a call that can throw: a value, or the message of the
      error it threw. */
  datatype Result<+T> = Ok(value: T) | Err(message: string)

  /** An object URL handed out by `URL.createObjectURL`. The model only needs
      handles to be told apart, so a handle is the serial number of the call
      that created it. */
  datatype ObjectUrl = ObjectUrl(id: nat)

  /** One playlist entry (`VideoState`): the object URL of the file, its
      display name and its MIME type. */
  datatype VideoState = VideoState(url: ObjectUrl, name: string, kind: string)

  /** The transport state the player keeps for its controls (`PlayerState`).
      Times are in seconds and the volume is a fraction of full scale. */
  datatype PlayerState = PlayerState(
    isPlaying: bool,
    volume: real,
    currentTime: real,
    duration: real,
    isMuted: bool,
    isFullscreen: bool,
    playbackRate: real)

  /** The progress of a frame analysis (`GeminiStatus`). */
  datatype GeminiStatus = Idle | Analyzing | Success | Error

  /** The text shown in the analysis overlay and the media time it is about. */
  datatype AnalysisResult = AnalysisResult(text: string, timestamp: real)
}
