/**
 * The current client, built on `useReactMediaRecorder`. Besides its `useState` fields it holds a ref to the hidden
 * `<audio>` element, whose playback position `handleRecording` rewinds. `isRecording` belongs to the recorder hook:
 * here it is a field that `startRecording` and `stopRecording` switch. As in the first client, each async submit
 * handler is split at its `await`, and nothing stops a second submit while the first is loading.
 */
module RecorderClient {
  import opened Base
  import opened JsonValue
  import opened Http

  const NoAudioRecorded := "No audio recorded. Please record again."
  const SendMessageFailed := "Failed to send message. Please try again."
  const SendAudioFailed := "Failed to send audio. Please try again."
  const RecordingErrorPrefix := "Recording error: "

  /** The error object the recorder hook reports. */
  datatype RecorderError = RecorderError(message: string)

  /** The hidden `<audio>` element: whether it is paused, and its playback position in seconds. */
  class AudioElement {
    var paused: bool
    var currentTime: real

    constructor ()
      ensures paused && currentTime == 0.0
    {
      paused := true;
      currentTime := 0.0;
    }

    method Play()
      modifies this
      ensures !paused && currentTime == old(currentTime)
    {
      paused := false;
    }

    method Pause()
      modifies this
      ensures paused && currentTime == old(currentTime)
    {
      paused := true;
    }
  }

  /** A snapshot of the component's state; `audio` is `audioRef.current`. */
  datatype View = View(
    input: string,
    prescription: Option<Json>,
    error: Option<Json>,
    isLoading: bool,
    isPlaying: bool,
    audioBlob: Option<Blob>,
    isRecording: bool,
    audio: AudioElement?)

  /** The JSON body `handleTextSubmit` posts to /chat. */
  function TextRequest(input: string): (body: Json)
    ensures Member(body, "text") == Some(JStr(input))
    ensures body.JObj? && body.fields.Keys == {"text"}
  {
    JObj(map["text" := JStr(input)])
  }

  /** The multipart form `handleAudioSubmit` posts to /transcribe: the recording under the field name `audio`. */
  function AudioForm(blob: Blob): (form: map<string, FilePart>)
    ensures form.Keys == {"audio"} && "file" !in form
    ensures form["audio"].content == blob && form["audio"].filename == "recording.wav"
  {
    map["audio" := FilePart(blob, "recording.wav")]
  }

  /**
   * `handleRecording`. While recording it only stops, keeping the recording. Otherwise it starts and drops the
   * previous recording. Neither branch touches `isPlaying`.
   */
  function RecordingPressed(v: View): (w: View)
    ensures w.isRecording != v.isRecording
    ensures v.isRecording ==> w.audioBlob == v.audioBlob
    ensures !v.isRecording ==> w.audioBlob.None?
    ensures w.isPlaying == v.isPlaying && w.audio == v.audio && w.isLoading == v.isLoading
  {
    if v.isRecording then v.(isRecording := false)
    else v.(isRecording := true, audioBlob := None)
  }

  /** `handlePlayback`: with an audio element, `isPlaying` is negated; without one nothing happens. */
  function PlaybackToggled(v: View): (w: View)
    ensures v.audio != null ==> w.isPlaying != v.isPlaying
    ensures v.audio == null ==> w == v
    ensures w.audioBlob == v.audioBlob && w.isRecording == v.isRecording && w.audio == v.audio
  {
    if v.audio != null then v.(isPlaying := !v.isPlaying) else v
  }

  /** The recorder's `onStop`: a blob it delivers becomes the recording. */
  function Stopped(v: View, blob: Option<Blob>): (w: View)
    ensures blob.Some? ==> w.audioBlob == blob
    ensures blob.None? ==> w == v
    ensures w.isPlaying == v.isPlaying && w.isRecording == v.isRecording && w.error == v.error
  {
    if blob.Some? then v.(audioBlob := blob) else v
  }

  /**
   * The recorder reporting an error, and the effect that shows it. A start that fails never reaches the hook's
   * recording status, so `isRecording` is false afterwards and the next press starts again. The effect shows the
   * error with the "Recording error: " prefix.
   */
  function RecorderFailed(v: View, recorderError: Option<RecorderError>): (w: View)
    ensures recorderError.Some? ==> w.error == Some(JStr(RecordingErrorPrefix + recorderError.value.message))
    ensures recorderError.Some? ==> !w.isRecording
    ensures recorderError.None? ==> w == v
    ensures w.prescription == v.prescription && w.audioBlob == v.audioBlob && w.isLoading == v.isLoading
  {
    if recorderError.Some? then
      v.(error := Some(JStr(RecordingErrorPrefix + recorderError.value.message)), isRecording := false)
    else v
  }

  /** `handleTextSubmit` before the await: the error is cleared and loading starts, whatever the state. */
  function TextSubmitStarted(v: View): (w: View)
    ensures w.isLoading && w.error.None?
    ensures w.input == v.input && w.prescription == v.prescription && w.audioBlob == v.audioBlob
  {
    v.(error := None, isLoading := true)
  }

  /**
   * `handleTextSubmit` after the await. Only an error-free reply sets the prescription and clears the input;
   * an `error` in the reply or a failed request sets the error and leaves both alone; loading always ends.
   */
  function TextSubmitSettled(v: View, reply: Reply): (w: View)
    ensures !w.isLoading
    ensures reply.Ok? ==> w.prescription == reply.payload && w.input == "" && w.error == v.error
    ensures !reply.Ok? ==> w.prescription == v.prescription && w.input == v.input
    ensures reply.OkWithError? ==> w.error == Some(reply.message)
    ensures reply.TransportFailure? ==> w.error == Some(JStr(SendMessageFailed))
    ensures w.audioBlob == v.audioBlob && w.isRecording == v.isRecording && w.isPlaying == v.isPlaying
  {
    match reply
    case OkWithError(message) => v.(error := Some(message), isLoading := false)
    case Ok(payload) => v.(prescription := payload, input := "", isLoading := false)
    case TransportFailure => v.(error := Some(JStr(SendMessageFailed)), isLoading := false)
  }

  /**
   * `handleAudioSubmit` before the await. Without a recording it sets the "No audio recorded" error and returns:
   * no request, and `isLoading` untouched. Otherwise loading starts and the error is cleared.
   */
  function AudioSubmitStarted(v: View): (w: View)
    ensures v.audioBlob.None? ==> w.error == Some(JStr(NoAudioRecorded)) && w.isLoading == v.isLoading
    ensures v.audioBlob.Some? ==> w.isLoading && w.error.None?
    ensures w.audioBlob == v.audioBlob && w.prescription == v.prescription && w.input == v.input
  {
    if v.audioBlob.None? then v.(error := Some(JStr(NoAudioRecorded)))
    else v.(isLoading := true, error := None)
  }

  /** `handleAudioSubmit` after the await: as for text, but the input is never touched and nor is the recording. */
  function AudioSubmitSettled(v: View, reply: Reply): (w: View)
    ensures !w.isLoading
    ensures reply.Ok? ==> w.prescription == reply.payload && w.error == v.error
    ensures !reply.Ok? ==> w.prescription == v.prescription
    ensures reply.OkWithError? ==> w.error == Some(reply.message)
    ensures reply.TransportFailure? ==> w.error == Some(JStr(SendAudioFailed))
    ensures w.audioBlob == v.audioBlob && w.input == v.input && w.isRecording == v.isRecording
  {
    match reply
    case OkWithError(message) => v.(error := Some(message), isLoading := false)
    case Ok(payload) => v.(prescription := payload, isLoading := false)
    case TransportFailure => v.(error := Some(JStr(SendAudioFailed)), isLoading := false)
  }

  /** The component. Its fields are the `useState` pairs, the hook's `isRecording` and the audio ref. */
  class App {
    var input: string
    var prescription: Option<Json>
    var error: Option<Json>
    var isLoading: bool
    var isPlaying: bool
    var audioBlob: Option<Blob>
    var isRecording: bool
    var audio: AudioElement?

    function State(): View
      reads this
    {
      View(input, prescription, error, isLoading, isPlaying, audioBlob, isRecording, audio)
    }

    /** The initial values of the `useState` calls, an idle recorder and an empty ref. */
    constructor ()
      ensures State() == View("", None, None, false, false, None, false, null)
    {
      input := "";
      prescription := None;
      error := None;
      isLoading := false;
      isPlaying := false;
      audioBlob := None;
      isRecording := false;
      audio := null;
    }

    /** The text box's `onChange`. */
    method EditInput(text: string)
      modifies this
      ensures State() == old(State()).(input := text)
    {
      input := text;
    }

    /** React setting `audioRef.current` as the `<audio>` element mounts (an element) or unmounts (null). */
    method AttachAudio(element: AudioElement?)
      modifies this
      ensures State() == old(State()).(audio := element)
    {
      audio := element;
    }

    /**
     * `handleRecording`. Starting also pauses the audio element, if there is one, and rewinds it to time 0;
     * stopping leaves the element alone.
     */
    method HandleRecording()
      modifies this, audio
      ensures State() == RecordingPressed(old(State()))
      ensures audio != null && !old(isRecording) ==> audio.paused && audio.currentTime == 0.0
      ensures audio != null && old(isRecording) ==>
        audio.paused == old(audio.paused) && audio.currentTime == old(audio.currentTime)
    {
      if isRecording {
        isRecording := false;
      } else {
        isRecording := true;
        audioBlob := None;
        if audio != null {
          audio.Pause();
          audio.currentTime := 0.0;
        }
      }
    }

    /** `handlePlayback`: pauses a playing element or plays a paused one, then negates `isPlaying`. */
    method HandlePlayback()
      modifies this, audio
      ensures State() == PlaybackToggled(old(State()))
      ensures audio != null ==> audio.paused == old(isPlaying) && audio.currentTime == old(audio.currentTime)
    {
      if audio != null {
        if isPlaying {
          audio.Pause();
        } else {
          audio.Play();
        }
        isPlaying := !isPlaying;
      }
    }

    /** The element's `onEnded`. */
    method OnEnded()
      modifies this
      ensures State() == old(State()).(isPlaying := false)
    {
      isPlaying := false;
    }

    /** The recorder's `onStop` with the blob it delivers, if any. */
    method OnStop(blob: Option<Blob>)
      modifies this
      ensures State() == Stopped(old(State()), blob)
    {
      if blob.Some? {
        audioBlob := blob;
      }
    }

    /** The recorder reporting an error, followed by the effect that runs when the error changes. */
    method OnRecorderError(recorderError: Option<RecorderError>)
      modifies this
      ensures State() == RecorderFailed(old(State()), recorderError)
    {
      if recorderError.Some? {
        isRecording := false;
        error := Some(JStr(RecordingErrorPrefix + recorderError.value.message));
      }
    }

    /** `handleTextSubmit` up to the request: clears the error, starts loading, and returns the body it posts. */
    method BeginTextSubmit() returns (request: Json)
      modifies this
      ensures State() == TextSubmitStarted(old(State()))
      ensures request == TextRequest(old(input))
    {
      request := TextRequest(input);
      error := None;
      isLoading := true;
    }

    /** `handleTextSubmit` once the request has settled, including its `finally`. */
    method SettleTextSubmit(reply: Reply)
      modifies this
      ensures State() == TextSubmitSettled(old(State()), reply)
    {
      match reply {
        case OkWithError(message) =>
          error := Some(message);
        case Ok(payload) =>
          prescription := payload;
          input := "";
        case TransportFailure =>
          error := Some(JStr(SendMessageFailed));
      }
      isLoading := false;
    }

    /**
     * `handleAudioSubmit` up to the request. Returns the form it posts, or None when the guard returns early
     * without a request.
     */
    method BeginAudioSubmit() returns (form: Option<map<string, FilePart>>)
      modifies this
      ensures State() == AudioSubmitStarted(old(State()))
      ensures form.None? <==> old(audioBlob).None?
      ensures form.Some? ==> form.value == AudioForm(old(audioBlob).value)
    {
      if audioBlob.None? {
        error := Some(JStr(NoAudioRecorded));
        return None;
      }
      isLoading := true;
      error := None;
      form := Some(AudioForm(audioBlob.value));
    }

    /** `handleAudioSubmit` once the request has settled, including its `finally`. */
    method SettleAudioSubmit(reply: Reply)
      modifies this
      ensures State() == AudioSubmitSettled(old(State()), reply)
    {
      match reply {
        case OkWithError(message) =>
          error := Some(message);
        case Ok(payload) =>
          prescription := payload;
        case TransportFailure =>
          error := Some(JStr(SendAudioFailed));
      }
      isLoading := false;
    }
  }

  /** Two presses of the playback button restore `isPlaying`. */
  lemma PlaybackTwiceRestores(v: View)
    ensures PlaybackToggled(PlaybackToggled(v)) == v
  {
  }

  /** Stopping keeps the recording; a press that starts recording followed by one that stops it leaves none. */
  lemma RecordingRoundTrip(v: View)
    ensures v.isRecording ==> RecordingPressed(v).audioBlob == v.audioBlob
    ensures !v.isRecording ==> RecordingPressed(RecordingPressed(v)) == v.(audioBlob := None)
  {
  }

  /**
   * A start that the recorder refuses leaves the component not recording, with the error shown; the next press
   * starts recording again instead of stopping.
   */
  lemma FailedStartRetries(v: View, e: RecorderError)
    requires !v.isRecording
    ensures var w := RecorderFailed(RecordingPressed(v), Some(e));
      && !w.isRecording && w.error == Some(JStr(RecordingErrorPrefix + e.message))
      && RecordingPressed(w).isRecording && RecordingPressed(w).audioBlob.None?
  {
  }

  /**
   * A whole text submission: loading always ends, and the error is clear afterwards exactly when the reply
   * was error-free.
   */
  lemma TextSubmission(v: View, reply: Reply)
    ensures !TextSubmitSettled(TextSubmitStarted(v), reply).isLoading
    ensures TextSubmitSettled(TextSubmitStarted(v), reply).error.None? <==> reply.Ok?
  {
  }

  /**
   * A whole audio submission: with a recording, loading ends and the error is clear exactly when the reply was
   * error-free; the recording is kept on every path, so it can be submitted again.
   */
  lemma AudioSubmission(v: View, reply: Reply)
    requires v.audioBlob.Some?
    ensures !AudioSubmitSettled(AudioSubmitStarted(v), reply).isLoading
    ensures AudioSubmitSettled(AudioSubmitStarted(v), reply).error.None? <==> reply.Ok?
    ensures AudioSubmitSettled(AudioSubmitStarted(v), reply).audioBlob == v.audioBlob
  {
  }
}
