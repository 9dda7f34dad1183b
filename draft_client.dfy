/**
 * The first client, built on ReactMic: one component whose `useState` fields are changed by event handlers.
 * Each `await` in an async handler is an event boundary, so a submit handler is two methods: the part before
 * the request is sent, and the part that runs once the request has settled (its `try` tail, `catch` and `finally`).
 * Nothing stops a second submit while the first is loading, and the model adds no such guard.
 */
module DraftClient {
  import opened Base
  import opened JsonValue
  import opened Http

  const NoAudioRecorded := "No audio recorded. Please record again."
  const SendMessageFailed := "Failed to send message. Please try again."
  const SendAudioFailed := "Failed to send audio. Please try again."
  const MicrophoneRefused := "Could not access microphone: "

  /** What ReactMic hands to `onStop`: an object whose `blob` is the recording. Its timing fields are not read. */
  datatype MicRecording = MicRecording(blob: Blob)

  /** A browser MediaRecorder; `stop()` is the only call the modelled handlers make on it. */
  class Recorder {
    var stopped: bool

    constructor ()
      ensures !stopped
    {
      stopped := false;
    }

    method Stop()
      modifies this
      ensures stopped
    {
      stopped := true;
    }
  }

  /** A snapshot of the component's state fields. */
  datatype View = View(
    input: string,
    prescription: Option<Json>,
    error: Option<Json>,
    isLoading: bool,
    isRecording: bool,
    audioBlob: Option<MicRecording>,
    isPlaying: bool,
    mediaRecorder: Recorder?)

  /** The JSON body `handleTextSubmit` posts to /chat. */
  function TextRequest(input: string): (body: Json)
    ensures Member(body, "text") == Some(JStr(input))
    ensures body.JObj? && body.fields.Keys == {"text"}
  {
    JObj(map["text" := JStr(input)])
  }

  /** The multipart form `handleAudioSubmit` posts to /transcribe: the recording under `file`. */
  function AudioForm(recording: MicRecording): (form: map<string, FilePart>)
    ensures form.Keys == {"file"}
    ensures form["file"].content == recording.blob && form["file"].filename == "recording.wav"
  {
    map["file" := FilePart(recording.blob, "recording.wav")]
  }

  /** `handleTextSubmit` before the await: the error is cleared and loading starts, whatever the state. */
  function TextSubmitStarted(v: View): (w: View)
    ensures w.isLoading && w.error.None?
    ensures w.input == v.input && w.prescription == v.prescription && w.audioBlob == v.audioBlob
  {
    v.(error := None, isLoading := true)
  }

  /**
   * `handleTextSubmit` after the await. Only an error-free reply sets the prescription and clears the input;
   * an `error` in the reply or a failed request sets the error and leaves both alone; loading always ends.
   */
  function TextSubmitSettled(v: View, reply: Reply): (w: View)
    ensures !w.isLoading
    ensures reply.Ok? ==> w.prescription == reply.payload && w.input == "" && w.error == v.error
    ensures !reply.Ok? ==> w.prescription == v.prescription && w.input == v.input
    ensures reply.OkWithError? ==> w.error == Some(reply.message)
    ensures reply.TransportFailure? ==> w.error == Some(JStr(SendMessageFailed))
    ensures w.audioBlob == v.audioBlob && w.isRecording == v.isRecording && w.isPlaying == v.isPlaying
  {
    match reply
    case OkWithError(message) => v.(error := Some(message), isLoading := false)
    case Ok(payload) => v.(prescription := payload, input := "", isLoading := false)
    case TransportFailure => v.(error := Some(JStr(SendMessageFailed)), isLoading := false)
  }

  /**
   * `handleAudioSubmit` before the await. Without a recording it sets the "No audio recorded" error and returns:
   * no request, and `isLoading` untouched. Otherwise loading starts and the error is cleared.
   */
  function AudioSubmitStarted(v: View): (w: View)
    ensures v.audioBlob.None? ==> w.error == Some(JStr(NoAudioRecorded)) && w.isLoading == v.isLoading
    ensures v.audioBlob.Some? ==> w.isLoading && w.error.None?
    ensures w.audioBlob == v.audioBlob && w.prescription == v.prescription && w.input == v.input
  {
    if v.audioBlob.None? then v.(error := Some(JStr(NoAudioRecorded)))
    else v.(isLoading := true, error := None)
  }

  /** `handleAudioSubmit` after the await: as for text, but the input is never touched and nor is the recording. */
  function AudioSubmitSettled(v: View, reply: Reply): (w: View)
    ensures !w.isLoading
    ensures reply.Ok? ==> w.prescription == reply.payload && w.error == v.error
    ensures !reply.Ok? ==> w.prescription == v.prescription
    ensures reply.OkWithError? ==> w.error == Some(reply.message)
    ensures reply.TransportFailure? ==> w.error == Some(JStr(SendAudioFailed))
    ensures w.audioBlob == v.audioBlob && w.input == v.input && w.isRecording == v.isRecording
  {
    match reply
    case OkWithError(message) => v.(error := Some(message), isLoading := false)
    case Ok(payload) => v.(prescription := payload, isLoading := false)
    case TransportFailure => v.(error := Some(JStr(SendAudioFailed)), isLoading := false)
  }

  /** `handleRecording`: the button negates `isRecording`, which ReactMic's `record` prop follows. */
  function RecordingToggled(v: View): (w: View)
    ensures w.isRecording != v.isRecording
    ensures w.audioBlob == v.audioBlob && w.isPlaying == v.isPlaying && w.isLoading == v.isLoading
  {
    v.(isRecording := !v.isRecording)
  }

  /** `handlePlayback`: without a recording nothing happens; otherwise playback starts. */
  function PlaybackStarted(v: View): (w: View)
    ensures v.audioBlob.None? ==> w == v
    ensures v.audioBlob.Some? ==> w.isPlaying
    ensures w.audioBlob == v.audioBlob && w.isRecording == v.isRecording && w.isLoading == v.isLoading
  {
    if v.audioBlob.Some? then v.(isPlaying := true) else v
  }

  /** `stopRecording`: without a recorder nothing happens; otherwise recording stops. */
  function RecordingStopped(v: View): (w: View)
    ensures v.mediaRecorder == null ==> w == v
    ensures v.mediaRecorder != null ==> !w.isRecording
    ensures w.audioBlob == v.audioBlob && w.isPlaying == v.isPlaying && w.mediaRecorder == v.mediaRecorder
  {
    if v.mediaRecorder != null then v.(isRecording := false) else v
  }

  /** The component. Its fields are the `useState` pairs of the source. */
  class App {
    var input: string
    var prescription: Option<Json>
    var error: Option<Json>
    var isLoading: bool
    var isRecording: bool
    var audioBlob: Option<MicRecording>
    var isPlaying: bool
    var mediaRecorder: Recorder?

    function State(): View
      reads this
    {
      View(input, prescription, error, isLoading, isRecording, audioBlob, isPlaying, mediaRecorder)
    }

    /** The initial values of the `useState` calls. */
    constructor ()
      ensures State() == View("", None, None, false, false, None, false, null)
    {
      input := "";
      prescription := None;
      error := None;
      isLoading := false;
      isRecording := false;
      audioBlob := None;
      isPlaying := false;
      mediaRecorder := null;
    }

    /** The text box's `onChange`. */
    method EditInput(text: string)
      modifies this
      ensures State() == old(State()).(input := text)
    {
      input := text;
    }

    /** `handleTextSubmit` up to the request: clears the error, starts loading, and returns the body it posts. */
    method BeginTextSubmit() returns (request: Json)
      modifies this
      ensures State() == TextSubmitStarted(old(State()))
      ensures request == TextRequest(old(input))
    {
      request := TextRequest(input);
      error := None;
      isLoading := true;
    }

    /** `handleTextSubmit` once the request has settled, including its `finally`. */
    method SettleTextSubmit(reply: Reply)
      modifies this
      ensures State() == TextSubmitSettled(old(State()), reply)
    {
      match reply {
        case OkWithError(message) =>
          error := Some(message);
        case Ok(payload) =>
          prescription := payload;
          input := "";
        case TransportFailure =>
          error := Some(JStr(SendMessageFailed));
      }
      isLoading := false;
    }

    method HandleRecording()
      modifies this
      ensures State() == RecordingToggled(old(State()))
    {
      isRecording := !isRecording;
    }

    /** ReactMic's `onStop`: the recording is stored. */
    method OnStop(recording: MicRecording)
      modifies this
      ensures State() == old(State()).(audioBlob := Some(recording))
    {
      audioBlob := Some(recording);
    }

    /** `handlePlayback`: plays the recording if there is one. */
    method HandlePlayback()
      modifies this
      ensures State() == PlaybackStarted(old(State()))
    {
      if audioBlob.Some? {
        isPlaying := true;
      }
    }

    /** The `onended` callback `handlePlayback` installs on its audio element. */
    method OnPlaybackEnded()
      modifies this
      ensures State() == old(State()).(isPlaying := false)
    {
      isPlaying := false;
    }

    /**
     * `handleAudioSubmit` up to the request. Returns the form it posts, or None when the guard returns early
     * without a request.
     */
    method BeginAudioSubmit() returns (form: Option<map<string, FilePart>>)
      modifies this
      ensures State() == AudioSubmitStarted(old(State()))
      ensures form.None? <==> old(audioBlob).None?
      ensures form.Some? ==> form.value == AudioForm(old(audioBlob).value)
    {
      if audioBlob.None? {
        error := Some(JStr(NoAudioRecorded));
        return None;
      }
      isLoading := true;
      error := None;
      form := Some(AudioForm(audioBlob.value));
    }

    /** `handleAudioSubmit` once the request has settled, including its `finally`. */
    method SettleAudioSubmit(reply: Reply)
      modifies this
      ensures State() == AudioSubmitSettled(old(State()), reply)
    {
      match reply {
        case OkWithError(message) =>
          error := Some(message);
        case Ok(payload) =>
          prescription := payload;
        case TransportFailure =>
          error := Some(JStr(SendAudioFailed));
      }
      isLoading := false;
    }

    /** The end of a successful `startRecording`: the recorder is kept and recording is on. */
    method RecorderStarted(recorder: Recorder)
      modifies this
      ensures State() == old(State()).(mediaRecorder := recorder, isRecording := true)
    {
      mediaRecorder := recorder;
      isRecording := true;
    }

    /** The `catch` of `startRecording`: the microphone could not be opened. */
    method RecorderRefused(message: string)
      modifies this
      ensures State() == old(State()).(error := Some(JStr(MicrophoneRefused + message)))
    {
      error := Some(JStr(MicrophoneRefused + message));
    }

    /** `stopRecording`: a no-op without a recorder; otherwise the recorder is stopped and recording is off. */
    method StopRecording()
      modifies this, mediaRecorder
      ensures State() == RecordingStopped(old(State()))
      ensures old(mediaRecorder) != null ==> mediaRecorder.stopped
    {
      if mediaRecorder != null {
        mediaRecorder.Stop();
        isRecording := false;
      }
    }
  }

  /** Pressing the record button twice restores `isRecording`. */
  lemma RecordingTwiceRestores(v: View)
    ensures RecordingToggled(RecordingToggled(v)) == v
  {
  }

  /**
   * A whole text submission: loading always ends, and the error is clear afterwards exactly when the reply
   * was error-free.
   */
  lemma TextSubmission(v: View, reply: Reply)
    ensures !TextSubmitSettled(TextSubmitStarted(v), reply).isLoading
    ensures TextSubmitSettled(TextSubmitStarted(v), reply).error.None? <==> reply.Ok?
  {
  }

  /**
   * A whole audio submission: with a recording, loading ends and the error is clear exactly when the reply was
   * error-free; the recording is kept on every path, so it can be submitted again.
   */
  lemma AudioSubmission(v: View, reply: Reply)
    requires v.audioBlob.Some?
    ensures !AudioSubmitSettled(AudioSubmitStarted(v), reply).isLoading
    ensures AudioSubmitSettled(AudioSubmitStarted(v), reply).error.None? <==> reply.Ok?
    ensures AudioSubmitSettled(AudioSubmitStarted(v), reply).audioBlob == v.audioBlob
  {
  }
}
