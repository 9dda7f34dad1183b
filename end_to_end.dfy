/**
 * The clients and the server together: what a handler ends up with once the server has answered its request.
 * The requests are the ones the handlers build; the server's OpenAI calls and `json.loads` stay arbitrary inputs.
 */
module EndToEnd {
  import opened Base
  import opened JsonValue
  import opened PyText
  import opened Http
  import opened Server
  import Display
  import DraftClient
  import RecorderClient

  /**
   * The server puts `error` only in replies with status 400 or 500, which axios rejects; so no handler ever takes
   * its "response carries an error" branch against this server.
   */
  lemma ChatNeverAnswersWithError(body: Json, completion: PyResult<string>, decode: string -> Decoded)
    ensures !Receive(Chat(body, completion, decode)).OkWithError?
  {
  }

  lemma TranscribeNeverAnswersWithError(files: map<string, string>, transcription: PyResult<string>,
                                        completion: PyResult<string>, decode: string -> Decoded)
    ensures !Receive(Transcribe(files, transcription, completion, decode)).OkWithError?
  {
  }

  lemma StreamNeverAnswersWithError(files: map<string, string>, transcription: PyResult<string>,
                                    completion: PyResult<string>, decode: string -> Decoded)
    ensures !Receive(TranscribeStream(files, transcription, completion, decode)).OkWithError?
  {
    var r := TranscribeStream(files, transcription, completion, decode);
    if r.Reply? && Resolves(r.status) {
      assert r.body.fields.Keys == {"response", "transcript"};
    }
  }

  /**
   * A text submission fails exactly when the input is empty: /chat rejects it with 400, which the handler sees as a
   * failed request. Any other input yields a prescription payload.
   */
  lemma TextSubmitOutcome(input: string, completion: PyResult<string>, decode: string -> Decoded)
    ensures Receive(Chat(DraftClient.TextRequest(input), completion, decode)).TransportFailure? <==> input == ""
    ensures input != "" ==> Receive(Chat(DraftClient.TextRequest(input), completion, decode)).Ok?
  {
    var body := DraftClient.TextRequest(input);
    ChatRejectsExactly(body, completion, decode);
    ChatNeverAnswersWithError(body, completion, decode);
    if input != "" {
      ChatNeverFailsAfterValidation(body, completion, decode);
    }
  }

  /**
   * The current client uploads its recording under `audio`, but /transcribe looks for `file`: every audio submission
   * is rejected with 400, so the handler always reports "Failed to send audio" and never shows a prescription.
   */
  lemma RecorderAudioSubmitAlwaysFails(v: RecorderClient.View, blob: Blob, transcription: PyResult<string>,
                                       completion: PyResult<string>, decode: string -> Decoded)
    ensures var reply := Receive(Transcribe(Filenames(RecorderClient.AudioForm(blob)), transcription, completion, decode));
      && reply == TransportFailure
      && RecorderClient.AudioSubmitSettled(v, reply).error == Some(JStr(RecorderClient.SendAudioFailed))
      && RecorderClient.AudioSubmitSettled(v, reply).prescription == v.prescription
  {
    var files := Filenames(RecorderClient.AudioForm(blob));
    assert "file" !in files;
  }

  /** The first client uploads under `file` with a non-empty filename, so its audio always passes validation. */
  lemma DraftAudioSubmitAnswered(recording: DraftClient.MicRecording, transcription: PyResult<string>,
                                 completion: PyResult<string>, decode: string -> Decoded)
    ensures Receive(Transcribe(Filenames(DraftClient.AudioForm(recording)), transcription, completion, decode)).Ok?
  {
    var files := Filenames(DraftClient.AudioForm(recording));
    assert "file" in files && files["file"] == "recording.wav";
    TranscribeNeverFailsAfterValidation(files, transcription, completion, decode);
    TranscribeNeverAnswersWithError(files, transcription, completion, decode);
  }

  /** When /chat falls back to the default response, the page shows the single retry card. */
  lemma DefaultReplyShowsRetryCard(v: RecorderClient.View)
    ensures var w := RecorderClient.TextSubmitSettled(v, Receive(DefaultReply()));
      Display.Render(w.prescription) == Display.Cards([Display.RetryCard()])
  {
    Display.DefaultReplyRenders();
  }
}
