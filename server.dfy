/**
 * The three Flask endpoints: request validation, the preparation of the model's reply, and the choice between the
 * normalised prescription, the fixed default prescription and an error payload. The OpenAI calls and `json.loads`
 * are inputs: each call's outcome is a `PyResult`, and decoding is an arbitrary function of the text it is given.
 */
module Server {
  import opened Base
  import opened JsonValue
  import opened PyText
  import opened Normalise

  /** An HTTP reply built by `jsonify`, or Flask's own 500 page for an exception no handler catches. */
  datatype Response = Reply(status: int, body: Json) | UncaughtError

  /** What `json.loads` does with a text: a document, or a `JSONDecodeError` with its message. */
  datatype Decoded = Parsed(doc: Json) | DecodeError(message: string)

  const RetryDescription := "Please try again with proper prescription content."

  /** The single prescription of the fixed default response: all fields None except its Description. */
  function DefaultPrescription(): (p: Json)
    ensures Complete(p)
    ensures p.fields["DiagnosisInformation"] == JObj(NullDiagnosisInformation())
    ensures p.fields["MedicationDetails"] == JObj(NullMedicationDetails())
    ensures p.fields["Description"] == JStr(RetryDescription)
    ensures p.fields.Keys == RequiredKeys
  {
    JObj(map["DiagnosisInformation" := JObj(NullDiagnosisInformation()),
             "MedicationDetails" := JObj(NullMedicationDetails()),
             "Description" := JStr(RetryDescription)])
  }

  /** A successful reply carrying `{"response": doc}`. */
  function Answer(doc: Json): (r: Response)
    ensures r.Reply? && r.status == 200 && Member(r.body, "response") == Some(doc)
    ensures Member(r.body, "error").None?
  {
    Reply(200, JObj(map["response" := doc]))
  }

  /** The fixed default response of /chat and /transcribe: one prescription asking the user to try again. */
  function DefaultReply(): (r: Response)
    ensures r.Reply? && r.status == 200 && Member(r.body, "error").None?
    ensures Member(r.body, "response").Some?
    ensures PrescriptionList(Member(r.body, "response").value) == [DefaultPrescription()]
    ensures r.body.JObj? && r.body.fields.Keys == {"response"}
    ensures Member(r.body, "response").value.JObj? && Member(r.body, "response").value.fields.Keys == {"Prescriptions"}
  {
    Answer(JObj(map["Prescriptions" := JArr([DefaultPrescription()])]))
  }

  /** A validation failure: `{"error": message}` with status 400. */
  function Rejected(message: string): (r: Response)
    ensures r.Reply? && r.status == 400 && Member(r.body, "error") == Some(JStr(message))
  {
    Reply(400, JObj(map["error" := JStr(message)]))
  }

  /** A /transcribe_stream failure: status 500 with `error` and `details`, and the transcript when there is one. */
  function Failed(error: string, details: string, transcript: Option<string>): (r: Response)
    ensures r.Reply? && r.status == 500
    ensures Member(r.body, "error") == Some(JStr(error)) && Member(r.body, "details") == Some(JStr(details))
    ensures Member(r.body, "transcript") == if transcript.Some? then Some(JStr(transcript.value)) else None
  {
    var body := map["error" := JStr(error), "details" := JStr(details)];
    Reply(500, JObj(if transcript.Some? then body["transcript" := JStr(transcript.value)] else body))
  }

  /**
   * The tail shared by /chat and /transcribe once the reply text is ready: an incomplete reply, a decode failure
   * or an exception in the normalisation loop all give the default response.
   */
  function Prescribe(reply: string, decode: string -> Decoded): (r: Response)
    ensures r.Reply? && r.status == 200 && Member(r.body, "error").None?
  {
    if !LooksComplete(reply) then DefaultReply() else Decoding(decode(reply))
  }

  /** The inner `try` of /chat and /transcribe: a decode failure or an exception in the loop gives the default. */
  function Decoding(decoded: Decoded): (r: Response)
    ensures r.Reply? && r.status == 200 && Member(r.body, "error").None?
  {
    match decoded
    case DecodeError(_) => DefaultReply()
    case Parsed(doc) =>
      match Normalised(doc)
      case Raised(_) => DefaultReply()
      case Value(r) => Answer(r)
  }

  /**
   * POST /chat. `body` is the request's JSON body; anything but an object makes `data.get` raise outside the
   * handler's `try`. The model's reply is stripped and has every `1-2` quoted before it is checked and decoded.
   */
  function Chat(body: Json, completion: PyResult<string>, decode: string -> Decoded): (r: Response)
    ensures r.UncaughtError? <==> !body.JObj?
    ensures r.Reply? ==> r.status == 200 || r == Rejected("No text provided")
  {
    if !body.JObj? then UncaughtError
    else
      var text := Member(body, "text");
      if text.None? || !PyTruthy(text.value) then Rejected("No text provided")
      else match completion
        case Raised(_) => DefaultReply()
        case Value(content) => Prescribe(QuoteRanges(Strip(content)), decode)
  }

  /**
   * POST /transcribe. `files` maps each multipart file field to its filename. `transcription` stands for saving the
   * upload and transcribing it. The model's reply is stripped but NOT quoted before it is checked and decoded.
   */
  function Transcribe(files: map<string, string>, transcription: PyResult<string>, completion: PyResult<string>,
                      decode: string -> Decoded): (r: Response)
    ensures r.Reply?
    ensures r.status == 200 || r == Rejected("No file provided") || r == Rejected("No selected file")
  {
    if "file" !in files then Rejected("No file provided")
    else if files["file"] == "" then Rejected("No selected file")
    else match transcription
      case Raised(_) => DefaultReply()
      case Value(_) =>
        match completion
        case Raised(_) => DefaultReply()
        case Value(content) => Prescribe(Strip(content), decode)
  }

  /**
   * POST /transcribe_stream. Failures are reported, not defaulted: a decode failure gives status 500 with the
   * transcript, and any other exception status 500 with "Audio processing failed". There is no completeness check.
   */
  function TranscribeStream(files: map<string, string>, transcription: PyResult<string>,
                            completion: PyResult<string>, decode: string -> Decoded): (r: Response)
    ensures r.Reply? && r.status in {200, 400, 500}
    ensures r.status == 400 ==> r == Rejected("No audio file provided")
  {
    if "audio" !in files then Rejected("No audio file provided")
    else match transcription
      case Raised(e) => Failed("Audio processing failed", e, None)
      case Value(transcript) =>
        match completion
        case Raised(e) => Failed("Audio processing failed", e, None)
        case Value(content) =>
          match decode(QuoteRanges(Strip(content)))
          case DecodeError(e) => Failed("Failed to generate prescription", e, Some(transcript))
          case Parsed(doc) =>
            match Normalised(doc)
            case Raised(e) => Failed("Audio processing failed", e, None)
            case Value(r) => Reply(200, JObj(map["response" := r, "transcript" := JStr(transcript)]))
  }

  /** The default prescription is already complete: normalising the default document changes nothing. */
  lemma DefaultIsNormalised()
    ensures Normalised(Member(DefaultReply().body, "response").value) == Value(Member(DefaultReply().body, "response").value)
  {
    var doc := Member(DefaultReply().body, "response").value;
    var p := DefaultPrescription();
    assert FillDefaults(p.fields) == p.fields;
    FillAllMatches([p], [p]);
    assert doc.fields["Prescriptions" := JArr([p])] == doc.fields;
  }

  /**
   * Once the reply text is ready, /chat and /transcribe answer with the normalised reply exactly when it passes the
   * completeness test, decodes and normalises; every other case gives the default response.
   */
  lemma PrescribeOutcome(reply: string, decode: string -> Decoded)
    ensures LooksComplete(reply) && decode(reply).Parsed? && Normalised(decode(reply).doc).Value? ==>
      Prescribe(reply, decode) == Answer(Normalised(decode(reply).doc).value)
    ensures !LooksComplete(reply) || decode(reply).DecodeError? || Normalised(decode(reply).doc).Raised? ==>
      Prescribe(reply, decode) == DefaultReply()
  {
  }

  /** A reply that does not end with `}` once stripped always yields the default prescription. */
  lemma IncompleteReplyDefaults(reply: string, decode: string -> Decoded)
    requires !LooksComplete(reply)
    ensures Prescribe(reply, decode) == DefaultReply()
    ensures Member(Prescribe(reply, decode).body, "response").value.fields["Prescriptions"].items[0]
      .fields["Description"] == JStr(RetryDescription)
  {
  }

  /** /chat answers 400 exactly when its JSON body is an object whose `text` is missing or falsy. */
  lemma ChatRejectsExactly(body: Json, completion: PyResult<string>, decode: string -> Decoded)
    ensures (Chat(body, completion, decode).Reply? && Chat(body, completion, decode).status == 400) <==>
      (body.JObj? && (Member(body, "text").None? || !PyTruthy(Member(body, "text").value)))
    ensures Chat(body, completion, decode).Reply? && Chat(body, completion, decode).status == 400 ==>
      Chat(body, completion, decode) == Rejected("No text provided")
  {
  }

  /** /transcribe answers 400 exactly when there is no `file` part or its filename is empty. */
  lemma TranscribeRejectsExactly(files: map<string, string>, transcription: PyResult<string>,
                                 completion: PyResult<string>, decode: string -> Decoded)
    ensures Transcribe(files, transcription, completion, decode).Reply?
    ensures Transcribe(files, transcription, completion, decode).status == 400 <==>
      ("file" !in files || files["file"] == "")
    ensures "file" !in files ==> Transcribe(files, transcription, completion, decode) == Rejected("No file provided")
    ensures "file" in files && files["file"] == "" ==>
      Transcribe(files, transcription, completion, decode) == Rejected("No selected file")
  {
  }

  /** /transcribe_stream answers 400 exactly when there is no `audio` part. */
  lemma StreamRejectsExactly(files: map<string, string>, transcription: PyResult<string>,
                             completion: PyResult<string>, decode: string -> Decoded)
    ensures TranscribeStream(files, transcription, completion, decode).Reply?
    ensures TranscribeStream(files, transcription, completion, decode).status == 400 <==> "audio" !in files
  {
  }

  /** Past validation, /chat never reports an error: every failure becomes the default prescription. */
  lemma ChatNeverFailsAfterValidation(body: Json, completion: PyResult<string>, decode: string -> Decoded)
    requires body.JObj? && Member(body, "text").Some? && PyTruthy(Member(body, "text").value)
    ensures Chat(body, completion, decode).Reply? && Chat(body, completion, decode).status == 200
    ensures completion.Raised? ==> Chat(body, completion, decode) == DefaultReply()
  {
  }

  /** Past validation, /transcribe never reports an error: every failure becomes the default prescription. */
  lemma TranscribeNeverFailsAfterValidation(files: map<string, string>, transcription: PyResult<string>,
                                            completion: PyResult<string>, decode: string -> Decoded)
    requires "file" in files && files["file"] != ""
    ensures Transcribe(files, transcription, completion, decode).status == 200
    ensures transcription.Raised? || completion.Raised? ==>
      Transcribe(files, transcription, completion, decode) == DefaultReply()
  {
  }

  /**
   * /transcribe_stream reports failures instead. An exception from the transcription, the completion or the
   * normalisation loop reaches the outer handler: status 500 "Audio processing failed" with the exception's message
   * as `details`. A decode failure gives status 500 "Failed to generate prescription" with the transcript.
   */
  lemma StreamReportsFailures(files: map<string, string>, transcription: PyResult<string>,
                              completion: PyResult<string>, decode: string -> Decoded)
    requires "audio" in files
    ensures transcription.Raised? ==>
      TranscribeStream(files, transcription, completion, decode) ==
      Failed("Audio processing failed", transcription.message, None)
    ensures transcription.Value? && completion.Raised? ==>
      TranscribeStream(files, transcription, completion, decode) ==
      Failed("Audio processing failed", completion.message, None)
    ensures transcription.Value? && completion.Value? ==>
      var d := decode(QuoteRanges(Strip(completion.value)));
      && (d.DecodeError? ==>
            TranscribeStream(files, transcription, completion, decode) ==
            Failed("Failed to generate prescription", d.message, Some(transcription.value)))
      && (d.Parsed? && Normalised(d.doc).Raised? ==>
            TranscribeStream(files, transcription, completion, decode) ==
            Failed("Audio processing failed", Normalised(d.doc).message, None))
  {
  }

  /**
   * /chat decodes the stripped reply with every `1-2` quoted: two decoders that agree on that one text give the
   * same response.
   */
  lemma ChatDecodesQuotedReply(body: Json, content: string, decode1: string -> Decoded, decode2: string -> Decoded)
    requires decode1(QuoteRanges(Strip(content))) == decode2(QuoteRanges(Strip(content)))
    ensures Chat(body, Value(content), decode1) == Chat(body, Value(content), decode2)
  {
  }

  /** /transcribe decodes the stripped reply as it is, with no quoting. */
  lemma TranscribeDecodesStrippedReply(files: map<string, string>, transcription: PyResult<string>, content: string,
                                       decode1: string -> Decoded, decode2: string -> Decoded)
    requires decode1(Strip(content)) == decode2(Strip(content))
    ensures Transcribe(files, transcription, Value(content), decode1) ==
            Transcribe(files, transcription, Value(content), decode2)
  {
  }

  /** /transcribe_stream decodes the same quoted text as /chat. */
  lemma StreamDecodesQuotedReply(files: map<string, string>, transcription: PyResult<string>, content: string,
                                 decode1: string -> Decoded, decode2: string -> Decoded)
    requires decode1(QuoteRanges(Strip(content))) == decode2(QuoteRanges(Strip(content)))
    ensures TranscribeStream(files, transcription, Value(content), decode1) ==
            TranscribeStream(files, transcription, Value(content), decode2)
  {
  }

  /** Quoting never makes an incomplete reply look complete: the test gives the verdict of the raw reply. */
  lemma QuotedIncompleteReplyDefaults(content: string, decode: string -> Decoded)
    requires !LooksComplete(content)
    ensures Prescribe(QuoteRanges(Strip(content)), decode) == DefaultReply()
  {
    QuotingKeepsCompleteness(content);
  }

  /**
   * Past validation, /chat answers with the normalised reply exactly when the raw reply looks complete and the
   * stripped, quoted text decodes and normalises; otherwise it answers with the default response.
   */
  lemma ChatOutcome(body: Json, content: string, decode: string -> Decoded)
    requires body.JObj? && Member(body, "text").Some? && PyTruthy(Member(body, "text").value)
    ensures var d := decode(QuoteRanges(Strip(content)));
      LooksComplete(content) && d.Parsed? && Normalised(d.doc).Value? ==>
        Chat(body, Value(content), decode) == Answer(Normalised(d.doc).value)
    ensures var d := decode(QuoteRanges(Strip(content)));
      !LooksComplete(content) || d.DecodeError? || Normalised(d.doc).Raised? ==>
        Chat(body, Value(content), decode) == DefaultReply()
  {
    var text := QuoteRanges(Strip(content));
    assert Chat(body, Value(content), decode) == Prescribe(text, decode);
    QuotingKeepsCompleteness(content);
    PrescribeOutcome(text, decode);
  }

  /**
   * Past validation and transcription, /transcribe answers with the normalised reply exactly when the raw reply
   * looks complete and the stripped text decodes and normalises; otherwise with the default response.
   */
  lemma TranscribeOutcome(files: map<string, string>, transcript: string, content: string, decode: string -> Decoded)
    requires "file" in files && files["file"] != ""
    ensures var d := decode(Strip(content));
      LooksComplete(content) && d.Parsed? && Normalised(d.doc).Value? ==>
        Transcribe(files, Value(transcript), Value(content), decode) == Answer(Normalised(d.doc).value)
    ensures var d := decode(Strip(content));
      !LooksComplete(content) || d.DecodeError? || Normalised(d.doc).Raised? ==>
        Transcribe(files, Value(transcript), Value(content), decode) == DefaultReply()
  {
    var text := Strip(content);
    assert Transcribe(files, Value(transcript), Value(content), decode) == Prescribe(text, decode);
    StripIdempotent(content);
    PrescribeOutcome(text, decode);
  }

  /**
   * /transcribe_stream answers 200 with the normalised reply and the transcript whenever the quoted text decodes
   * and normalises, whether or not the reply ends with `}`.
   */
  lemma StreamAnswers(files: map<string, string>, transcript: string, content: string, decode: string -> Decoded)
    requires "audio" in files
    requires decode(QuoteRanges(Strip(content))).Parsed?
    requires Normalised(decode(QuoteRanges(Strip(content))).doc).Value?
    ensures var r := TranscribeStream(files, Value(transcript), Value(content), decode);
      && r.Reply? && r.status == 200
      && Member(r.body, "response") == Some(Normalised(decode(QuoteRanges(Strip(content))).doc).value)
      && Member(r.body, "transcript") == Some(JStr(transcript))
      && Member(r.body, "error").None?
  {
  }
}
