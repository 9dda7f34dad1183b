# Prescription chatbot: a Dafny model

The system turns a doctor's typed or dictated text into a structured prescription. A Flask server sends the text
(or the Whisper transcript of an uploaded recording) to GPT-4, strips the reply, decodes it, and fills in missing
prescription keys with `setdefault`. The three endpoints differ in the details:

- `/chat` (typed text) quotes every `1-2` in the reply and checks that it ends with `}`. A missing or empty `text`
  is answered with 400; every later failure gives a fixed "please try again" prescription with status 200.
- `/transcribe` (an uploaded `file`) checks that the reply ends with `}` but does not quote `1-2`. A missing `file`
  part or an empty filename is answered with 400; every later failure gives the same default prescription.
- `/transcribe_stream` (an uploaded `audio`) quotes every `1-2` but has no `}` check. A missing `audio` part is
  answered with 400, and failures are reported with status 500 instead of a default prescription.

A React page submits text or audio and renders the returned prescriptions, showing `None` for every empty field. There are two versions of
the page: a first draft built on ReactMic, and the current one built on `useReactMediaRecorder`.

The model has these modules:

- `Base` (`base.dfy`): `Option` and a Python outcome type (a value, or an exception with its message).
- `JsonValue` (`json.dfy`): decoded JSON values, with Python truthiness and JavaScript truthiness and member access.
- `PyText` (`pytext.dfy`):
  - `str.strip()` over Python's whitespace set;
  - `str.replace('1-2', '"1-2"')`;
  - the `endswith("}")` completeness test.
- `Normalise` (`normalise.dfy`): the `setdefault` loop.
  - It is specified by functions and carried out by methods (`CompleteOne`, `FillInPlace`, `NormalisePrescriptions`) that are proved equal to them.
  - It includes the exceptions CPython raises when the decoded reply is not shaped as expected.
- `Server` (`server.dfy`): the three endpoints `/chat`, `/transcribe` and `/transcribe_stream` as functions.
  - The OpenAI calls are `PyResult` inputs.
  - `json.loads` is an arbitrary decoder function.
- `Http` (`http.dfy`): how a handler classifies the server's answer after `await axios.post`.
  - `Ok(payload)`: success.
  - `OkWithError(message)`: success, but `response.data.error` is truthy.
  - `TransportFailure`: rejected, or reading the data threw.
- `DraftClient` (`draft_client.dfy`): `Client/App.js` as a class `App` whose fields are its `useState` pairs, with one method per event.
- `RecorderClient` (`client.dfy`): `Client/src/App.js` as a class `App`, plus the `<audio>` element as a class with `paused` and `currentTime`.
- `Display` (`display.dfy`): the `value || "None"` fallback and the rendering of prescription cards. This covers JavaScript property access on `null`, and `.map` on a value that is not an array.
- `EndToEnd` (`end_to_end.dfy`): the clients and the server composed.

How the client classes are specified:

- Each class has a `State()` snapshot.
- Each event has a specification function on snapshots. Its `ensures` states what the source promises: the guards, which fields change, and which fields stay the same.
- Each method is proved to move the state exactly as its function says.
- An async handler is split at its `await` into `Begin…` (up to sending the request) and `Settle…` (the rest of the `try`, the `catch` and the `finally`). Other events may run in between, as in the browser.

The code has none of the following, and the model adds none of them:

- There is no permission-request state and no session-state enum. `isRecording` is a boolean.
- Recordings carry no sequence ids.
- Nothing rejects a second submit, or a new recording, while a request is loading.
- No request has a timeout.

Starting a new recording in the current client pauses and rewinds the audio element, but it does not reset
`isPlaying`; the model keeps that.

`EndToEnd.RecorderAudioSubmitAlwaysFails` records a mismatch between the current client and the server:

- The current client uploads its recording under the form field `audio` (`Client/src/App.js:109`).
- `/transcribe` requires `file` (`Server/server.py:283`).
- So every audio submission from the current page is rejected with status 400 and reported as "Failed to send audio. Please try again."
- The draft client uses `file`, and its uploads always pass validation (`EndToEnd.DraftAudioSubmitAnswered`).

## Model

| member | source | states |
|---|---|---|
| JsonValue.Member | Server/server.py:144 | `d.get(key)` / `obj.key`: a value exactly when the object has the key, and then the key's value |
| JsonValue.PyTruthy | Server/server.py:145 | Python's `not`: falsy exactly for None, False, 0, the empty string, the empty list and the empty dict |
| JsonValue.JsTruthy | Client/src/App.js:59 | JavaScript truthiness: falsy exactly for undefined, null, false, 0 and the empty string; every Python-truthy value is also JavaScript-truthy |
| PyText.LeadingSpace | Server/server.py:95 | counts the whitespace `lstrip()` removes: every counted character is whitespace and the next one is not |
| PyText.TrailingSpace | Server/server.py:95 | counts the whitespace `rstrip()` removes: every counted character is whitespace and the one before them is not |
| PyText.LooksComplete | Server/server.py:185 | `text.strip().endswith("}")` holds exactly when the text has a non-whitespace character and the last one is `}` |
| PyText.TrailingSpaceUnique | Server/server.py:185 | the trailing whitespace count is the only count that covers whitespace and stops at a non-whitespace character |
| PyText.StripEndsAtLastNonSpace | Server/server.py:185 | `strip()` gives nothing exactly for an all-whitespace text, and otherwise ends with the text's last non-whitespace character |
| PyText.TrimStart | Server/server.py:95 | `lstrip()` never lengthens the text and leaves no whitespace at its start |
| PyText.TrimEnd | Server/server.py:95 | `rstrip()` never lengthens the text and leaves no whitespace at its end |
| PyText.Strip | Server/server.py:180 | `strip()` never lengthens the text and leaves no whitespace at either end |
| PyText.LeadingSpaceCut | Server/server.py:95 | the prefix `lstrip()` removes is all whitespace |
| PyText.TrailingSpaceCut | Server/server.py:95 | the suffix `rstrip()` removes is all whitespace |
| PyText.StripCutsOnlySpace | Server/server.py:95 | `strip()` only removes whitespace: the text is whitespace + the stripped text + whitespace |
| PyText.StripIdempotent | Server/server.py:185 | stripping an already stripped reply again (`gpt_response.strip()` twice) changes nothing |
| PyText.LeadingSpaceSkips | Server/server.py:95 | whitespace put in front of a text adds exactly its length to what `lstrip()` removes |
| PyText.TrailingSpaceSkips | Server/server.py:95 | whitespace put after a text adds exactly its length to what `rstrip()` removes |
| PyText.TrimStartSkipsSpace | Server/server.py:95 | leading whitespace makes no difference to `lstrip()` |
| PyText.TrimEndSkipsSpace | Server/server.py:95 | trailing whitespace makes no difference to `rstrip()` |
| PyText.StripRemovesPadding | Server/server.py:328 | `strip()` of whitespace + text + whitespace is exactly the text, when the text has no whitespace at its ends |
| PyText.LooksCompleteIgnoresPadding | Server/server.py:331 | the `endswith("}")` test does not depend on whitespace around the reply |
| PyText.QuoteRangesHead | Server/server.py:183 | the first character after `replace('1-2', '"1-2"')` is a quote exactly when the text starts with `1-2` |
| PyText.RangeQuoted | Server/server.py:183 | every `1-2` in the replaced text has a `"` right before and right after it |
| PyText.UnquotedConcat | Server/server.py:183 | removing the quotes around `1-2` distributes over concatenation |
| PyText.QuoteRangesOnlyAddsQuotes | Server/server.py:183 | the replacement only inserts double quotes: with every double quote removed, the replaced text and the original agree |
| PyText.QuoteRangesKeepsPlainText | Server/server.py:100 | a text without `1-2` is left unchanged by the replacement |
| PyText.QuoteRangesSplit | Server/server.py:100 | the text before the first `1-2` is kept as it is, that `1-2` becomes `"1-2"`, and the replacement goes on after it; with `QuoteRangesKeepsPlainText` this determines the result |
| PyText.QuoteRangesRequotes | Server/server.py:183 | a range the model already quoted is quoted again: `"1-2"` becomes `""1-2""` |
| PyText.QuoteRangesLast | Server/server.py:183 | the last character after the replacement is the original last character or a quote, and is `}` exactly when the original ends with `}` |
| PyText.StripKeepsStripped | Server/server.py:185 | `strip()` leaves a text without whitespace at its ends unchanged |
| PyText.QuoteRangesEnds | Server/server.py:183 | the replacement adds no whitespace at either end of a stripped text |
| PyText.QuotingKeepsStripped | Server/server.py:183-185 | a stripped reply stays stripped after the replacement, so the second `strip()` changes nothing |
| PyText.QuotingKeepsBrace | Server/server.py:183-185 | the replacement does not change whether the text ends with `}` |
| PyText.QuotingKeepsCompleteness | Server/server.py:180-185 | /chat's test on the stripped and quoted reply gives the same verdict as on the raw reply |
| Normalise.NullDiagnosisInformation | Server/server.py:105 | the inserted `DiagnosisInformation` has exactly Diagnosis and Medicine, both None |
| Normalise.NullMedicationDetails | Server/server.py:106-117 | the inserted `MedicationDetails` has exactly the ten fields Dose…Pharmacy, all None |
| Normalise.SetDefault | Server/server.py:105 | `setdefault` adds the key if absent, with the given value, and never replaces an existing entry |
| Normalise.FillDefaults | Server/server.py:105-118 | after the three calls a prescription has all three keys, its own keys keep their values, and each missing key gets its default |
| Normalise.FillAll | Server/server.py:104-118 | the loop completes exactly when every element is a dict; then each element is its completed dict, with the same length |
| Normalise.FillAllRaisesAt | Server/server.py:104-118 | the loop raises at the first element that is not a dict, with CPython's `'T' object has no attribute 'setdefault'` |
| Normalise.FillAllMatches | Server/server.py:104-118 | any list that completes the elements one by one is the loop's result |
| Normalise.CompleteOne | Server/server.py:214-227 | the loop body applied to one dict gives the three `setdefault` results |
| Normalise.FillInPlace | Server/server.py:213-227 | the loop, element by element, computes the same outcome as the specification, including the exception |
| Normalise.NormalisePrescriptions | Server/server.py:210-227 | `prescription.get("Prescriptions", [])` and the loop compute the specified pass on the decoded reply |
| Normalise.NormalisedComplete | Server/server.py:359-373 | after the pass every element of `Prescriptions` has DiagnosisInformation, MedicationDetails and Description |
| Normalise.NormalisedKeepsExisting | Server/server.py:213-227 | the pass never overwrites: keys, other members, list length and every existing prescription value are unchanged |
| Normalise.NormalisedWithoutPrescriptions | Server/server.py:104 | a reply without `Prescriptions` passes through unchanged |
| Normalise.NormalisedRaisesExactly | Server/server.py:104-118 | the pass raises exactly when the reply is not a dict or its `Prescriptions` cannot be looped over as dicts |
| Normalise.NormalisedRaisesBeforeLoop | Server/server.py:104-105 | `.get` on a non-dict reply raises AttributeError for `get`; a None, boolean or number `Prescriptions` raises "not iterable"; a non-empty dict or string raises AttributeError for `setdefault` on `str` |
| Normalise.Normalised | Server/server.py:104-118 | the pass either raises or gives back a dict with the same top-level keys as the decoded reply |
| Normalise.FillDefaultsIdempotent | Server/server.py:105-118 | completing a completed prescription changes nothing |
| Normalise.FillAllOfFilled | Server/server.py:213-227 | running the loop over its own result gives the same result |
| Normalise.NormalisedIdempotent | Server/server.py:213-227 | running the pass twice gives the same result as running it once |
| Server.DefaultPrescription | Server/server.py:187-208 | the default prescription has exactly the three required keys: the all-None sections and the Description "Please try again with proper prescription content." |
| Server.Answer | Server/server.py:229 | a success is status 200 with the document under `response` and no `error` |
| Server.DefaultReply | Server/server.py:230-253 | the default response is status 200, its body holds only `response`, the document only `Prescriptions`, and the list is exactly the default prescription; there is no `error` |
| Server.Rejected | Server/server.py:145-146 | a validation failure is status 400 with the message under `error` |
| Server.Failed | Server/server.py:125-138 | a /transcribe_stream failure is status 500 with `error` and `details`, and `transcript` exactly when one is given |
| Server.DefaultIsNormalised | Server/server.py:187-208 | the default document is already normalised |
| Server.Prescribe | Server/server.py:185-278 | once the reply text is ready, /chat and /transcribe answer 200 with no `error` |
| Server.Decoding | Server/server.py:210-278 | the inner `try` answers 200 with no `error` whatever the decoder and the loop do |
| Server.PrescribeOutcome | Server/server.py:185-278 | the answer is the normalised reply when the text looks complete, decodes and normalises, and the default response in every other case |
| Server.IncompleteReplyDefaults | Server/server.py:331-355 | a reply that does not end with `}` once stripped yields the default prescription asking to try again |
| Server.ChatRejectsExactly | Server/server.py:143-146 | /chat answers 400 "No text provided" exactly when `text` is missing or falsy |
| Server.TranscribeRejectsExactly | Server/server.py:283-288 | /transcribe answers 400 exactly when there is no `file` part or its filename is empty: "No file provided" for a missing part, "No selected file" for an empty filename |
| Server.StreamRejectsExactly | Server/server.py:68-69 | /transcribe_stream answers 400 exactly when there is no `audio` part |
| Server.ChatNeverFailsAfterValidation | Server/server.py:255-278 | past validation /chat always answers 200, and an exception yields the default response |
| Server.TranscribeNeverFailsAfterValidation | Server/server.py:376-424 | past validation /transcribe always answers 200, and a transcription or completion exception yields the default response |
| Server.StreamReportsFailures | Server/server.py:125-138 | /transcribe_stream answers 500 "Audio processing failed" with the exception message for an exception in the transcription, the completion or the `setdefault` loop, and 500 "Failed to generate prescription" with the decode error and the transcript for a decode failure |
| Server.ChatDecodesQuotedReply | Server/server.py:180-211 | /chat's answer depends on the decoder only through the stripped and quoted reply |
| Server.TranscribeDecodesStrippedReply | Server/server.py:328-358 | /transcribe's answer depends on the decoder only through the stripped, unquoted reply |
| Server.StreamDecodesQuotedReply | Server/server.py:95-101 | /transcribe_stream decodes the stripped and quoted reply |
| Server.QuotedIncompleteReplyDefaults | Server/server.py:183-185 | quoting never makes an incomplete reply pass the completeness test |
| Server.Chat | Server/server.py:141-278 | /chat fails uncaught exactly for a body that is not a JSON object, and otherwise answers 200 or 400 "No text provided" |
| Server.Transcribe | Server/server.py:281-424 | /transcribe always answers, with 200, 400 "No file provided" or 400 "No selected file" |
| Server.TranscribeStream | Server/server.py:66-138 | /transcribe_stream always answers, with 200, 500 or 400 "No audio file provided" |
| Server.ChatOutcome | Server/server.py:180-278 | past validation /chat answers with the normalised reply exactly when the raw reply looks complete and the stripped, quoted text decodes and normalises, and with the default response otherwise |
| Server.TranscribeOutcome | Server/server.py:328-424 | past validation and transcription /transcribe answers with the normalised reply exactly when the raw reply looks complete and the stripped text decodes and normalises, and with the default response otherwise |
| Server.StreamAnswers | Server/server.py:95-123 | /transcribe_stream answers 200 with the normalised reply under `response` and the transcript under `transcript` whenever the quoted text decodes and normalises, with no completeness test |
| Http.Filenames | Client/App.js:120-121 | the server sees exactly the form's field names, each with its part's filename |
| Http.Receive | Client/App.js:124-138 | a non-2xx status or a failed request takes the `catch`; otherwise a truthy `error` wins, else the payload is `response` |
| DraftClient.TextRequest | Client/App.js:67 | the body posted to /chat holds exactly `text`, the current input |
| DraftClient.AudioForm | Client/App.js:120-121 | the upload holds exactly the part `file`, with the recording's blob and filename "recording.wav" |
| DraftClient.TextSubmitStarted | Client/App.js:63-64 | text submission clears the error and starts loading |
| DraftClient.TextSubmitSettled | Client/App.js:72-84 | loading ends; only an error-free reply sets the prescription and clears the input; an error reply sets the error to its message; a failure sets "Failed to send message…" |
| DraftClient.AudioSubmitStarted | Client/App.js:110-116 | without a recording: the "No audio recorded" error and `isLoading` untouched; with one: loading starts and the error is cleared |
| DraftClient.AudioSubmitSettled | Client/App.js:130-141 | loading ends; only an error-free reply sets the prescription; an error reply sets its message; a failure sets "Failed to send audio…"; the recording is kept |
| DraftClient.RecordingToggled | Client/App.js:88-90 | the record button negates `isRecording`; the recording, playback and loading flags are unchanged |
| DraftClient.PlaybackStarted | Client/App.js:98-106 | playback is a no-op without a recording and otherwise sets `isPlaying` |
| DraftClient.RecordingStopped | Client/App.js:41-46 | `stopRecording` is a no-op without a recorder and otherwise turns recording off |
| DraftClient.App.constructor | Client/App.js:8-16 | the initial state: empty input, no prescription, no error, nothing loading, recording or playing, no recording, no recorder |
| DraftClient.App.EditInput | Client/App.js:154 | typing replaces the input and nothing else |
| DraftClient.App.BeginTextSubmit | Client/App.js:60-67 | the handler's first half moves the state as specified and posts the current input |
| DraftClient.App.SettleTextSubmit | Client/App.js:72-84 | the handler's second half moves the state as specified |
| DraftClient.App.HandleRecording | Client/App.js:88-90 | the button moves the state as specified |
| DraftClient.App.OnStop | Client/App.js:93-95 | ReactMic's `onStop` stores exactly the recording it is given |
| DraftClient.App.HandlePlayback | Client/App.js:98-106 | playback moves the state as specified |
| DraftClient.App.OnPlaybackEnded | Client/App.js:104 | the end of playback clears `isPlaying` and nothing else |
| DraftClient.App.BeginAudioSubmit | Client/App.js:109-121 | no request without a recording; otherwise the form of the stored recording |
| DraftClient.App.SettleAudioSubmit | Client/App.js:124-141 | the handler's second half moves the state as specified |
| DraftClient.App.RecorderStarted | Client/App.js:33-35 | a started recorder is stored and recording is on |
| DraftClient.App.RecorderRefused | Client/App.js:36-38 | a refused microphone sets "Could not access microphone: " followed by the message |
| DraftClient.App.StopRecording | Client/App.js:41-46 | without a recorder nothing happens; otherwise the recorder is stopped and recording is off |
| DraftClient.RecordingTwiceRestores | Client/App.js:88-90 | two presses of the record button restore the state |
| DraftClient.TextSubmission | Client/App.js:60-85 | a whole text submission ends with `isLoading` false, and with no error exactly when the reply was error-free |
| DraftClient.AudioSubmission | Client/App.js:109-142 | a whole audio submission ends with `isLoading` false, with no error exactly when the reply was error-free, and with the recording kept |
| RecorderClient.TextRequest | Client/src/App.js:53-57 | the body posted to /chat holds exactly `text`, the current input |
| RecorderClient.AudioForm | Client/src/App.js:108-109 | the upload holds exactly the part `audio` (and no `file`), with the recording and filename "recording.wav" |
| RecorderClient.RecordingPressed | Client/src/App.js:74-85 | while recording the button only stops and keeps the recording; otherwise it starts and drops the recording; `isPlaying` is never touched |
| RecorderClient.PlaybackToggled | Client/src/App.js:87-96 | with an audio element `isPlaying` is negated; without one nothing happens |
| RecorderClient.Stopped | Client/src/App.js:25-27 | a delivered blob becomes the recording |
| RecorderClient.RecorderFailed | Client/src/App.js:16-45 | a recorder error leaves the hook not recording and sets "Recording error: " followed by its message |
| RecorderClient.TextSubmitStarted | Client/src/App.js:49-50 | text submission clears the error and starts loading |
| RecorderClient.TextSubmitSettled | Client/src/App.js:59-71 | loading ends; only an error-free reply sets the prescription and clears the input; an error reply sets its message; a failure sets "Failed to send message…" |
| RecorderClient.AudioSubmitStarted | Client/src/App.js:99-105 | without a recording: the "No audio recorded" error and `isLoading` untouched; with one: loading starts and the error is cleared |
| RecorderClient.AudioSubmitSettled | Client/src/App.js:117-128 | loading ends; only an error-free reply sets the prescription; an error reply sets its message; a failure sets "Failed to send audio…"; the recording is kept |
| RecorderClient.AudioElement.Play | Client/src/App.js:92 | `play()` unpauses the element and keeps its position |
| RecorderClient.AudioElement.Pause | Client/src/App.js:81 | `pause()` pauses the element and keeps its position |
| RecorderClient.App.constructor | Client/src/App.js:8-14 | the initial state: empty input, no prescription, no error, nothing loading or playing, no recording, an empty ref |
| RecorderClient.App.EditInput | Client/src/App.js:140 | typing replaces the input and nothing else |
| RecorderClient.App.AttachAudio | Client/src/App.js:166-168 | mounting or unmounting the `<audio>` element sets the ref and nothing else |
| RecorderClient.App.HandleRecording | Client/src/App.js:74-85 | the state moves as specified; starting pauses the element and rewinds it to 0; stopping leaves it alone |
| RecorderClient.App.HandlePlayback | Client/src/App.js:87-96 | the state moves as specified; the element ends up paused exactly when it was playing before |
| RecorderClient.App.OnEnded | Client/src/App.js:169 | `onEnded` clears `isPlaying` and nothing else |
| RecorderClient.App.OnStop | Client/src/App.js:25-27 | the recorder's `onStop` moves the state as specified |
| RecorderClient.App.OnRecorderError | Client/src/App.js:40-45 | the error effect moves the state as specified |
| RecorderClient.App.BeginTextSubmit | Client/src/App.js:47-57 | the handler's first half moves the state as specified and posts the current input |
| RecorderClient.App.SettleTextSubmit | Client/src/App.js:59-71 | the handler's second half moves the state as specified |
| RecorderClient.App.BeginAudioSubmit | Client/src/App.js:98-109 | no request without a recording; otherwise the form of the stored recording |
| RecorderClient.App.SettleAudioSubmit | Client/src/App.js:117-128 | the handler's second half moves the state as specified |
| RecorderClient.PlaybackTwiceRestores | Client/src/App.js:87-96 | two presses of the playback button restore the state |
| RecorderClient.RecordingRoundTrip | Client/src/App.js:74-85 | stopping keeps the recording; a start followed by a stop leaves the state as it was but without a recording |
| RecorderClient.FailedStartRetries | Client/src/App.js:16-85 | after a start the recorder refuses, the component is not recording and shows the error, and the next press starts again |
| RecorderClient.TextSubmission | Client/src/App.js:47-72 | a whole text submission ends with `isLoading` false, and with no error exactly when the reply was error-free |
| RecorderClient.AudioSubmission | Client/src/App.js:98-129 | a whole audio submission ends with `isLoading` false, with no error exactly when the reply was error-free, and with the recording kept |
| Display.Cell | Client/src/App.js:205-247 | a falsy field shows the text None; any other value is shown unchanged |
| Display.CardOf | Client/src/App.js:199-253 | a card renders exactly when the prescription and its two sections are neither null nor undefined, and then shows each field through the fallback |
| Display.CardsOf | Client/src/App.js:199 | the list renders exactly when every card renders, one card per prescription, in order |
| Display.Render | Client/src/App.js:199 | a falsy prescription shows nothing; otherwise the page renders exactly when `Prescriptions` is an array whose every card renders, and then shows those cards in order |
| Display.CellNeverBlank | Client/src/App.js:205 | a displayed field is never blank, and applying the fallback again changes nothing |
| Display.CompleteCardRenders | Client/src/App.js:204-238 | a prescription with all three keys renders unless one of its sections is null |
| Display.CompleteCardsRender | Client/src/App.js:199-247 | a list of complete prescriptions renders unless one of them has a null section |
| Display.DefaultReplyRenders | Client/src/App.js:199-247 | the default response renders as the single card with every field None and the request to try again |
| Display.ReplyWithoutListCrashes | Client/src/App.js:199 | a decoded reply with no `Prescriptions` array passes normalisation unchanged and then crashes the page |
| Display.NormalisedList | Server/server.py:359-373 | normalising a reply with a `Prescriptions` array gives an array of as many complete prescriptions |
| Display.CompleteListRenders | Client/src/App.js:199-247 | a reply whose `Prescriptions` is an array of complete prescriptions renders one card each unless one has a null section |
| Display.NormalisedListRenders | Client/src/App.js:199-247 | a normalised reply renders one card per prescription, unless a prescription came with a null section, which normalisation keeps |
| EndToEnd.ChatNeverAnswersWithError | Client/src/App.js:59-62 | /chat never gives a handler a successful reply carrying `error`, so that branch is never taken |
| EndToEnd.TranscribeNeverAnswersWithError | Client/App.js:130-133 | the same for /transcribe |
| EndToEnd.StreamNeverAnswersWithError | Server/server.py:120-138 | the same for /transcribe_stream |
| EndToEnd.TextSubmitOutcome | Server/server.py:143-146 | a text submission fails exactly when the input is empty, and otherwise yields a prescription payload |
| EndToEnd.RecorderAudioSubmitAlwaysFails | Client/src/App.js:108-126 | the current client's audio upload is always rejected: the error becomes "Failed to send audio…" and the prescription is unchanged |
| EndToEnd.DraftAudioSubmitAnswered | Client/App.js:120-126 | the draft client's audio upload always gets a prescription payload |
| EndToEnd.DefaultReplyShowsRetryCard | Client/src/App.js:199-247 | after a submission answered with the default response, the page shows the single retry card |

## Left out

- The OpenAI calls (Whisper transcription, GPT-4 completion), `chat_with_gpt`, `transcribe_audio` and `conversation_history` are foreign I/O. Their outcomes are `PyResult` inputs. Saving `temp_recording.wav`, the `temperature` and token settings, and the logging `print` calls are also left out.
- `json.loads` is an arbitrary decoder function, and its error messages are not reproduced. JSON numbers are integers: floating point is not modelled.
- Flask routing, CORS and `jsonify` are left out. A request body that is not a JSON object is collapsed into one uncaught error, and so is Flask's own 500 page. Object key order is not modelled: objects are maps.
- axios is represented only by its observable outcome: it resolves on a 2xx status and rejects otherwise. URLs, headers and `console` calls are not modelled.
- The internals of `getUserMedia`, MediaRecorder, ReactMic and `useReactMediaRecorder` are left out. `mediaBlobUrl` and `clearBlobUrl` are not modelled.
- RecorderClient.App.HandleRecording: the hook's status goes through intermediate states (acquiring media, stopping). The model collapses them into an immediate switch of `isRecording`. A start that the recorder then refuses is undone by `RecorderClient.App.OnRecorderError`, which turns `isRecording` off as the hook's status does, so the model briefly shows `isRecording` true where the hook never reaches its recording status.
- RecorderClient.App.OnStop: the `fetch(blobUrl)` fallback for a missing blob is I/O, so a call without a blob leaves the state unchanged (Client/src/App.js:28-35).
- RecorderClient.App.OnRecorderError: the hook's error value is taken as an object with a `message`. The hook's actual error type is not part of this model.
- `startRecording` in Client/App.js is modelled only by its two endings (`DraftClient.App.RecorderStarted` and `DraftClient.App.RecorderRefused`). Chunk collection, `onstop` and `sendAudioToBackend` (Client/App.js:18-32, 48-58) are unused I/O plumbing.
- `URL.createObjectURL`, `new Audio` and the promise `play()` returns are left out. So is the element's own state when playback ends.
- React batches `setState` calls. The model applies each handler's updates at once.
- The JSX layout, styling, spinner and `new Date().toLocaleString()` are left out.
- Display.Cell: gives the value a field shows. How React prints a value that is not a string (or throws for an object child) is not modelled.
