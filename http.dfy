/**
 * What the React clients see of a request to the server. axios resolves only for a 2xx status and rejects
 * otherwise, and the handlers read `response.data.error` and `response.data.response` inside their `try`.
 */
module Http {
  import opened Base
  import opened JsonValue
  import Server

  /** A recorded audio clip. Its bytes are never inspected, only carried from the recorder to the upload. */
  datatype Blob = Blob(bytes: seq<int>)

  /** One file part of a multipart upload: `formData.append(name, blob, filename)`. */
  datatype FilePart = FilePart(content: Blob, filename: string)

  /** What one awaited `axios.post` means to a submit handler once its `try` block has run. */
  datatype Reply =
    | Ok(payload: Option<Json>)   // resolved; `response.data.response`, None when undefined
    | OkWithError(message: Json)  // resolved, but `response.data.error` is truthy
    | TransportFailure            // rejected, or reading the data threw: the `catch` branch runs

  /** The field names and filenames of a multipart form, as Flask's `request.files` presents them to the server. */
  function Filenames(form: map<string, FilePart>): (files: map<string, string>)
    ensures files.Keys == form.Keys
    ensures forall name :: name in form ==> files[name] == form[name].filename
  {
    map name | name in form :: form[name].filename
  }

  /** A 2xx status: the only replies axios resolves with under its default `validateStatus`. */
  predicate Resolves(status: int) {
    200 <= status < 300
  }

  /**
   * How a handler classifies the server's response. A status outside 2xx, or Flask's own 500 page, rejects the
   * promise; `null.error` throws a TypeError inside the `try`; any other body is read with JavaScript's property
   * access, so a truthy `error` wins over `response`.
   */
  function Receive(r: Server.Response): (rep: Reply)
    ensures rep.TransportFailure? <==> (r.UncaughtError? || !Resolves(r.status) || r.body.JNull?)
    ensures rep.OkWithError? <==>
      (r.Reply? && Resolves(r.status) && !r.body.JNull? && JsTruthy(Member(r.body, "error")))
    ensures rep.OkWithError? ==> Some(rep.message) == Member(r.body, "error")
    ensures rep.Ok? ==> rep.payload == Member(r.body, "response")
  {
    if r.UncaughtError? || !Resolves(r.status) || r.body.JNull? then TransportFailure
    else if JsTruthy(Member(r.body, "error")) then OkWithError(Member(r.body, "error").value)
    else Ok(Member(r.body, "response"))
  }
}
