/** What the browser's `fetch` can yield, the requests the front end issues,
    and the result record every transport helper resolves to. */
module Http {
  import opened Common
  import opened Text

  /** The outcome of `await response.json()` on an OK response: a parsed
      object (only its `path` field is ever read), or a parse failure whose
      message becomes the caught error's message. */
  datatype Body = Json(pathField: Option<string>) | Malformed(reason: string)

  /** One `fetch` call: an OK response (`response.ok`), a non-OK response
      with its status and status text, or a rejected promise (a network
      error) carrying the error's message. */
  datatype FetchOutcome =
    | Ok(body: Body)
    | HttpError(status: nat, statusText: string)
    | Exception(message: string)

  /** The requests the front end sends. */
  datatype Request =
    | ClearRequest                               // POST /api/clear-workspace
    | CopyRequest(file: File, destination: string) // POST /api/copy-to-workspace
    | UploadRequest(url: string, file: File)     // POST /api/conversations/{id}/upload-dataset

  /** `{ success, path, error? }`. */
  datatype TransportResult = TransportResult(success: bool, path: string, error: Option<string>)

  /** `{ success, error? }`, the result of clearing the workspace. */
  datatype ClearResult = ClearResult(success: bool, error: Option<string>)

  /** The failure record every helper returns: no path. */
  function Failure(error: string): (r: TransportResult)
    ensures !r.success && r.path == "" && r.error == Some(error)
  {
    TransportResult(false, "", Some(error))
  }

  /** The error text for a non-OK response:
      `${what}: ${response.statusText} (${response.status})`. */
  function StatusError(what: string, status: nat, statusText: string): (e: string)
    ensures EndsWith(e, " (" + NatToDecimal(status) + ")")
  {
    what + ": " + statusText + " (" + NatToDecimal(status) + ")"
  }

  /** The error text names both the status text and the status code. */
  lemma StatusErrorMentions(what: string, status: nat, statusText: string)
    ensures Contains(StatusError(what, status, statusText), statusText)
    ensures Contains(StatusError(what, status, statusText), NatToDecimal(status))
  {
    var d := NatToDecimal(status);
    ContainsInfix(what + ": ", statusText, " (" + d + ")");
    assert what + ": " + statusText + (" (" + d + ")") == StatusError(what, status, statusText);
    ContainsInfix(what + ": " + statusText + " (", d, ")");
  }

  /** The try/catch shape every transport helper shares: an OK response
      with a readable body succeeds with `path`; a non-OK response fails
      with the status error; a thrown error (a network failure, or a body
      that is not JSON) fails with its message. No outcome makes the
      helper reject, and a failure never carries a path. */
  function Normalise(what: string, reply: FetchOutcome, path: string): (r: TransportResult)
    ensures r.success <==> reply.Ok? && reply.body.Json?
    ensures r.success ==> r.path == path && r.error == None
    ensures !r.success ==> r.path == "" && r.error.Some?
    ensures reply.HttpError? ==> r.error == Some(StatusError(what, reply.status, reply.statusText))
    ensures reply.Exception? ==> r.error == Some(reply.message)
    ensures reply.Ok? && reply.body.Malformed? ==> r.error == Some(reply.body.reason)
  {
    match reply
    case HttpError(status, statusText) => Failure(StatusError(what, status, statusText))
    case Exception(message) => Failure(message)
    case Ok(Malformed(reason)) => Failure(reason)
    case Ok(Json(_)) => TransportResult(true, path, None)
  }

  /** The status code travels intact through the error text: the digits
      between the last " (" and the closing ")" read back as the status. */
  lemma StatusRecoverable(what: string, status: nat, statusText: string)
    ensures var e := StatusError(what, status, statusText);
      var d := NatToDecimal(status);
      ParseDecimal(e[|e| - |d| - 1 .. |e| - 1]) == status
  {
    var e := StatusError(what, status, statusText);
    var d := NatToDecimal(status);
    assert e[|e| - |d| - 1 .. |e| - 1] == d;
    DecimalRoundTrip(status);
  }
}
