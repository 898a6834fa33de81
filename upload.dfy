/**
 * Uploading local files to a task's webhook
 * (`AparaviClient.send_payload_to_webhook`).
 *
 * The file system and the network are inputs: `matches` is what the glob
 * expands to, in order, each file with its bytes and the media type
 * `mimetypes.guess_type` guesses for its path; `reply` is what the single
 * PUT request gets back.
 */
module Upload {
  import opened Json
  import opened Exceptions
  import opened Client

  newtype Byte = b: int | 0 <= b < 256

  /** A file matched by the glob. */
  datatype LocalFile = LocalFile(path: string, content: seq<Byte>, guessedType: Option<string>)

  /** One part of a multipart upload: form field, file name, bytes, media type. */
  datatype Part = Part(field: string, filename: string, content: seq<Byte>, contentType: string)

  /** The body of the PUT: a multipart form, or the raw bytes of a single file. */
  datatype Body = Multipart(parts: seq<Part>) | Raw(content: seq<Byte>)

  /** A webhook request; it is sent with `requests.put`, outside the client's session. */
  datatype WebhookRequest = WebhookRequest(
    url: string,
    params: seq<(string, Json)>,
    headers: seq<(string, string)>,
    body: Body,
    timeout: int)

  /** The outcome of an upload together with the requests it sent. */
  datatype Sending = Sending(result: Result<seq<Json>>, sent: seq<WebhookRequest>)

  /** `os.path.basename`: what follows the last '/'. */
  function Basename(path: string): (r: string)
    ensures '/' !in r
    ensures exists k | 0 <= k <= |path| :: path[k..] == r && (k == 0 || path[k - 1] == '/')
  {
    if path == [] then
      assert path[0..] == [];
      []
    else if path[|path| - 1] == '/' then
      assert path[|path|..] == [];
      []
    else
      var r := Basename(path[..|path| - 1]);
      var k :| 0 <= k <= |path| - 1 && path[..|path| - 1][k..] == r && (k == 0 || path[..|path| - 1][k - 1] == '/');
      assert path[k..] == r + [path[|path| - 1]];
      r + [path[|path| - 1]]
  }

  /** `mimetypes.guess_type(path)[0] or "application/octet-stream"`. */
  function ContentType(f: LocalFile): (r: string)
    ensures r != []
    ensures f.guessedType.Some? && f.guessedType.value != [] ==> r == f.guessedType.value
    ensures !(f.guessedType.Some? && f.guessedType.value != []) ==> r == "application/octet-stream"
  {
    if f.guessedType.Some? && f.guessedType.value != [] then f.guessedType.value
    else "application/octet-stream"
  }

  /** The multipart part of one file. */
  function PartOf(f: LocalFile): Part
  {
    Part("files", Basename(f.path), f.content, ContentType(f))
  }

  /** The parts of a multipart upload: one per file, in glob order. */
  function PartsOf(files: seq<LocalFile>): (r: seq<Part>)
    ensures |r| == |files|
    ensures forall i | 0 <= i < |files| :: r[i] == PartOf(files[i])
  {
    if files == [] then [] else [PartOf(files[0])] + PartsOf(files[1..])
  }

  function WebhookUrl(c: AparaviClient): string
  {
    c.baseUrl + "/webhook"
  }

  function BearerHeader(c: AparaviClient): (string, string)
  {
    ("Authorization", "Bearer " + c.apiKey)
  }

  /** The PUT request for the matched files (at least one). */
  function UploadRequest(c: AparaviClient, token: Json, taskType: Json, matches: seq<LocalFile>): (r: WebhookRequest)
    requires matches != []
    ensures r.url == WebhookUrl(c) && r.params == [("token", token), ("type", taskType)]
    ensures r.timeout == c.timeout && |r.headers| >= 1 && r.headers[0] == BearerHeader(c)
    ensures |matches| > 1 <==> r.body.Multipart?
    // several files: one part per file, in glob order, and only the bearer header
    ensures |matches| > 1 ==> r.headers == [BearerHeader(c)] && r.body.parts == PartsOf(matches)
    // one file: its raw bytes, announced by type and by file name
    ensures |matches| == 1 ==> r.body == Raw(matches[0].content) && |r.headers| == 3
                               && r.headers[1] == ("Content-Type", ContentType(matches[0]))
                               && r.headers[2] == ("Content-Disposition",
                                                   "attachment; filename=\"" + Basename(matches[0].path) + "\"")
  {
    var params := [("token", token), ("type", taskType)];
    if |matches| > 1 then
      WebhookRequest(WebhookUrl(c), params, [BearerHeader(c)], Multipart(PartsOf(matches)), c.timeout)
    else
      var f := matches[0];
      var headers := [BearerHeader(c),
                      ("Content-Type", ContentType(f)),
                      ("Content-Disposition", "attachment; filename=\"" + Basename(f.path) + "\"")];
      WebhookRequest(WebhookUrl(c), params, headers, Raw(f.content), c.timeout)
  }

  /**
   * A `requests` exception caught by the `except` clause: `str(e)` and
   * `e.response`.
   */
  datatype RequestFailure = RequestFailure(text: string, response: Option<HttpOutcome>)

  /** `Response.__bool__`, which is `Response.ok`: no status in [400, 600). */
  predicate ResponseOk(reply: HttpOutcome)
    requires reply.Response?
  {
    !(400 <= reply.code < 600)
  }

  /** `str(HTTPError)` as `raise_for_status` words it. */
  function HttpErrorText(code: int, reason: string, url: string): string
  {
    IntToString(code) + (if code < 500 then " Client Error: " else " Server Error: ") + reason + " for url: " + url
  }

  /**
   * The exception `raise_for_status()` or `response.json()` raises, if any:
   * a transport failure carries no response, an error status carries the
   * (falsy) response, a body that is not JSON carries none.
   */
  function Failure(reply: HttpOutcome, url: string): (r: Option<RequestFailure>)
    ensures r.None? <==> reply.Response? && ResponseOk(reply) && reply.body.Parsed?
    ensures r.Some? && r.value.response.Some? ==> reply.Response? && !ResponseOk(reply) && r.value.response == Some(reply)
    // what `str(e)` says: the transport's description, the HTTPError's text, or the decoder's
    ensures reply.NetworkFailure? ==> r == Some(RequestFailure(reply.description, None))
    ensures reply.Response? && !ResponseOk(reply)
            ==> r == Some(RequestFailure(HttpErrorText(reply.code, reply.reason, url), Some(reply)))
    ensures reply.Response? && ResponseOk(reply) && reply.body.Unparseable?
            ==> r == Some(RequestFailure(reply.body.detail, None))
  {
    match reply
    case NetworkFailure(d) => Some(RequestFailure(d, None))
    case Response(code, reason, _, body) =>
      if 400 <= code < 600 then Some(RequestFailure(HttpErrorText(code, reason, url), Some(reply)))
      else if body.Unparseable? then Some(RequestFailure(body.detail, None))
      else None
  }

  /** The `except` clause as written: `if e.response:` tests the response's truthiness. */
  function WebhookErrorAsWritten(e: RequestFailure): (r: Exception)
    ensures r.kind == AparaviError
    // the status is reported only for a truthy response, i.e. one outside 400 to 599
    ensures e.response.Some? && e.response.value.Response? && ResponseOk(e.response.value)
            ==> r.message == "Webhook failed: Server responded with status "
                             + IntToString(e.response.value.code) + " - " + e.response.value.text
    // no response, or an error response: the exception's own text
    ensures e.response.None? || (e.response.value.Response? && !ResponseOk(e.response.value))
            ==> r.message == "Error sending to webhook: " + e.text
  {
    if e.response.Some? && e.response.value.Response? && ResponseOk(e.response.value) then
      Exception(AparaviError, "Webhook failed: Server responded with status "
                              + IntToString(e.response.value.code) + " - " + e.response.value.text)
    else Exception(AparaviError, "Error sending to webhook: " + e.text)
  }

  /** The `except` clause as intended: `if e.response is not None:`. */
  function WebhookError(e: RequestFailure): Exception
  {
    if e.response.Some? && e.response.value.Response? then
      Exception(AparaviError, "Webhook failed: Server responded with status "
                              + IntToString(e.response.value.code) + " - " + e.response.value.text)
    else Exception(AparaviError, "Error sending to webhook: " + e.text)
  }

  /** `send_payload_to_webhook` as written. */
  function SendPayload(c: AparaviClient, token: Json, taskType: Json, fileGlob: string,
                       matches: seq<LocalFile>, reply: HttpOutcome): (x: Sending)
    // nothing matched: ValueError before any request
    ensures matches == [] <==> x.sent == []
    ensures matches == [] ==> x.result == Err(Exception(ValueError, "No files matched pattern: " + fileGlob))
    // otherwise exactly one PUT, and one response on success
    ensures matches != [] ==> x.sent == [UploadRequest(c, token, taskType, matches)]
    ensures x.result.Ok? <==> matches != [] && reply.Response? && ResponseOk(reply) && reply.body.Parsed?
    ensures x.result.Ok? ==> x.result.value == [reply.body.json]
    // every failure of the request is reported by the text of the exception
    ensures matches != [] && Failure(reply, WebhookUrl(c)).Some?
            ==> x.result == Err(Exception(AparaviError, "Error sending to webhook: " + Failure(reply, WebhookUrl(c)).value.text))
    // in particular an error status is reported as the HTTPError's text, not by its status and body
    ensures matches != [] && reply.Response? && 400 <= reply.code < 600
            ==> x.result == Err(Exception(AparaviError, "Error sending to webhook: "
                                                        + HttpErrorText(reply.code, reply.reason, WebhookUrl(c))))
  {
    if matches == [] then Sending(Err(Exception(ValueError, "No files matched pattern: " + fileGlob)), [])
    else
      var request := UploadRequest(c, token, taskType, matches);
      match Failure(reply, WebhookUrl(c))
      case Some(e) => Sending(Err(WebhookErrorAsWritten(e)), [request])
      case None => Sending(Ok([reply.body.json]), [request])
  }

  /**
   * `send_payload_to_webhook` with the intended `except` clause: the same
   * request and the same outcome, except that a failure carrying a response
   * is reported by that response's status and body.
   */
  function SendPayloadIntended(c: AparaviClient, token: Json, taskType: Json, fileGlob: string,
                               matches: seq<LocalFile>, reply: HttpOutcome): (x: Sending)
    ensures x.sent == SendPayload(c, token, taskType, fileGlob, matches, reply).sent
    ensures x.result.Ok? <==> SendPayload(c, token, taskType, fileGlob, matches, reply).result.Ok?
    ensures x.result.Ok? ==> x.result == SendPayload(c, token, taskType, fileGlob, matches, reply).result
    ensures matches != [] && x.result.Err? ==> x.result.exc.kind == AparaviError
    // everything but an error status goes exactly as in the code as written
    ensures !(matches != [] && reply.Response? && 400 <= reply.code < 600)
            ==> x == SendPayload(c, token, taskType, fileGlob, matches, reply)
    // an error status is reported with the status code and the body's text
    ensures matches != [] && reply.Response? && 400 <= reply.code < 600
            ==> x.result == Err(Exception(AparaviError, "Webhook failed: Server responded with status "
                                                        + IntToString(reply.code) + " - " + reply.text))
  {
    var written := SendPayload(c, token, taskType, fileGlob, matches, reply);
    var failure := Failure(reply, WebhookUrl(c));
    if matches != [] && failure.Some? then Sending(Err(WebhookError(failure.value)), written.sent)
    else written
  }

  /** `AparaviClient.send_payload_to_webhook`: builds the parts file by file. */
  method SendPayloadToWebhook(c: AparaviClient, token: Json, taskType: Json, fileGlob: string,
                              matches: seq<LocalFile>, reply: HttpOutcome)
    returns (result: Result<seq<Json>>, sent: seq<WebhookRequest>)
    ensures Sending(result, sent) == SendPayload(c, token, taskType, fileGlob, matches, reply)
  {
    if |matches| == 0 {
      result := Err(Exception(ValueError, "No files matched pattern: " + fileGlob));
      sent := [];
      return;
    }
    var url := c.baseUrl + "/webhook";
    var headers := [("Authorization", "Bearer " + c.apiKey)];
    var params := [("token", token), ("type", taskType)];
    var request;
    if |matches| > 1 {
      var parts: seq<Part> := [];
      for i := 0 to |matches|
        invariant |parts| == i
        invariant forall j | 0 <= j < i :: parts[j] == PartOf(matches[j])
      {
        var f := matches[i];
        var filename := Basename(f.path);
        parts := parts + [Part("files", filename, f.content, ContentType(f))];
      }
      assert parts == PartsOf(matches);
      request := WebhookRequest(url, params, headers, Multipart(parts), c.timeout);
    } else {
      var f := matches[0];
      var filename := Basename(f.path);
      headers := headers + [("Content-Type", ContentType(f)),
                            ("Content-Disposition", "attachment; filename=\"" + filename + "\"")];
      request := WebhookRequest(url, params, headers, Raw(f.content), c.timeout);
    }
    assert request == UploadRequest(c, token, taskType, matches);
    sent := [request];
    var failure := Failure(reply, url);
    if failure.Some? {
      result := Err(WebhookErrorAsWritten(failure.value));
    } else {
      result := Ok([reply.body.json]);
    }
  }

  /**
   * As written, the `if e.response:` branch is never taken for the failures
   * modelled here: the one among them carrying a response is the HTTPError
   * of a 4xx or 5xx reply, whose response is falsy, so every such failure is
   * reported as "Error sending to webhook" and the status code and body
   * never reach the message.
   */
  lemma AsWrittenNeverReportsStatus(reply: HttpOutcome, url: string)
    requires Failure(reply, url).Some?
    ensures WebhookErrorAsWritten(Failure(reply, url).value).message
            == "Error sending to webhook: " + Failure(reply, url).value.text
  {
  }

  /** The intended report of an error status names the status and the body. */
  lemma ErrorStatusReported(reply: HttpOutcome, url: string)
    requires reply.Response? && 400 <= reply.code < 600
    ensures Failure(reply, url).Some?
    ensures WebhookError(Failure(reply, url).value)
            == Exception(AparaviError, "Webhook failed: Server responded with status "
                                       + IntToString(reply.code) + " - " + reply.text)
  {
  }

  /**
   * A 404 from the webhook: as written the report is the HTTPError's text;
   * as intended it names the status and the server's explanation.
   */
  lemma NotFoundReplyReports()
    ensures var reply := Response(404, "Not Found", "no such task", Parsed(JNull));
            var e := Failure(reply, "http://host/webhook").value;
            && WebhookErrorAsWritten(e).message
               == "Error sending to webhook: " + HttpErrorText(404, "Not Found", "http://host/webhook")
            && WebhookError(e).message == "Webhook failed: Server responded with status " + "404" + " - " + "no such task"
  {
    var reply := Response(404, "Not Found", "no such task", Parsed(JNull));
    assert IntToString(404) == "404" by {
      assert NatToString(4) == "4";
      assert NatToString(40) == "40";
    }
    assert Failure(reply, "http://host/webhook").value.response == Some(reply);
  }
}
