/**
 * The REST client: how one HTTP reply is classified into a parsed body or an
 * exception, and the straight-line operations built on it (pipeline
 * validation, task status, task end, task creation).
 *
 * The network is not modelled: every operation receives the reply its request
 * gets as an argument, and reports the requests it would send.
 */
module Client {
  import opened Json
  import opened Exceptions
  import opened Models

  /** The client's configuration, fixed at construction. */
  datatype AparaviClient = AparaviClient(baseUrl: string, apiKey: string, timeout: int, logs: string)

  /** `s.rstrip('/')`. */
  function RStripSlashes(s: string): (r: string)
    ensures r <= s
    ensures r == [] || r[|r| - 1] != '/'
    ensures forall i | |r| <= i < |s| :: s[i] == '/'
  {
    if s == [] || s[|s| - 1] != '/' then s else RStripSlashes(s[..|s| - 1])
  }

  /** `AparaviClient.__init__`: trailing slashes are stripped off the base URL. */
  function NewClient(baseUrl: string, apiKey: string, timeout: int, logs: string): (c: AparaviClient)
    ensures c.baseUrl <= baseUrl
    ensures c.baseUrl == [] || c.baseUrl[|c.baseUrl| - 1] != '/'
    ensures forall i | |c.baseUrl| <= i < |baseUrl| :: baseUrl[i] == '/'
    ensures c.apiKey == apiKey && c.timeout == timeout && c.logs == logs
  {
    AparaviClient(RStripSlashes(baseUrl), apiKey, timeout, logs)
  }

  /** The headers the client's session adds to every request. */
  function SessionHeaders(c: AparaviClient): seq<(string, string)>
  {
    [("Authorization", "Bearer " + c.apiKey), ("Content-Type", "application/json")]
  }

  /** A request as handed to the HTTP session. */
  datatype Request = Request(
    verb: string,
    url: string,
    headers: seq<(string, string)>,
    params: seq<(string, Json)>,
    json: Option<Json>)

  function ApiRequest(c: AparaviClient, verb: string, endpoint: string,
                      params: seq<(string, Json)>, json: Option<Json>): Request
  {
    Request(verb, c.baseUrl + endpoint, SessionHeaders(c), params, json)
  }

  function ValidateRequest(c: AparaviClient, pipeline: Json): Request
  {
    ApiRequest(c, "POST", "/pipe/validate", [], Some(pipeline))
  }

  function StatusRequest(c: AparaviClient, token: Json, taskType: Json): Request
  {
    ApiRequest(c, "GET", "/task", [("token", token), ("type", taskType)], None)
  }

  /** The query of `PUT /task`: `name` and `threads` only when truthy. */
  function CreateParams(name: Option<string>, threads: Option<int>): seq<(string, Json)>
  {
    (if name.Some? && name.value != "" then [("name", JStr(name.value))] else [])
    + (if threads.Some? && threads.value != 0 then [("threads", JNum(threads.value))] else [])
  }

  function CreateRequest(c: AparaviClient, pipeline: Json, name: Option<string>, threads: Option<int>): Request
  {
    ApiRequest(c, "PUT", "/task", CreateParams(name, threads), Some(pipeline))
  }

  /** What decoding the body as JSON gives. */
  datatype Parse = Parsed(json: Json) | Unparseable(detail: string)

  /** What the HTTP layer hands back: a transport failure, or a response. */
  datatype HttpOutcome =
    | NetworkFailure(description: string)
    | Response(code: int, reason: string, text: string, body: Parse)

  /**
   * `response.json().get('error', {}).get('message', '')` when every step
   * succeeds and yields a string; None where Python raises ValueError or
   * AttributeError (which the 500 branch swallows) or the message is not a
   * string.
   */
  function ServerErrorMessage(body: Parse): Option<string>
  {
    if body.Unparseable? || !body.json.JObj? then None
    else
      var err := GetOr(body.json.entries, "error", JObj([]));
      if !err.JObj? then None
      else
        var msg := GetOr(err.entries, "message", JStr(""));
        if msg.JStr? then Some(msg.s) else None
  }

  /** The 500 branch's heuristic: the server's error message mentions "not found". */
  predicate ReportsNotFound(body: Parse)
  {
    var m := ServerErrorMessage(body);
    m.Some? && Contains(Lower(m.value), "not found")
  }

  /** `AparaviClient._make_request`: classification of one HTTP reply. */
  function MakeRequest(reply: HttpOutcome): (r: Result<Json>)
    ensures r.Ok? <==> reply.Response? && reply.code < 400 && reply.body.Parsed?
    ensures r.Ok? ==> r.value == reply.body.json
    ensures r.Err? ==> r.exc.kind.IsAparaviError()
    ensures r.Err? && r.exc.kind == AuthenticationError <==> reply.Response? && reply.code == 401
    ensures reply.Response? && reply.code == 401
            ==> r == Err(Exception(AuthenticationError, "Invalid API key or authentication failed"))
    ensures r.Err? && r.exc.kind == ValidationError <==> reply.Response? && reply.code == 422
    ensures reply.Response? && reply.code == 422 ==> r == Err(Exception(ValidationError, "Validation error: " + reply.text))
    ensures r.Err? && r.exc.kind == TaskNotFoundError
            <==> reply.Response? && reply.code == 500 && ReportsNotFound(reply.body)
    ensures r.Err? && r.exc.kind == TaskNotFoundError ==> r.exc.message == ServerErrorMessage(reply.body).value
    ensures reply.Response? && reply.code >= 400 && reply.code !in {401, 422}
            && !(reply.code == 500 && ReportsNotFound(reply.body))
            ==> r == Err(Exception(AparaviError, "API error " + IntToString(reply.code) + ": " + reply.text))
    ensures reply.NetworkFailure? ==> r == Err(Exception(AparaviError, "Request failed: " + reply.description))
    // a successful status whose body does not decode
    ensures reply.Response? && reply.code < 400 && reply.body.Unparseable?
            ==> r == Err(Exception(AparaviError, "Request failed: " + reply.body.detail))
  {
    match reply
    case NetworkFailure(d) => Err(Exception(AparaviError, "Request failed: " + d))
    case Response(code, _, text, body) =>
      if code == 401 then Err(Exception(AuthenticationError, "Invalid API key or authentication failed"))
      else if code == 422 then Err(Exception(ValidationError, "Validation error: " + text))
      else if code == 500 && ReportsNotFound(body) then Err(Exception(TaskNotFoundError, ServerErrorMessage(body).value))
      else if code >= 400 then Err(Exception(AparaviError, "API error " + IntToString(code) + ": " + text))
      else match body
        // a body that does not decode raises requests' JSONDecodeError, a RequestException
        case Unparseable(d) => Err(Exception(AparaviError, "Request failed: " + d))
        case Parsed(j) => Ok(j)
  }

  /**
   * `_make_request` followed by wrapping the body into a `ResultBase`. The
   * request's exceptions are the Aparavi ones; the wrapping's are built-in.
   */
  function Fetch(reply: HttpOutcome): (r: Result<ResultBase>)
    ensures r.Ok? ==> && reply.Response? && reply.code < 400 && reply.body.Parsed? && reply.body.json.JObj?
                      && Lookup(reply.body.json.entries, "status") == Some(r.value.status)
    ensures MakeRequest(reply).Err? ==> r == Err(MakeRequest(reply).exc)
    ensures r.Err? && MakeRequest(reply).Ok? ==> !r.exc.kind.IsAparaviError()
    // a decoded dictionary with `status` is an envelope, its fields read with `get`
    ensures r.Ok? <==> MakeRequest(reply).Ok? && reply.body.json.JObj? && Lookup(reply.body.json.entries, "status").Some?
    ensures r.Ok? ==> && r.value.data == GetOr(reply.body.json.entries, "data", JNull)
                      && r.value.error == GetOr(reply.body.json.entries, "error", JNull)
                      && r.value.metrics == GetOr(reply.body.json.entries, "metrics", JNull)
  {
    match MakeRequest(reply)
    case Err(e) => Err(e)
    case Ok(body) => Envelope(body)
  }

  /** `'not found' in str(result.error).lower()`. */
  predicate ErrorSaysNotFound(rb: ResultBase)
  {
    Contains(Lower(Str(rb.error)), "not found")
  }

  /** `AparaviClient.validate_pipe`. */
  function ValidatePipe(reply: HttpOutcome): (r: Result<ResultBase>)
    ensures r.Ok? <==> Fetch(reply).Ok? && !IsError(Fetch(reply).value)
    ensures r.Ok? ==> r.value == Fetch(reply).value
    ensures r.Err? && r.exc.kind == PipelineError <==> Fetch(reply).Ok? && IsError(Fetch(reply).value)
    ensures Fetch(reply).Ok? && IsError(Fetch(reply).value)
            ==> r == Err(Exception(PipelineError, "Pipeline validation failed: " + Str(Fetch(reply).value.error)))
    ensures Fetch(reply).Err? ==> r == Fetch(reply)
  {
    match Fetch(reply)
    case Err(e) => Err(e)
    case Ok(rb) =>
      if IsError(rb) then Err(Exception(PipelineError, "Pipeline validation failed: " + Str(rb.error)))
      else Ok(rb)
  }

  /** `AparaviClient.get_task_status`. */
  function GetTaskStatus(reply: HttpOutcome): (r: Result<ResultBase>)
    ensures r.Ok? <==> Fetch(reply).Ok? && !IsError(Fetch(reply).value)
    ensures r.Ok? ==> r.value == Fetch(reply).value
    ensures r.Err? && r.exc.kind == TaskNotFoundError
            <==> (Fetch(reply).Err? && Fetch(reply).exc.kind == TaskNotFoundError)
                 || (Fetch(reply).Ok? && IsError(Fetch(reply).value) && ErrorSaysNotFound(Fetch(reply).value))
    ensures Fetch(reply).Ok? && IsError(Fetch(reply).value) && !ErrorSaysNotFound(Fetch(reply).value)
            ==> r == Err(Exception(AparaviError, "Failed to get task status: " + Str(Fetch(reply).value.error)))
    ensures Fetch(reply).Ok? && IsError(Fetch(reply).value) && ErrorSaysNotFound(Fetch(reply).value)
            ==> r == Err(Exception(TaskNotFoundError, "Task not found: " + Str(Fetch(reply).value.error)))
    // a failed request (authentication, validation, HTTP error, transport) propagates unchanged
    ensures Fetch(reply).Err? ==> r == Fetch(reply)
  {
    match Fetch(reply)
    case Err(e) => Err(e)
    case Ok(rb) =>
      if IsError(rb) then
        if ErrorSaysNotFound(rb) then Err(Exception(TaskNotFoundError, "Task not found: " + Str(rb.error)))
        else Err(Exception(AparaviError, "Failed to get task status: " + Str(rb.error)))
      else Ok(rb)
  }

  /** `AparaviClient.end_task`. */
  function EndTask(reply: HttpOutcome): (r: Result<ResultBase>)
    ensures r.Ok? <==> Fetch(reply).Ok? && !IsError(Fetch(reply).value)
    ensures r.Ok? ==> r.value == Fetch(reply).value
    ensures r.Err? && r.exc.kind == TaskNotFoundError
            <==> (Fetch(reply).Err? && Fetch(reply).exc.kind == TaskNotFoundError)
                 || (Fetch(reply).Ok? && IsError(Fetch(reply).value) && ErrorSaysNotFound(Fetch(reply).value))
    ensures Fetch(reply).Ok? && IsError(Fetch(reply).value) && !ErrorSaysNotFound(Fetch(reply).value)
            ==> r == Err(Exception(AparaviError, "Failed to end task: " + Str(Fetch(reply).value.error)))
    ensures Fetch(reply).Ok? && IsError(Fetch(reply).value) && ErrorSaysNotFound(Fetch(reply).value)
            ==> r == Err(Exception(TaskNotFoundError, "Task not found: " + Str(Fetch(reply).value.error)))
    // a failed request (authentication, validation, HTTP error, transport) propagates unchanged
    ensures Fetch(reply).Err? ==> r == Fetch(reply)
  {
    match Fetch(reply)
    case Err(e) => Err(e)
    case Ok(rb) =>
      if IsError(rb) then
        if ErrorSaysNotFound(rb) then Err(Exception(TaskNotFoundError, "Task not found: " + Str(rb.error)))
        else Err(Exception(AparaviError, "Failed to end task: " + Str(rb.error)))
      else Ok(rb)
  }

  /**
   * An error envelope whose `error.message` mentions "not found" is reported
   * as TaskNotFoundError by the status check: the envelope heuristic agrees
   * with the HTTP 500 heuristic on the server's usual error shape.
   */
  lemma StatusNotFoundFromMessage(reply: HttpOutcome, entries: seq<Entry>, message: string)
    requires Fetch(reply).Ok? && IsError(Fetch(reply).value)
    requires Fetch(reply).value.error == JObj(entries)
    requires Lookup(entries, "message") == Some(JStr(message))
    requires Contains(Lower(message), "not found")
    ensures GetTaskStatus(reply).Err? && GetTaskStatus(reply).exc.kind == TaskNotFoundError
    ensures EndTask(reply).Err? && EndTask(reply).exc.kind == TaskNotFoundError
  {
    DictStrShowsEntryString(entries, "message", message, "not found");
  }

  /** A created task as the server identifies it. */
  datatype Task = Task(token: Json, taskType: Json)

  /** The outcome of a call together with the requests it sent, in order. */
  datatype Exchange<+T> = Exchange(result: Result<T>, sent: seq<Request>)

  /** The `threads` range check; a falsy value (None or 0) is not checked. */
  predicate ThreadsAccepted(threads: Option<int>)
  {
    threads.None? || threads.value == 0 || 1 <= threads.value <= 16
  }

  /**
   * `if not data or 'token' not in data or 'type' not in data` followed by
   * `data['token']`, `data['type']`: a list or string passes the membership
   * tests when it contains both words, and then cannot be subscripted by a
   * string.
   */
  function TaskFromData(data: Json): (r: Result<Task>)
    ensures r.Ok? <==> data.JObj? && Lookup(data.entries, "token").Some? && Lookup(data.entries, "type").Some?
    ensures r.Ok? ==> Lookup(data.entries, "token") == Some(r.value.token)
                      && Lookup(data.entries, "type") == Some(r.value.taskType)
    // a falsy `data`, or a dictionary lacking either key, is the server's fault
    ensures !Truthy(data) || (data.JObj? && r.Err?)
            ==> r == Err(Exception(AparaviError, "Server response missing required token or type"))
    // otherwise only Python's own TypeError can escape
    ensures r.Err? && r.exc.kind != AparaviError ==> r.exc.kind == TypeError && (data.JArr? || data.JStr? || data.JNum? || data.JBool?)
  {
    var missing := Err(Exception(AparaviError, "Server response missing required token or type"));
    if !Truthy(data) then missing
    else match data
      case JObj(es) =>
        if Lookup(es, "token").Some? && Lookup(es, "type").Some?
        then Ok(Task(Lookup(es, "token").value, Lookup(es, "type").value))
        else missing
      case JArr(items) =>
        if JStr("token") in items && JStr("type") in items
        then Err(Exception(TypeError, "list indices must be integers or slices, not str"))
        else missing
      case JStr(s) =>
        if Contains(s, "token") && Contains(s, "type")
        then Err(Exception(TypeError, "string indices must be integers"))
        else missing
      case JNum(_) => Err(Exception(TypeError, "argument of type 'int' is not iterable"))
      case JBool(_) => Err(Exception(TypeError, "argument of type 'bool' is not iterable"))
  }

  /**
   * `AparaviClient.execute_pipeline`: validate, range-check `threads`, then
   * `PUT /task` and read the server-assigned token and type.
   */
  function ExecutePipeline(c: AparaviClient, pipeline: Json, name: Option<string>, threads: Option<int>,
                           validateReply: HttpOutcome, createReply: HttpOutcome): (x: Exchange<Task>)
    // validation is always the first request, and there are at most two
    ensures 1 <= |x.sent| <= 2 && x.sent[0] == ValidateRequest(c, pipeline)
    // the task is created only after a successful validation and an accepted thread count
    ensures |x.sent| == 2 <==> ValidatePipe(validateReply).Ok? && ThreadsAccepted(threads)
    ensures |x.sent| == 2 ==> x.sent[1] == CreateRequest(c, pipeline, name, threads)
    ensures ValidatePipe(validateReply).Err? ==> x.result == Err(ValidatePipe(validateReply).exc)
    ensures ValidatePipe(validateReply).Ok? && !ThreadsAccepted(threads)
            ==> x.result == Err(Exception(ValueError, "Threads must be between 1 and 16"))
    // a failed create request propagates unchanged (a 401 is AuthenticationError)
    ensures |x.sent| == 2 && Fetch(createReply).Err? ==> x.result == Err(Fetch(createReply).exc)
    // an 'Error' envelope from the create call is a plain AparaviError
    ensures |x.sent| == 2 && Fetch(createReply).Ok? && IsError(Fetch(createReply).value)
            ==> x.result == Err(Exception(AparaviError, "Task execution failed: " + Str(Fetch(createReply).value.error)))
    // any other envelope is read for the token and type
    ensures |x.sent| == 2 && Fetch(createReply).Ok? && !IsError(Fetch(createReply).value)
            ==> x.result == TaskFromData(Fetch(createReply).value.data)
    // success returns exactly what the server put under data.token and data.type
    ensures x.result.Ok? <==>
              |x.sent| == 2 && Fetch(createReply).Ok? && !IsError(Fetch(createReply).value)
              && TaskFromData(Fetch(createReply).value.data).Ok?
    ensures x.result.Ok? ==> x.result == TaskFromData(Fetch(createReply).value.data)
  {
    var validated := ValidatePipe(validateReply);
    var sent := [ValidateRequest(c, pipeline)];
    if validated.Err? then Exchange(Err(validated.exc), sent)
    else if !ThreadsAccepted(threads) then
      Exchange(Err(Exception(ValueError, "Threads must be between 1 and 16")), sent)
    else
      var sent := sent + [CreateRequest(c, pipeline, name, threads)];
      match Fetch(createReply)
      case Err(e) => Exchange(Err(e), sent)
      case Ok(rb) =>
        if IsError(rb) then Exchange(Err(Exception(AparaviError, "Task execution failed: " + Str(rb.error))), sent)
        else Exchange(TaskFromData(rb.data), sent)
  }

  /**
   * Task creation with a bad API key: once the pipeline validated, a 401 on
   * `PUT /task` raises AuthenticationError, whatever the body says.
   */
  lemma RejectedKeyOnCreate(c: AparaviClient, pipeline: Json, name: Option<string>, threads: Option<int>,
                            validateReply: HttpOutcome, reason: string, text: string, body: Parse)
    requires ValidatePipe(validateReply).Ok? && ThreadsAccepted(threads)
    ensures var x := ExecutePipeline(c, pipeline, name, threads, validateReply, Response(401, reason, text, body));
            && x.sent == [ValidateRequest(c, pipeline), CreateRequest(c, pipeline, name, threads)]
            && x.result == Err(Exception(AuthenticationError, "Invalid API key or authentication failed"))
  {
  }
}
