# Aparavi document-processing core, in Dafny

This project models the decision core of the Aparavi MCP integration server. That server exposes Aparavi's remote document processing as tools. The model covers the following parts:

- the REST client's classification of HTTP replies and of the server's `{status, data, error, metrics}` envelope, when it validates a pipeline, reads or ends a task, or creates one;
- the readiness-polling loop of `wait_for_task_ready`, and task creation followed by polling;
- the shape of the webhook upload request for the files a glob matched, and how its reply or failure is reported;
- `process_response`, which extracts the text from a webhook response;
- insertion of the LlamaParse API key into a pipeline template;
- the two document-processing tools: check the file, create the task and wait, upload, then normalise.

The network, the wall clock and the file system are not modelled. What they deliver is an input instead:

- every HTTP reply, as a status code and a parsed body (or a transport failure);
- the elapsed time before each polling attempt;
- the files a glob expands to, with their bytes and guessed media type;
- whether a path names a file;
- the contents of the pipeline templates.

Operations also report the requests or client calls they make, in order. Python values are the `Json` datatype. A dictionary is an ordered association list, so "the first entry" can be expressed. Exceptions are `Exceptions.Exception(kind, message)`, and every operation that can raise returns `Result`.

Modules:

- `Json`: Python values and the Python semantics the code relies on: `dict.get`, item assignment, truthiness, `str()`, `str.lower()`.
- `Exceptions`: the exception hierarchy.
- `Models`: the response envelope.
- `Client`: the client and its straight-line operations.
- `Polling`: the polling loop, as a method proved against the recursive function `PollFrom`/`Poll`, with lemmas about that function. Also task creation followed by polling.
- `Upload`: the webhook upload. It is a method with a loop, proved against `SendPayload`, which reports failures as the code does. `SendPayloadIntended` is the same upload with the `except` clause corrected (see Findings).
- `Helper`: `process_response`.
- `Facade`: the sequence both tools share.
- `LlamaParse`: key insertion, as a method with a loop and `break` proved against `WithLlamaKey`, plus the LlamaParse tool.
- `DocumentProcessing`: the document-processing tool.

## Behaviour worth noting

- `process_response` has no decoding step.
- Neither tool ever calls `end_task`.
- A tool whose upload returns no response replies `{text: "", status: "failed"}` without raising.

## Model

| member | source | states |
|---|---|---|
| Models.Envelope | integrations/aparavi/client.py:432-437 | A body becomes an envelope exactly when it is a dictionary with a `status`. Its data and error are the `get` values, or None. A non-dictionary body or a missing status raises a built-in error, not an AparaviError. |
| Client.NewClient | integrations/aparavi/client.py:39-47 | The base URL loses exactly its trailing slashes and keeps everything else. Key, timeout and log level are stored as given. |
| Client.MakeRequest | integrations/aparavi/client.py:341-407 | 401 gives exactly AuthenticationError "Invalid API key or authentication failed" and 422 exactly ValidationError "Validation error: <text>", whatever the body. Only status 500 with an `error.message` containing "not found" (any case) gives TaskNotFoundError carrying that message. Any other status of 400 or more gives AparaviError "API error <code>: <text>". A lower status returns the parsed body. A transport failure or an undecodable body gives AparaviError "Request failed: …". Every error is an AparaviError. |
| Client.Fetch | integrations/aparavi/client.py:426-437 | A request followed by `ResultBase(status=response['status'], …)`: an envelope only from a decoded dictionary body with `status` under a status below 400. Conversely, every such body is an envelope, whose data, error and metrics are the body's `get` values (None when absent). A failed request's exception passes through unchanged; the wrapping adds only non-Aparavi (built-in) exceptions. |
| Client.ValidatePipe | integrations/aparavi/client.py:409-444 | An 'Error' envelope always gives PipelineError "Pipeline validation failed: <error>", and nothing else does. Request errors propagate unchanged. Otherwise the envelope is returned. |
| Client.GetTaskStatus | integrations/aparavi/client.py:446-485 | A failed request (AuthenticationError on a 401, ValidationError, TaskNotFoundError, other AparaviError) propagates unchanged. For an 'Error' envelope: TaskNotFoundError "Task not found: <error>" iff `str(error).lower()` contains "not found", otherwise AparaviError "Failed to get task status: <error>". Any other envelope is returned. |
| Client.EndTask | integrations/aparavi/client.py:487-526 | The same classification as `get_task_status`, for `DELETE /task`: failed requests propagate unchanged, an 'Error' envelope gives TaskNotFoundError or AparaviError "Failed to end task: <error>". |
| Client.StatusNotFoundFromMessage | integrations/aparavi/client.py:477-480 | An 'Error' envelope whose `error.message` mentions "not found" is reported as TaskNotFoundError by both status and end. |
| Client.TaskFromData | integrations/aparavi/client.py:281-285 | The result is a task iff `data` is a dictionary holding both `token` and `type`, and it carries exactly those values. A falsy `data` or a dictionary lacking either key gives AparaviError "Server response missing required token or type". Any other failure is Python's TypeError on a non-dictionary `data`. |
| Client.ExecutePipeline | integrations/aparavi/client.py:224-291 | Validation is always the first request. `PUT /task` is sent iff validation succeeded and `threads` is falsy or in [1,16]; otherwise the validation error or ValueError is the result. A failed create request propagates unchanged. An 'Error' envelope gives AparaviError "Task execution failed: <error>". Any other envelope gives exactly `TaskFromData` of its `data`: the server's token and type, or the missing-token error. |
| Client.RejectedKeyOnCreate | integrations/aparavi/client.py:263-268 | After a successful validation, a 401 reply to `PUT /task` makes task creation raise AuthenticationError "Invalid API key or authentication failed", after exactly the two requests. |
| Polling.NotesFailure | integrations/aparavi/client.py:195-196 | Reading `notes[0]` fails exactly when `notes` is truthy and is neither a list nor a string. |
| Polling.Check | integrations/aparavi/client.py:188-207 | A status check gives not-found iff it raised TaskNotFoundError. It gives ready exactly when `data.serviceUp` is truthy and `notes`, if present, can be read; not-ready iff serviceUp is not truthy and `data` is a dictionary or falsy. It breaks with the exception raised: any other failed request's, the AttributeError of `get` on a truthy non-dictionary `data`, or the error of reading `notes[0]` (the wrapping as "Error checking task status: …" is done by `Polling.Raise`). |
| Polling.PollFrom | integrations/aparavi/client.py:181-222 | The loop from attempt i makes at least i checks. When it reports ready, the returned status has its service up. |
| Polling.Poll | integrations/aparavi/client.py:140-222 | A negative initial delay is the ValueError of `time.sleep` with no check and no sleep; otherwise the warm-up sleep comes first. A ready result carries a status whose service is up. Only ValueError, TaskTimeoutError, TaskNotFoundError and AparaviError escape. |
| Polling.WaitForTaskReady | integrations/aparavi/client.py:140-222 | The call returns or raises exactly what `Poll` defines, a negative initial delay included. It sends exactly `Poll`'s number of status checks, each with the given token and type. |
| Polling.Loop | integrations/aparavi/client.py:179-220 | The `for` loop ends exactly as `PollFrom` from attempt 0 says (returning, timing out, task still missing, or a failed check), after exactly its number of checks, each with the given token and type. |
| Polling.Attempt | integrations/aparavi/client.py:188-215 | One attempt either ends the loop as `PollFrom` says after i+1 checks, or is a non-final absorbed attempt. In the second case it leaves the last non-found status as `last_status`. |
| Polling.ContinueStep | integrations/aparavi/client.py:217-220 | A non-final not-ready or not-found attempt is followed by a sleep of initial_delay + 2(i+1), then by the next attempt. |
| Polling.SkipAbsorbed | integrations/aparavi/client.py:201-203 | Absorbed attempts do not affect the outcome. It is decided by the first decisive attempt, whatever statuses came before. |
| Polling.DecisiveIgnoresLast | integrations/aparavi/client.py:193-215 | A decisive attempt's outcome does not depend on the earlier `last_status`. |
| Polling.ReadyOnAttempt | integrations/aparavi/client.py:181-197 | If attempt k is the first whose status has its service up, the call returns (True, status_k) after exactly k+1 checks. |
| Polling.ReadyMeansServiceUp | integrations/aparavi/client.py:193-197 | Whenever the call reports ready, it returns a status whose `serviceUp` is truthy. |
| Polling.NotReadyOnFinalAttempt | integrations/aparavi/client.py:209-215 | A not-ready final attempt returns (False, its status) after max_retries checks, without raising. |
| Polling.NotFoundOnFinalAttempt | integrations/aparavi/client.py:209-213 | Not found on the final attempt raises TaskNotFoundError after max_retries checks, whatever earlier attempts returned. |
| Polling.TimesOutBeforeAttempt | integrations/aparavi/client.py:181-184 | With a truthy timeout and elapsed time past it before attempt k, the call raises TaskTimeoutError. Attempt k is never made, so there are exactly k checks. |
| Polling.AbortsOnOtherError | integrations/aparavi/client.py:205-207 | Any other failure of a status check aborts at once with AparaviError "Error checking task status: …" after k+1 checks. |
| Polling.NoAttempts | integrations/aparavi/client.py:179-222 | With max_retries ≤ 0, the call sleeps initial_delay once and returns (False, None) with no check. |
| Polling.PollFromSleeps | integrations/aparavi/client.py:217-220 | From attempt i, the j-th sleep lasts initial_delay + 2(i+1+j). Checks are counted against sleeps, and never exceed max_retries. |
| Polling.SleepSchedule | integrations/aparavi/client.py:173-220 | The first sleep is initial_delay. Sleep j lasts initial_delay + 2j (linear backoff). There is one sleep per check, plus one when the run stopped before an attempt, and at most max_retries checks. |
| Polling.NoTimeoutFrom | integrations/aparavi/client.py:182 | With timeout None or 0, the loop never ends in a timeout. |
| Polling.NoTimeoutWhenDisabled | integrations/aparavi/client.py:182 | With timeout None or 0, polling never raises TaskTimeoutError. |
| Polling.CreateAndWait | integrations/aparavi/client.py:293-339 | A creation failure propagates unchanged with nothing polled. After creation there is one status request per check `Poll` makes, each carrying the server-assigned token and type. A ready poll returns exactly the created token and type with the ready status; a task that does not become ready gives TaskTimeoutError, and polling errors propagate. Success always carries a status whose service is up. |
| Polling.CreateAndWaitForTask | integrations/aparavi/client.py:293-339 | The method returns exactly `CreateAndWait`'s result and sends its requests. |
| Upload.Basename | integrations/aparavi/client.py:83 | The file name is a suffix of the path without '/', starting at the path's start or just after a '/'. |
| Upload.ContentType | integrations/aparavi/client.py:84 | The guessed media type when there is a non-empty one, otherwise exactly "application/octet-stream". |
| Upload.PartsOf | integrations/aparavi/client.py:78-87 | There is one multipart part per matched file, in glob order. Each part is built from that file's name, bytes and media type. |
| Upload.UploadRequest | integrations/aparavi/client.py:72-121 | The request goes to `<base>/webhook` with the token and type as query, with the client's timeout, and with the bearer header first. Several files are one multipart body with only that header, whose parts are exactly `PartsOf` the matches in glob order. One file is its raw bytes, with Content-Type set to its media type and Content-Disposition to `attachment; filename="<basename>"`. |
| Upload.Failure | integrations/aparavi/client.py:123-125 | No exception iff the reply is a response outside 400–599 with a decodable body. The exception's text is the transport's description, the HTTPError text "<code> Client/Server Error: <reason> for url: <url>", or the decoder's message; only the error status carries the response. |
| Upload.WebhookErrorAsWritten | integrations/aparavi/client.py:133-138 | Always an AparaviError. The status and body are reported only for a truthy response (status outside 400–599); no response, or an error response, gives "Error sending to webhook: <str(e)>". |
| Upload.SendPayload | integrations/aparavi/client.py:53-138 | No match gives ValueError and sends nothing. Otherwise exactly one PUT is sent. Success returns exactly one response, the reply's body. Every failure of the request is AparaviError "Error sending to webhook: <str(e)>"; for a 4xx/5xx reply that text is the HTTPError's "<code> Client/Server Error: <reason> for url: <url>". |
| Upload.SendPayloadIntended | integrations/aparavi/client.py:133-138 | With the corrected `except` test, the upload is exactly `SendPayload` for every input except a 4xx/5xx reply, which is reported as "Webhook failed: Server responded with status <code> - <body text>" (same request sent). |
| Upload.SendPayloadToWebhook | integrations/aparavi/client.py:53-138 | The method builds the parts file by file and returns and sends exactly what `SendPayload` (the code as written) defines. |
| Upload.AsWrittenNeverReportsStatus | integrations/aparavi/client.py:133-138 | As written, every modelled failure (transport failure, 4xx/5xx reply, undecodable body) is reported as "Error sending to webhook: <str(e)>". |
| Upload.ErrorStatusReported | integrations/aparavi/client.py:134-137 | With the corrected test, an error status is reported with its code and body text. |
| Upload.NotFoundReplyReports | integrations/aparavi/client.py:133-138 | For a 404 reply, the as-written and intended reports are given in full and differ. |
| Helper.FirstObject | tools/helper.py:43-44 | A dictionary yields the value of its first key. A string, number, boolean or None yields nothing. |
| Helper.ProcessResponse | tools/helper.py:6-57 | A text is only found when the status is exactly "OK" and `data` is a dictionary. The function is total. |
| Helper.ListTextGivesFirst | tools/helper.py:42-53 | In the documented shape, the first element of the first object's `text` list is returned. |
| Helper.ScalarTextReturned | tools/helper.py:53 | A truthy `text` that is not a list is returned unchanged. |
| Helper.NoTextGivesNone | tools/helper.py:47-50 | A missing or falsy `text` gives None. |
| Helper.NoObjectsGivesNone | tools/helper.py:34-40 | A missing `data`, a missing `objects`, or an empty `objects` gives None. |
| Helper.OnlyFirstObjectConsulted | tools/helper.py:43-44 | Entries after the first object never affect the result. |
| Helper.DocumentedExample | tools/helper.py:15-25 | The documented example response gives "actual text content here". |
| Facade.WrapPipeline | tools/document_processor.py:38-43 | The wrapped pipeline is `{"pipeline": {"source": "webhook_1", "components": …}}` with the template's components. A template that is not a dictionary or lacks components raises TypeError or KeyError. |
| Facade.ProcessFile | tools/document_processor.py:58-92 | A missing file is FileNotFoundError before any call. Creation uses the pipeline, "Process " + the file name, and no threads. Upload uses exactly the created token and type, and the resolved path. Client errors propagate, and there are never more than these two calls, so there is no `end_task`. A non-empty response list gives "completed" with `process_response` of the first response; an empty one gives {"", "failed"}. |
| Facade.LocalUploadCompletes | tools/llama_parse.py:121-133 | With the local client's upload, a call that returns always reports "completed" with the text of the one response. |
| LlamaParse.NewLlamaParseClient | tools/llama_parse.py:19-22 | A client exists iff the key is present and non-empty, otherwise ValueError "API key is required". |
| LlamaParse.WithKey | tools/llama_parse.py:61-65 | The update succeeds iff `config` and `config.default` are dictionaries or absent. The key is then under config.default.api_key, and every other key at each of the three levels is kept. |
| LlamaParse.InsertFrom | tools/llama_parse.py:60-65 | The loop keeps the number of components, and leaves the components already passed untouched. |
| LlamaParse.WithLlamaKey | tools/llama_parse.py:50-68 | A non-dictionary pipeline raises AttributeError (no `get`); the only errors are AttributeError and TypeError. On success every key but `components` is kept and a list of components keeps its length. |
| LlamaParse.InsertLlamaKey | tools/llama_parse.py:50-68 | The loop with `break` returns exactly `WithLlamaKey`. |
| LlamaParse.InsertFromFinds | tools/llama_parse.py:60-65 | The loop stops at the first llamaparse component and updates only that one. |
| LlamaParse.InsertFromNoMatch | tools/llama_parse.py:60-65 | Without a llamaparse component, the loop changes nothing. |
| LlamaParse.OnlyFirstLlamaparseUpdated | tools/llama_parse.py:60-65 | Only the first llamaparse component gets the key. All earlier and later components, including later llamaparse ones, are unchanged. |
| LlamaParse.NoLlamaparseUnchanged | tools/llama_parse.py:60-68 | With no `components`, or no llamaparse component, the pipeline is returned unchanged. |
| LlamaParse.WithKeyIdempotent | tools/llama_parse.py:62-64 | A component that already holds the key is left as it is. |
| LlamaParse.KeyedStaysLlamaparse | tools/llama_parse.py:61-64 | The updated component keeps its provider. |
| LlamaParse.InsertFromStable | tools/llama_parse.py:60-65 | Running the loop over its own output gives the same output. |
| LlamaParse.InsertionIdempotent | tools/llama_parse.py:50-68 | Inserting the key twice equals inserting it once. |
| LlamaParse.LlamaParseDocumentParser | tools/llama_parse.py:70-133 | A missing template is FileNotFoundError before anything else. Key-insertion and wrapping failures come before the file check. Without an input file no task is created. Otherwise the keyed, wrapped pipeline goes through `ProcessFile`. |
| LlamaParse.KeyReachesTask | tools/llama_parse.py:86-111 | The task is created with the template's components, in which the first llamaparse component carries the key. |
| DocumentProcessing.NewDocumentProcessor | tools/document_processor.py:21-43 | A missing template is FileNotFoundError. Otherwise the processor exists iff the template has components, and it stores them wrapped with `webhook_1` as the source. |
| DocumentProcessing.ProcessDocument | tools/document_processor.py:45-92 | A missing file is FileNotFoundError with no client call. The task is created with the stored pipeline. |
| DocumentProcessing.SamePipelineForEveryDocument | tools/document_processor.py:38-70 | Every document is processed with the pipeline built at construction. |

## Left out

- Polling.WaitForTaskReady: the method neither sleeps nor records its sleeps. Its loop (`Polling.Loop`) keeps the current delay in `delay` (an invariant ties it to initial_delay + 2·attempt), and the schedule of sleeps is stated and proved on the function `Poll` (`SleepSchedule`). A sleep log carried through the loop made the proof too expensive.
- Polling: the status-check results and the elapsed times are inputs. `Client.GetTaskStatus` shows how a reply becomes such a result, but the method does not call it on a reply.
- Times and delays are whole seconds (`int`), not floats. The timeout message therefore prints an integer.
- Json: numbers are integers only (`JNum(int)`). JSON floats in replies, such as a `serviceUp` of 0.0 or float metrics, cannot be represented; a float's truthiness and printing are not modelled.
- Exceptions.KeySubscriptError: TypeError texts follow Python 3.8 to 3.10 ("string indices must be integers"); Python 3.11 and later add ", not 'str'".
- Client.NewClient: the default arguments of `AparaviClient.__init__` (base URL `https://eaas-dev.aparavi.com`, `api_key=None`, timeout 120, logs "verbose") are not modelled; every argument is given. The key is a string: the code's default None, which it sends as "Bearer None", corresponds to the key "None" here, and the model does not distinguish the two.
- HTTP transport, sessions, connection pooling and JSON decoding: replies are given as inputs. The model does not cover request `timeout`s taking effect, or header dictionaries on the wire beyond the webhook request's own.
- Upload.Failure: redirects are not modelled. `requests.put` follows them, and a redirect loop raises TooManyRedirects carrying the last 3xx response, which is truthy, so the code would report it as "Webhook failed: Server responded with status 3xx - …"; the model's replies cannot express that case.
- MakeRequest and Upload.Failure: an undecodable body is modelled as raising a `requests` RequestException (JSONDecodeError), which holds for requests 2.27 and later; with an older requests the decoder's ValueError would escape `_make_request` and `send_payload_to_webhook` unwrapped. The project does not pin the requests version.
- Upload.HttpErrorText: the URL in the HTTPError text is the webhook URL without the encoded query string that `requests` appends.
- `glob.glob`, reading files, `mimetypes.guess_type`: the matches, their bytes and the guessed type are inputs. A file that cannot be read (an OSError) is not modelled.
- Upload.Basename: only '/' separates path components.
- `PathUtils.normalize_path`, `is_file_exists`, `get_resource_path` (utils/path_utils.py is not part of this model): the resolved path and whether it names a file are inputs. A template file that exists is given by its parsed contents.
- All printing and coloured logging (`_log`, `print` to stderr).
- Json.Str and Json.Repr: `str()`/`repr()` of values are simplified. Strings are always single-quoted and never escaped. `str.lower()` maps ASCII letters only.
- Dictionaries with duplicate keys are assumed not to occur. `json.load` would keep the last duplicate, while `Lookup` finds the first.
- Helper.ProcessResponse returns any JSON value (`Option<Json>`), not only a string, because the code returns `text_list[0]` or `text_list` as they are.
- LlamaParse.InsertLlamaKey: the update in place and the identity of the returned object (the same dictionary that was passed in) are not modelled. The updated value is returned.
- The Aparavi clients held by `LLamaParse` and `DocumentProcessor` come from the vendor's SDK. Their two calls are given as answers (`Facade.ClientAnswers`), and the calls made are reported. The model assumes the SDK has the local client's contract only in `Facade.LocalUploadCompletes`.
- pydantic validation of `LlamaParseResponse` and `DocumentResponse`, including a `text` of None: the reply is built without validation.
- `SDK_LlamaParse` and `SDK_Document_Processor` call the SDK's `execute_pipeline_workflow`, which is not part of this model.
- The pydantic classes of integrations/aparavi/models.py other than `ResultBase`, the MCP server registration, prompts and tests.

## Findings

| source | as written | input that shows it | evidently intended | confidence | as-written member | corrected member |
|---|---|---|---|---|---|---|
| integrations/aparavi/client.py:134 | `if e.response:` tests the truthiness of a `requests` Response, which is its `ok` flag and so is False for every status from 400 to 599. So the "Webhook failed: Server responded with status …" report is never made for the HTTPError that `raise_for_status` raises on a 4xx/5xx reply; only an exception carrying a non-error response (such as a redirect loop's last 3xx reply) can take it. | A webhook reply with status 404, reason "Not Found" and body "no such task": it is reported as "Error sending to webhook: 404 Client Error: Not Found for url: …" | Report the status code and body whenever the exception carries a response (`if e.response is not None:`). | high; not executed | Upload.WebhookErrorAsWritten (with Upload.AsWrittenNeverReportsStatus, Upload.NotFoundReplyReports) | Upload.SendPayloadIntended (with Upload.WebhookError, Upload.ErrorStatusReported) |
