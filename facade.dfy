/**
 * The sequence both document-processing tools follow once their pipeline
 * is ready: check the input file, create the task and wait for it, upload
 * the file to the task's webhook, and normalise the first response.
 *
 * The tools talk to the client of the vendor's SDK, which has the local
 * client's method names and signatures; what its two calls return or raise
 * is an input here, and the calls made are reported in order.
 */
module Facade {
  import opened Json
  import opened Exceptions
  import opened Polling
  import Upload
  import Helper

  /** A call on the client, with its arguments. */
  datatype Call =
    | CreateAndWaitCall(pipeline: Json, name: string, threads: Option<int>)
    | UploadCall(token: Json, taskType: Json, fileGlob: string)

  /** `DocumentResponse` / `LlamaParseResponse`: the extracted text and a status word. */
  datatype Reply = Reply(text: Option<Json>, status: string)

  /** A tool call: its outcome and the client calls it made. */
  datatype Run = Run(result: Result<Reply>, calls: seq<Call>)

  /** The input path after `PathUtils.normalize_path`, and whether it names a file. */
  datatype LocalPath = LocalPath(resolved: string, isFile: bool)

  /** What the client's two calls return or raise. */
  datatype ClientAnswers = ClientAnswers(created: Result<Created>, uploaded: Result<seq<Json>>)

  /**
   * `{"pipeline": {"source": "webhook_1", "components": template["components"]}}`;
   * a template that is not a dictionary cannot be subscripted by a string
   * and one without components raises KeyError.
   */
  function WrapPipeline(template: Json): (r: Result<Json>)
    ensures r.Ok? <==> template.JObj? && Lookup(template.entries, "components").Some?
    ensures r.Ok? ==> r.value == JObj([Entry("pipeline", JObj([
                                        Entry("source", JStr("webhook_1")),
                                        Entry("components", Lookup(template.entries, "components").value)]))])
    ensures r.Err? ==> r.exc.kind in {TypeError, KeyError}
  {
    if !template.JObj? then Err(KeySubscriptError(template))
    else match Lookup(template.entries, "components")
      case None => Err(Exception(KeyError, "'components'"))
      case Some(components) =>
        Ok(JObj([Entry("pipeline", JObj([Entry("source", JStr("webhook_1")), Entry("components", components)]))]))
  }

  /** The status a non-empty list of responses maps to. */
  function Completed(responses: seq<Json>): Reply
    requires responses != []
  {
    Reply(Helper.ProcessResponse(responses[0]), "completed")
  }

  /** The reply when the upload returns no responses. */
  const Failed := Reply(Some(JStr("")), "failed")

  /**
   * File check, create-and-wait, upload, normalise. An exception from the
   * client propagates unchanged and the task is left as it is.
   */
  function ProcessFile(pipeline: Json, file: LocalPath, answers: ClientAnswers): (x: Run)
    // a missing file is reported before the client is called
    ensures !file.isFile <==> x.calls == []
    ensures !file.isFile ==> x.result == Err(Exception(FileNotFoundError, "File not found: " + file.resolved))
    // the task is created with the pipeline, a name from the file, and no thread count
    ensures file.isFile ==> x.calls[0] == CreateAndWaitCall(pipeline, "Process " + Upload.Basename(file.resolved), None)
    // a creation failure propagates and nothing is uploaded
    ensures file.isFile && answers.created.Err? ==> x == Run(Err(answers.created.exc), x.calls) && |x.calls| == 1
    // the upload uses exactly the token and type creation returned, and the resolved path
    ensures file.isFile && answers.created.Ok? ==>
              && |x.calls| == 2
              && x.calls[1] == UploadCall(answers.created.value.token, answers.created.value.taskType, file.resolved)
    // no other call is ever made: in particular the task is never ended
    ensures |x.calls| <= 2
    ensures |x.calls| == 2 && answers.uploaded.Err? ==> x.result == Err(answers.uploaded.exc)
    // the first response decides the text, whether or not a text is found in it
    ensures |x.calls| == 2 && answers.uploaded.Ok? ==>
              x.result == Ok(if answers.uploaded.value != [] then Completed(answers.uploaded.value) else Failed)
  {
    if !file.isFile then Run(Err(Exception(FileNotFoundError, "File not found: " + file.resolved)), [])
    else
      var calls := [CreateAndWaitCall(pipeline, "Process " + Upload.Basename(file.resolved), None)];
      match answers.created
      case Err(e) => Run(Err(e), calls)
      case Ok(task) =>
        var calls := calls + [UploadCall(task.token, task.taskType, file.resolved)];
        match answers.uploaded
        case Err(e) => Run(Err(e), calls)
        case Ok(responses) =>
          if responses != [] then Run(Ok(Completed(responses)), calls)
          else Run(Ok(Failed), calls)
  }

  /**
   * With the local client's upload, which returns exactly one response
   * whenever it returns, the "failed" reply cannot occur: a tool call that
   * returns reports "completed" with the text of that response.
   */
  lemma LocalUploadCompletes(pipeline: Json, file: LocalPath, created: Result<Created>,
                             c: Client.AparaviClient, token: Json, taskType: Json, fileGlob: string,
                             matches: seq<Upload.LocalFile>, reply: Client.HttpOutcome)
    ensures var uploaded := Upload.SendPayload(c, token, taskType, fileGlob, matches, reply).result;
            var x := ProcessFile(pipeline, file, ClientAnswers(created, uploaded));
            x.result.Ok? ==> && reply.Response? && reply.body.Parsed?
                             && x.result.value == Reply(Helper.ProcessResponse(reply.body.json), "completed")
  {
  }
}
