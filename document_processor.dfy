/**
 * The document-processing tool (`tools/document_processor.py`): the
 * pipeline is wrapped once, at construction, and reused for every document.
 */
module DocumentProcessing {
  import opened Json
  import opened Exceptions
  import Facade

  /**
   * `DocumentProcessor`: the wrapped pipeline read by every call. The
   * Aparavi client it also holds belongs to the vendor's SDK; what that
   * client's calls return is an input of `ProcessDocument`.
   */
  datatype DocumentProcessor = DocumentProcessor(pipelineConfig: Json)

  /**
   * `DocumentProcessor.__init__`: `template` is None when no file is found
   * at `templatePath`.
   */
  function NewDocumentProcessor(templatePath: string, template: Option<Json>): (r: Result<DocumentProcessor>)
    ensures template.None? ==>
              r == Err(Exception(FileNotFoundError, "Pipeline configuration not found at: " + templatePath))
    // the stored pipeline takes its components from the template, with the webhook as source
    ensures r.Ok? <==> template.Some? && template.value.JObj? && Lookup(template.value.entries, "components").Some?
    ensures r.Ok? ==>
              r.value.pipelineConfig
              == JObj([Entry("pipeline", JObj([Entry("source", JStr("webhook_1")),
                                               Entry("components", Lookup(template.value.entries, "components").value)]))])
  {
    if template.None? then Err(Exception(FileNotFoundError, "Pipeline configuration not found at: " + templatePath))
    else match Facade.WrapPipeline(template.value)
      case Err(e) => Err(e)
      case Ok(pipeline) => Ok(DocumentProcessor(pipeline))
  }

  /** `DocumentProcessor.process_document`. */
  function ProcessDocument(self: DocumentProcessor, file: Facade.LocalPath, answers: Facade.ClientAnswers): (x: Facade.Run)
    // a missing input file is reported before any client call
    ensures !file.isFile ==> x.result.Err? && x.result.exc.kind == FileNotFoundError && x.calls == []
    // the stored pipeline is what the task is created with
    ensures file.isFile ==> x.calls != [] && x.calls[0].CreateAndWaitCall? && x.calls[0].pipeline == self.pipelineConfig
  {
    Facade.ProcessFile(self.pipelineConfig, file, answers)
  }

  /**
   * Every document is processed with the pipeline built at construction:
   * two calls differ only through their files and the client's answers.
   */
  lemma SamePipelineForEveryDocument(templatePath: string, template: Json,
                                     file1: Facade.LocalPath, answers1: Facade.ClientAnswers,
                                     file2: Facade.LocalPath, answers2: Facade.ClientAnswers)
    requires NewDocumentProcessor(templatePath, Some(template)).Ok?
    requires file1.isFile && file2.isFile
    ensures var p := NewDocumentProcessor(templatePath, Some(template)).value;
            ProcessDocument(p, file1, answers1).calls[0].pipeline == ProcessDocument(p, file2, answers2).calls[0].pipeline
  {
  }
}
