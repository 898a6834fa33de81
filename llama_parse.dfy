/**
 * The LlamaParse tool (`tools/llama_parse.py`): the key holder, insertion of
 * the key into the pipeline template, and the document-parsing call.
 *
 * `insert_llama_key` updates the template's dictionaries in place and
 * returns the same object; here it maps the template to the updated value.
 */
module LlamaParse {
  import opened Json
  import opened Exceptions
  import Facade

  /** `LlamaParseClient`: holds a non-empty API key. */
  datatype LlamaParseClient = LlamaParseClient(apiKey: string)

  /** `LlamaParseClient.__init__`: an empty (or absent) key is refused. */
  function NewLlamaParseClient(apiKey: Option<string>): (r: Result<LlamaParseClient>)
    ensures r.Ok? <==> apiKey.Some? && apiKey.value != []
    ensures r.Ok? ==> r.value.apiKey == apiKey.value
    ensures r.Err? ==> r.exc == Exception(ValueError, "API key is required")
  {
    if apiKey.None? || apiKey.value == [] then Err(Exception(ValueError, "API key is required"))
    else Ok(LlamaParseClient(apiKey.value))
  }

  /**
   * `LLamaParse`: the key holder it is built from. The Aparavi client it
   * also holds belongs to the vendor's SDK; what that client's calls
   * return is an input of `LlamaParseDocumentParser`.
   */
  datatype LLamaParse = LLamaParse(llamaClient: LlamaParseClient)

  /** `component.get("provider") == "llamaparse"`. */
  predicate IsLlamaparse(component: Json)
  {
    component.JObj? && Lookup(component.entries, "provider") == Some(JStr("llamaparse"))
  }

  /** `d.setdefault(key, {})` followed by `.setdefault` or item assignment: the dictionary under `key`, {} when absent. */
  function Nested(entries: seq<Entry>, key: string): Json
  {
    GetOr(entries, key, JObj([]))
  }

  /**
   * The body of the `if`: `setdefault("config", {})`, `setdefault("default", {})`,
   * then `default_config["api_key"] = key`. A `config` that is not a
   * dictionary has no `setdefault`; a `default` that is not one cannot take
   * the assignment. Either failure happens before anything is changed.
   */
  function WithKey(component: seq<Entry>, key: string): (r: Result<seq<Entry>>)
    ensures r.Ok? <==> Nested(component, "config").JObj? && Nested(Nested(component, "config").entries, "default").JObj?
    ensures r.Err? ==> r.exc.kind in {AttributeError, TypeError}
    // the key ends up under config.default.api_key
    ensures r.Ok? ==> && Lookup(r.value, "config").Some? && Lookup(r.value, "config").value.JObj?
                      && var config := Lookup(r.value, "config").value.entries;
                         && Lookup(config, "default").Some? && Lookup(config, "default").value.JObj?
                         && Lookup(Lookup(config, "default").value.entries, "api_key") == Some(JStr(key))
    // everything else is kept
    ensures r.Ok? ==> forall k | k != "config" :: Lookup(r.value, k) == Lookup(component, k)
    ensures r.Ok? ==> forall k | k != "default" ::
              Lookup(Lookup(r.value, "config").value.entries, k) == Lookup(Nested(component, "config").entries, k)
    ensures r.Ok? ==> forall k | k != "api_key" ::
              Lookup(Lookup(Lookup(r.value, "config").value.entries, "default").value.entries, k)
              == Lookup(Nested(Nested(component, "config").entries, "default").entries, k)
  {
    var config := Nested(component, "config");
    if !config.JObj? then Err(MissingAttribute(config, "setdefault"))
    else
      var default := Nested(config.entries, "default");
      if !default.JObj? then
        Err(Exception(TypeError, if default.JArr? then "list indices must be integers or slices, not str"
                                 else "'" + TypeName(default) + "' object does not support item assignment"))
      else
        var newDefault := Set(default.entries, "api_key", JStr(key));
        var newConfig := Set(config.entries, "default", JObj(newDefault));
        Ok(Set(component, "config", JObj(newConfig)))
  }

  /**
   * The `for` loop from position `i` on: components are tested in order,
   * and the first llamaparse component is updated and ends the loop. A
   * component that is not a dictionary has no `get`.
   */
  function InsertFrom(components: seq<Json>, i: nat, key: string): (r: Result<seq<Json>>)
    requires i <= |components|
    ensures r.Ok? ==> |r.value| == |components|
    ensures r.Err? ==> r.exc.kind in {AttributeError, TypeError}
    // the components already passed are not touched
    ensures r.Ok? ==> forall k | 0 <= k < i :: r.value[k] == components[k]
    decreases |components| - i
  {
    if i == |components| then Ok(components)
    else if !components[i].JObj? then
      Err(MissingAttribute(components[i], "get"))
    else if IsLlamaparse(components[i]) then
      match WithKey(components[i].entries, key)
      case Err(e) => Err(e)
      case Ok(updated) => Ok(components[i := JObj(updated)])
    else InsertFrom(components, i + 1, key)
  }

  /**
   * `insert_llama_key` on the template's value. A missing `components`
   * iterates over the empty default; a dictionary iterates over its keys,
   * which are strings, and a string over its characters; other scalars are
   * not iterable.
   */
  function WithLlamaKey(pipeline: Json, key: string): (r: Result<Json>)
    // only a dictionary has `get`; the errors are Python's own
    ensures !pipeline.JObj? ==> r == Err(MissingAttribute(pipeline, "get"))
    ensures r.Err? ==> r.exc.kind in {AttributeError, TypeError}
    // every key but `components` is kept, and a list of components keeps its length
    ensures r.Ok? ==> r.value.JObj? && forall k | k != "components" :: Lookup(r.value.entries, k) == Lookup(pipeline.entries, k)
    ensures r.Ok? && Lookup(pipeline.entries, "components").Some? && Lookup(pipeline.entries, "components").value.JArr?
            ==> && Lookup(r.value.entries, "components").Some? && Lookup(r.value.entries, "components").value.JArr?
                && |Lookup(r.value.entries, "components").value.items| == |Lookup(pipeline.entries, "components").value.items|
  {
    if !pipeline.JObj? then Err(MissingAttribute(pipeline, "get"))
    else match Lookup(pipeline.entries, "components")
      case None => Ok(pipeline)
      case Some(JArr(components)) =>
        (match InsertFrom(components, 0, key)
         case Err(e) => Err(e)
         case Ok(updated) => Ok(JObj(Set(pipeline.entries, "components", JArr(updated)))))
      case Some(JObj(es)) =>
        if es == [] then Ok(pipeline) else Err(Exception(AttributeError, "'str' object has no attribute 'get'"))
      case Some(JStr(s)) =>
        if s == [] then Ok(pipeline) else Err(Exception(AttributeError, "'str' object has no attribute 'get'"))
      case Some(other) => Err(Exception(TypeError, "'" + TypeName(other) + "' object is not iterable"))
  }

  /** `LLamaParse.insert_llama_key`: the loop with its `break`. */
  method InsertLlamaKey(self: LLamaParse, pipeline: Json) returns (r: Result<Json>)
    ensures r == WithLlamaKey(pipeline, self.llamaClient.apiKey)
  {
    var key := self.llamaClient.apiKey;
    if !pipeline.JObj? {
      return Err(MissingAttribute(pipeline, "get"));
    }
    var found := Lookup(pipeline.entries, "components");
    if found.None? {
      return Ok(pipeline);
    }
    match found.value {
      case JArr(_) =>
      case JObj(es) =>
        return if es == [] then Ok(pipeline) else Err(Exception(AttributeError, "'str' object has no attribute 'get'"));
      case JStr(s) =>
        return if s == [] then Ok(pipeline) else Err(Exception(AttributeError, "'str' object has no attribute 'get'"));
      case _ =>
        return Err(Exception(TypeError, "'" + TypeName(found.value) + "' object is not iterable"));
    }
    var components := found.value.items;
    var updated := components;
    var i := 0;
    while i < |components|
      invariant i <= |components| && updated == components
      invariant InsertFrom(components, i, key) == InsertFrom(components, 0, key)
      decreases |components| - i
    {
      var component := components[i];
      if !component.JObj? {
        return Err(MissingAttribute(component, "get"));
      }
      if Lookup(component.entries, "provider") == Some(JStr("llamaparse")) {
        var keyed := WithKey(component.entries, key);
        if keyed.Err? {
          return Err(keyed.exc);
        }
        updated := components[i := JObj(keyed.value)];
        break;
      }
      i := i + 1;
    }
    r := Ok(JObj(Set(pipeline.entries, "components", JArr(updated))));
  }

  /** The loop reaches the first llamaparse component past dictionaries that are not. */
  lemma {:induction false} InsertFromFinds(components: seq<Json>, i: nat, j: nat, key: string)
    requires i <= j < |components| && IsLlamaparse(components[j])
    requires forall k | i <= k < j :: components[k].JObj? && !IsLlamaparse(components[k])
    ensures InsertFrom(components, i, key)
            == match WithKey(components[j].entries, key)
               case Err(e) => Err(e)
               case Ok(updated) => Ok(components[j := JObj(updated)])
    decreases j - i
  {
    if i < j {
      InsertFromFinds(components, i + 1, j, key);
    }
  }

  /** Without a llamaparse component the loop runs to the end and changes nothing. */
  lemma {:induction false} InsertFromNoMatch(components: seq<Json>, i: nat, key: string)
    requires i <= |components|
    requires forall k | i <= k < |components| :: components[k].JObj? && !IsLlamaparse(components[k])
    ensures InsertFrom(components, i, key) == Ok(components)
    decreases |components| - i
  {
    if i < |components| {
      InsertFromNoMatch(components, i + 1, key);
    }
  }

  /**
   * Only the first component whose provider is "llamaparse" receives the
   * key; the components before it, and every later one, llamaparse or not,
   * are left as they were.
   */
  lemma OnlyFirstLlamaparseUpdated(pipeline: Json, key: string, components: seq<Json>, j: nat)
    requires pipeline.JObj? && Lookup(pipeline.entries, "components") == Some(JArr(components))
    requires j < |components| && IsLlamaparse(components[j])
    requires forall k | 0 <= k < j :: components[k].JObj? && !IsLlamaparse(components[k])
    ensures WithKey(components[j].entries, key).Ok? ==>
              WithLlamaKey(pipeline, key)
              == Ok(JObj(Set(pipeline.entries, "components",
                             JArr(components[j := JObj(WithKey(components[j].entries, key).value)]))))
    ensures WithKey(components[j].entries, key).Err? ==>
              WithLlamaKey(pipeline, key) == Err(WithKey(components[j].entries, key).exc)
  {
    InsertFromFinds(components, 0, j, key);
  }

  /** No `components`, or no llamaparse component among them: the pipeline comes back unchanged. */
  lemma NoLlamaparseUnchanged(pipeline: Json, key: string)
    requires pipeline.JObj?
    requires var found := Lookup(pipeline.entries, "components");
             || found.None?
             || (&& found.value.JArr?
                 && forall k | 0 <= k < |found.value.items| ::
                      found.value.items[k].JObj? && !IsLlamaparse(found.value.items[k]))
    ensures WithLlamaKey(pipeline, key) == Ok(pipeline)
  {
    var found := Lookup(pipeline.entries, "components");
    if found.Some? {
      InsertFromNoMatch(found.value.items, 0, key);
      SetExisting(pipeline.entries, "components", found.value);
    }
  }

  /** A component that already holds the key is left as it is. */
  lemma WithKeyIdempotent(component: seq<Entry>, key: string)
    requires WithKey(component, key).Ok?
    ensures WithKey(WithKey(component, key).value, key) == WithKey(component, key)
  {
    var keyed := WithKey(component, key).value;
    var config := Lookup(keyed, "config").value.entries;
    var default := Lookup(config, "default").value.entries;
    SetExisting(default, "api_key", JStr(key));
    SetExisting(config, "default", JObj(default));
    SetExisting(keyed, "config", JObj(config));
  }

  /** The update keeps the provider, so the updated component is still the one the loop stops at. */
  lemma KeyedStaysLlamaparse(component: seq<Entry>, key: string)
    requires IsLlamaparse(JObj(component)) && WithKey(component, key).Ok?
    ensures IsLlamaparse(JObj(WithKey(component, key).value))
  {
    assert "provider" != "config";
  }

  /** Running the loop again over what it produced produces the same. */
  lemma {:induction false} InsertFromStable(components: seq<Json>, i: nat, key: string)
    requires i <= |components| && InsertFrom(components, i, key).Ok?
    ensures InsertFrom(InsertFrom(components, i, key).value, i, key) == InsertFrom(components, i, key)
    decreases |components| - i
  {
    var updated := InsertFrom(components, i, key).value;
    if i == |components| {
    } else if IsLlamaparse(components[i]) {
      var keyed := WithKey(components[i].entries, key).value;
      WithKeyIdempotent(components[i].entries, key);
      KeyedStaysLlamaparse(components[i].entries, key);
      assert updated[i := JObj(keyed)] == updated;
    } else {
      InsertFromStable(components, i + 1, key);
      assert updated[i] == components[i];
    }
  }

  /** Inserting the key twice gives what inserting it once gives. */
  lemma InsertionIdempotent(pipeline: Json, key: string)
    requires WithLlamaKey(pipeline, key).Ok?
    ensures WithLlamaKey(WithLlamaKey(pipeline, key).value, key) == WithLlamaKey(pipeline, key)
  {
    var found := Lookup(pipeline.entries, "components");
    if found.Some? && found.value.JArr? {
      var updated := InsertFrom(found.value.items, 0, key).value;
      var once := Set(pipeline.entries, "components", JArr(updated));
      InsertFromStable(found.value.items, 0, key);
      SetExisting(once, "components", JArr(updated));
    }
  }

  /**
   * `LLamaParse.llama_parse_document_parser`: load the template (`template`
   * is None when no file is found at `templatePath`), insert the key, wrap
   * the components, then process the file.
   */
  function LlamaParseDocumentParser(self: LLamaParse, templatePath: string, template: Option<Json>,
                                    file: Facade.LocalPath, answers: Facade.ClientAnswers): (x: Facade.Run)
    // a missing template is reported before anything else
    ensures template.None? ==>
              x == Facade.Run(Err(Exception(FileNotFoundError, "Pipeline configuration not found at: " + templatePath)), [])
    // a template the key cannot be inserted into, or without components, fails before the client is called
    ensures template.Some? && WithLlamaKey(template.value, self.llamaClient.apiKey).Err? ==>
              x == Facade.Run(Err(WithLlamaKey(template.value, self.llamaClient.apiKey).exc), [])
    ensures template.Some? && WithLlamaKey(template.value, self.llamaClient.apiKey).Ok?
            && Facade.WrapPipeline(WithLlamaKey(template.value, self.llamaClient.apiKey).value).Err? ==>
              x == Facade.Run(Err(Facade.WrapPipeline(WithLlamaKey(template.value, self.llamaClient.apiKey).value).exc), [])
    // without an input file the task is never created
    ensures !file.isFile ==> x.result.Err? && x.calls == []
    ensures x.calls != [] ==> template.Some? && file.isFile && x.calls[0].CreateAndWaitCall? && x.calls[0].threads.None?
    // otherwise the wrapped, keyed pipeline goes through the file check, creation and upload
    ensures template.Some? && WithLlamaKey(template.value, self.llamaClient.apiKey).Ok?
            && Facade.WrapPipeline(WithLlamaKey(template.value, self.llamaClient.apiKey).value).Ok? ==>
              x == Facade.ProcessFile(Facade.WrapPipeline(WithLlamaKey(template.value, self.llamaClient.apiKey).value).value,
                                      file, answers)
  {
    if template.None? then
      Facade.Run(Err(Exception(FileNotFoundError, "Pipeline configuration not found at: " + templatePath)), [])
    else match WithLlamaKey(template.value, self.llamaClient.apiKey)
      case Err(e) => Facade.Run(Err(e), [])
      case Ok(keyed) =>
        match Facade.WrapPipeline(keyed)
        case Err(e) => Facade.Run(Err(e), [])
        case Ok(pipeline) => Facade.ProcessFile(pipeline, file, answers)
  }

  /**
   * The task is created with the template's components, the first
   * llamaparse one carrying the key under config.default.api_key.
   */
  lemma KeyReachesTask(self: LLamaParse, templatePath: string, template: Json, components: seq<Json>, j: nat,
                       file: Facade.LocalPath, answers: Facade.ClientAnswers)
    requires template.JObj? && Lookup(template.entries, "components") == Some(JArr(components))
    requires j < |components| && IsLlamaparse(components[j])
    requires forall k | 0 <= k < j :: components[k].JObj? && !IsLlamaparse(components[k])
    requires WithKey(components[j].entries, self.llamaClient.apiKey).Ok?
    requires file.isFile
    ensures var x := LlamaParseDocumentParser(self, templatePath, Some(template), file, answers);
            var keyed := WithKey(components[j].entries, self.llamaClient.apiKey).value;
            && x.calls != []
            && x.calls[0].pipeline
               == JObj([Entry("pipeline", JObj([Entry("source", JStr("webhook_1")),
                                                Entry("components", JArr(components[j := JObj(keyed)]))]))])
  {
    OnlyFirstLlamaparseUpdated(template, self.llamaClient.apiKey, components, j);
  }
}
