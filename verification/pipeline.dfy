/** The evaluation pipeline (redstar/pipeline.py). A call runs the
    preprocessors, compiles one prompt per record, makes one batched call to
    the model client, writes each result (and its parse) onto its record by
    position, runs the postprocessors and merges the metric outputs. */
module Pipeline {
  import opened Types
  import opened Processors
  import opened Metrics
  import opened Parsers
  import opened PromptInterface

  /** A stage argument of `EvaluationPipeline.__init__`: `None`, a single
      processor or metric, or a sequence of them. */
  datatype StageArg<T> = Absent | One(item: T) | Many(items: seq<T>)

  // ---------------------------------------------------------------------
  // The model client

  datatype CallMode = Sync | Async

  /** One call made to the client: which entry point, the prompts, and the
      keyword arguments. */
  datatype ClientCall = ClientCall(mode: CallMode, prompts: seq<Messages>, kwargs: Kwargs)

  /** The language-model client. What it answers is not modelled: `run` and
      `async_run` are arbitrary functions of the prompts and keyword
      arguments (nothing makes them return one completion per prompt).
      `calls` logs every call made. */
  class ModelClient {
    const respond: (seq<Messages>, Kwargs) -> seq<string>
    const respondAsync: (seq<Messages>, Kwargs) -> seq<string>
    ghost var calls: seq<ClientCall>

    constructor (respond: (seq<Messages>, Kwargs) -> seq<string>, respondAsync: (seq<Messages>, Kwargs) -> seq<string>)
      ensures this.respond == respond && this.respondAsync == respondAsync
      ensures calls == []
    {
      this.respond := respond;
      this.respondAsync := respondAsync;
      calls := [];
    }

    /** `lmclient.run(prompts, **kwargs)`. */
    method Run(prompts: seq<Messages>, kwargs: Kwargs) returns (results: seq<string>)
      modifies this
      ensures results == respond(prompts, kwargs)
      ensures calls == old(calls) + [ClientCall(Sync, prompts, kwargs)]
    {
      results := respond(prompts, kwargs);
      calls := calls + [ClientCall(Sync, prompts, kwargs)];
    }

    /** `lmclient.async_run(prompts, **kwargs)`. */
    method AsyncRun(prompts: seq<Messages>, kwargs: Kwargs) returns (results: seq<string>)
      modifies this
      ensures results == respondAsync(prompts, kwargs)
      ensures calls == old(calls) + [ClientCall(Async, prompts, kwargs)]
    {
      results := respondAsync(prompts, kwargs);
      calls := calls + [ClientCall(Async, prompts, kwargs)];
    }
  }

  // ---------------------------------------------------------------------
  // The stages, as functions of their inputs

  /** `EvaluationResult`. */
  datatype EvaluationResult = EvaluationResult(metric: map<string, real>, records: seq<Record>)

  /** The records after preprocessing, with the prompt compiled for each. */
  datatype Staged = Staged(records: seq<Record>, prompts: seq<Messages>)

  /** `prompt.compile(**record)` as a function of the record. */
  function Compiler(prompt: BasePrompt): Record -> Result<Messages> {
    record => CompileRecord(prompt, record)
  }

  /** Preprocessing, then one prompt per record. */
  function Prepare(prompt: BasePrompt, pre: seq<Processor>, records: seq<Record>): (r: Result<Staged>)
    ensures r.Ok? ==> RunChain(pre, records) == Ok(r.value.records)
    ensures r.Ok? ==> |r.value.prompts| == |r.value.records|
    ensures r.Ok? ==> forall i :: 0 <= i < |r.value.records| ==>
                        CompileRecord(prompt, r.value.records[i]) == Ok(r.value.prompts[i])
    ensures RunChain(pre, records).Err? ==> r == Err(RunChain(pre, records).error)
    ensures RunChain(pre, records).Ok? ==>
              var staged := RunChain(pre, records).value;
              && (r.Ok? <==> forall i :: 0 <= i < |staged| ==> CompileRecord(prompt, staged[i]).Ok?)
              && (r.Err? ==> exists i :: 0 <= i < |staged| && CompileRecord(prompt, staged[i]) == Err(r.error)
                                         && forall j :: 0 <= j < i ==> CompileRecord(prompt, staged[j]).Ok?)
  {
    match RunChain(pre, records)
    case Err(e) => Err(e)
    case Ok(staged) =>
      match MapAll(Compiler(prompt), staged)
      case Err(e) => Err(e)
      case Ok(prompts) => Ok(Staged(staged, prompts))
  }

  /** Preparation succeeds with the chain's records and their prompts. */
  lemma PrepareOf(prompt: BasePrompt, pre: seq<Processor>, records: seq<Record>,
                  staged: seq<Record>, prompts: seq<Messages>)
    requires RunChain(pre, records) == Ok(staged) && MapAll(Compiler(prompt), staged) == Ok(prompts)
    ensures Prepare(prompt, pre, records) == Ok(Staged(staged, prompts))
  {
  }

  /** One step of the result loop: `record['result'] = result`, and with a
      parser `record['parsed_result'] = parser.parse(result)`. */
  function AttachOne(record: Record, result: string, parser: Option<Parser>): (r: Record)
    ensures r.Keys == record.Keys + {"result"} + (if parser.Some? then {"parsed_result"} else {})
    ensures r["result"] == Str(result)
    ensures parser.Some? ==> r["parsed_result"] == Str(Parse(parser.value, result))
    ensures forall k :: k in record && k != "result" && (parser.None? || k != "parsed_result") ==> r[k] == record[k]
  {
    var withResult := record["result" := Str(result)];
    match parser
    case None => withResult
    case Some(p) => withResult["parsed_result" := Str(Parse(p, result))]
  }

  /** The loop over `zip(records, results)`: record `i` gets result `i` for
      every `i` below both lengths; records past the shorter length are left
      as they are, and surplus results are dropped. */
  function Attach(records: seq<Record>, results: seq<string>, parser: Option<Parser>): (out: seq<Record>)
    ensures |out| == |records|
    ensures forall i :: 0 <= i < |records| && i < |results| ==> out[i] == AttachOne(records[i], results[i], parser)
    ensures forall i :: |results| <= i < |records| ==> out[i] == records[i]
  {
    if records == [] || results == [] then records
    else [AttachOne(records[0], results[0], parser)] + Attach(records[1..], results[1..], parser)
  }

  /** Postprocessing, then the merged metrics over the final records. */
  function Finish(post: seq<Processor>, metrics: seq<Metric>, records: seq<Record>): (r: Result<EvaluationResult>)
    ensures r.Ok? ==> RunChain(post, records) == Ok(r.value.records)
                      && MergedScores(metrics, r.value.records) == Ok(r.value.metric)
    ensures RunChain(post, records).Err? ==> r == Err(RunChain(post, records).error)
    ensures RunChain(post, records).Ok? ==>
              var final := RunChain(post, records).value;
              && (r.Ok? <==> forall k :: 0 <= k < |metrics| ==> Score(metrics[k], final).Ok?)
              && (r.Err? ==> exists k :: 0 <= k < |metrics| && Score(metrics[k], final) == Err(r.error)
                                         && forall j :: 0 <= j < k ==> Score(metrics[j], final).Ok?)
  {
    match RunChain(post, records)
    case Err(e) => Err(e)
    case Ok(final) =>
      MergedScoresOk(metrics, final);
      if MergedScores(metrics, final).Err? then
        MergedScoresErrorIsFirst(metrics, final);
        Err(MergedScores(metrics, final).error)
      else Ok(EvaluationResult(MergedScores(metrics, final).value, final))
  }

  // ---------------------------------------------------------------------
  // The loops of `__call__`

  /** `for processor in processors: records = processor.process(records)`. */
  method RunProcessors(processors: seq<Processor>, records: seq<Record>) returns (r: Result<seq<Record>>)
    ensures r == RunChain(processors, records)
  {
    var current := records;
    var i := 0;
    while i < |processors|
      invariant 0 <= i <= |processors|
      invariant RunChain(processors[..i], records) == Ok(current)
    {
      RunChainStep(processors, records, i);
      var out := Process(processors[i], current);
      if out.Err? {
        RunChainErrorSticks(processors, records, i + 1);
        return Err(out.error);
      }
      current := out.value;
      i := i + 1;
    }
    assert processors[..i] == processors;
    return Ok(current);
  }

  /** `[prompt.compile(**record) for record in records]`. */
  method CompileAll(prompt: BasePrompt, records: seq<Record>) returns (r: Result<seq<Messages>>)
    requires ValidPrompt(prompt)
    ensures r == MapAll(Compiler(prompt), records)
  {
    var compiler := Compiler(prompt);
    var prompts: seq<Messages> := [];
    var j := 0;
    while j < |records|
      invariant 0 <= j <= |records|
      invariant |prompts| == j
      invariant forall k :: 0 <= k < j ==> compiler(records[k]) == Ok(prompts[k])
    {
      var compiled := CompileOne(prompt, records[j]);
      if compiled.Err? {
        MapAllFirstError(compiler, records, j);
        return Err(compiled.error);
      }
      prompts := prompts + [compiled.value];
      j := j + 1;
    }
    MapAllValues(compiler, records, prompts);
    return Ok(prompts);
  }

  /** One record through `prompt.compile(**record)`. */
  method CompileOne(prompt: BasePrompt, record: Record) returns (r: Result<Messages>)
    requires ValidPrompt(prompt)
    ensures r == Compiler(prompt)(record)
  {
    r := CompileWithRecord(prompt, record);
  }

  /** The loop over `zip(records, results)`, writing into each record. */
  method AttachResults(records: seq<Record>, results: seq<string>, parser: Option<Parser>) returns (attached: seq<Record>)
    ensures attached == Attach(records, results, parser)
  {
    attached := records;
    var k := 0;
    while k < |records| && k < |results|
      invariant 0 <= k <= |records| && k <= |results|
      invariant |attached| == |records|
      invariant forall m :: 0 <= m < k && m < |results| ==> attached[m] == AttachOne(records[m], results[m], parser)
      invariant forall m :: k <= m < |records| ==> attached[m] == records[m]
    {
      var record := attached[k];
      record := record["result" := Str(results[k])];
      if parser.Some? {
        var parsedResult := Parse(parser.value, results[k]);
        record := record["parsed_result" := Str(parsedResult)];
      }
      attached := attached[k := record];
      k := k + 1;
    }
  }

  /** `metrics = {}; for metric in metrics: metrics.update(metric(records))`. */
  method MergeMetrics(metrics: seq<Metric>, records: seq<Record>) returns (r: Result<map<string, real>>)
    ensures r == MergedScores(metrics, records)
  {
    var merged: map<string, real> := map[];
    var m := 0;
    while m < |metrics|
      invariant 0 <= m <= |metrics|
      invariant MergedScores(metrics[..m], records) == Ok(merged)
    {
      assert metrics[..m + 1][..m] == metrics[..m];
      var score := Score(metrics[m], records);
      if score.Err? {
        MergedScoresOk(metrics[..m], records);
        assert forall q :: 0 <= q < m ==> metrics[..m][q] == metrics[q];
        MergedScoresError(metrics, records, m);
        return Err(score.error);
      }
      merged := merged + score.value;
      m := m + 1;
    }
    assert metrics[..m] == metrics;
    return Ok(merged);
  }

  // ---------------------------------------------------------------------
  // EvaluationPipeline

  class EvaluationPipeline {
    const lmclient: ModelClient
    const prompt: BasePrompt
    const preprocessors: seq<Processor>
    const parser: Option<Parser>
    const postprocessors: seq<Processor>
    const metrics: seq<Metric>
    const asyncRun: bool

    predicate Valid() {
      ValidPrompt(prompt)
    }

    /** `__init__`: each stage argument becomes a list, `None` an empty one
        and a single object a one-element one. The optional arguments have
        the source's defaults: no stages, no parser, asynchronous calls. */
    constructor (lmclient: ModelClient, prompt: BasePrompt, preprocessors: StageArg<Processor> := Absent,
                 parser: Option<Parser> := None, postprocessors: StageArg<Processor> := Absent,
                 metrics: StageArg<Metric> := Absent, asyncRun: bool := true)
      requires ValidPrompt(prompt)
      ensures Valid()
      ensures this.lmclient == lmclient && this.prompt == prompt && this.parser == parser && this.asyncRun == asyncRun
      ensures preprocessors.Absent? ==> this.preprocessors == []
      ensures preprocessors.One? ==> this.preprocessors == [preprocessors.item]
      ensures preprocessors.Many? ==> this.preprocessors == preprocessors.items
      ensures postprocessors.Absent? ==> this.postprocessors == []
      ensures postprocessors.One? ==> this.postprocessors == [postprocessors.item]
      ensures postprocessors.Many? ==> this.postprocessors == postprocessors.items
      ensures metrics.Absent? ==> this.metrics == []
      ensures metrics.One? ==> this.metrics == [metrics.item]
      ensures metrics.Many? ==> this.metrics == metrics.items
    {
      this.lmclient := lmclient;
      this.prompt := prompt;
      this.preprocessors := match preprocessors
        case Absent => []
        case One(p) => [p]
        case Many(ps) => ps;
      this.parser := parser;
      this.postprocessors := match postprocessors
        case Absent => []
        case One(p) => [p]
        case Many(ps) => ps;
      this.metrics := match metrics
        case Absent => []
        case One(m) => [m]
        case Many(ms) => ms;
      this.asyncRun := asyncRun;
    }

    /** Which client entry point a call uses. */
    function Mode(): CallMode {
      if asyncRun then Async else Sync
    }

    /** What the client returns for the prompts. */
    function ClientResults(prompts: seq<Messages>, kwargs: Kwargs): seq<string> {
      if asyncRun then lmclient.respondAsync(prompts, kwargs) else lmclient.respond(prompts, kwargs)
    }

    /** `__call__(records, **kwargs)`. If preprocessing or compiling raises,
        the client is not called; otherwise it is called exactly once, with
        the compiled prompts in record order and `kwargs` unchanged, and the
        outcome is the postprocessed records with their merged metrics. */
    method Call(records: seq<Record>, kwargs: Kwargs) returns (r: Result<EvaluationResult>)
      requires Valid()
      modifies lmclient
      ensures var staged := Prepare(prompt, preprocessors, records);
              staged.Err? ==> r == Err(staged.error) && lmclient.calls == old(lmclient.calls)
      ensures var staged := Prepare(prompt, preprocessors, records);
              staged.Ok? ==>
                && lmclient.calls == old(lmclient.calls) + [ClientCall(Mode(), staged.value.prompts, kwargs)]
                && r == Finish(postprocessors, metrics,
                               Attach(staged.value.records, ClientResults(staged.value.prompts, kwargs), parser))
    {
      var staged := RunProcessors(preprocessors, records);  // on a copy of the list
      if staged.Err? {
        return Err(staged.error);
      }
      var prompts := CompileAll(prompt, staged.value);
      if prompts.Err? {
        return Err(prompts.error);
      }
      var results: seq<string>;
      if asyncRun {
        results := lmclient.AsyncRun(prompts.value, kwargs);
      } else {
        results := lmclient.Run(prompts.value, kwargs);
      }
      var attached := AttachResults(staged.value, results, parser);
      var final := RunProcessors(postprocessors, attached);
      if final.Err? {
        return Err(final.error);
      }
      var merged := MergeMetrics(metrics, final.value);
      if merged.Err? {
        return Err(merged.error);
      }
      return Ok(EvaluationResult(merged.value, final.value));
    }
  }
}
