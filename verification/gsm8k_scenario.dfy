/** One GSM8K record through the stages of the zero-shot GSM8K pipeline
    (redstar/tasks/gsm8k.py wiring redstar/pipeline.py): the answer
    extractor, the zero-shot prompt, a digit-capturing parser, the
    float-or-zero postprocessor and accuracy. */
module Gsm8kScenario {
  import opened Types
  import opened Text
  import opened Processors
  import opened Parsers
  import opened Metrics
  import opened Prompt
  import opened Gsm8k
  import opened PromptInterface
  import opened Pipeline

  /** A GSM8K record: a question and a reference answer ending in `#### n`. */
  function Gsm8kRecord(question: string, solution: string, n: nat): Record {
    map["question" := Str(question), "answer" := Str(solution + "#### " + NatToDigits(n))]
  }

  /** Running a one-processor chain on one record is applying its step. */
  lemma SingleStepChain(step: Record -> Result<Record>, record: Record, out: Record)
    requires step(record) == Ok(out)
    ensures RunChain([Single(step)], [record]) == Ok([out])
  {
    var ps := [Single(step)];
    assert ps[..0] == [];
    MapAllValues(step, [record], [out]);
  }

  /** Preprocessing and compiling: the target is the reference number, and
      the only prompt is the system text and the question. */
  lemma ScenarioPrepare(g: Gsm8kZeroShotPrompt, question: string, solution: string, n: nat)
    requires forall i :: 0 <= i < |solution| ==> solution[i] != '#'
    ensures var record := Gsm8kRecord(question, solution, n);
            Prepare(Gsm8kZeroShot(g), [NumberAnswerExtractor], [record])
            == Ok(Staged([record["target" := Num(n as real)]], [[Message(System, g.systemContent), Message(User, question)]]))
  {
    var record := Gsm8kRecord(question, solution, n);
    var target := record["target" := Num(n as real)];
    var messages := [Message(System, g.systemContent), Message(User, question)];
    ScenarioExtract(question, solution, n);
    ScenarioCompile(g, target, question);
    PrepareOf(Gsm8kZeroShot(g), [NumberAnswerExtractor], [record], [target], [messages]);
  }

  /** The extractor chain sets the reference number as the target. */
  lemma ScenarioExtract(question: string, solution: string, n: nat)
    requires forall i :: 0 <= i < |solution| ==> solution[i] != '#'
    ensures var record := Gsm8kRecord(question, solution, n);
            RunChain([NumberAnswerExtractor], [record]) == Ok([record["target" := Num(n as real)]])
  {
    var record := Gsm8kRecord(question, solution, n);
    ExtractGsm8kAnswer(record, solution, n);
    SingleStepChain(ExtractNumberAnswer, record, record["target" := Num(n as real)]);
  }

  /** Compiling the one extracted record. */
  lemma ScenarioCompile(g: Gsm8kZeroShotPrompt, target: Record, question: string)
    requires target.Keys == {"question", "answer", "target"} && target["question"] == Str(question)
    ensures MapAll(Compiler(Gsm8kZeroShot(g)), [target]) == Ok([[Message(System, g.systemContent), Message(User, question)]])
  {
    var messages := [Message(System, g.systemContent), Message(User, question)];
    ZeroShotCompilesQuestion(g, target, question);
    MapAllValues(Compiler(Gsm8kZeroShot(g)), [target], [messages]);
  }

  /** The GSM8K zero-shot prompt compiles any record with a text question
      and no `self` field to the system text and the question. */
  lemma ZeroShotCompilesQuestion(g: Gsm8kZeroShotPrompt, record: Record, question: string)
    requires "question" in record && record["question"] == Str(question) && "self" !in record
    ensures CompileRecord(Gsm8kZeroShot(g), record) == Ok([Message(System, g.systemContent), Message(User, question)])
  {
    var p := Gsm8kZeroShot(g);
    assert HasKind(CompileSignature(p), VarKeyword) by {
      assert CompileSignature(p)[2].name != "self";
    }
  }

  /** Postprocessing and scoring one record whose reply captures `m`. */
  lemma ScenarioFinish(parser: Parser, record: Record, n: nat, reply: string, m: nat)
    requires "target" in record && record["target"] == Num(n as real)
    requires parser.search(reply) == Some(NatToDigits(m))
    ensures var out := Finish([ConvertToFloatProcessor], [Accuracy], Attach([record], [reply], Some(parser)));
            out.Ok? && out.value.metric == map["accuracy" := if m == n then 1.0 else 0.0]
  {
    var attached := AttachOne(record, reply, Some(parser));
    var scored := attached["pred" := Num(m as real)];
    assert Attach([record], [reply], Some(parser)) == [attached];
    ConvertCapturedNumber(parser, record, reply, m);
    ScoreOneRecord(scored, n, m);
  }

  /** Float-or-zero turns the attached parse of `m` into `pred = m`. */
  lemma ConvertCapturedNumber(parser: Parser, record: Record, reply: string, m: nat)
    requires parser.search(reply) == Some(NatToDigits(m))
    ensures var attached := AttachOne(record, reply, Some(parser));
            RunChain([ConvertToFloatProcessor], [attached]) == Ok([attached["pred" := Num(m as real)]])
  {
    var attached := AttachOne(record, reply, Some(parser));
    var scored := attached["pred" := Num(m as real)];
    assert attached["parsed_result"] == Str(NatToDigits(m));
    ParseFloatOfNat(m);
    assert ConvertToFloat(attached) == Ok(scored);
    SingleStepChain(ConvertToFloat, attached, scored);
  }

  /** Accuracy alone on one record with target `n` and `pred` `m`. */
  lemma ScoreOneRecord(scored: Record, n: nat, m: nat)
    requires "target" in scored && scored["target"] == Num(n as real)
    requires "pred" in scored && scored["pred"] == Num(m as real)
    ensures MergedScores([Accuracy], [scored]) == Ok(map["accuracy" := if m == n then 1.0 else 0.0])
  {
    var accuracy := if m == n then 1.0 else 0.0;
    assert AccuracyScore([scored]) == Ok(map["accuracy" := accuracy]) by {
      assert Hit(scored) <==> m == n;
      assert Hits([scored]) == if m == n then 1 else 0;
    }
    var ms := [Accuracy];
    assert ms[..0] == [];
    assert map[] + map["accuracy" := accuracy] == map["accuracy" := accuracy];
  }

  /** End to end: the record scores accuracy 1 when the reply's captured
      number is the reference number and 0 otherwise, and the client is
      asked exactly the question under the system text. */
  lemma ZeroShotSingleRecord(g: Gsm8kZeroShotPrompt, parser: Parser, question: string, solution: string, n: nat,
                             reply: string, m: nat)
    requires forall i :: 0 <= i < |solution| ==> solution[i] != '#'
    requires parser.search(reply) == Some(NatToDigits(m))
    ensures var staged := Prepare(Gsm8kZeroShot(g), [NumberAnswerExtractor], [Gsm8kRecord(question, solution, n)]);
            && staged.Ok?
            && staged.value.prompts == [[Message(System, g.systemContent), Message(User, question)]]
            && var out := Finish([ConvertToFloatProcessor], [Accuracy], Attach(staged.value.records, [reply], Some(parser)));
               out.Ok? && out.value.metric == map["accuracy" := if m == n then 1.0 else 0.0]
  {
    ScenarioPrepare(g, question, solution, n);
    var record := Gsm8kRecord(question, solution, n)["target" := Num(n as real)];
    ScenarioFinish(parser, record, n, reply, m);
  }
}
