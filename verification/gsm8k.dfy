/** The GSM8K task (redstar/tasks/gsm8k.py): the `####` target extractor,
    the float-or-zero postprocessor, the two GSM8K prompts and the three
    task registrations made when the module is imported. */
module Gsm8k {
  import opened Types
  import opened Text
  import opened Processors
  import opened Parsers
  import opened Prompt
  import opened Datasets
  import opened Tasks

  // ---------------------------------------------------------------------
  // _convert_to_float

  /** `_convert_to_float(record)`: `pred` becomes `float(parsed_result)`,
      or `0.0` when the text is not a number. A missing `parsed_result`
      raises `KeyError`; a value `float()` cannot take raises `TypeError`,
      which is not caught. */
  function ConvertToFloat(record: Record): (r: Result<Record>)
    ensures "parsed_result" !in record ==> r == Err(KeyError("parsed_result"))
    ensures "parsed_result" in record && record["parsed_result"].Other? ==> r.Err? && r.error.TypeError?
    ensures r.Ok? ==> r.value.Keys == record.Keys + {"pred"} && r.value["pred"].Num?
    ensures r.Ok? ==> forall k :: k in record && k != "pred" ==> r.value[k] == record[k]
    ensures "parsed_result" in record && record["parsed_result"].Str? ==>
              r.Ok? && (match ParseFloat(record["parsed_result"].s)
                        case Some(x) => r.value["pred"] == Num(x)
                        case None => r.value["pred"] == Num(0.0))
    ensures "parsed_result" in record && record["parsed_result"].Num? ==>
              r.Ok? && r.value["pred"] == record["parsed_result"]
  {
    if "parsed_result" !in record then Err(KeyError("parsed_result"))
    else
      match FloatOrZero(record["parsed_result"])
      case Err(e) => Err(e)
      case Ok(x) => Ok(record["pred" := Num(x)])
  }

  /** The `try`/`except ValueError` around `float(value)`: text that is not
      a number gives `0.0`; a value `float()` cannot take raises. */
  function FloatOrZero(v: Value): Result<real>
  {
    match v
    case Str(s) =>
      (match ParseFloat(s)
       case Some(x) => Ok(x)
       case None => Ok(0.0))
    case Num(x) => Ok(x)
    case Other(_) => Err(TypeError("float() argument must be a string or a real number"))
  }

  /** `LambdaProcessor(_convert_to_float)`, the postprocessor of both GSM8K
      pipelines. */
  const ConvertToFloatProcessor := LambdaProcessor(ConvertToFloat)

  /** After a parser with a `(\d+)` capture, `pred` is the captured number,
      or `0.0` when the pattern did not match and the parsed result is `''`. */
  lemma ConvertParsedDigits(p: Parser, text: string, record: Record)
    requires CapturesDigits(p)
    ensures ConvertToFloat(record["parsed_result" := Str(Parse(p, text))]).Ok?
    ensures var pred := ConvertToFloat(record["parsed_result" := Str(Parse(p, text))]).value["pred"];
            match p.search(text)
            case None => pred == Num(0.0)
            case Some(digits) => pred == Num(DigitsValue(digits) as real)
  {
    match p.search(text)
    case None => EmptyDoesNotParse();
    case Some(digits) => DigitsParse(digits);
  }

  // ---------------------------------------------------------------------
  // GSM8KNumberAnswerExtractor

  /** The number of a reference answer: piece 1 of `answer.rsplit('####')`
      (for an answer with one `####`, the text after it), stripped, through
      `float()`. Without `####` there is no piece 1 (`IndexError`); a piece
      that is not a number raises `ValueError`. */
  function AnswerNumber(answer: string): (r: Result<real>)
    ensures r == Err(IndexError) <==> forall j :: !OccursAt(answer, "####", j)
    ensures r.Err? ==> r.error.IndexError? || r.error.ValueError?
  {
    RSplitWholeIffAbsent(answer, "####");
    var pieces := RSplit(answer, "####");
    if |pieces| < 2 then Err(IndexError)
    else
      match ParseFloat(Strip(pieces[1]))
      case None => Err(ValueError("could not convert string to float"))
      case Some(x) => Ok(x)
  }

  /** `GSM8KNumberAnswerExtractor._process(record)`: `target` becomes the
      number `AnswerNumber` reads from `answer`. A missing `answer` raises
      `KeyError`, a non-text one `AttributeError`; the errors of
      `AnswerNumber` pass through. */
  function ExtractNumberAnswer(record: Record): (r: Result<Record>)
    ensures "answer" !in record ==> r == Err(KeyError("answer"))
    ensures "answer" in record && !record["answer"].Str? ==> r.Err? && r.error.AttributeError?
    ensures "answer" in record && record["answer"].Str? ==>
              (r == Err(IndexError) <==> forall j :: !OccursAt(record["answer"].s, "####", j))
    ensures r.Ok? ==> "target" in r.value && r.value["target"].Num?
                      && r.value == record["target" := r.value["target"]]
  {
    if "answer" !in record then Err(KeyError("answer"))
    else
      match record["answer"]
      case Str(answer) =>
        (match AnswerNumber(answer)
         case Err(e) => Err(e)
         case Ok(x) => Ok(record["target" := Num(x)]))
      case _ => Err(AttributeError("object has no attribute 'rsplit'"))
  }

  /** An answer with one `####` and no other `#` gives the number written
      after the separator, stripped, or `ValueError` when that text is not a
      number. */
  lemma AnswerAfterSeparator(before: string, after: string)
    requires forall i :: 0 <= i < |before| ==> before[i] != '#'
    requires forall i :: 0 <= i < |after| ==> after[i] != '#'
    ensures AnswerNumber(before + "####" + after) ==
            match ParseFloat(Strip(after))
            case None => Err(ValueError("could not convert string to float"))
            case Some(x) => Ok(x)
  {
    var answer := before + "####" + after;
    RSplitOnce(before, after);
    assert RSplit(answer, "####")[1] == after;
  }

  /** The extractor on such an answer: `target` is the number after the
      separator and nothing else changes, or `ValueError` is raised. */
  lemma ExtractAfterSeparator(record: Record, before: string, after: string)
    requires forall i :: 0 <= i < |before| ==> before[i] != '#'
    requires forall i :: 0 <= i < |after| ==> after[i] != '#'
    requires "answer" in record && record["answer"] == Str(before + "####" + after)
    ensures ExtractNumberAnswer(record) ==
            match ParseFloat(Strip(after))
            case None => Err(ValueError("could not convert string to float"))
            case Some(x) => Ok(record["target" := Num(x)])
  {
    AnswerAfterSeparator(before, after);
  }

  /** `GSM8KNumberAnswerExtractor()`, the preprocessor of both GSM8K pipelines. */
  const NumberAnswerExtractor := Single(ExtractNumberAnswer)

  /** A GSM8K reference answer, worked solution then `#### <number>`, gives
      that number as the target and keeps every other field. */
  lemma ExtractGsm8kAnswer(record: Record, solution: string, n: nat)
    requires forall i :: 0 <= i < |solution| ==> solution[i] != '#'
    requires "answer" in record && record["answer"] == Str(solution + "#### " + NatToDigits(n))
    ensures ExtractNumberAnswer(record) == Ok(record["target" := Num(n as real)])
  {
    ReferenceAnswerNumber(solution, n);
  }

  /** The number of a reference answer is the one after `#### `. */
  lemma ReferenceAnswerNumber(solution: string, n: nat)
    requires forall i :: 0 <= i < |solution| ==> solution[i] != '#'
    ensures AnswerNumber(solution + "#### " + NatToDigits(n)) == Ok(n as real)
  {
    var digits := NatToDigits(n);
    var answer := solution + "#### " + digits;
    var pieces := RSplit(answer, "####");
    ReferencePieces(solution, digits);
    assert Strip(pieces[1]) == digits by {
      assert IsDigit(digits[0]) && IsDigit(digits[|digits| - 1]);
      StripLeadingSpaces(" ", digits);
    }
    ParseFloatOfNat(n);
  }

  /** `#### <digits>` after a solution without `#` splits off `" " + digits`. */
  lemma ReferencePieces(solution: string, digits: string)
    requires forall i :: 0 <= i < |solution| ==> solution[i] != '#'
    requires forall i :: 0 <= i < |digits| ==> IsDigit(digits[i])
    ensures RSplit(solution + "#### " + digits, "####") == [solution, " " + digits]
  {
    var tail := " " + digits;
    assert solution + "#### " + digits == solution + "####" + tail;
    forall i | 0 <= i < |tail| ensures tail[i] != '#' {
      if i > 0 { assert tail[i] == digits[i - 1]; }
    }
    RSplitOnce(solution, tail);
  }

  // ---------------------------------------------------------------------
  // GSM8KZeroShotPrompt

  const Gsm8kZeroShotDefaultSystem :=
    "Answer the primary school math problem, YOU MUST end with this format: the answer is |<YOUR NUMBER ANSWER>|"

  class Gsm8kZeroShotPrompt {
    const systemContent: string

    constructor (systemContent: Option<string>)
      ensures this.systemContent == OrDefault(systemContent, Gsm8kZeroShotDefaultSystem)
    {
      this.systemContent := OrDefault(systemContent, Gsm8kZeroShotDefaultSystem);
    }

    /** `compile(question, **kwargs)`: the system message and the question
        itself as the user message. */
    function Compile(question: string): Messages {
      [Message(System, systemContent), Message(User, question)]
    }
  }

  /** The GSM8K zero-shot prompt compiles exactly as a zero-shot QA prompt
      with the same system text and the default `{question}` template. */
  lemma Gsm8kZeroShotIsDefaultQA(g: Gsm8kZeroShotPrompt, z: ZeroShotQAPrompt, question: string)
    requires z.Valid() && z.questionTemplate == DefaultQuestionTemplate && z.systemContent == g.systemContent
    ensures g.Compile(question) == z.Compile(question)
  {
    ZeroShotDefaultTemplateIsVerbatim(z, question);
  }

  // ---------------------------------------------------------------------
  // GSM8KFewShotPrompt

  const StepByStep := "\nLet's think step by step"

  /** The dialog turns of the GSM8K few-shot prompt: per example, the raw
      question as a user turn and the raw answer as an assistant turn. */
  function PlainTurns(examples: seq<Example>): Messages
    decreases |examples|
  {
    if examples == [] then []
    else
      var e := examples[|examples| - 1];
      PlainTurns(examples[..|examples| - 1]) + [Message(User, e.question), Message(Assistant, e.answer)]
  }

  /** The flattened example block: `question + '\n' + answer + '\n'` per example. */
  function PlainBlock(examples: seq<Example>): string
    decreases |examples|
  {
    if examples == [] then ""
    else
      var e := examples[|examples| - 1];
      PlainBlock(examples[..|examples| - 1]) + e.question + "\n" + e.answer + "\n"
  }

  /** The raw turns are the QA few-shot turns under the default templates. */
  lemma {:induction false} PlainTurnsAreDefaultTurns(examples: seq<Example>)
    ensures PlainTurns(examples) == ExampleTurns(examples, DefaultQuestionTemplate, DefaultAnswerTemplate)
    decreases |examples|
  {
    if examples != [] {
      var e := examples[|examples| - 1];
      var front := examples[..|examples| - 1];
      PlainTurnsAreDefaultTurns(front);
      DefaultTemplatesAreVerbatim(e.question, e.answer);
      assert ExampleTurns(examples, DefaultQuestionTemplate, DefaultAnswerTemplate)
             == ExampleTurns(front, DefaultQuestionTemplate, DefaultAnswerTemplate)
                + [Message(User, e.question), Message(Assistant, e.answer)];
    }
  }

  /** The raw block is the QA few-shot block under the default templates. */
  lemma {:induction false} PlainBlockIsDefaultBlock(examples: seq<Example>)
    ensures PlainBlock(examples) == ExampleBlock(examples, DefaultQuestionTemplate, DefaultAnswerTemplate)
    decreases |examples|
  {
    if examples != [] {
      var e := examples[|examples| - 1];
      var front := examples[..|examples| - 1];
      PlainBlockIsDefaultBlock(front);
      DefaultTemplatesAreVerbatim(e.question, e.answer);
      assert ExampleBlock(examples, DefaultQuestionTemplate, DefaultAnswerTemplate)
             == ExampleBlock(front, DefaultQuestionTemplate, DefaultAnswerTemplate) + e.question + "\n" + e.answer + "\n";
    }
  }

  class Gsm8kFewShotPrompt {
    const examples: seq<Example>
    const dialogStyle: bool
    const systemContent: string

    constructor (examples: seq<Example>, dialogStyle: bool, systemContent: Option<string>)
      ensures this.examples == examples && this.dialogStyle == dialogStyle
      ensures this.systemContent == OrDefault(systemContent, FewShotDefaultSystem)
    {
      this.examples := examples;
      this.dialogStyle := dialogStyle;
      this.systemContent := OrDefault(systemContent, FewShotDefaultSystem);
    }

    /** What `compile(question, **kwargs)` returns. */
    function Compiled(question: string): Messages {
      if dialogStyle then
        [Message(System, systemContent)] + PlainTurns(examples) + [Message(User, question + StepByStep)]
      else
        [Message(System, systemContent),
         Message(User, PlainBlock(examples) + "\nQuestion: " + question + StepByStep)]
    }

    /** `compile(question, **kwargs)`: builds the messages turn by turn
        (dialog style) or accumulates the example block (flattened). */
    method Compile(question: string) returns (messages: Messages)
      ensures messages == Compiled(question)
    {
      messages := [Message(System, systemContent)];
      if dialogStyle {
        var i := 0;
        while i < |examples|
          invariant 0 <= i <= |examples|
          invariant messages == [Message(System, systemContent)] + PlainTurns(examples[..i])
        {
          assert examples[..i + 1][..i] == examples[..i];
          messages := messages + [Message(User, examples[i].question)];
          messages := messages + [Message(Assistant, examples[i].answer)];
          i := i + 1;
        }
        assert examples[..i] == examples;
        messages := messages + [Message(User, question + StepByStep)];
      } else {
        var promptBase := "";
        var i := 0;
        while i < |examples|
          invariant 0 <= i <= |examples|
          invariant promptBase == PlainBlock(examples[..i])
        {
          assert examples[..i + 1][..i] == examples[..i];
          promptBase := promptBase + examples[i].question + "\n" + examples[i].answer + "\n";
          i := i + 1;
        }
        assert examples[..i] == examples;
        var promptQuestion := promptBase + "\nQuestion: " + question + StepByStep;
        messages := messages + [Message(User, promptQuestion)];
      }
    }
  }

  /** Dialog style: `1 + 2k + 1` messages, the system message, a user/assistant
      pair per example in order, then the question asking for step-by-step
      reasoning. */
  lemma Gsm8kFewShotDialogShape(g: Gsm8kFewShotPrompt, question: string)
    requires g.dialogStyle
    ensures var m := g.Compiled(question);
      && |m| == 1 + 2 * |g.examples| + 1
      && m[0] == Message(System, g.systemContent)
      && m[|m| - 1] == Message(User, question + "\nLet's think step by step")
      && forall i :: 0 <= i < |g.examples| ==>
           m[1 + 2 * i] == Message(User, g.examples[i].question)
           && m[2 + 2 * i] == Message(Assistant, g.examples[i].answer)
  {
    var turns := PlainTurns(g.examples);
    PlainTurnsAreDefaultTurns(g.examples);
    var m := [Message(System, g.systemContent)] + turns + [Message(User, question + StepByStep)];
    assert g.Compiled(question) == m;
    forall i | 0 <= i < |g.examples|
      ensures m[1 + 2 * i] == Message(User, g.examples[i].question)
      ensures m[2 + 2 * i] == Message(Assistant, g.examples[i].answer)
    {
      ExampleTurnsAt(g.examples, DefaultQuestionTemplate, DefaultAnswerTemplate, i);
      DefaultTemplatesAreVerbatim(g.examples[i].question, g.examples[i].answer);
      assert m[1 + 2 * i] == turns[2 * i];
      assert m[2 + 2 * i] == turns[2 * i + 1];
    }
  }

  /** Flattened style: two messages; the user message is the few-shot QA
      block under the default templates, then `'\nQuestion: '`, the question
      and the step-by-step request. */
  lemma Gsm8kFewShotFlatShape(g: Gsm8kFewShotPrompt, question: string)
    requires !g.dialogStyle
    ensures var m := g.Compiled(question);
      && |m| == 2
      && m[0] == Message(System, g.systemContent)
      && m[1] == Message(User, ExampleBlock(g.examples, DefaultQuestionTemplate, DefaultAnswerTemplate)
                               + "\nQuestion: " + question + "\nLet's think step by step")
  {
    PlainBlockIsDefaultBlock(g.examples);
  }

  // ---------------------------------------------------------------------
  // Task registrations

  /** `load_gsm8k_dataset` of this module: the same hub dataset as the
      registered `gsm8k` loader. */
  const Gsm8kTaskLoader := HubDataset("gsm8k", "main")

  const HardestExamplesFile := "fixtures/gsm8k_hardest.json"

  /** Importing the module constructs the three GSM8K tasks, in this order,
      each registering itself under its own name. */
  method ImportGsm8kTasks(registry: TaskRegistry) returns (zeroShot: Task, fewShot: Task, dialogFewShot: Task)
    modifies registry
    ensures registry.tasks == old(registry.tasks)["gsm8k_zero_shot" := zeroShot]
                                                 ["gsm8k_few_shot" := fewShot]
                                                 ["gsm8k_dialog_few_shot" := dialogFewShot]
    ensures registry.tasks.Keys == old(registry.tasks).Keys + {"gsm8k_zero_shot", "gsm8k_few_shot", "gsm8k_dialog_few_shot"}
    ensures zeroShot.taskName == "gsm8k_zero_shot" && zeroShot.createPipelineFunc == ZeroShotFactory
    ensures fewShot.taskName == "gsm8k_few_shot"
            && fewShot.createPipelineFunc == FewShotFactory(HardestExamplesFile, false, map["temperature" := Num(0.01)])
    ensures dialogFewShot.taskName == "gsm8k_dialog_few_shot"
            && dialogFewShot.createPipelineFunc == FewShotFactory(HardestExamplesFile, true, map["temperature" := Num(0.01)])
    ensures zeroShot.loadDatasetFunc == Gsm8kTaskLoader && fewShot.loadDatasetFunc == Gsm8kTaskLoader
            && dialogFewShot.loadDatasetFunc == Gsm8kTaskLoader
  {
    zeroShot := new Task("gsm8k_zero_shot", Gsm8kTaskLoader, ZeroShotFactory, registry);
    fewShot := new Task("gsm8k_few_shot", Gsm8kTaskLoader,
                        FewShotFactory(HardestExamplesFile, false, map["temperature" := Num(0.01)]), registry);
    dialogFewShot := new Task("gsm8k_dialog_few_shot", Gsm8kTaskLoader,
                              FewShotFactory(HardestExamplesFile, true, map["temperature" := Num(0.01)]), registry);
  }
}
