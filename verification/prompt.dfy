/** Prompt compilers (redstar/prompt.py): the signature rule behind
    `compile_parameters`, and the zero-shot and few-shot question-answering
    prompts. A prompt object is never changed after `__init__`, so its
    attributes are `const` fields set by the constructor. */
module Prompt {
  import opened Types
  import opened Text

  const DefaultQuestionTemplate := "{question}"
  const DefaultAnswerTemplate := "{answer}"
  const ZeroShotDefaultSystem := "You are a helpful assistant to answer user's questions"
  const FewShotDefaultSystem := "Follow the given examples and answer the question."

  /** `value or default` for an optional text argument: `None` and the empty
      string both fall back to the default. */
  function OrDefault(value: Option<string>, default: string): (r: string)
    ensures value.None? || value.value == "" ==> r == default
    ensures value.Some? && value.value != "" ==> r == value.value
    ensures default != "" ==> r != ""
  {
    if value.Some? && value.value != "" then value.value else default
  }

  // ---------------------------------------------------------------------
  // compile_parameters

  /** The kinds `inspect.Parameter.kind` distinguishes. */
  datatype ParamKind = PositionalOnly | PositionalOrKeyword | VarPositional | KeywordOnly | VarKeyword

  datatype Parameter = Parameter(name: string, kind: ParamKind)

  /** Some parameter other than `self` has the given kind. */
  predicate HasKind(params: seq<Parameter>, kind: ParamKind) {
    exists i :: 0 <= i < |params| && params[i].name != "self" && params[i].kind == kind
  }

  /** Names of the parameters other than `self` and `**kwargs`, in
      declaration order. */
  function FixedNames(params: seq<Parameter>): (names: seq<string>)
    ensures |names| <= |params|
    ensures forall k :: 0 <= k < |names| ==> names[k] != "self"
    decreases |params|
  {
    if params == [] then []
    else
      var p := params[|params| - 1];
      FixedNames(params[..|params| - 1]) + (if p.name == "self" || p.kind == VarKeyword then [] else [p.name])
  }

  /** The names of a signature are those of its parts, in order. */
  lemma {:induction false} FixedNamesAppend(a: seq<Parameter>, b: seq<Parameter>)
    ensures FixedNames(a + b) == FixedNames(a) + FixedNames(b)
    decreases |b|
  {
    if b == [] {
      assert a + b == a;
    } else {
      var front := b[..|b| - 1];
      assert (a + b)[..|a + b| - 1] == a + front;
      assert (a + b)[|a + b| - 1] == b[|b| - 1];
      FixedNamesAppend(a, front);
    }
  }

  /** One parameter contributes its name unless it is `self` or `**kwargs`. */
  lemma FixedNamesOne(p: Parameter)
    ensures FixedNames([p]) == if p.name == "self" || p.kind == VarKeyword then [] else [p.name]
  {
    assert [p][..0] == [];
  }

  /** What `compile_parameters` reports for a signature: `*args` raises
      `ValueError`; otherwise `**kwargs` gives `[]`; otherwise every name
      but `self`, in order. */
  function CompileParametersOf(params: seq<Parameter>): (r: Result<seq<string>>)
    ensures r.Err? <==> HasKind(params, VarPositional)
    ensures r.Ok? && HasKind(params, VarKeyword) ==> r.value == []
    ensures r.Ok? && !HasKind(params, VarKeyword) ==> r.value == FixedNames(params)
  {
    if HasKind(params, VarPositional) then Err(ValueError("compile() does not support VAR_POSITIONAL"))
    else if HasKind(params, VarKeyword) then Ok([])
    else Ok(FixedNames(params))
  }

  /** The loop of `compile_parameters` over the inspected signature. */
  method CompileParameters(params: seq<Parameter>) returns (r: Result<seq<string>>)
    ensures r == CompileParametersOf(params)
  {
    var haveVarKeyword := false;
    var names: seq<string> := [];
    var i := 0;
    while i < |params|
      invariant 0 <= i <= |params|
      invariant !HasKind(params[..i], VarPositional)
      invariant haveVarKeyword == HasKind(params[..i], VarKeyword)
      invariant names == FixedNames(params[..i])
    {
      var p := params[i];
      assert params[..i + 1][..i] == params[..i];
      assert forall j :: 0 <= j < i ==> params[..i + 1][j] == params[..i][j];
      if p.name == "self" {
        i := i + 1;
        continue;
      }
      if p.kind == VarPositional {
        assert HasKind(params, VarPositional) by { assert params[i].name != "self"; }
        return Err(ValueError("compile() does not support VAR_POSITIONAL"));
      }
      if p.kind == VarKeyword {
        haveVarKeyword := true;
      } else {
        names := names + [p.name];
      }
      i := i + 1;
    }
    assert params[..i] == params;
    if haveVarKeyword {
      return Ok([]);
    }
    return Ok(names);
  }

  /** The signature of `ZeroShotQAPrompt.compile`: `(self, question)`. */
  const ZeroShotCompileSignature := [Parameter("self", PositionalOrKeyword), Parameter("question", PositionalOrKeyword)]

  /** A few-shot example: the `question` and `answer` entries of its dict. */
  datatype Example = Example(question: string, answer: string)

  // ---------------------------------------------------------------------
  // ZeroShotQAPrompt

  class ZeroShotQAPrompt {
    const systemContent: string
    const questionTemplate: string
    const baseMessages: Messages

    /** `base_messages` is the system message alone. */
    predicate Valid() {
      baseMessages == [Message(System, systemContent)]
    }

    constructor (systemContent: Option<string>, questionTemplate: Option<string>)
      ensures Valid()
      ensures this.systemContent == OrDefault(systemContent, ZeroShotDefaultSystem)
      ensures this.questionTemplate == OrDefault(questionTemplate, DefaultQuestionTemplate)
    {
      var content := OrDefault(systemContent, ZeroShotDefaultSystem);
      this.systemContent := content;
      this.questionTemplate := OrDefault(questionTemplate, DefaultQuestionTemplate);
      this.baseMessages := [Message(System, content)];
    }

    /** `compile(question)`: a copy of `base_messages` with the templated
        question appended as a user message. */
    function Compile(question: string): (messages: Messages)
      ensures Valid() ==> messages == [Message(System, systemContent),
                                       Message(User, Format(questionTemplate, "question", question))]
    {
      baseMessages + [Message(User, Format(questionTemplate, "question", question))]
    }
  }

  /** With the default template the user message is the question verbatim. */
  lemma ZeroShotDefaultTemplateIsVerbatim(p: ZeroShotQAPrompt, question: string)
    requires p.Valid() && p.questionTemplate == DefaultQuestionTemplate
    ensures p.Compile(question) == [Message(System, p.systemContent), Message(User, question)]
  {
    QuestionTemplateIsVerbatim(question);
  }

  /** The default templates yield their value verbatim. */
  lemma DefaultTemplatesAreVerbatim(question: string, answer: string)
    ensures Format(DefaultQuestionTemplate, "question", question) == question
    ensures Format(DefaultAnswerTemplate, "answer", answer) == answer
  {
    QuestionTemplateIsVerbatim(question);
    AnswerTemplateIsVerbatim(answer);
  }

  lemma QuestionTemplateIsVerbatim(question: string)
    ensures Format(DefaultQuestionTemplate, "question", question) == question
  {
    assert DefaultQuestionTemplate == "{" + "question" + "}";
    FormatFieldOnly("question", question);
  }

  lemma AnswerTemplateIsVerbatim(answer: string)
    ensures Format(DefaultAnswerTemplate, "answer", answer) == answer
  {
    assert DefaultAnswerTemplate == "{" + "answer" + "}";
    FormatFieldOnly("answer", answer);
  }

  // ---------------------------------------------------------------------
  // FewShotQAPrompt

  /** The dialog-style turns for the examples: per example, in order, a user
      message with the templated question and an assistant message with the
      templated answer. */
  function ExampleTurns(examples: seq<Example>, questionTemplate: string, answerTemplate: string): (turns: Messages)
    ensures |turns| == 2 * |examples|
    decreases |examples|
  {
    if examples == [] then []
    else
      var e := examples[|examples| - 1];
      ExampleTurns(examples[..|examples| - 1], questionTemplate, answerTemplate)
      + [Message(User, Format(questionTemplate, "question", e.question)),
         Message(Assistant, Format(answerTemplate, "answer", e.answer))]
  }

  /** Turn `2i` asks example `i`'s question, turn `2i + 1` gives its answer. */
  lemma {:induction false} ExampleTurnsAt(examples: seq<Example>, qt: string, at: string, i: nat)
    requires i < |examples|
    ensures |ExampleTurns(examples, qt, at)| == 2 * |examples|
    ensures ExampleTurns(examples, qt, at)[2 * i] == Message(User, Format(qt, "question", examples[i].question))
    ensures ExampleTurns(examples, qt, at)[2 * i + 1] == Message(Assistant, Format(at, "answer", examples[i].answer))
    decreases |examples|
  {
    var n := |examples| - 1;
    var front := examples[..n];
    if i < n {
      ExampleTurnsAt(front, qt, at, i);
    }
  }

  /** The flattened example block: `question + '\n' + answer + '\n'` per
      example, templated, in order. */
  function ExampleBlock(examples: seq<Example>, questionTemplate: string, answerTemplate: string): string
    decreases |examples|
  {
    if examples == [] then ""
    else
      var e := examples[|examples| - 1];
      ExampleBlock(examples[..|examples| - 1], questionTemplate, answerTemplate)
      + Format(questionTemplate, "question", e.question) + "\n" + Format(answerTemplate, "answer", e.answer) + "\n"
  }

  /** The dialog-style `base_messages` loop of `FewShotQAPrompt.__init__`:
      the system message, then a user and an assistant turn per example. */
  method DialogBase(content: string, examples: seq<Example>, qt: string, at: string) returns (base: Messages)
    ensures base == [Message(System, content)] + ExampleTurns(examples, qt, at)
  {
    base := [Message(System, content)];
    var i := 0;
    while i < |examples|
      invariant 0 <= i <= |examples|
      invariant base == [Message(System, content)] + ExampleTurns(examples[..i], qt, at)
    {
      var question := Format(qt, "question", examples[i].question);
      var answer := Format(at, "answer", examples[i].answer);
      assert examples[..i + 1][..i] == examples[..i];
      base := base + [Message(User, question)];
      base := base + [Message(Assistant, answer)];
      i := i + 1;
    }
    assert examples[..i] == examples;
  }

  class FewShotQAPrompt {
    const examples: seq<Example>
    const dialogStyle: bool
    const systemContent: string
    const questionTemplate: string
    const answerTemplate: string
    const baseMessages: Messages

    /** `base_messages`: the system message, followed in dialog style by the
        example turns. */
    predicate Valid() {
      baseMessages == [Message(System, systemContent)]
                      + (if dialogStyle then ExampleTurns(examples, questionTemplate, answerTemplate) else [])
    }

    constructor (examples: seq<Example>, dialogStyle: bool, systemContent: Option<string>,
                 questionTemplate: Option<string>, answerTemplate: Option<string>)
      ensures Valid()
      ensures this.examples == examples && this.dialogStyle == dialogStyle
      ensures this.systemContent == OrDefault(systemContent, FewShotDefaultSystem)
      ensures this.questionTemplate == OrDefault(questionTemplate, DefaultQuestionTemplate)
      ensures this.answerTemplate == OrDefault(answerTemplate, DefaultAnswerTemplate)
    {
      var content := OrDefault(systemContent, FewShotDefaultSystem);
      var qt := OrDefault(questionTemplate, DefaultQuestionTemplate);
      var at := OrDefault(answerTemplate, DefaultAnswerTemplate);
      var base := [Message(System, content)];
      if dialogStyle {
        base := DialogBase(content, examples, qt, at);
      }
      this.examples := examples;
      this.dialogStyle := dialogStyle;
      this.systemContent := content;
      this.questionTemplate := qt;
      this.answerTemplate := at;
      this.baseMessages := base;
    }

    /** What `compile(question)` returns. */
    function Compiled(question: string): Messages {
      if dialogStyle then
        [Message(System, systemContent)] + ExampleTurns(examples, questionTemplate, answerTemplate)
        + [Message(User, Format(questionTemplate, "question", question))]
      else
        [Message(System, systemContent),
         Message(User, ExampleBlock(examples, questionTemplate, answerTemplate) + Format(questionTemplate, "question", question))]
    }

    /** `compile(question)`: copies `base_messages`, then appends the question
        (dialog style) or the example block followed by the question. */
    method Compile(question: string) returns (messages: Messages)
      requires Valid()
      ensures messages == Compiled(question)
    {
      messages := baseMessages;
      if dialogStyle {
        messages := messages + [Message(User, Format(questionTemplate, "question", question))];
      } else {
        var promptBase := "";
        var i := 0;
        while i < |examples|
          invariant 0 <= i <= |examples|
          invariant promptBase == ExampleBlock(examples[..i], questionTemplate, answerTemplate)
        {
          var exampleQuestion := Format(questionTemplate, "question", examples[i].question);
          var exampleAnswer := Format(answerTemplate, "answer", examples[i].answer);
          assert examples[..i + 1][..i] == examples[..i];
          promptBase := promptBase + exampleQuestion + "\n" + exampleAnswer + "\n";
          i := i + 1;
        }
        assert examples[..i] == examples;
        messages := messages + [Message(User, promptBase + Format(questionTemplate, "question", question))];
      }
    }
  }

  /** Dialog style: `2 + 2k` messages, the system message, a user/assistant
      pair per example in order, then the templated question. */
  lemma FewShotDialogShape(p: FewShotQAPrompt, question: string)
    requires p.dialogStyle
    ensures var m := p.Compiled(question);
      && |m| == 2 + 2 * |p.examples|
      && m[0] == Message(System, p.systemContent)
      && m[|m| - 1] == Message(User, Format(p.questionTemplate, "question", question))
      && forall i :: 0 <= i < |p.examples| ==>
           && m[1 + 2 * i] == Message(User, Format(p.questionTemplate, "question", p.examples[i].question))
           && m[2 + 2 * i] == Message(Assistant, Format(p.answerTemplate, "answer", p.examples[i].answer))
  {
    var turns := ExampleTurns(p.examples, p.questionTemplate, p.answerTemplate);
    var last := Message(User, Format(p.questionTemplate, "question", question));
    var m := [Message(System, p.systemContent)] + turns + [last];
    assert p.Compiled(question) == m;
    forall i | 0 <= i < |p.examples|
      ensures m[1 + 2 * i] == Message(User, Format(p.questionTemplate, "question", p.examples[i].question))
      ensures m[2 + 2 * i] == Message(Assistant, Format(p.answerTemplate, "answer", p.examples[i].answer))
    {
      ExampleTurnsAt(p.examples, p.questionTemplate, p.answerTemplate, i);
      assert m[1 + 2 * i] == turns[2 * i];
      assert m[2 + 2 * i] == turns[2 * i + 1];
    }
  }
}
