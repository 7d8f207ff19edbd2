/** The prompt as the pipeline sees it (redstar/prompt.py `BasePrompt`):
    `prompt.compile(**record)` binds every field of the record as a keyword
    argument of the concrete prompt's `compile`, and the
    `compile_parameters` property describes that signature. */
module PromptInterface {
  import opened Types
  import opened Prompt
  import opened Gsm8k

  /** The prompt classes of the model. */
  datatype BasePrompt =
    | ZeroShotQA(zeroShot: ZeroShotQAPrompt)
    | FewShotQA(fewShot: FewShotQAPrompt)
    | Gsm8kZeroShot(gsmZeroShot: Gsm8kZeroShotPrompt)
    | Gsm8kFewShot(gsmFewShot: Gsm8kFewShotPrompt)

  /** What each prompt's constructor establishes. */
  predicate ValidPrompt(p: BasePrompt) {
    match p
    case ZeroShotQA(z) => z.Valid()
    case FewShotQA(f) => f.Valid()
    case _ => true
  }

  /** The signature of the prompt's own `compile`: `(self, question)` for
      the QA prompts, `(self, question, **kwargs)` for the GSM8K ones. */
  function CompileSignature(p: BasePrompt): seq<Parameter> {
    if p.ZeroShotQA? || p.FewShotQA? then ZeroShotCompileSignature
    else [Parameter("self", PositionalOrKeyword), Parameter("question", PositionalOrKeyword),
          Parameter("kwargs", VarKeyword)]
  }

  /** Binding `**record` to `compile`: a `self` field collides with the
      bound receiver; without `**kwargs` any field other than `question` is
      an unexpected keyword; `question` itself is required. All three
      failures raise `TypeError`. */
  function BindQuestion(p: BasePrompt, record: Record): (r: Result<string>)
    ensures r.Ok? <==> "question" in record && record["question"].Str? && "self" !in record
                       && (HasKind(CompileSignature(p), VarKeyword) || record.Keys == {"question"})
    ensures r.Ok? ==> r.value == record["question"].s
    ensures r.Err? ==> r.error.TypeError?
  {
    if "self" in record then
      Err(TypeError("compile() got multiple values for argument 'self'"))
    else if !HasKind(CompileSignature(p), VarKeyword) && record.Keys - {"question"} != {} then
      Err(TypeError("compile() got an unexpected keyword argument"))
    else if "question" !in record then
      Err(TypeError("compile() missing 1 required positional argument: 'question'"))
    else
      match record["question"]
      case Str(q) => Ok(q)
      case _ => Err(TypeError("question is not text"))
  }

  /** The messages the prompt compiles for a bound question. */
  function CompiledFor(p: BasePrompt, question: string): Messages {
    match p
    case ZeroShotQA(z) => z.Compile(question)
    case FewShotQA(f) => f.Compiled(question)
    case Gsm8kZeroShot(g) => g.Compile(question)
    case Gsm8kFewShot(g) => g.Compiled(question)
  }

  /** `prompt.compile(**record)`: the messages for the bound question, or
      the `TypeError` binding raises. */
  function CompileRecord(p: BasePrompt, record: Record): (r: Result<Messages>)
    ensures r.Ok? <==> BindQuestion(p, record).Ok?
    ensures r.Ok? ==> r.value == CompiledFor(p, record["question"].s)
    ensures r.Err? ==> r.error.TypeError?
  {
    match BindQuestion(p, record)
    case Err(e) => Err(e)
    case Ok(question) => Ok(CompiledFor(p, question))
  }

  /** `prompt.compile(**record)`, dispatched to the concrete `compile`. */
  method CompileWithRecord(p: BasePrompt, record: Record) returns (r: Result<Messages>)
    requires ValidPrompt(p)
    ensures r == CompileRecord(p, record)
  {
    var bound := BindQuestion(p, record);
    if bound.Err? {
      return Err(bound.error);
    }
    var question := bound.value;
    match p
    case ZeroShotQA(z) =>
      r := Ok(z.Compile(question));
    case FewShotQA(f) =>
      var messages := f.Compile(question);
      r := Ok(messages);
    case Gsm8kZeroShot(g) =>
      r := Ok(g.Compile(question));
    case Gsm8kFewShot(g) =>
      var messages := g.Compile(question);
      r := Ok(messages);
  }

  /** The GSM8K prompts take `**kwargs`, so fields other than `question`
      make no difference to what they compile, except a `self` field, which
      collides with the receiver. */
  lemma Gsm8kPromptIgnoresExtraFields(p: BasePrompt, record: Record, key: string, v: Value)
    requires p.Gsm8kZeroShot? || p.Gsm8kFewShot?
    requires key != "question"
    ensures key != "self" ==> CompileRecord(p, record[key := v]) == CompileRecord(p, record)
    ensures key == "self" ==> CompileRecord(p, record[key := v]).Err?
                              && CompileRecord(p, record[key := v]).error.TypeError?
  {
    assert HasKind(CompileSignature(p), VarKeyword) by {
      assert CompileSignature(p)[2].name != "self";
    }
  }

  // ---------------------------------------------------------------------
  // compile_parameters

  /** `prompt.compile_parameters` as written: the signature inspected is
      always `ZeroShotQAPrompt.compile`, whatever the prompt. */
  function ReportedCompileParameters(p: BasePrompt): (r: Result<seq<string>>)
    ensures r == Ok(["question"])
  {
    assert !HasKind(ZeroShotCompileSignature, VarPositional);
    assert !HasKind(ZeroShotCompileSignature, VarKeyword);
    var sig := ZeroShotCompileSignature;
    assert FixedNames(sig[..1]) == [] by {
      assert sig[..1][..0] == [];
    }
    assert FixedNames(sig) == ["question"];
    assert CompileParametersOf(sig) == Ok(FixedNames(sig));
    CompileParametersOf(sig)
  }

  /** `compile_parameters` inspecting the prompt's own `compile`: the QA
      prompts take exactly `question`; the GSM8K prompts, with `**kwargs`,
      report `[]`. */
  function OwnCompileParameters(p: BasePrompt): (r: Result<seq<string>>)
    ensures p.ZeroShotQA? || p.FewShotQA? ==> r == Ok(["question"])
    ensures p.Gsm8kZeroShot? || p.Gsm8kFewShot? ==> r == Ok([])
  {
    var params := CompileSignature(p);
    if p.ZeroShotQA? || p.FewShotQA? then
      assert ReportedCompileParameters(p) == CompileParametersOf(params);
      CompileParametersOf(params)
    else
      assert !HasKind(params, VarPositional);
      assert HasKind(params, VarKeyword) by { assert params[2].name != "self"; }
      CompileParametersOf(params)
  }

  /** With the prompt's own signature, `compile_parameters` says which
      records `compile(**record)` accepts: `[]` (there is `**kwargs`) means
      any record with a text `question` and no `self` field, otherwise
      exactly the listed fields. */
  lemma OwnParametersDescribeBinding(p: BasePrompt, record: Record)
    requires "question" in record && record["question"].Str?
    ensures BindQuestion(p, record).Ok? <==>
            (OwnCompileParameters(p).value == [] && "self" !in record)
            || record.Keys == set n | n in OwnCompileParameters(p).value
  {
    var names := OwnCompileParameters(p).value;
    if p.ZeroShotQA? || p.FewShotQA? {
      assert (set n | n in names) == {"question"};
      assert !HasKind(CompileSignature(p), VarKeyword);
    } else {
      assert HasKind(CompileSignature(p), VarKeyword) by {
        assert CompileSignature(p)[2].name != "self";
      }
    }
  }

  /** The parameters reported as written do not describe the GSM8K prompts:
      they list only `question`, yet `compile` accepts a record that also
      has an `answer` field. */
  lemma ReportedParametersMisdescribeGsm8k(g: Gsm8kZeroShotPrompt)
    ensures var p := Gsm8kZeroShot(g);
            var record := map["question" := Str("2 + 2?"), "answer" := Str("#### 4")];
            && ReportedCompileParameters(p).value != OwnCompileParameters(p).value
            && record.Keys != set n | n in ReportedCompileParameters(p).value
            && ReportedCompileParameters(p).value != []
            && BindQuestion(p, record).Ok?
  {
    var p := Gsm8kZeroShot(g);
    var record := map["question" := Str("2 + 2?"), "answer" := Str("#### 4")];
    assert "answer" in record.Keys;
    assert HasKind(CompileSignature(p), VarKeyword) by {
      assert CompileSignature(p)[2].name != "self";
    }
  }
}
