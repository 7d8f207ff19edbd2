# redstar evaluation pipeline, modelled in Dafny

redstar evaluates a language model on a dataset by passing records through
a fixed sequence of stages. An `EvaluationPipeline` call:

1. runs the preprocessors in order;
2. compiles one chat prompt per record;
3. makes one batched call to the model client;
4. writes each reply (and, with a parser, its parse) onto its record by
   position;
5. runs the postprocessors;
6. merges the outputs of its metrics left to right.

The GSM8K task supplies the stages:
- a `####` target extractor;
- a zero-shot and a few-shot prompt;
- a regex parser;
- a float-or-zero postprocessor;
- accuracy.

Tasks and dataset loaders are recorded in global registries when they are
constructed or decorated.

The model is split into these modules:

- `Types` (types.dfy): record values, messages, exceptions as `Result`,
  and `MapAll`, a comprehension that may raise.
- `Text` (text.dfy): the Python string operations the GSM8K rules use:
  `str.strip`, `str.rfind`/`str.rsplit`, `str.format` with one
  placeholder, and `float()` on decimal text.
- `Processors` (processors.dfy): single and group processors, the lambda
  and select-keys processors, and processor chains.
- `Parsers` (parsers.dfy): the regex parser over an abstract search.
- `Prompt` (prompt.dfy): the `compile_parameters` rule, plus
  `ZeroShotQAPrompt` and `FewShotQAPrompt` as classes with `const`
  fields. Their loops are methods proved against the functions that
  specify them.
- `PromptInterface` (prompt_interface.dfy): `prompt.compile(**record)` across the four prompt
  classes, and the `compile_parameters` finding.
- `Metrics` (metrics.dfy): accuracy as hit count over record count, and
  the left-to-right metric merge.
- `Pipeline` (pipeline.dfy): the model client as a class with a logged
  call history; `EvaluationPipeline` as a class whose `Call` method runs
  the stage loops and is proved against the stage functions.
- `Datasets`, `Tasks` (datasets.dfy, tasks.dfy): the registries as
  classes holding a `map`, with registration methods.
- `Gsm8k` (gsm8k.dfy): the GSM8K processors, prompts and the three
  task registrations.
- `Gsm8kScenario` (gsm8k_scenario.dfy): one GSM8K record through the zero-shot stages, end
  to end.

Two points where a reading of names and comments could mislead:
- The extractor calls `answer.rsplit('####')[1]`. The model splits from
  the right, as `rsplit` does, and takes piece 1. For an answer with a
  single `####` this is the text after it.
- The pipeline binds every record field as a keyword argument of
  `compile` and never consults `compile_parameters`.

## Model

| member | source | states |
|---|---|---|
| Types.MapAll | redstar/processors.py:26 | A comprehension succeeds iff every element does; then element i of the output is f of input i. Otherwise the error is that of the first failing element. |
| Types.MapAllFirstError | redstar/pipeline.py:66 | When element k is the first to raise, the comprehension raises k's error. |
| Types.MapAllValues | redstar/pipeline.py:66 | When every element gives its value, the comprehension lists those values in order. |
| Text.TrimStart | redstar/tasks/gsm8k.py:73 | `lstrip` returns a suffix that does not start with whitespace; everything dropped is whitespace. |
| Text.TrimEnd | redstar/tasks/gsm8k.py:73 | `rstrip` returns a prefix that does not end with whitespace; everything dropped is whitespace. |
| Text.Strip | redstar/tasks/gsm8k.py:73 | The result of `strip()` is empty or has non-space characters at both ends. |
| Text.StripRemovesOnlySpace | redstar/tasks/gsm8k.py:73 | `strip()` returns a contiguous middle of the text with only whitespace on either side. |
| Text.StripKeepsTrimmed | redstar/tasks/gsm8k.py:73 | Text without whitespace at either end is returned unchanged. |
| Text.StripIdempotent | redstar/tasks/gsm8k.py:73 | `strip()` applied twice equals `strip()` applied once. |
| Text.StripLeadingSpaces | redstar/tasks/gsm8k.py:73 | Whitespace followed by trimmed text strips to that text. |
| Text.LastIndexOf | redstar/tasks/gsm8k.py:73 | A found index leaves room for the whole separator. |
| Text.LastIndexOfIsLast | redstar/tasks/gsm8k.py:73 | `rfind` returns an occurrence with no occurrence to its right; it returns none only when the separator does not occur at all. |
| Text.RSplit | redstar/tasks/gsm8k.py:73 | `rsplit` returns at least one piece. It returns one piece iff the separator does not occur, and that piece is the whole text. |
| Text.RSplitAt | redstar/tasks/gsm8k.py:73 | The last piece is the text after the rightmost occurrence; the pieces before it are the split of the text before that occurrence. |
| Text.RSplitPiecesFree | redstar/tasks/gsm8k.py:73 | No piece contains the separator. With `RSplitAt` and `JoinRSplit` this fixes the split. |
| Text.RSplitWholeIffAbsent | redstar/tasks/gsm8k.py:73 | `rsplit` returns the text whole exactly when the separator occurs nowhere in it. |
| Text.JoinRSplit | redstar/tasks/gsm8k.py:73 | Joining the pieces of `rsplit(sep)` with `sep` gives back the original text. |
| Text.RSplitOnce | redstar/tasks/gsm8k.py:73 | Text with exactly one `####` and no other `#` splits into the part before it and the part after it. |
| Text.NoHashNoSeparator | redstar/tasks/gsm8k.py:73 | Text without `#` has no `####`. |
| Text.FormatFieldOnly | redstar/prompt.py:71-72 | The template `{name}` formats to the value verbatim. |
| Text.FormatLiteral | redstar/prompt.py:52 | A template without `{` formats to itself. |
| Text.FormatAround | redstar/prompt.py:97-100 | A template `a{name}b` with no `{` in `a` or `b` formats to `a`, the value, then `b`. Templates of this shape are used at prompt.py:52, 77-78, 92 and 97-100. |
| Text.ParseUnsignedDigits | redstar/tasks/gsm8k.py:19 | A non-empty digit string parses to its decimal value. |
| Text.DigitsParse | redstar/tasks/gsm8k.py:19 | `float()` of a non-empty digit string is its decimal value. |
| Text.EmptyDoesNotParse | redstar/tasks/gsm8k.py:19-22 | `float('')` raises `ValueError`. |
| Text.NatToDigits | redstar/tasks/gsm8k.py:73-74 | The number text of a reference answer (the `n` of `#### n`) is a non-empty digit string; `float()` reads it at line 74. |
| Text.DigitsValueOfNat | redstar/tasks/gsm8k.py:74 | The decimal value of `str(n)` is n. |
| Text.ParseFloatOfNat | redstar/tasks/gsm8k.py:74 | `float()` of the number text of n is n. |
| Text.ParseFloat | redstar/tasks/gsm8k.py:19 | `float()` strips only its own whitespace, which leaves out the separators U+001C..U+001F. Blank text raises `ValueError`; a negative result comes only from a leading `-`. |
| Text.ParseFloatReadsStripped | redstar/tasks/gsm8k.py:19 | Whenever `float()` reads a number, its own strip and `str.strip()` leave the same text. |
| Text.FloatKeepsSeparator | redstar/tasks/gsm8k.py:19 | Text starting with a separator U+001C..U+001F is not a number for `float()`, whatever follows. |
| Text.StripRemovesSeparator | redstar/tasks/gsm8k.py:73-74 | `str.strip()` does remove such a separator, so `float(x.strip())` reads the digits after it. |
| Text.ParseFloatStripped | redstar/tasks/gsm8k.py:74 | `float()` of stripped text reads that text as it is. |
| Text.ParseFloatSigned | redstar/tasks/gsm8k.py:19 | A leading `-` negates an unsigned decimal; a leading `+` or no sign keeps it. |
| Text.ParseUnsignedDecimal | redstar/tasks/gsm8k.py:19 | `whole.frac` reads as the whole part plus the fraction digits over their power of ten. |
| Processors.TypeOf | redstar/processors.py:19-30 | The type is `single` exactly for single processors and `group` exactly for group processors. |
| Processors.Process | redstar/processors.py:25-39 | A single processor succeeds iff `_process` succeeds on every record. Its output has the input's length, and output i is `_process(records[i])`. A group processor whose `group` raises raises that error. |
| Processors.GroupOutputIsConcatenation | redstar/processors.py:38-39 | The output of a group processor is the concatenation, in group order, of `_process(g)` over the groups. |
| Processors.GroupErrorPropagates | redstar/processors.py:38-39 | The first group whose `_process` raises makes the whole call raise its error. |
| Processors.GroupIdentity | redstar/processors.py:38-39 | A partitioning `group` with an identity `_process` returns the input unchanged. |
| Processors.LambdaProcessor | redstar/processors.py:42-47 | A lambda processor is a single processor whose step is exactly the wrapped function. |
| Processors.KeyNames | redstar/processors.py:51-54 | A single string key becomes a one-key list; a sequence of keys is kept as given. |
| Processors.SelectKeys | redstar/processors.py:56-57 | Succeeds iff every listed key is present; the result then has exactly the listed keys, with the input's values. Otherwise the first missing key raises `KeyError`. |
| Processors.SelectKeysProcessor | redstar/processors.py:50-57 | The processor's step is `SelectKeys` over the normalised key list. |
| Processors.RunChain | redstar/pipeline.py:64-65 | No processors leave the records as they are, and one processor is its own `process`. A chain of single processors keeps the record count. |
| Processors.RunChainStep | redstar/pipeline.py:64-65 | A chain of k+1 processors runs processor k on the output of the first k. |
| Processors.RunChainErrorSticks | redstar/pipeline.py:64-65 | Once a prefix of the chain raises, the whole chain raises the same error. |
| Processors.RunChainAppend | redstar/pipeline.py:64-65 | Running two chains one after the other equals running their concatenation. |
| Processors.SingleChainIsPositional | redstar/processors.py:25-26 | A chain of single processors keeps positions: output i is what the chain makes of input i alone. |
| Parsers.Parse | redstar/parsers.py:13-17 | No match gives `''`; otherwise the result is the first capture group. |
| Prompt.OrDefault | redstar/prompt.py:40 | `None` and `''` fall back to the default; any other text is kept. A non-empty default gives a non-empty result. |
| Prompt.CompileParametersOf | redstar/prompt.py:17-34 | Raises `ValueError` iff some parameter other than `self` is `*args`. When there is no `*args` but there is `**kwargs`, the result is `[]`. Otherwise it is `FixedNames`, the names other than `self` in order. |
| Prompt.FixedNamesAppend | redstar/prompt.py:19-31 | The names of a signature are the names of its first part followed by those of the rest. |
| Prompt.FixedNamesOne | redstar/prompt.py:20-31 | One parameter contributes its name, unless it is `self` or `**kwargs`. |
| Prompt.CompileParameters | redstar/prompt.py:17-34 | The parameter loop returns what `CompileParametersOf` specifies. |
| Prompt.ZeroShotQAPrompt.constructor | redstar/prompt.py:38-42 | System text and template fall back to their defaults; `base_messages` is the system message alone. |
| Prompt.ZeroShotQAPrompt.Compile | redstar/prompt.py:50-54 | The result is the system message, then the user message holding the templated question. |
| Prompt.ZeroShotDefaultTemplateIsVerbatim | redstar/prompt.py:50-54 | With the default template the user message is the question verbatim. |
| Prompt.DefaultTemplatesAreVerbatim | redstar/prompt.py:71-72 | The default `{question}` and `{answer}` templates yield their values verbatim. |
| Prompt.ExampleTurnsAt | redstar/prompt.py:76-80 | There are 2k turns. Turn 2i is the user turn for example i's templated question; turn 2i+1 is the assistant turn for its templated answer. The length alone holds for every k, including 0, as the ensures of `ExampleTurns`. |
| Prompt.DialogBase | redstar/prompt.py:74-80 | The loop builds the system message followed by the example turns. |
| Prompt.FewShotQAPrompt.constructor | redstar/prompt.py:58-82 | Defaults apply to the system text and templates. `base_messages` holds the system message, plus the example turns in dialog style only. |
| Prompt.FewShotQAPrompt.Compile | redstar/prompt.py:89-102 | Dialog style: `base_messages`, then the templated question. Flattened style: two messages; the user message is the block of templated question/answer pairs, each followed by a newline, then the templated question. |
| Prompt.FewShotDialogShape | redstar/prompt.py:89-93 | In dialog style, for every k including 0, there are 2 + 2k messages: the system message, one user/assistant pair per example in order, and last the templated question. |
| PromptInterface.BindQuestion | redstar/pipeline.py:66 | `compile(**record)` binds iff `question` is present and text, there is no `self` field, and the signature has `**kwargs` or `question` is the only field. Failures raise `TypeError`. |
| PromptInterface.CompileRecord | redstar/pipeline.py:66 | Compiling succeeds iff binding does, and then gives the prompt's messages for the bound question; otherwise it raises `TypeError`. |
| PromptInterface.CompileWithRecord | redstar/pipeline.py:66 | Dispatches to the concrete `compile` and returns what `CompileRecord` specifies. |
| PromptInterface.Gsm8kPromptIgnoresExtraFields | redstar/tasks/gsm8k.py:34-36 | Adding a field other than `question` or `self` to the record does not change what a GSM8K prompt compiles. A `self` field makes it raise `TypeError`. |
| PromptInterface.ReportedCompileParameters | redstar/prompt.py:14-34 | As written, every prompt reports `['question']`. |
| PromptInterface.OwnCompileParameters | redstar/prompt.py:14-34 | Inspecting each prompt's own signature gives `['question']` for the QA prompts and `[]` for the GSM8K prompts. |
| PromptInterface.OwnParametersDescribeBinding | redstar/prompt.py:28-34 | With the prompt's own signature, a record binds iff either the reported list is `[]` and there is no `self` field, or the record's fields are exactly the listed names. |
| PromptInterface.ReportedParametersMisdescribeGsm8k | redstar/prompt.py:16 | For a GSM8K prompt, the reported `['question']` differs from its own `[]`, yet a record that also has `answer` still binds. |
| Metrics.Hits | redstar/metrics.py:13-15 | The hit count is at most the record count. |
| Metrics.AccuracyScore | redstar/metrics.py:11-16 | Errors: a missing `pred` raises `KeyError('pred')` first, then a missing `target` raises `KeyError('target')`, and an empty list is an error. Otherwise the result has the single key `accuracy`, with a value in [0, 1]. |
| Metrics.AccuracyIsHitRate | redstar/metrics.py:13-15 | Accuracy is the number of positions whose `pred` equals `target`, divided by the record count. |
| Metrics.HitsCountsIndices | redstar/metrics.py:13-15 | The hit count is the size of the set of positions whose `pred` equals `target`. |
| Metrics.AllHitsIff | redstar/metrics.py:13-15 | The hit count equals the record count iff every record is a hit. |
| Metrics.NoHitsIff | redstar/metrics.py:13-15 | The hit count is 0 iff no record is a hit. |
| Metrics.AccuracyBounds | redstar/metrics.py:13-16 | Accuracy is 1 iff every `pred` equals its `target`, and 0 iff none does. |
| Metrics.AccuracyExample | redstar/metrics.py:11-16 | Pairs (1,1), (2,3), (5,5) give 2/3. |
| Metrics.HitsRemove | redstar/metrics.py:13-15 | Removing a record subtracts exactly its own hit from the count. |
| Metrics.AllHavePermutation | redstar/metrics.py:13-14 | A permutation keeps the property that every record has the key. |
| Metrics.HitsPermutation | redstar/metrics.py:13-15 | Permuting the records keeps the hit count. |
| Metrics.AccuracyPermutation | redstar/metrics.py:13-15 | Permuting the records keeps the accuracy result, errors included. |
| Metrics.MergedScores | redstar/pipeline.py:81-83 | No metrics gives the empty map. |
| Metrics.MergedScoresOk | redstar/pipeline.py:81-83 | The merge succeeds iff every metric does. |
| Metrics.MergedScoresKeys | redstar/pipeline.py:81-83 | The merged names are exactly the names some metric produced. |
| Metrics.MergedScoresLastWriterWins | redstar/pipeline.py:81-83 | A merged name holds the value of the last metric that produced it. |
| Metrics.Score | redstar/pipeline.py:83 | The built-in accuracy reports the single name `accuracy`, with a value in [0, 1]. |
| Metrics.MergedScoresErrorIsFirst | redstar/pipeline.py:81-83 | A failed merge fails with the error of the first metric that raises. |
| Metrics.MergedScoresError | redstar/pipeline.py:81-83 | The first metric that raises decides the merge's error. |
| Pipeline.ModelClient.Run | redstar/pipeline.py:69-70 | Returns the client's answer and logs one synchronous call with the prompts and kwargs. |
| Pipeline.ModelClient.AsyncRun | redstar/pipeline.py:67-68 | Returns the client's answer and logs one asynchronous call with the prompts and kwargs. |
| Pipeline.Prepare | redstar/pipeline.py:63-66 | Records come from the preprocessor chain and there is one prompt per record; prompt i is record i compiled. A preprocessor error propagates. After a successful chain, it succeeds iff every record compiles; otherwise it returns the error of the first record that does not. |
| Pipeline.AttachOne | redstar/pipeline.py:73-76 | `result` is set. `parsed_result` is added iff a parser is configured, and holds the parse. Every other field is kept. |
| Pipeline.Attach | redstar/pipeline.py:72-76 | The record count is unchanged. Record i gets result i for every i below both lengths; records past the result count stay as they were. |
| Pipeline.Finish | redstar/pipeline.py:78-85 | The returned records are the postprocessor chain's output; the metric map is the merge over those records. A postprocessor error propagates. After a successful chain, it succeeds iff every metric does; otherwise it returns the error of the first metric that raises. |
| Pipeline.RunProcessors | redstar/pipeline.py:64-65 | The processor loop computes the chain. |
| Pipeline.CompileAll | redstar/pipeline.py:66 | The compile loop computes the comprehension over all records. |
| Pipeline.CompileOne | redstar/pipeline.py:66 | Compiling one record gives the compiler's result for it. |
| Pipeline.AttachResults | redstar/pipeline.py:72-76 | The zip loop computes `Attach`. |
| Pipeline.MergeMetrics | redstar/pipeline.py:81-83 | The update loop computes the merge, stopping at the first metric that raises. |
| Pipeline.EvaluationPipeline.constructor | redstar/pipeline.py:21-60 | Each stage argument is normalised: `None` becomes `[]`, one object a one-element list, and a sequence keeps its elements in order. Client, prompt, parser and mode are stored as given. The parameters default as in the source: no stages, no parser, `async_run` true. |
| Pipeline.EvaluationPipeline.Call | redstar/pipeline.py:62-85 | If preprocessing or compiling raises, the client is never called. Otherwise the client is called exactly once, via `async_run` or `run` by the flag, with the compiled prompts in record order and the kwargs unchanged; the result is the postprocessed, attached records with their merged metrics. |
| Gsm8k.ConvertToFloat | redstar/tasks/gsm8k.py:17-23 | `pred` is `float(parsed_result)`, or 0.0 when the text is not a number. Every other field is kept. A missing `parsed_result` raises `KeyError`. |
| Gsm8k.ConvertParsedDigits | redstar/tasks/gsm8k.py:19-22 | After a `(\d+)` parser, `pred` is the captured number, or 0.0 when nothing matched. |
| Gsm8k.AnswerNumber | redstar/tasks/gsm8k.py:73-74 | `IndexError` is raised iff the answer has no `####`; every other failure is `ValueError`. |
| Gsm8k.ExtractNumberAnswer | redstar/tasks/gsm8k.py:70-75 | A missing `answer` raises `KeyError` and non-text raises `AttributeError`. `IndexError` is raised iff there is no `####`. On success the only change is a numeric `target`. |
| Gsm8k.AnswerAfterSeparator | redstar/tasks/gsm8k.py:73-74 | For `before####after` with no other `#`, the number is `float(after.strip())`, or `ValueError` when that is not a number. This holds for signs, decimals and surrounding whitespace. |
| Gsm8k.ExtractAfterSeparator | redstar/tasks/gsm8k.py:71-75 | For such an answer, `target` becomes `float(after.strip())` and nothing else changes; otherwise `ValueError` is raised. |
| Gsm8k.ExtractGsm8kAnswer | redstar/tasks/gsm8k.py:71-75 | A reference answer `solution#### n` sets `target` to n and keeps every other field. |
| Gsm8k.ReferenceAnswerNumber | redstar/tasks/gsm8k.py:73-74 | The number read from `solution#### n` is n. |
| Gsm8k.Gsm8kZeroShotPrompt.constructor | redstar/tasks/gsm8k.py:27-32 | The system text falls back to the GSM8K default. |
| Gsm8k.Gsm8kZeroShotIsDefaultQA | redstar/tasks/gsm8k.py:34-36 | The GSM8K zero-shot prompt compiles to [system, question verbatim], the same as a default-template QA prompt. |
| Gsm8k.PlainTurnsAreDefaultTurns | redstar/tasks/gsm8k.py:56-58 | The raw example turns are the QA few-shot turns under the default templates. |
| Gsm8k.PlainBlockIsDefaultBlock | redstar/tasks/gsm8k.py:63-64 | The raw example block is the QA few-shot block under the default templates. |
| Gsm8k.Gsm8kFewShotPrompt.constructor | redstar/tasks/gsm8k.py:40-46 | The examples and style are stored as given; the system text falls back to the default. |
| Gsm8k.Gsm8kFewShotPrompt.Compile | redstar/tasks/gsm8k.py:53-67 | The two loops build exactly the dialog-style or flattened messages. |
| Gsm8k.Gsm8kFewShotDialogShape | redstar/tasks/gsm8k.py:54-59 | For every k, including 0, there are 1 + 2k + 1 messages: the system message, one user/assistant pair per example in order, and last the question followed by the step-by-step request. |
| Gsm8k.Gsm8kFewShotFlatShape | redstar/tasks/gsm8k.py:60-66 | There are two messages. The user content is the example block, then `\nQuestion: `, then the question, then the step-by-step request. |
| Gsm8k.ImportGsm8kTasks | redstar/tasks/gsm8k.py:124-150 | Three distinct names are added to the registry, with their loaders and factories (few-shot temperature 0.01, dialog flag false or true). |
| Datasets.DatasetRegistry.constructor | redstar/datasets.py:7 | The registry starts empty. |
| Datasets.RegisterDataset | redstar/datasets.py:10-15 | Returns `func` itself and records it under `name`, replacing any earlier loader. Other names are unchanged, and the registry grows by one iff the name is new. |
| Datasets.ImportDatasets | redstar/datasets.py:18-24 | Importing the module registers the GSM8K loader under `gsm8k`. |
| Tasks.TaskRegistry.constructor | redstar/tasks/task.py:10 | The registry starts empty. |
| Tasks.Task.constructor | redstar/tasks/task.py:14-21 | Fields are stored as given and the task is registered under its name, last writer winning. Other names are unchanged, and the registry grows by one iff the name is new. |
| Gsm8kScenario.SingleStepChain | redstar/processors.py:25-26 | A one-processor chain on one record applies the step. |
| Gsm8kScenario.ScenarioPrepare | redstar/tasks/gsm8k.py:87-93 | The extractor and the zero-shot prompt turn a GSM8K record into target n and the prompt [system, question]. |
| Gsm8kScenario.ZeroShotCompilesQuestion | redstar/tasks/gsm8k.py:34-36 | The GSM8K zero-shot prompt compiles any record with a text `question` and no `self` field to the system text and the question. |
| Gsm8kScenario.ScenarioFinish | redstar/tasks/gsm8k.py:91-93 | Float-or-zero and accuracy give 1 when the captured number is n, and 0 otherwise. |
| Gsm8kScenario.ZeroShotSingleRecord | redstar/tasks/gsm8k.py:86-97 | End to end, the client is asked exactly the question under the system text, and the record scores 1 iff the reply's captured number is the reference number. |

## Left out

- Record aliasing. Records are values here. In the source, `__call__` copies only the list (pipeline.py:63), and the stages write fields into the caller's dicts in place. The model does not capture that the caller's records show the added fields. Nor does it capture a list holding the same dict at two positions: at pipeline.py:72-76 every write lands in that one dict and the last result wins, while `Attach` gives each position its own result.
- `EvaluationPipeline.show`: terminal rendering only.
- The `lmclient` client: network calls, asynchronous fan-out, rate limiting and caching. It is an arbitrary function of the prompts and kwargs, and nothing makes it return one reply per prompt.
- The regex engine. A parser is an abstract search returning an optional first capture. The `(\d+)` capture of the GSM8K patterns is stated as the assumption `CapturesDigits`.
- `Gsm8k.ConvertParsedDigits`: `CapturesDigits` admits only ASCII digits `0`-`9`. Python's `\d` on text also matches every other Unicode decimal digit (category Nd), such as `４`, so the lemma covers only parsers whose captures are ASCII.
- `Gsm8k.ConvertToFloat`: only ASCII digits are modelled. For `parsed_result = "４"` Python's `float()` gives 4.0, but the model sets `pred` to 0.0.
- `Text.ParseFloat`: only ASCII digits are modelled. Text holding other Unicode decimal digits is rejected here, so `Gsm8k.AnswerNumber` raises `ValueError` for `#### ４`, where Python reads 4.
- Dataset loading from the Hugging Face hub. A loader is known only by the dataset and configuration it names.
- `load_from_json` and the `from_file` constructors: file I/O.
- Floating point. Numbers are reals; `float()` is modelled on an optional sign and ASCII decimal digits with an optional point, with no exponent, `inf`, `nan` or underscores.
- `Metrics.AccuracyScore`: does not apply `round(..., 5)`. For an empty list it returns the error `UndefinedScore`, where the source returns NaN. scikit-learn's checks on target types are not modelled.
- `Text.Format`: only templates whose one replacement field is `{question}` or `{answer}`. Brace escaping, format specs and other fields of `str.format` are not modelled: a lone `}` is copied where `str.format` raises `ValueError`, `}}` is copied where Python writes `}`, and `{{question}}` has its field substituted where Python writes `{question}`. Its lemmas cover templates with no `{`, and templates of the form text, `{name}`, text with no `{` in either text (`Text.FormatAround`); a template with two fields is substituted but has no lemma.
- `Text.FormatLiteral`: the template may hold `}`, which the model copies. Python raises `ValueError` on a lone `}` (`"a}b".format(...)`) and writes `}` for `}}`, so the lemma matches Python only for templates without braces.
- `Text.FormatAround`: `a` and `b` may hold `}`, which the model copies. Python raises `ValueError` on a lone `}` and writes `}` for `}}` (`"{question}}}"` gives the value and one `}`), so the lemma matches Python only when `a` and `b` have no braces.
- `PromptInterface.BindQuestion`: a `question` that is not text raises `TypeError` here. `GSM8KFewShotPrompt` does the same in Python, because it concatenates `question + "\nLet's think step by step"` (gsm8k.py:58, 64). But `ZeroShotQAPrompt` and `FewShotQAPrompt` (through `str.format`) and `GSM8KZeroShotPrompt` (which embeds the value in its message) accept any value.
- Few-shot examples are pairs of text, so an example dict lacking `question` or `answer` (a `KeyError` in the source) cannot be expressed.
- `_convert_to_float` prints a message when conversion fails; the print is not modelled.
- `create_zero_shot_pipeline` and `create_few_shot_pipeline` pass `default_client_kwargs`, which `EvaluationPipeline.__init__` does not accept. The tasks keep these factories only as descriptions of their bound arguments.
- `load_tasks` and `run_tasks` are imported by the package but defined nowhere in it. `scripts/run.py` and `run.py` (CLI, persistence) are not part of this model.

## Findings

| source | as written | input that shows it | evidently intended | confidence | as-written member | corrected member |
|---|---|---|---|---|---|---|
| redstar/prompt.py:16 | `compile_parameters` inspects `ZeroShotQAPrompt.compile` whatever the receiver | a `GSM8KZeroShotPrompt`: its `compile(question, **kwargs)` accepts `{'question': '2 + 2?', 'answer': '#### 4'}`, yet it reports `['question']` | inspect the receiver's own `compile`, which reports `[]` for the GSM8K prompts | not executed | PromptInterface.ReportedCompileParameters, PromptInterface.ReportedParametersMisdescribeGsm8k | PromptInterface.OwnCompileParameters, PromptInterface.OwnParametersDescribeBinding |
