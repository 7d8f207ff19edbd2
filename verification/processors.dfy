/** Record-collection processors (redstar/processors.py). A processor is
    either per-record (its `_process` maps one record) or per-group (its
    `group` partitions the collection and its `_process` maps one group).
    `group` and both `_process` methods may raise, so they return a
    `Result`. */
module Processors {
  import opened Types

  /** The class-level `processor_type` tag. */
  datatype ProcessorType = SingleType | GroupType

  datatype Processor =
    | Single(step: Record -> Result<Record>)
    | Group(group: seq<Record> -> Result<seq<seq<Record>>>, groupStep: seq<Record> -> Result<seq<Record>>)

  /** The `processor_type` of a processor: `single` exactly for per-record
      processors, `group` exactly for per-group ones. */
  function TypeOf(p: Processor): (t: ProcessorType)
    ensures t == SingleType <==> p.Single?
    ensures t == GroupType <==> p.Group?
  {
    match p
    case Single(_) => SingleType
    case Group(_, _) => GroupType
  }

  /** `process(records)`. A single processor maps `_process` over the
      records; a group processor maps `_process` over the groups and
      concatenates the outputs in group order. */
  function Process(p: Processor, records: seq<Record>): (r: Result<seq<Record>>)
    ensures p.Single? ==> (r.Ok? <==> forall i :: 0 <= i < |records| ==> p.step(records[i]).Ok?)
    ensures p.Single? && r.Ok? ==>
      |r.value| == |records| && forall i :: 0 <= i < |records| ==> p.step(records[i]) == Ok(r.value[i])
    ensures p.Group? && p.group(records).Err? ==> r == Err(p.group(records).error)
  {
    match p
    case Single(step) => MapAll(step, records)
    case Group(group, groupStep) =>
      match group(records)
      case Err(e) => Err(e)
      case Ok(groups) =>
        match MapAll(groupStep, groups)
        case Err(e) => Err(e)
        case Ok(outputs) => Ok(Flatten(outputs))
  }

  /** A group processor's output is the concatenation, in group order, of
      what `_process` returns for each group. */
  lemma GroupOutputIsConcatenation(p: Processor, records: seq<Record>, groups: seq<seq<Record>>,
                                   outputs: seq<seq<Record>>)
    requires p.Group? && p.group(records) == Ok(groups)
    requires |outputs| == |groups|
    requires forall i :: 0 <= i < |outputs| ==> p.groupStep(groups[i]) == Ok(outputs[i])
    ensures Process(p, records) == Ok(Flatten(outputs))
  {
    var r := MapAll(p.groupStep, groups);
    assert r.Ok?;
    assert r.value == outputs;
  }

  /** A group whose `_process` raises makes the whole call raise, with the
      error of the first such group. */
  lemma GroupErrorPropagates(p: Processor, records: seq<Record>, groups: seq<seq<Record>>, k: nat)
    requires p.Group? && p.group(records) == Ok(groups) && k < |groups|
    requires p.groupStep(groups[k]).Err?
    requires forall j :: 0 <= j < k ==> p.groupStep(groups[j]).Ok?
    ensures Process(p, records) == Err(p.groupStep(groups[k]).error)
  {
    var r := MapAll(p.groupStep, groups);
    assert r.Err?;
    var i :| 0 <= i < |groups| && p.groupStep(groups[i]) == Err(r.error) && forall j :: 0 <= j < i ==> p.groupStep(groups[j]).Ok?;
    assert i == k;
  }

  /** Grouping that only partitions the input, followed by an identity
      `_process`, gives back the input unchanged. */
  lemma GroupIdentity(p: Processor, records: seq<Record>, groups: seq<seq<Record>>)
    requires p.Group? && p.group(records) == Ok(groups)
    requires Flatten(groups) == records
    requires forall g :: p.groupStep(g) == Ok(g)
    ensures Process(p, records) == Ok(records)
  {
    GroupOutputIsConcatenation(p, records, groups, groups);
  }

  /** `LambdaProcessor(func)`: a single processor whose `_process` is
      exactly `func`. */
  function LambdaProcessor(func: Record -> Result<Record>): (p: Processor)
    ensures p.Single? && forall record :: p.step(record) == func(record)
  {
    Single(func)
  }

  /** The `keys` argument of `SelectKeysProcessor`: one key or a sequence. */
  datatype Keys = OneKey(key: string) | KeyList(keys: seq<string>)

  /** The key list the processor keeps: a single key becomes a one-key list. */
  function KeyNames(keys: Keys): (r: seq<string>)
    ensures keys.OneKey? ==> r == [keys.key]
    ensures keys.KeyList? ==> r == keys.keys
  {
    match keys
    case OneKey(k) => [k]
    case KeyList(ks) => ks
  }

  /** `{key: record[key] for key in keys}`: exactly the listed keys with the
      record's values; the first listed key missing from the record raises. */
  function SelectKeys(keys: seq<string>, record: Record): (r: Result<Record>)
    ensures r.Ok? <==> forall i :: 0 <= i < |keys| ==> keys[i] in record
    ensures r.Ok? ==> r.value.Keys == set k | k in keys
    ensures r.Ok? ==> forall k :: k in r.value ==> r.value[k] == record[k]
    ensures r.Err? ==> exists i :: 0 <= i < |keys| && keys[i] !in record && r.error == KeyError(keys[i])
                                   && forall j :: 0 <= j < i ==> keys[j] in record
  {
    if keys == [] then Ok(map[])
    else if keys[0] !in record then Err(KeyError(keys[0]))
    else
      match SelectKeys(keys[1..], record)
      case Err(e) =>
        ghost var i :| 0 <= i < |keys[1..]| && keys[1..][i] !in record && e == KeyError(keys[1..][i])
                       && forall j :: 0 <= j < i ==> keys[1..][j] in record;
        assert keys[i + 1] !in record && forall j :: 0 <= j < i + 1 ==> keys[j] in record by {
          forall j | 0 <= j < i + 1 ensures keys[j] in record {
            if j > 0 { assert keys[j] == keys[1..][j - 1]; }
          }
        }
        Err(e)
      case Ok(m) =>
        assert forall i :: 1 <= i < |keys| ==> keys[i] == keys[1..][i - 1];
        assert (set k | k in keys) == (set k | k in keys[1..]) + {keys[0]} by {
          assert keys == [keys[0]] + keys[1..];
        }
        Ok(m[keys[0] := record[keys[0]]])
  }

  /** `SelectKeysProcessor(keys)`: a single processor narrowing every
      record to the configured keys. */
  function SelectKeysProcessor(keys: Keys): (p: Processor)
    ensures p.Single?
    ensures forall record :: p.step(record) == SelectKeys(KeyNames(keys), record)
  {
    Single(record => SelectKeys(KeyNames(keys), record))
  }

  /** A processor list run in order, each consuming the previous output;
      the first processor that raises stops the chain. */
  function RunChain(ps: seq<Processor>, records: seq<Record>): (r: Result<seq<Record>>)
    ensures ps == [] ==> r == Ok(records)
    ensures |ps| == 1 ==> r == Process(ps[0], records)
    ensures r.Ok? && (forall k :: 0 <= k < |ps| ==> ps[k].Single?) ==> |r.value| == |records|
    decreases |ps|
  {
    if ps == [] then Ok(records)
    else
      match RunChain(ps[..|ps| - 1], records)
      case Err(e) => Err(e)
      case Ok(mid) => Process(ps[|ps| - 1], mid)
  }

  /** One more processor on a prefix of the chain. */
  lemma RunChainStep(ps: seq<Processor>, records: seq<Record>, k: nat)
    requires k < |ps|
    ensures RunChain(ps[..k + 1], records) ==
            match RunChain(ps[..k], records)
            case Err(e) => Err(e)
            case Ok(mid) => Process(ps[k], mid)
  {
    assert ps[..k + 1][..k] == ps[..k];
  }

  /** Once a prefix of the chain raises, the whole chain raises the same. */
  lemma {:induction false} RunChainErrorSticks(ps: seq<Processor>, records: seq<Record>, k: nat)
    requires k <= |ps| && RunChain(ps[..k], records).Err?
    ensures RunChain(ps, records) == RunChain(ps[..k], records)
    decreases |ps| - k
  {
    if k < |ps| {
      RunChainStep(ps, records, k);
      RunChainErrorSticks(ps, records, k + 1);
    } else {
      assert ps[..k] == ps;
    }
  }

  /** Running two chains one after the other is running their concatenation. */
  lemma {:induction false} RunChainAppend(ps: seq<Processor>, qs: seq<Processor>, records: seq<Record>)
    ensures RunChain(ps + qs, records) ==
            match RunChain(ps, records)
            case Err(e) => Err(e)
            case Ok(mid) => RunChain(qs, mid)
    decreases |qs|
  {
    if qs == [] {
      assert ps + qs == ps;
    } else {
      var front := qs[..|qs| - 1];
      assert (ps + qs)[..|ps + qs| - 1] == ps + front;
      RunChainAppend(ps, front, records);
    }
  }

  /** A chain of single processors keeps positions: record `i` of the output
      is what the chain makes of record `i` of the input alone. */
  lemma {:induction false} SingleChainIsPositional(ps: seq<Processor>, records: seq<Record>, i: nat)
    requires forall k :: 0 <= k < |ps| ==> ps[k].Single?
    requires RunChain(ps, records).Ok? && i < |records|
    ensures |RunChain(ps, records).value| == |records|
    ensures RunChain(ps, [records[i]]) == Ok([RunChain(ps, records).value[i]])
    decreases |ps|
  {
    if ps != [] {
      var front := ps[..|ps| - 1];
      var last := ps[|ps| - 1];
      SingleChainIsPositional(front, records, i);
      var mid := RunChain(front, records).value;
      var out := RunChain(ps, records).value;
      assert Process(last, mid) == Ok(out);
      assert last.step(mid[i]) == Ok(out[i]);
      var one := Process(last, [mid[i]]);
      assert one.Ok? && |one.value| == 1 && last.step(mid[i]) == Ok(one.value[0]);
      assert one.value == [out[i]];
    }
  }
}
