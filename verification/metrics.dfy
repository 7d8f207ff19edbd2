/** Metrics (redstar/metrics.py): a metric maps the final records to named
    scores. `Accuracy` is the fraction of records whose `pred` equals their
    `target`; any other metric is a user-supplied scoring function. */
module Metrics {
  import opened Types

  datatype Metric =
    | Accuracy
    | UserMetric(score: seq<Record> -> Result<map<string, real>>)

  /** Every record carries `key`. */
  predicate AllHave(records: seq<Record>, key: string) {
    forall i :: 0 <= i < |records| ==> key in records[i]
  }

  /** Record `r` is a hit: its prediction equals its target. */
  predicate Hit(r: Record)
    requires "pred" in r && "target" in r
  {
    r["pred"] == r["target"]
  }

  /** Number of hits. */
  function Hits(records: seq<Record>): (n: nat)
    requires AllHave(records, "pred") && AllHave(records, "target")
    ensures n <= |records|
  {
    if records == [] then 0 else (if Hit(records[0]) then 1 else 0) + Hits(records[1..])
  }

  /** `Accuracy()(records)`. Reading `pred` from every record comes first,
      then `target`; a record missing either raises `KeyError`. */
  function AccuracyScore(records: seq<Record>): (r: Result<map<string, real>>)
    ensures r.Err? <==> !AllHave(records, "pred") || !AllHave(records, "target") || records == []
    ensures !AllHave(records, "pred") ==> r == Err(KeyError("pred"))
    ensures AllHave(records, "pred") && !AllHave(records, "target") ==> r == Err(KeyError("target"))
    ensures r.Ok? ==> r.value.Keys == {"accuracy"} && 0.0 <= r.value["accuracy"] <= 1.0
  {
    if !AllHave(records, "pred") then Err(KeyError("pred"))
    else if !AllHave(records, "target") then Err(KeyError("target"))
    else if records == [] then Err(UndefinedScore)
    else Ok(map["accuracy" := Hits(records) as real / |records| as real])
  }

  /** The positions of the hits. */
  function HitIndices(records: seq<Record>): set<int>
    requires AllHave(records, "pred") && AllHave(records, "target")
  {
    set i | 0 <= i < |records| && Hit(records[i])
  }

  /** The accuracy value is the number of positions whose record is a hit,
      over the record count. */
  lemma AccuracyIsHitRate(records: seq<Record>)
    requires AllHave(records, "pred") && AllHave(records, "target") && records != []
    ensures AccuracyScore(records) == Ok(map["accuracy" := Hits(records) as real / |records| as real])
    ensures Hits(records) == |HitIndices(records)|
  {
    HitsCountsIndices(records);
  }

  /** The hit count is the number of positions whose record is a hit. */
  lemma {:induction false} HitsCountsIndices(records: seq<Record>)
    requires AllHave(records, "pred") && AllHave(records, "target")
    ensures Hits(records) == |HitIndices(records)|
    decreases |records|
  {
    if records == [] {
      assert HitIndices(records) == {};
    } else {
      var n := |records| - 1;
      var front := records[..n];
      HitsRemove(records, n);
      assert records[..n] + records[n + 1..] == front;
      HitsCountsIndices(front);
      HitIndicesLast(records);
    }
  }

  /** The hit positions of a list: those of all but its last record, and
      the last position when that record is a hit. */
  lemma HitIndicesLast(records: seq<Record>)
    requires AllHave(records, "pred") && AllHave(records, "target") && records != []
    ensures var n := |records| - 1;
      AllHave(records[..n], "pred") && AllHave(records[..n], "target") &&
      HitIndices(records) == HitIndices(records[..n]) + (if Hit(records[n]) then {n} else {}) &&
      n !in HitIndices(records[..n])
  {
    var n := |records| - 1;
    var front := records[..n];
    assert AllHave(front, "pred") && AllHave(front, "target");
    forall i | i in HitIndices(records) && i != n ensures i in HitIndices(front) {
      assert records[i] == front[i];
    }
  }

  /** All records are hits exactly when the hit count is the record count. */
  lemma {:induction false} AllHitsIff(records: seq<Record>)
    requires AllHave(records, "pred") && AllHave(records, "target")
    ensures Hits(records) == |records| <==> forall i :: 0 <= i < |records| ==> Hit(records[i])
  {
    if records != [] {
      var rest := records[1..];
      assert AllHave(rest, "pred") && AllHave(rest, "target");
      AllHitsIff(rest);
      assert forall i :: 1 <= i < |records| ==> records[i] == rest[i - 1];
      if Hits(records) == |records| {
        assert Hit(records[0]);
      }
    }
  }

  /** No record is a hit exactly when the hit count is zero. */
  lemma {:induction false} NoHitsIff(records: seq<Record>)
    requires AllHave(records, "pred") && AllHave(records, "target")
    ensures Hits(records) == 0 <==> forall i :: 0 <= i < |records| ==> !Hit(records[i])
  {
    if records != [] {
      var rest := records[1..];
      assert AllHave(rest, "pred") && AllHave(rest, "target");
      NoHitsIff(rest);
      assert forall i :: 1 <= i < |records| ==> records[i] == rest[i - 1];
    }
  }

  /** Accuracy is 1 exactly when every prediction equals its target, and 0
      exactly when none does. */
  lemma AccuracyBounds(records: seq<Record>)
    requires AllHave(records, "pred") && AllHave(records, "target") && records != []
    ensures AccuracyScore(records).value["accuracy"] == 1.0 <==> forall i :: 0 <= i < |records| ==> Hit(records[i])
    ensures AccuracyScore(records).value["accuracy"] == 0.0 <==> forall i :: 0 <= i < |records| ==> !Hit(records[i])
  {
    AllHitsIff(records);
    NoHitsIff(records);
    RatioExtremes(Hits(records) as real, |records| as real);
  }

  /** Over a positive count, a ratio is 1 only at the count and 0 only at 0. */
  lemma RatioExtremes(h: real, n: real)
    requires n > 0.0
    ensures h / n == 1.0 <==> h == n
    ensures h / n == 0.0 <==> h == 0.0
  {
    assert (h / n) * n == h;
  }

  /** The worked example: predictions 1, 2, 5 against targets 1, 3, 5 give 2/3. */
  lemma AccuracyExample()
    ensures AccuracyScore([
      map["pred" := Num(1.0), "target" := Num(1.0)],
      map["pred" := Num(2.0), "target" := Num(3.0)],
      map["pred" := Num(5.0), "target" := Num(5.0)]]) == Ok(map["accuracy" := 2.0 / 3.0])
  {
    var a := map["pred" := Num(1.0), "target" := Num(1.0)];
    var b := map["pred" := Num(2.0), "target" := Num(3.0)];
    var c := map["pred" := Num(5.0), "target" := Num(5.0)];
    var rs := [a, b, c];
    assert rs[1..] == [b, c] && [b, c][1..] == [c] && [c][1..] == [];
    assert Hit(a) && !Hit(b) && Hit(c);
    assert Hits([c]) == 1;
    assert Hits([b, c]) == 1;
    assert Hits(rs) == 2;
  }

  /** Removing one record takes its hit out of the count. */
  lemma {:induction false} HitsRemove(records: seq<Record>, i: nat)
    requires AllHave(records, "pred") && AllHave(records, "target") && i < |records|
    ensures AllHave(records[..i] + records[i + 1..], "pred") && AllHave(records[..i] + records[i + 1..], "target")
    ensures Hits(records) == (if Hit(records[i]) then 1 else 0) + Hits(records[..i] + records[i + 1..])
  {
    var rest := records[..i] + records[i + 1..];
    forall j | 0 <= j < |rest| ensures "pred" in rest[j] && "target" in rest[j] {
      assert rest[j] == (if j < i then records[j] else records[j + 1]);
    }
    if i > 0 {
      var tail := records[1..];
      assert AllHave(tail, "pred") && AllHave(tail, "target");
      HitsRemove(tail, i - 1);
      assert rest[0] == records[0];
      assert rest[1..] == tail[..i - 1] + tail[i..];
    } else {
      assert rest == records[1..];
    }
  }

  /** Every record of a permutation has the key when every original record does. */
  lemma AllHavePermutation(a: seq<Record>, b: seq<Record>, key: string)
    requires multiset(a) == multiset(b) && AllHave(a, key)
    ensures AllHave(b, key)
  {
    forall i | 0 <= i < |b| ensures key in b[i] {
      assert b[i] in multiset(a);
      var j :| 0 <= j < |a| && a[j] == b[i];
    }
  }

  /** Reordering the records does not change the hit count. */
  lemma {:induction false} HitsPermutation(a: seq<Record>, b: seq<Record>)
    requires multiset(a) == multiset(b)
    requires AllHave(a, "pred") && AllHave(a, "target")
    ensures AllHave(b, "pred") && AllHave(b, "target")
    ensures Hits(a) == Hits(b)
    decreases |a|
  {
    AllHavePermutation(a, b, "pred");
    AllHavePermutation(a, b, "target");
    if a != [] {
      assert a[0] in multiset(b);
      var j :| 0 <= j < |b| && b[j] == a[0];
      HitsRemove(b, j);
      var b' := b[..j] + b[j + 1..];
      RemoveMatching(a, b, j);
      assert AllHave(a[1..], "pred") && AllHave(a[1..], "target");
      HitsPermutation(a[1..], b');
    }
  }

  /** Taking the first record out of `a`, and a copy of it out of `b`,
      leaves permutations of each other. */
  lemma RemoveMatching(a: seq<Record>, b: seq<Record>, j: nat)
    requires multiset(a) == multiset(b) && a != [] && j < |b| && b[j] == a[0]
    ensures multiset(a[1..]) == multiset(b[..j] + b[j + 1..])
  {
    assert b == b[..j] + [b[j]] + b[j + 1..];
    assert multiset(b) == multiset(b[..j]) + multiset{b[j]} + multiset(b[j + 1..]);
    assert a == [a[0]] + a[1..];
    assert multiset(a) == multiset{a[0]} + multiset(a[1..]);
    assert multiset(a[1..]) == multiset(a) - multiset{a[0]};
    assert multiset(b[..j] + b[j + 1..]) == multiset(b[..j]) + multiset(b[j + 1..]);
    assert multiset(b[..j] + b[j + 1..]) == multiset(b) - multiset{b[j]};
  }

  /** Reordering the records does not change the accuracy result. */
  lemma AccuracyPermutation(a: seq<Record>, b: seq<Record>)
    requires multiset(a) == multiset(b)
    ensures AccuracyScore(a) == AccuracyScore(b)
  {
    assert |a| == |multiset(a)| == |multiset(b)| == |b|;
    if AllHave(a, "pred") {
      AllHavePermutation(a, b, "pred");
      if AllHave(a, "target") {
        HitsPermutation(a, b);
      } else if AllHave(b, "target") {
        AllHavePermutation(b, a, "target");
      }
    } else if AllHave(b, "pred") {
      AllHavePermutation(b, a, "pred");
    }
  }

  /** `metric(records)`. The built-in accuracy reports the one name
      `accuracy`, with a value in [0, 1]. */
  function Score(m: Metric, records: seq<Record>): (r: Result<map<string, real>>)
    ensures m.Accuracy? && r.Ok? ==> r.value.Keys == {"accuracy"} && 0.0 <= r.value["accuracy"] <= 1.0
  {
    match m
    case Accuracy => AccuracyScore(records)
    case UserMetric(score) => score(records)
  }

  /** The metric map built by `metrics.update(metric(records))` for each
      metric in order: later metrics overwrite earlier ones on shared names;
      the first metric that raises stops the merge. */
  function MergedScores(ms: seq<Metric>, records: seq<Record>): (r: Result<map<string, real>>)
    ensures ms == [] ==> r == Ok(map[])
    decreases |ms|
  {
    if ms == [] then Ok(map[])
    else
      match MergedScores(ms[..|ms| - 1], records)
      case Err(e) => Err(e)
      case Ok(acc) =>
        match Score(ms[|ms| - 1], records)
        case Err(e) => Err(e)
        case Ok(out) => Ok(acc + out)
  }

  /** A failed merge fails with the error of the first metric that raises. */
  lemma {:induction false} MergedScoresErrorIsFirst(ms: seq<Metric>, records: seq<Record>)
    requires MergedScores(ms, records).Err?
    ensures exists k :: 0 <= k < |ms| && Score(ms[k], records) == Err(MergedScores(ms, records).error)
                        && forall j :: 0 <= j < k ==> Score(ms[j], records).Ok?
    decreases |ms|
  {
    var front := ms[..|ms| - 1];
    var e := MergedScores(ms, records).error;
    if MergedScores(front, records).Err? {
      MergedScoresErrorIsFirst(front, records);
      var k :| 0 <= k < |front| && Score(front[k], records) == Err(MergedScores(front, records).error)
               && forall j :: 0 <= j < k ==> Score(front[j], records).Ok?;
      assert ms[k] == front[k];
      assert forall j :: 0 <= j < k ==> ms[j] == front[j];
    } else {
      MergedScoresOk(front, records);
      assert forall j :: 0 <= j < |ms| - 1 ==> ms[j] == front[j];
      assert Score(ms[|ms| - 1], records) == Err(e);
    }
  }

  /** Merging succeeds exactly when every metric does. */
  lemma {:induction false} MergedScoresOk(ms: seq<Metric>, records: seq<Record>)
    ensures MergedScores(ms, records).Ok? <==> forall i :: 0 <= i < |ms| ==> Score(ms[i], records).Ok?
    decreases |ms|
  {
    if ms != [] {
      var n := |ms| - 1;
      MergedScoresOk(ms[..n], records);
      assert forall i :: 0 <= i < n ==> ms[i] == ms[..n][i];
    }
  }

  /** The merged names are exactly the names some metric produced. */
  lemma {:induction false} MergedScoresKeys(ms: seq<Metric>, records: seq<Record>, k: string)
    requires MergedScores(ms, records).Ok?
    ensures k in MergedScores(ms, records).value <==>
            exists i :: 0 <= i < |ms| && Score(ms[i], records).Ok? && k in Score(ms[i], records).value
    decreases |ms|
  {
    MergedScoresOk(ms, records);
    if ms != [] {
      var n := |ms| - 1;
      var front := ms[..n];
      MergedScoresKeys(front, records, k);
      assert forall i :: 0 <= i < n ==> ms[i] == front[i];
      var acc := MergedScores(front, records).value;
      var out := Score(ms[n], records).value;
      assert MergedScores(ms, records).value == acc + out;
      if k in acc {
        var i :| 0 <= i < n && k in Score(front[i], records).value;
        assert k in Score(ms[i], records).value;
      }
    }
  }

  /** Each merged name holds the value of the last metric that produced it
      (later metrics win on a collision). */
  lemma {:induction false} MergedScoresLastWriterWins(ms: seq<Metric>, records: seq<Record>, i: nat, k: string)
    requires MergedScores(ms, records).Ok?
    requires i < |ms| && Score(ms[i], records).Ok? && k in Score(ms[i], records).value
    requires forall j :: i < j < |ms| ==> Score(ms[j], records).Ok? && k !in Score(ms[j], records).value
    ensures k in MergedScores(ms, records).value
    ensures MergedScores(ms, records).value[k] == Score(ms[i], records).value[k]
    decreases |ms|
  {
    MergedScoresOk(ms, records);
    var n := |ms| - 1;
    var front := ms[..n];
    assert forall j :: 0 <= j < n ==> ms[j] == front[j];
    var acc := MergedScores(front, records).value;
    var out := Score(ms[n], records).value;
    assert MergedScores(ms, records).value == acc + out;
    if i < n {
      MergedScoresLastWriterWins(front, records, i, k);
    }
  }

  /** The first metric that raises decides the error of the merge. */
  lemma {:induction false} MergedScoresError(ms: seq<Metric>, records: seq<Record>, k: nat)
    requires k < |ms| && Score(ms[k], records).Err?
    requires forall j :: 0 <= j < k ==> Score(ms[j], records).Ok?
    ensures MergedScores(ms, records) == Err(Score(ms[k], records).error)
    decreases |ms|
  {
    var n := |ms| - 1;
    var front := ms[..n];
    assert forall i :: 0 <= i < n ==> ms[i] == front[i];
    if k < n {
      MergedScoresError(front, records, k);
    } else {
      MergedScoresOk(front, records);
    }
  }
}
