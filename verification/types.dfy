/** Shapes shared by every stage of the evaluation pipeline: record values,
    chat messages, the exceptions the stages can raise, and two sequence
    combinators used to describe comprehensions that may raise. */
module Types {

  datatype Option<+T> = None | Some(value: T)

  /** The exceptions raised by the modelled code. */
  datatype Error =
    | KeyError(key: string)          // a dict lookup of a missing key
    | IndexError                     // a list index out of range
    | ValueError(reason: string)     // float() of a non-number, `*args` in a compile signature
    | TypeError(reason: string)      // a keyword argument that cannot be bound, a value of the wrong type
    | AttributeError(reason: string) // a string method called on a non-string
    | UndefinedScore                 // accuracy of an empty record list (NaN in the source)

  /** A computation that either returns a value or raises. */
  datatype Result<+T> = Ok(value: T) | Err(error: Error)

  /** A field value of a record: text, a number, or anything else the
      dataset carries (kept only by its printed form). */
  datatype Value = Str(s: string) | Num(x: real) | Other(repr: string)

  /** One evaluation unit: field name to value. */
  type Record = map<string, Value>

  /** Keyword arguments passed through to the model client. */
  type Kwargs = map<string, Value>

  datatype Role = System | User | Assistant

  /** One turn of a chat conversation. */
  datatype Message = Message(role: Role, content: string)

  type Messages = seq<Message>

  /** `[f(x) for x in xs]` where `f` may raise: the first element that
      raises decides the outcome. */
  function MapAll<A, B>(f: A -> Result<B>, xs: seq<A>): (r: Result<seq<B>>)
    ensures r.Ok? <==> forall i :: 0 <= i < |xs| ==> f(xs[i]).Ok?
    ensures r.Ok? ==> |r.value| == |xs| && forall i :: 0 <= i < |xs| ==> f(xs[i]) == Ok(r.value[i])
    ensures r.Err? ==> exists i :: 0 <= i < |xs| && f(xs[i]) == Err(r.error) && forall j :: 0 <= j < i ==> f(xs[j]).Ok?
  {
    if xs == [] then Ok([])
    else match f(xs[0])
      case Err(e) => Err(e)
      case Ok(y) =>
        match MapAll(f, xs[1..])
        case Err(e) =>
          ghost var i :| 0 <= i < |xs[1..]| && f(xs[1..][i]) == Err(e) && forall j :: 0 <= j < i ==> f(xs[1..][j]).Ok?;
          assert f(xs[i + 1]) == Err(e) && forall j :: 0 <= j < i + 1 ==> f(xs[j]).Ok? by {
            forall j | 0 <= j < i + 1 ensures f(xs[j]).Ok? {
              if j > 0 { assert xs[j] == xs[1..][j - 1]; }
            }
          }
          Err(e)
        case Ok(ys) =>
          assert forall i :: 1 <= i < |xs| ==> xs[i] == xs[1..][i - 1];
          Ok([y] + ys)
  }

  /** The comprehension raises the error of its first failing element. */
  lemma MapAllFirstError<A, B>(f: A -> Result<B>, xs: seq<A>, k: nat)
    requires k < |xs| && f(xs[k]).Err?
    requires forall j :: 0 <= j < k ==> f(xs[j]).Ok?
    ensures MapAll(f, xs) == Err(f(xs[k]).error)
  {
    var r := MapAll(f, xs);
    var i :| 0 <= i < |xs| && f(xs[i]) == Err(r.error) && forall j :: 0 <= j < i ==> f(xs[j]).Ok?;
    assert i == k;
  }

  /** The comprehension of elements that all succeed lists their values. */
  lemma MapAllValues<A, B>(f: A -> Result<B>, xs: seq<A>, ys: seq<B>)
    requires |ys| == |xs| && forall i :: 0 <= i < |xs| ==> f(xs[i]) == Ok(ys[i])
    ensures MapAll(f, xs) == Ok(ys)
  {
    assert MapAll(f, xs).value == ys;
  }

  /** `[x for xs in xss for x in xs]`. */
  function Flatten<T>(xss: seq<seq<T>>): seq<T>
  {
    if xss == [] then [] else xss[0] + Flatten(xss[1..])
  }
}
