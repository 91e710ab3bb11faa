/**
 The part of Python's behaviour the payload normalizers rely on: the values
 `json.loads` produces, the exceptions raised by subscripting, by `.get` and by
 iteration, and the `for entry in entries: data.append(...)` loop that every
 normalizer is built around.
 */
module Python {

  /** The exceptions a normalizer can raise on a payload of the wrong shape. */
  datatype Exception =
    | KeyError(key: string)   // `d[key]` on a dict that has no `key`
    | TypeError               // subscripting or iterating a value that does not support it
    | AttributeError          // `.get` on a value that is not a dict

  /** The result of evaluating a Python expression: a value, or the exception it raised. */
  datatype Outcome<T> = Ok(value: T) | Raised(error: Exception) {

    predicate IsFailure() {
      Raised?
    }

    function PropagateFailure<U>(): Outcome<U>
      requires Raised?
    {
      Raised(error)
    }

    function Extract(): T
      requires Ok?
    {
      value
    }
  }

  /**
   A parsed JSON value as Python holds it. A dict is a map: Python compares
   dicts without regard to key order, and so do the expected values of the
   normalizers.
   */
  datatype Json =
    | Null
    | Bool(b: bool)
    | Int(i: int)
    | Str(s: string)
    | List(items: seq<Json>)
    | Dict(fields: map<string, Json>)

  /** `j[key]`: the value under `key`, a KeyError on a dict without it, a TypeError on anything else. */
  function Subscript(j: Json, key: string): Outcome<Json>
  {
    match j
    case Dict(fields) => if key in fields then Ok(fields[key]) else Raised(KeyError(key))
    case _ => Raised(TypeError)
  }

  /** `d.get(key, None)` on a dict: the value under `key`, or None when it has no such key. */
  function Lookup(fields: map<string, Json>, key: string): Json
  {
    if key in fields then fields[key] else Null
  }

  /**
   The elements `for entry in j` visits when the loop body begins by
   subscripting `entry` with a string, as every normalizer's does. A list
   yields its items. A dict or a str yields str elements, and subscripting a
   str with a str raises TypeError, so an empty one runs the loop zero times
   and a non-empty one raises at the first element. A number, a bool or None
   is not iterable.
   */
  function Iterate(j: Json): Outcome<seq<Json>>
  {
    match j
    case List(items) => Ok(items)
    case Dict(fields) => if fields == map[] then Ok([]) else Raised(TypeError)
    case Str(s) => if s == "" then Ok([]) else Raised(TypeError)
    case _ => Raised(TypeError)
  }

  /**
   `j[:n]` iterated as above. A list keeps its first `n` items and a str its
   first `n` characters; a dict cannot be subscripted with a slice, and a
   number, a bool or None cannot be subscripted at all.
   */
  function IterateSlice(j: Json, n: nat): Outcome<seq<Json>>
  {
    match j
    case List(items) => Ok(if |items| <= n then items else items[..n])
    case Str(s) => Iterate(Str(if |s| <= n then s else s[..n]))
    case _ => Raised(TypeError)
  }

  /**
   `out = []` followed by `for x in xs: out.append(f(x))`: one result per
   element, in order, or the exception of the first element `f` fails on.
   */
  function MapOrRaise<A, B>(xs: seq<A>, f: A -> Outcome<B>): (r: Outcome<seq<B>>)
    ensures r.Ok? <==> forall i :: 0 <= i < |xs| ==> f(xs[i]).Ok?
    ensures r.Ok? ==> |r.value| == |xs|
    ensures r.Ok? ==> forall i :: 0 <= i < |xs| ==> r.value[i] == f(xs[i]).value
    ensures r.Raised? ==> FailsFirstAt(xs, f, r.error)
  {
    if xs == [] then Ok([])
    else
      var head :- f(xs[0]);
      var tail :- MapOrRaise(xs[1..], f);
      Ok([head] + tail)
  }

  /** Some element raises `e` under `f`, and `f` succeeds on every element before it. */
  ghost predicate FailsFirstAt<A, B>(xs: seq<A>, f: A -> Outcome<B>, e: Exception)
  {
    exists k :: 0 <= k < |xs| && f(xs[k]) == Raised(e) && forall i :: 0 <= i < k ==> f(xs[i]).Ok?
  }

  /** Applies `h` to the value of a successful outcome and keeps an exception as it is. */
  function MapOk<B, C>(r: Outcome<B>, h: B -> C): Outcome<C>
  {
    match r
    case Ok(v) => Ok(h(v))
    case Raised(e) => Raised(e)
  }

  /** `h` applied to every element, in order. */
  function MapSeq<B, C>(s: seq<B>, h: B -> C): (r: seq<C>)
    ensures |r| == |s|
    ensures forall i :: 0 <= i < |s| ==> r[i] == h(s[i])
  {
    seq(|s|, i requires 0 <= i < |s| => h(s[i]))
  }

  /**
   When `g` is `f` followed by `h`, looping with `g` is looping with `f` and
   then applying `h` to every result: the same elements succeed, the same
   exception is raised, and the results correspond one to one.
   */
  lemma {:induction false} MapOrRaiseThen<A, B, C>(xs: seq<A>, f: A -> Outcome<B>, g: A -> Outcome<C>, h: B -> C)
    requires forall x :: g(x) == MapOk(f(x), h)
    ensures MapOrRaise(xs, g) == MapOk(MapOrRaise(xs, f), (s: seq<B>) => MapSeq(s, h))
  {
    if xs != [] {
      MapOrRaiseThen(xs[1..], f, g, h);
      match f(xs[0])
      case Raised(e) =>
      case Ok(v) =>
        match MapOrRaise(xs[1..], f)
        case Raised(e) =>
        case Ok(tail) =>
          assert MapSeq([v] + tail, h) == [h(v)] + MapSeq(tail, h);
    }
  }
}
