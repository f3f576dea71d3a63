/** Option and Result, the two failure-compatible wrappers used by every converter. */
module Wrappers {

  datatype Option<+T> = None | Some(value: T) {
    predicate IsFailure() { None? }

    function PropagateFailure<U>(): Option<U>
      requires None?
    {
      None
    }

    function Extract(): T
      requires Some?
    {
      value
    }

    function GetOr(default: T): T {
      match this
      case Some(v) => v
      case None => default
    }
  }

  datatype Result<+T, +E> = Ok(value: T) | Err(error: E) {
    predicate IsFailure() { Err? }

    function PropagateFailure<U>(): Result<U, E>
      requires Err?
    {
      Err(error)
    }

    function Extract(): T
      requires Ok?
    {
      value
    }
  }

  /**
    `[f(x) for x in xs]` where `f` may raise: the results in order, or the
    error of the first element on which `f` fails.
   */
  function MapAll<X, Y, E>(f: X -> Result<Y, E>, xs: seq<X>): (r: Result<seq<Y>, E>)
    ensures r.Ok? <==> forall i :: 0 <= i < |xs| ==> f(xs[i]).Ok?
    ensures r.Ok? ==> |r.value| == |xs| && forall i :: 0 <= i < |xs| ==> f(xs[i]) == Ok(r.value[i])
    ensures r.Err? ==> exists i :: 0 <= i < |xs| && f(xs[i]) == Err(r.error)
                                   && forall j :: 0 <= j < i ==> f(xs[j]).Ok?
  {
    if xs == [] then Ok([])
    else match f(xs[0])
      case Err(e) => Err(e)
      case Ok(y) =>
        match MapAll(f, xs[1..])
        case Err(e) => Err(e)
        case Ok(ys) => Ok([y] + ys)
  }

  /** Appending to a caller's list: `pre` followed by what `r` produced, or `r`'s error. */
  function Extended<T, E>(pre: seq<T>, r: Result<seq<T>, E>): (q: Result<seq<T>, E>)
    ensures q.Ok? <==> r.Ok?
    ensures q.Ok? ==> q.value == pre + r.value
    ensures q.Err? ==> q.error == r.error
  {
    match r
    case Ok(v) => Ok(pre + v)
    case Err(e) => Err(e)
  }

  /** A list result followed by a fixed tail, or `r`'s error. */
  function FollowedBy<T, E>(r: Result<seq<T>, E>, tail: seq<T>): (q: Result<seq<T>, E>)
    ensures q.Ok? <==> r.Ok?
    ensures q.Ok? ==> q.value == r.value + tail
    ensures q.Err? ==> q.error == r.error
  {
    match r
    case Ok(v) => Ok(v + tail)
    case Err(e) => Err(e)
  }

  /** Two list results one after the other; the first error wins. */
  function Concat<T, E>(a: Result<seq<T>, E>, b: Result<seq<T>, E>): (q: Result<seq<T>, E>)
    ensures q.Ok? <==> a.Ok? && b.Ok?
    ensures q.Ok? ==> q.value == a.value + b.value
    ensures a.Err? ==> q == Err(a.error)
  {
    match a
    case Err(e) => Err(e)
    case Ok(x) => Extended(x, b)
  }

  /** Appending to an empty list gives what `r` produced. */
  lemma ExtendedEmpty<T, E>(r: Result<seq<T>, E>)
    ensures Extended([], r) == r
  {
    if r.Ok? {
      assert [] + r.value == r.value;
    }
  }
}
