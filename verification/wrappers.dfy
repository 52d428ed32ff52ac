/** Option and Result datatypes shared by every module of the model. */
module Wrappers {
  datatype Option<+T> = None | Some(value: T)

  /** The outcome of an operation that can fail; `Err` stands for a C++ exception or error return. */
  datatype Result<+T, +E> = Ok(value: T) | Err(error: E)

  /** Applies `f` to every element in order; fails as soon as one application fails. */
  function MapAll<T, U>(xs: seq<T>, f: T -> Option<U>): (r: Option<seq<U>>)
    ensures r.Some? ==> |r.value| == |xs| && forall k :: 0 <= k < |xs| ==> f(xs[k]) == Some(r.value[k])
    ensures r.None? ==> exists k :: 0 <= k < |xs| && f(xs[k]).None?
  {
    if xs == [] then Some([])
    else
      match MapAll(xs[..|xs| - 1], f)
      case None => None
      case Some(us) =>
        match f(xs[|xs| - 1])
        case None => None
        case Some(u) => Some(us + [u])
  }

  /** `MapAll` is determined by its results: where every application succeeds, it returns exactly those values. */
  lemma MapAllSome<T, U>(xs: seq<T>, f: T -> Option<U>, us: seq<U>)
    requires |us| == |xs| && forall k :: 0 <= k < |xs| ==> f(xs[k]) == Some(us[k])
    ensures MapAll(xs, f) == Some(us)
  {
    var m := MapAll(xs, f);
    assert m.Some?;
    assert m.value == us;
  }
}
