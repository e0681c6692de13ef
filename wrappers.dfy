/** Failure-carrying values: Python's `None` arguments and raised exceptions. */
module Wrappers {

  datatype Option<+T> = None | Some(value: T)

  datatype Result<+T, +E> = Success(value: T) | Failure(error: E)

  /** Prepends `s` to a successful string result; a failure passes through unchanged. */
  function Prepend<E>(s: string, r: Result<string, E>): (p: Result<string, E>)
    ensures p.Success? <==> r.Success?
    ensures p.Success? ==> |p.value| == |s| + |r.value| && p.value[..|s|] == s && p.value[|s|..] == r.value
    ensures p.Failure? ==> p.error == r.error
  {
    match r
    case Success(v) => Success(s + v)
    case Failure(e) => Failure(e)
  }

  lemma PrependPrepend<E>(a: string, b: string, r: Result<string, E>)
    ensures Prepend(a, Prepend(b, r)) == Prepend(a + b, r)
  {
    if r.Success? {
      assert a + (b + r.value) == (a + b) + r.value;
    }
  }
}
