/** Failure-carrying datatypes used in place of Java's Optional and exceptions. */
module Wrappers {

  /** Java's Optional: None is the empty Optional (or a null reference). */
  datatype Option<+T> = None | Some(value: T)

  /** A computation that either produces a value or throws an error. */
  datatype Result<+R, +E> = Success(value: R) | Failure(error: E)

  /** A check that either passes or throws an error. */
  datatype Outcome<+E> = Pass | Fail(error: E)

  /** Optional.map */
  function MapOption<T, U>(o: Option<T>, f: T -> U): (r: Option<U>)
    ensures r.Some? <==> o.Some?
    ensures r.Some? ==> r.value == f(o.value)
  {
    match o
    case None => None
    case Some(v) => Some(f(v))
  }
}
