/** Failure-carrying datatypes shared by the model.
    - Option<T>: a value that may be absent (Python's None).
    - Result<R, E>: a delegate call that returns a value or raises.
    - Outcome<E>: a delegate call that returns nothing or raises.
 */
module Wrappers {

  datatype Option<+T> = None | Some(value: T)

  datatype Result<+R, +E> = Success(value: R) | Failure(error: E)

  datatype Outcome<+E> = Pass | Fail(error: E)

  /** Forgets the value of a Result, keeping only whether it raised and why. */
  function Forget<R, E>(r: Result<R, E>): (o: Outcome<E>)
    ensures o.Pass? <==> r.Success?
    ensures o.Fail? ==> o.error == r.error
  {
    match r
    case Success(_) => Pass
    case Failure(e) => Fail(e)
  }
}
