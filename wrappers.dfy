/** Failure-carrying datatypes shared by the rest of the model. */
module Wrappers {

  /** Swift's `T?`: a value or nothing. */
  datatype Option<+T> = None | Some(value: T) {

    /** Swift's `x ?? default`. */
    function GetOr(default: T): (r: T)
      ensures Some? ==> r == value
      ensures None? ==> r == default
    {
      match this
      case Some(v) => v
      case None => default
    }
  }

  /** The outcome of a signal that emits one value or fails. */
  datatype Result<+R, +E> = Success(value: R) | Failure(error: E)

  /** The outcome of a `Signal<Never, E>`: it completes or it fails. */
  datatype Outcome<+E> = Pass | Fail(error: E)
}
