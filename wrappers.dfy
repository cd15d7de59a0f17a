/** Option and Result: C#'s nullable references and thrown exceptions, as values. */
module Wrappers {

  /** A nullable argument: `None` stands for C#'s `null`. */
  datatype Option<+T> = None | Some(value: T) {

    /** C#'s `x ?? default`. */
    function GetOr(default: T): (r: T)
      ensures Some? ==> r == value
      ensures None? ==> r == default
    {
      match this
      case Some(v) => v
      case None => default
    }
  }

  /** The outcome of an operation that either returns a value or throws. */
  datatype Result<+R, +E> = Success(value: R) | Failure(error: E)
}
