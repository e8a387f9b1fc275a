/** Option, Result and Outcome: the model's stand-ins for C# null and thrown exceptions. */
module Wrappers {

  /** A nullable value: `None` is C# null. */
  datatype Option<+T> = None | Some(value: T) {

    /** C#'s `x ?? fallback`. */
    function GetOr(fallback: T): T
    {
      match this
      case Some(v) => v
      case None => fallback
    }
  }

  /** The result of an operation that returns a value or throws. */
  datatype Result<+R, +E> = Success(value: R) | Failure(error: E)

  /** The result of an operation that returns nothing or throws. */
  datatype Outcome<+E> = Pass | Fail(error: E)
}
