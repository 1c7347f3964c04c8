/** Option and Outcome wrappers shared by every module. */
module Wrappers {

  datatype Option<T> = None | Some(value: T)
  {
    function GetOr(default: T): T
    {
      match this
      case None => default
      case Some(v) => v
    }
  }

  /** The result of an operation that either returns a value or throws. */
  datatype Result<T, E> = Success(value: T) | Failure(error: E)

  /** The result of an operation that returns nothing or throws. */
  datatype Outcome<E> = Pass | Fail(error: E)
}
