/** Option, Result and Outcome: the shapes of JavaScript's `null`, of a thrown
    exception and of an awaited promise that may reject. */
module Wrappers {

  /** A value that may be absent (`T | null` in the source). */
  datatype Option<+T> = None | Some(value: T)
  {
    function GetOr(default: T): T
    {
      match this
      case Some(v) => v
      case None => default
    }
  }

  /** A computation that returns a value or throws an error. */
  datatype Result<+T, +E> = Ok(value: T) | Err(error: E)

  /** A computation that returns nothing or throws an error. */
  datatype Outcome<+E> = Pass | Fail(error: E)
}
