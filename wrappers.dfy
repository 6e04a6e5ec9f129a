/** Option, Result and Outcome: absent values, and the errors a call can raise. */
module Wrappers {

  datatype Option<T> = None | Some(value: T) {
    /** The carried value, or `default` when absent. */
    function GetOr(default: T): T {
      match this
      case Some(v) => v
      case None => default
    }
  }

  /** What a call that returns a value or raises returns. */
  datatype Result<T, E> = Ok(value: T) | Err(error: E)

  /** What a call that returns nothing or raises returns. */
  datatype Outcome<E> = Pass | Fail(error: E)
}
