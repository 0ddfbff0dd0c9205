/** Optional values and success/failure results, used throughout the model in place of
    JavaScript's `undefined` and thrown exceptions. */
module Wrappers {

  datatype Option<T> = None | Some(value: T) {
    function GetOr(default: T): T {
      match this
      case Some(v) => v
      case None => default
    }
  }

  datatype Result<T, E> = Ok(value: T) | Err(error: E)

  /** The outcome of a step that returns nothing: it completes or it throws. */
  datatype Outcome<E> = Pass | Fail(error: E)
}
