/** Optional values and failures: JavaScript's `null`/`undefined` results and thrown errors. */
module Wrappers {

  /** A value that may be absent (`null` or `undefined` in the source). */
  datatype Option<+T> = None | Some(value: T) {

    /** The value, or `default` when absent (the `??` operator). */
    function GetOr(default: T): T {
      match this
      case Some(v) => v
      case None => default
    }
  }

  /** Either a value or the error a JavaScript call would throw. */
  datatype Result<+T, +E> = Ok(value: T) | Err(error: E)
}
