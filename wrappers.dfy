/** Optional values and results shared by the other modules. */
module Wrappers {

  /** A value that may be absent: JavaScript's `undefined`/`null` or an absent property. */
  datatype Option<+T> = None | Some(value: T) {

    /** The value, or `default` when absent (JavaScript's `??`). */
    function GetOr(default: T): T {
      match this
      case Some(v) => v
      case None => default
    }
  }

  /** The outcome of a parse: the parsed value or an error message. */
  datatype Result<+R> = Ok(value: R) | Err(error: string)
}
