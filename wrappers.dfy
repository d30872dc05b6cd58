/** Optional values and results, for the `?:` fields and the thrown errors of the adapter. */
module Wrappers {

  /** An optional value: `None` stands for a JavaScript `undefined`. */
  datatype Option<+T> = None | Some(value: T) {
    /** The value, or `d` when there is none (the `??` operator). */
    function GetOr(d: T): T {
      match this
      case Some(v) => v
      case None => d
    }
  }

  /** The outcome of an awaited call: a value, or the error it was rejected with. */
  datatype Result<+T, +E> = Ok(value: T) | Err(error: E)
}
