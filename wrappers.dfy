/** Option and Result values used across the model in place of `null`,
    `undefined` and thrown errors. */
module Wrappers {

  datatype Option<+T> = None | Some(value: T) {
    /** The wrapped value, or `default` when absent. */
    function GetOr(default: T): T {
      match this
      case Some(v) => v
      case None => default
    }
  }

  /** The outcome of an operation that either yields a value or raises an
      error carrying a human-readable message. */
  datatype Result<+R, +E> = Ok(value: R) | Err(error: E)
}
