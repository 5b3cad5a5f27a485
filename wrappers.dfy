/** Failure-carrying wrappers used throughout the model. */
module Wrappers {

  /** A value that may be missing: a JSON field that is absent or of the wrong type. */
  datatype Option<+T> = None | Some(value: T) {
    /** The wrapped value, or `default` when there is none (Rust's `unwrap_or`). */
    function GetOr(default: T): T {
      match this
      case Some(v) => v
      case None => default
    }
  }

  /** The outcome of a fallible operation: Rust's `Result<T, String>`. */
  datatype Result<+T, +E> = Ok(value: T) | Err(error: E)

  /** The unit value carried by `Ok(())`. */
  datatype Unit = Unit
}
