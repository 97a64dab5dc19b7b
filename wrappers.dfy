/** Option type shared by every module: `None` stands for JavaScript's
    `null`/`undefined` (a missing value), `Some(v)` for a present one. */
module Wrappers {

  datatype Option<+T> = None | Some(value: T) {

    /** The value, or `default` when missing (JavaScript's `x || default`
        for values whose only falsy form is the missing one). */
    function GetOr(default: T): T {
      match this
      case Some(v) => v
      case None => default
    }
  }

  /** The outcome of an operation that either returns a value or throws. */
  datatype Result<+T, +E> = Ok(value: T) | Err(error: E)
}
