/** Option and Result, the two failure-carrying datatypes the model uses for
    JavaScript's `null`/`undefined` and for thrown errors. */
module Wrappers {

  /** `None` stands for a missing value (`null` or `undefined`). */
  datatype Option<+T> = None | Some(value: T) {

    /** The value, or `default` when missing (JavaScript's `x || default`
        for values that are never falsy when present). */
    function GetOr(default: T): T {
      match this
      case Some(v) => v
      case None => default
    }
  }

  /** The outcome of a call that may throw: `Ok` with its value, or `Err` with
      the error's message. */
  datatype Result<+R, +E> = Ok(value: R) | Err(error: E)
}
