/** Optional values and error-carrying results, used for JavaScript's
    `undefined` and for operations that can fail. */
module Wrappers {

  /** A value that may be absent: `None` plays the role of `undefined`. */
  datatype Option<+T> = None | Some(value: T) {

    /** JavaScript's `v ?? fallback` on a possibly `undefined` value. */
    function GetOr(fallback: T): T {
      if Some? then value else fallback
    }
  }

  /** The outcome of an operation that either produces a value or fails. */
  datatype Result<+R, +E> = Ok(value: R) | Err(error: E)
}
