/** The failure-carrying results the operations return in place of a thrown error. */
module Wrappers {

  /** A value that may be absent: a JavaScript `undefined` or `null`. */
  datatype Option<+T> = None | Some(value: T) {

    /** The value, or `default` when absent: the `??` operator. */
    function GetOr(default: T): T {
      if Some? then value else default
    }
  }

  /** The value an operation returns, or the error it throws. */
  datatype Result<+T, +E> = Ok(value: T) | Err(error: E)

  /** Normal completion of an operation that returns nothing, or the error it throws. */
  datatype Outcome<+E> = Pass | Fail(error: E)
}
