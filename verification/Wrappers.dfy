/** Result types shared by the whole model. */
module Wrappers {

  /** A value that may be absent (Python's `None`, SQL's `NULL`). */
  datatype Option<+T> = None | Some(value: T) {
    function GetOr(default: T): T {
      if Some? then value else default
    }
  }

  /** The outcome of an operation that may raise. */
  datatype Result<+T> = Ok(value: T) | Err(error: string)
}
