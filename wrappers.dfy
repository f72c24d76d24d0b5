/** Option and Result values for the lookups and error returns of the marketplace. */
module Wrappers {

  /** A value that may be absent: Python's `None` versus a present value. */
  datatype Option<+T> = None | Some(value: T) {
    /** The present value, or `default` when absent (Python's `d.get(k, default)`). */
    function GetOr(default: T): T {
      match this
      case Some(v) => v
      case None => default
    }
  }

  /** Either a value or one of the error dictionaries the services return. */
  datatype Result<+T, +E> = Ok(value: T) | Err(error: E)
}
