/** Option and Result: the "key may be absent" and "operation may fail" shapes
    used by both ledgers. */
module Wrappers {

  /** A JSON key that may or may not be present. */
  datatype Option<+T> = None | Some(value: T) {

    /** The value, or `default` when absent (Python's `dict.get(key, default)`). */
    function GetOr(default: T): T {
      match this
      case Some(v) => v
      case None => default
    }
  }

  /** The outcome of a query that may be refused. */
  datatype Result<+R, +E> = Success(value: R) | Failure(error: E)
}
