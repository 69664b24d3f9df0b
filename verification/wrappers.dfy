/** Failure-carrying datatypes shared by every module of the model. */
module Wrappers {

  /** A value that may be absent; models Python's `None`. */
  datatype Option<+T> = None | Some(value: T) {

    /** The wrapped value, or `default` when absent. */
    function GetOr(default: T): T
    {
      match this
      case Some(v) => v
      case None => default
    }
  }

  /** A computed value or the exception that stopped the computation. */
  datatype Result<+T, +E> = Success(value: T) | Failure(error: E)

  /** Completion of an operation that returns nothing on success. */
  datatype Outcome<+E> = Pass | Fail(error: E)
}
