/** Option and Result, the two wrappers the chart model uses for JavaScript's
    `undefined` and for operations that throw or reject. */
module Wrappers {

  /** `None` stands for JavaScript's `undefined`: an absent argument, field or result. */
  datatype Option<+T> = None | Some(value: T) {
    function GetOr(default: T): T {
      match this
      case Some(v) => v
      case None => default
    }
  }

  /** The outcome of an operation that can throw (or reject) with an `error`. */
  datatype Result<+R, +E> = Success(value: R) | Failure(error: E)
}
