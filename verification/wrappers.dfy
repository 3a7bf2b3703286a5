/** Option and Result datatypes shared by every module of the model. */
module Wrappers {

  /** An optional value: `None` is an absent value (where it is used, the doc says which JavaScript value it stands for). */
  datatype Option<+T> = None | Some(value: T) {

    /** The value, or `default` when absent. */
    function GetOr(default: T): T {
      match this
      case Some(v) => v
      case None => default
    }
  }

  /** The outcome of an operation that may throw: `Failure` carries the error message. */
  datatype Result<+R, +E> = Success(value: R) | Failure(error: E)
}
