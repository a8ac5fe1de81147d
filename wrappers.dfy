/** Failure-compatible wrappers shared by every module of the model. */
module Wrappers {

  /** An optional value: Python's `Optional[T]`, with `None` for Python's `None`. */
  datatype Option<+T> = None | Some(value: T) {

    /** The value, or `default` when there is none (Python's `x if x is not None else default`). */
    function GetOr(default: T): T {
      match this
      case Some(v) => v
      case None => default
    }
  }

  /** The outcome of an operation that may raise: `Failure` stands for the raised exception. */
  datatype Result<+R, +E> = Success(value: R) | Failure(error: E)

  /** Python's `AttributeError`: reading an attribute the object does not have. */
  datatype AttributeError = MissingAttribute(name: string)
}
