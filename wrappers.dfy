/** Failure-carrying values and the byte type, shared by every module of the model. */
module Wrappers {

  /** A value that may be absent: Python's `Optional[T]`, with `None` for absence. */
  datatype Option<+T> = None | Some(value: T) {
    function GetOr(default: T): T {
      match this
      case Some(v) => v
      case None => default
    }
  }

  /** The result of an operation that raises instead of returning. */
  datatype Result<+T, +E> = Success(value: T) | Failure(error: E)

  /** One octet of a Python `bytes` object. */
  type Byte = b: int | 0 <= b < 256
}
