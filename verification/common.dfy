/** Small shared vocabulary: optional values, results with an error text, and bytes. */
module Common {

  /** A value that may be absent (Go's nil). */
  datatype Option<+T> = None | Some(value: T) {
    function GetOr(default: T): T {
      match this
      case Some(v) => v
      case None => default
    }
  }

  /** A value or an error (Go's `(value, error)` pair). */
  datatype Result<+R, +E> = Success(value: R) | Failure(error: E)

  /** One octet of a payload. */
  newtype byte = x: int | 0 <= x < 256
}
