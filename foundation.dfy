/** Small value types shared by every module of the model. */
module Foundation {

  /** An optional value: Go's nil pointer or nil interface is `None`. */
  datatype Option<+T> = None | Some(value: T) {
    function GetOr(default: T): T {
      match this
      case Some(v) => v
      case None => default
    }
  }

  /** The outcome of an operation that either yields a value or fails with an error. */
  datatype Result<+T, +E> = Success(value: T) | Failure(error: E)

  /** One octet of a response body. */
  newtype byte = x: int | 0 <= x < 256

  type Bytes = seq<byte>
}
