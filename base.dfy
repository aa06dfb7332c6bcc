/** Shared value types: bytes and the failure-compatible Option/Result wrappers. */
module Base {

  /** One octet of a binary image. */
  newtype byte = x: int | 0 <= x < 256

  datatype Option<+T> = None | Some(value: T)

  /** Success carries a value; Err carries the reason the operation was abandoned. */
  datatype Result<+T, +E> = Ok(value: T) | Err(error: E) {
    predicate IsFailure() { Err? }

    function PropagateFailure<U>(): Result<U, E>
      requires Err?
    {
      Err(error)
    }

    function Extract(): T
      requires Ok?
    {
      value
    }
  }
}
