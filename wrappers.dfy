/** Small failure-carrying datatypes shared by every service model. */
module Wrappers {

  /** Python's `Optional[T]`: a value or `None`. */
  datatype Option<+T> = None | Some(value: T) {
    function GetOr(default: T): T {
      match this
      case Some(v) => v
      case None => default
    }
  }

  /** The outcome of an operation that either returns a value or raises an exception. */
  datatype Result<+T, +E> = Ok(value: T) | Err(error: E)

  /** A request field as pydantic's `model_dump(exclude_unset=True)` sees it: either the
      client never sent it, or it sent a value (which may itself be `None`). */
  datatype Patch<+T> = Unset | Set(value: T) {
    /** The value sent, or `current` when the field was not sent. */
    function Or(current: T): T {
      match this
      case Set(v) => v
      case Unset => current
    }
  }
}
