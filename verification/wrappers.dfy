/** Failure-carrying values shared by the whole model. */
module Wrappers {

  /** A value that may be missing; for a record field, `None` means the key is absent. */
  datatype Option<+T> = None | Some(value: T) {

    /** The carried value, or `default` when there is none (Python's `d.get(key, default)`). */
    function GetOr(default: T): T {
      match this
      case Some(v) => v
      case None => default
    }
  }

  /** Either a value or an error. */
  datatype Result<+R, +E> = Success(value: R) | Failure(error: E)

  /** What a call into the wrapped memory library did: it returned a value,
      or it raised an exception whose string form is `message`. */
  datatype Call<+T> = Returned(value: T) | Raised(message: string)
}
