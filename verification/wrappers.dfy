/** Failure-carrying datatypes shared by the rest of the model. */
module Wrappers {

  /** Python's `None` versus a present value. */
  datatype Option<+T> = None | Some(value: T)

  /** A computation that either yields a value or fails with an error. */
  datatype Result<+R, +E> = Success(value: R) | Failure(error: E)

  /** How a Python call ends: it returns a value, or it raises an exception
      whose `str(e)` is `message`. */
  datatype Completion<+R> = Returned(value: R) | Raised(message: string)
}
