/** Option and Result values shared by every module of the model. */
module Wrappers {

  datatype Option<T> = None | Some(value: T)

  /** The outcome of a Python callable that either returns a value or raises
      an exception the caller catches and reports. */
  datatype Result<T, E> = Success(value: T) | Failure(error: E)
}
