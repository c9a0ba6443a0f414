/** Failure-carrying values shared by the modules of this model. */
module Wrappers {

  datatype Option<+T> = None | Some(value: T)

  /** The outcome of an operation that either produces a value or is rejected
      (a thrown string or a rejected promise in the original program). */
  datatype Result<+T, +E> = Ok(value: T) | Err(error: E)
}
