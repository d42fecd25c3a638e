/** Optional values and results shared by every component of the model. */
module Wrappers {

  /** A value that may be missing (Python's `None`, SQL's `NULL`, an absent key). */
  datatype Option<+T> = None | Some(value: T)

  /** The outcome of an operation that may raise: `Err` stands for the exception. */
  datatype Result<+T, +E> = Ok(value: T) | Err(error: E)
}
