/** Optional values and fallible results shared by the modules of this model. */
module Wrappers {

  /** A value that may be absent (`Option<T>` in Rust, a nullable in C++). */
  datatype Option<+T> = None | Some(value: T)

  /** The outcome of an operation that can fail (`Result<T, E>` in Rust). */
  datatype Result<+T, +E> = Ok(value: T) | Err(error: E)
}
