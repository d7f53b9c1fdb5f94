/** Option and Result, used for absent JavaScript fields and for operations that can throw. */
module Wrappers {

  /** An optional value: `None` stands for an absent (undefined) field. */
  datatype Option<+T> = None | Some(value: T)

  /** The outcome of an operation that either yields a value or throws an error. */
  datatype Result<+R, +E> = Success(value: R) | Failure(error: E)
}
