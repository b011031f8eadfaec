/** Small failure-carrying datatypes shared by the model. */
module Wrappers {

  /** A value that may be absent; `None` stands for a C# `null` reference. */
  datatype Option<+T> = None | Some(value: T)

  /** Either a returned value or the error that would have been thrown. */
  datatype Result<+R, +E> = Success(value: R) | Failure(error: E)
}
