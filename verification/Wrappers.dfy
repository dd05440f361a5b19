/** Option and Result, shared by every other module. */
module Wrappers {

  datatype Option<+T> = None | Some(value: T)

  /** `Failure` stands for a raised exception. */
  datatype Result<+T, +E> = Success(value: T) | Failure(error: E)

}
