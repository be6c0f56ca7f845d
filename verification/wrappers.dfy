/** Failure-carrying return types shared by the polling model. */
module Wrappers {

  /** An optional value; `None` stands for a null reference where a C# value may be null. */
  datatype Option<+T> = None | Some(value: T)

  /** Either a returned value or a raised exception. */
  datatype Result<+R, +E> = Success(value: R) | Failure(error: E)
}
