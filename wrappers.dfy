/** Optional values and the outcome of an operation that can fail, standing in for
    C# `null` results and caught exceptions. */
module Wrappers {

  datatype Option<+T> = None | Some(value: T)

  /** `Err` carries the message the C# code would have logged or thrown. */
  datatype Result<+T> = Ok(value: T) | Err(message: string)
}
