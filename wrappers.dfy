/** Optional values and results with an error channel, used throughout the model. */
module Wrappers {

  /** A C# nullable (`T?`): `None` stands for `null`. */
  datatype Option<+T> = None | Some(value: T)

  /** The outcome of an operation that can throw: `Err` carries the exception, abstracted. */
  datatype Result<+T, +E> = Ok(value: T) | Err(error: E)
}
