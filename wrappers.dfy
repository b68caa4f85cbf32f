/** Option and Result, and the exceptions the Python code raises, as values. */
module Wrappers {

  datatype Option<T> = None | Some(value: T)

  /** The exception classes the modelled code can raise. `Unsupported` marks a JSON
      shape coming back from the language model that this model does not carry on with
      (Python's dynamic typing would). */
  datatype Error =
    | ValueError(message: string)
    | TypeError(message: string)
    | AttributeError(message: string)
    | OverflowError(message: string)
    | Unsupported(message: string)

  datatype Result<T> = Ok(value: T) | Err(error: Error)
}
