/** Option and Result values: the model's stand-ins for JavaScript's `null` and thrown errors. */
module Wrappers {

  datatype Option<+T> = None | Some(value: T)

  /** Either a value or the message of the error the source would throw. */
  datatype Result<+T> = Ok(value: T) | Err(error: string)
}
