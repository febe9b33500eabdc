/** Option and Result values shared by every module of the model. */
module Wrappers {
  datatype Option<T> = None | Some(value: T)

  datatype Result<T> = Ok(value: T) | Err(error: string)
}
