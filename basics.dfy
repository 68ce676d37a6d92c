/** Option and Result wrappers shared by every module of the model. */
module Basics {

  datatype Option<+T> = None | Some(value: T)

  /** The outcome of an operation that the JavaScript source may abort by throwing. */
  datatype Result<+T> = Ok(value: T) | Error(message: string)
}
