/** Option, Result and Outcome: the absent value and the raised exception of the modelled code. */
module Wrappers {

  datatype Option<+T> = None | Some(value: T)

  /** `Err` stands for an exception that the code raises and does not catch. */
  datatype Result<+T, +E> = Ok(value: T) | Err(error: E)

  /** The result of a call that returns nothing on success. */
  datatype Outcome<+E> = Pass | Fail(error: E)
}
