/** Option and Result values for the error paths of the modelled code. */
module Wrappers {

  datatype Option<+T> = None | Some(value: T)

  /** `Fail` stands for a raised exception or a failed assertion, with its message. */
  datatype Result<+T> = Ok(value: T) | Fail(reason: string)
}
