/** Failure-carrying datatypes shared by the whole model: `Option` stands for
    the source's nullable references, `Result` for calls that may throw. */
module Wrappers {

  datatype Option<+T> = None | Some(value: T)

  /** The exceptions the modelled code can raise. */
  datatype Error = IllegalArgument(message: string)

  datatype Result<+R> = Ok(value: R) | Err(error: Error)
}
