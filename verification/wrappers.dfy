/** Failure-carrying values used across the model: `Option` for the calls the
    source reports as `None`, `Result` for the calls that raise. */
module Wrappers {

  datatype Option<+T> = None | Some(value: T)

  /** `Failure` stands for a Python exception propagating to the caller. */
  datatype Result<+R, +E> = Success(value: R) | Failure(error: E)

  /** The exceptions the modelled code raises itself. */
  datatype Error = KeyError(key: string)
}
