/** Failure-carrying datatypes shared by every module of the model. */
module Wrappers {

  /** Python's `None` versus a present value. */
  datatype Option<+T> = None | Some(value: T)

  /** The Python exceptions the modelled code can raise. */
  datatype Exception =
    | KeyError(key: string)
    | TypeError
    | AttributeError
    | IndexError
    | ValueError
    | OverflowError

  /** The outcome of a Python call: a returned value or a raised exception. */
  datatype Result<+T> = Ok(value: T) | Raise(exc: Exception)
}
