// Option and Result values shared by every module, and the Python exception
// kinds the modelled code can raise.
module Wrappers {
  datatype Option<+T> = None | Some(value: T)

  /** A raised Python exception, named by its class. */
  datatype Error =
    | ValueError(msg: string)
    | KeyError(key: string)
    | TypeError(msg: string)
    | AttributeError(name: string)
    | NameError(name: string)
    | IndexError
    | NotImplementedError

  datatype Result<+T> = Ok(value: T) | Err(error: Error)
}
