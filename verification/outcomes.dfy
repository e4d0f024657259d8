/** Failure-carrying results shared by every module of the model.

    The Python code reports every failure by raising an exception; the model
    returns `Err(e)` instead, where `e` names the raise site, and each error
    type says which Python exception class it stands for. */
module Outcomes {

  datatype Option<+T> = None | Some(value: T)

  datatype Result<+T, +E> = Ok(value: T) | Err(error: E)

  /** The exception classes the modelled code can raise (the last one is the
      archive client's own). */
  datatype PyException = ValueError | IndexError | KeyError | TypeError | AttributeError | UdaException
}
