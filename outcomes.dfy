/** The exceptions the two builders raise, and the wrappers that carry them.
    A Python call that raises becomes a call whose result is `Err` (for a
    function) or whose `raised` out-parameter is `Some` (for a method). */
module Outcomes {

  /** The Python exception classes the core raises, each with its message. */
  datatype Error =
    | TypeError(message: string)
    | ValueError(message: string)
    | SyntaxError(message: string)
    | IndexError(message: string)
    | AttributeError(message: string)

  datatype Option<+T> = None | Some(value: T)

  datatype Result<+T> = Ok(value: T) | Err(error: Error)
}
