/** Values shared by every module of the model: optional values, results and
    the plain JavaScript `Error` values that the application throws. */
module Common {

  /** A present-or-absent value; stands for `T | null` and `T | undefined`. */
  datatype Option<+T> = None | Some(value: T)

  /** A thrown `Error`: its message and, for errors raised by a wallet, the
      numeric `code` property (`4902`, ...). Errors the application itself
      creates carry no code. */
  datatype Error = Error(message: string, code: Option<int>)

  /** The outcome of a call that either returns a value or throws. */
  datatype Result<+T> = Ok(value: T) | Err(error: Error)

  /** The result of a call that returns nothing (`Promise<void>`). */
  datatype Unit = Unit

  /** An `Error` built with `new Error(message)`. */
  function Fail(message: string): Error
  {
    Error(message, None)
  }
}
