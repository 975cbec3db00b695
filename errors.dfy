/** Failure kinds raised by the library, and the wrappers that carry them. */
module Errors {

  /** The Python exceptions the modelled code raises.  `NotAligned` is the
      `ValueError` numpy raises when a matrix product gets shapes that do not
      conform; it is kept apart so that the model can say which check failed. */
  datatype Error =
    | ValueError
    | NotAligned
    | RuntimeError
    | AttributeError(attr: string)
    | IndexError
    | AssertionError
    | ZeroDivisionError
    | TypeError
    | KeyError

  datatype Result<+T> = Success(value: T) | Failure(error: Error)

  datatype Outcome = Pass | Fail(error: Error)
}
