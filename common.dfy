/** Failure-compatible wrappers shared by the other modules. */
module Common {

  /** Python's `None` or a value. */
  datatype Option<+T> = None | Some(value: T)

  /** An exception the modelled code raises. */
  datatype Error =
    | BadRequest(message: string)   // rana.errors.BadRequest
    | ZeroDivision                  // ZeroDivisionError from a percent
    | ValidationCrash               // the generic Exception raised by validate

  /** A value, or the exception that aborted its computation. */
  datatype Result<+T> = Success(value: T) | Failure(error: Error)
}
