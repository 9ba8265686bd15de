/** Failure-carrying results. A Python call that raises is modelled by the
    Failure/Fail case carrying the exception's text, `str(e)`. */
module Outcomes {

  /** A call that returns a value of type T or raises with a message. */
  datatype Result<+T> = Success(value: T) | Failure(error: string)

  /** A call that returns nothing useful or raises with a message. */
  datatype Outcome = Pass | Fail(error: string)

  datatype Option<+T> = None | Some(value: T)
}
