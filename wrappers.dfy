/** Result and Option values, standing for the exceptions and missing values of the
    Python Lambda code: an `Err` is an exception that propagates to the caller. */
module Wrappers {

  datatype Option<+T> = None | Some(value: T)

  datatype Result<+T, +E> = Ok(value: T) | Err(error: E)
}
