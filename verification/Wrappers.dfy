/** What every part of the model shares: ids, values that may be absent, results that may be
    errors. */
module Wrappers {

  // A UUID; the text order of fixed-width hexadecimal is the numeric order.
  type Id = nat

  datatype Option<+T> = None | Some(value: T)

  datatype Result<+T, +E> = Ok(value: T) | Err(error: E)
}
