/** Option and Result values for the absent-or-present and success-or-failure outcomes of the server. */
module Outcomes {

  datatype Option<+T> = None | Some(value: T)

  datatype Result<+T, +E> = Ok(value: T) | Err(error: E)
}
