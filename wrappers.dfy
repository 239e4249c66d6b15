/** Option and Result, the two failure-carrying values the model uses in place of
    JavaScript's `undefined`, `NaN` and thrown exceptions. */
module Wrappers {

  datatype Option<+T> = None | Some(value: T)

  datatype Result<+T, +E> = Ok(value: T) | Err(error: E)
}
