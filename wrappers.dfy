/** Option and Result, the failure-carrying values the rest of the model uses in
    place of Python's None and raised exceptions. */
module Wrappers {

  datatype Option<+T> = None | Some(value: T)

  /** `Err` stands for an exception raised by the modelled code; `error` says which check raised it. */
  datatype Result<+T, +E> = Ok(value: T) | Err(error: E)
}
