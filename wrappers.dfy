/** Option and Result, used for dictionary lookups and for the errors the
    evaluator's constructor raises. */
module Wrappers {
  datatype Option<T> = None | Some(value: T)

  datatype Result<T, E> = Ok(value: T) | Err(error: E)
}
