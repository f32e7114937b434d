/** Option and Result values used for JavaScript's `null`/`undefined` and for
    thrown errors: a member that throws in the source returns `Err` here. */
module Wrappers {

  datatype Option<+T> = None | Some(value: T)

  datatype Result<+T, +E> = Ok(value: T) | Err(error: E)
}
