/** Option and Result values: `Option` stands for a Java reference that may be
    null, `Result` for a query that either returns a value or throws. */
module Wrappers {

  datatype Option<+T> = None | Some(value: T)

  datatype Result<+R, +E> = Ok(value: R) | Err(error: E)
}
