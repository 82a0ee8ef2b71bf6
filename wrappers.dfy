/** Option and Result: the two shapes an operation of the client answers with.
    `Err` stands for a Python exception leaving the operation. */
module Wrappers {

  datatype Option<+T> = None | Some(value: T)

  datatype Result<+T, +E> = Ok(value: T) | Err(error: E)
}
