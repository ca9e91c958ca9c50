/** Option and Result values, used wherever the program either has a value or
    raises / leaves a name unbound. */
module Wrappers {

  datatype Option<+T> = None | Some(value: T)

  datatype Result<+T, +E> = Ok(value: T) | Err(error: E)
}
