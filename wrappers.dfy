/** Success/failure results, standing in for the exceptions the calculator raises. */
module Wrappers {

  datatype Result<+T, +E> = Ok(value: T) | Err(error: E)
}
