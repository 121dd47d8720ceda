/** Success/failure results, standing in for the Python exceptions the core raises. */
module Wrappers {

  datatype Result<+T, +E> = Success(value: T) | Failure(error: E)

}
