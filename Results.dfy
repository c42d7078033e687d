/** Failure-carrying values used across the model in place of Python's None and exceptions. */
module Results {

  /** Python's optional value: a keyword argument left at None, or a value. */
  datatype Option<+T> = None | Some(value: T) {
    function GetOr(default: T): T {
      match this
      case Some(v) => v
      case None => default
    }
  }

  /** Either the value an operation returns or the exception it raises. */
  datatype Result<+T, +E> = Ok(value: T) | Err(error: E)

  /** The built-in Python exception classes the modelled code can raise. */
  datatype PyError =
    | ValueError
    | TypeError
    | ZeroDivisionError
    | AttributeError
    | IndexError
}
