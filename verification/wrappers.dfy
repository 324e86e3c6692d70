/** Failure-carrying datatypes shared by the model.
    Python raises exceptions where the model returns `Err`; the exception
    classes the modelled code can raise are listed in `PyError`. */
module Wrappers {

  /** A value that may be absent: what an abstract string-to-number parser
      answers for text it cannot read. */
  datatype Option<+T> = None | Some(value: T) {

    /** The value when present, else `default`: the shape of Python's
        `try: ... except: return default`. */
    function GetOr(default: T): T {
      match this
      case Some(v) => v
      case None => default
    }
  }

  /** The Python exception classes raised by the modelled code. */
  datatype PyError = KeyError | TypeError | IndexError | ZeroDivisionError | ValueError

  /** Either a value, or the exception the Python code raises instead. */
  datatype Result<+T> = Ok(value: T) | Err(error: PyError)
}
