/** Values shared by every module of the model: Python's exceptions as data,
    a Result type for operations that may raise, and an Option type. */
module Common {

  /** The Python exception classes the modelled code raises or lets through. */
  datatype PyError =
    | TypeError
    | ValueError
    | AttributeError
    | KeyError
    | UnicodeDecodeError
    | MemoryError

  datatype Option<+T> = None | Some(value: T)

  /** The outcome of a Python call: a value, or the exception it raised. */
  datatype Result<+T> = Ok(value: T) | Err(error: PyError)

  /** Attribute values stored on modelled Python objects. */
  datatype Value = NoneValue | IntValue(i: int) | StrValue(s: string)
}
