/** Python-level outcomes shared by every module of the model: an optional
    value, the exception classes the banner service raises or catches, and a
    result that is either a value or a raised exception. */
module Py {

  datatype Option<T> = None | Some(value: T)

  /** The Python exception classes the modelled code can raise. DecodeError is
      json.JSONDecodeError. */
  datatype Exc =
    | KeyError
    | TypeError
    | AttributeError
    | ValueError
    | IndexError
    | ZeroDivisionError
    | DecodeError

  /** A call that returns a value or raises. */
  datatype Result<T> = Ok(value: T) | Err(exc: Exc)
}
