/** Option and Result values shared by every module of the model. */
module Wrappers {

  /** A value that may be missing: an absent JSON key or a Python `None`. */
  datatype Option<+T> = None | Some(value: T)
  {
    /** `value` when present, `default` otherwise (Python's `dict.get(key, default)`). */
    function GetOr(default: T): T
    {
      match this
      case Some(v) => v
      case None => default
    }
  }

  /** The exceptions the modelled code raises. */
  datatype Error =
    | ValueError(message: string)
    | KeyError(key: string)
    | UriError

  /** The outcome of a call that may raise. */
  datatype Result<+T> = Ok(value: T) | Err(error: Error)
}
