/** Small wrappers shared by every module of the model. */
module Common {
  /** A value that may be absent (JavaScript's `undefined`, a missing file, a failed parse). */
  datatype Option<T> = None | Some(value: T)
  {
    function GetOr(default: T): T
    {
      if Some? then value else default
    }
  }

  /** The outcome of an operation that the source can reject with a message. */
  datatype Result<T> = Ok(value: T) | Err(error: string)
}
