/** Optional values (a Java reference that may be null) and the outcome of a
    Java call that either returns a value or throws an exception, of which
    the model keeps the message. */
module Wrappers {

  datatype Option<+T> = None | Some(value: T)
  {
    function GetOr(default: T): T
    {
      match this
      case None => default
      case Some(v) => v
    }
  }

  datatype Result<+T> = Ok(value: T) | Thrown(message: string)
}
