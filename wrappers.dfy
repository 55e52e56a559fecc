/** Optional values (Java's nullable references) and results of operations that may throw. */
module Wrappers {

  /** A nullable value: `None` stands for Java's `null`. */
  datatype Option<+T> = None | Some(value: T)
  {
    function GetOr(default: T): T
    {
      match this
      case Some(v) => v
      case None => default
    }
  }

  /** The outcome of an operation that either returns a value or throws an exception with a message. */
  datatype Result<+T> = Ok(value: T) | Err(error: string)
}
