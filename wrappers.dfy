/** Optional values and fallible results, used wherever the system has a nullable field, a lookup that may miss or a call that returns an error. */
module Wrappers {
  datatype Option<T> = None | Some(value: T)
  {
    function GetOr(default: T): T
    {
      if Some? then value else default
    }
  }

  /** A value, or the text of the error returned instead (Go's `(T, error)`). */
  datatype Result<T> = Success(value: T) | Failure(error: string)
}
