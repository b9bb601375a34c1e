/** Optional values and results shared by every module of the model. */
module Wrappers {
  datatype Option<T> = None | Some(value: T)
  {
    function UnwrapOr(default: T): T
    {
      if Some? then value else default
    }
  }

  datatype Result<T, E> = Ok(value: T) | Err(error: E)

  /** A JavaScript value of type `string | null | undefined` is truthy exactly when it is a non-empty string. */
  predicate IsSet(v: Option<string>)
  {
    v.Some? && v.value != ""
  }
}
