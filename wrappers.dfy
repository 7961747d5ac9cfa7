/** Failure-carrying results shared by the race engine modules. */
module Wrappers {

  datatype Option<T> = None | Some(value: T)

  /** A value that may be absent, read with a default, as a keyed lookup with a fallback. */
  function GetOr<T>(o: Option<T>, default: T): (v: T)
    ensures o.None? ==> v == default
    ensures o.Some? ==> v == o.value
  {
    match o
    case None => default
    case Some(x) => x
  }

  /** The two kinds of exception the engine raises on bad configuration. */
  datatype Error =
    | KeyError(key: string)
    | ValueError(reason: string)

  datatype Result<T> = Ok(value: T) | Err(error: Error)
}
