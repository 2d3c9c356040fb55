/** Optional values: JavaScript's `undefined` next to a present value. */
module Wrappers {

  datatype Option<+T> = None | Some(value: T)

  /** The value when present, otherwise `default`. */
  function GetOr<T>(o: Option<T>, default: T): T
  {
    match o
    case Some(v) => v
    case None => default
  }
}
