/** The optional-value type used wherever the source reads a value that may be absent
    (`dict.get` without a default, `None` parameters, a parse that raises). */
module Wrappers {

  datatype Option<T> = None | Some(value: T)

  /** `dict.get(key, default)` on a key read as `o`. */
  function GetOr<T>(o: Option<T>, default: T): T {
    match o
    case None => default
    case Some(v) => v
  }
}
