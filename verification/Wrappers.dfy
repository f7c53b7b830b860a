/** Options and results, for the `None` values and the exceptions of the Python code; and max(0, n). */
module Wrappers {

  datatype Option<+T> = None | Some(value: T) {
    function GetOr(default: T): T {
      match this
      case Some(v) => v
      case None => default
    }
  }

  datatype Result<+T, +E> = Ok(value: T) | Err(error: E)

  function AtLeastZero(n: int): nat {
    if n < 0 then 0 else n
  }
}
