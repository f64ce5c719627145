/** Failure-compatible helper datatypes shared by every module of the model. */
module Wrappers {

  /** An optional value: Python's `None` versus a present value. */
  datatype Option<+T> = None | Some(value: T) {
    /** The present value, or `default` when absent (Python's `x if x is not None else default`). */
    function GetOr(default: T): T {
      match this
      case Some(v) => v
      case None => default
    }
  }

  /** The outcome of an operation that raises in the source: a value or the error it raises. */
  datatype Result<+R, +E> = Success(value: R) | Failure(error: E)

  /** Python's `d.get(key, default)` (and `os.getenv(name, default)`): the stored value whenever the key is present. */
  function DictGet<K, V>(m: map<K, V>, key: K, default: V): (v: V)
    ensures key in m ==> v == m[key]
    ensures key !in m ==> v == default
  {
    if key in m then m[key] else default
  }
}
