/** Option, result and outcome datatypes shared by the other modules. */
module Wrappers {

  /** A value that may be absent (a Go zero value or a "not found"). */
  datatype Option<+T> = None | Some(value: T)

  /** A value or an error (a Go `(T, error)` pair where exactly one is meaningful). */
  datatype Result<+T, +E> = Success(value: T) | Failure(error: E)

  /** An error that may be absent (a Go `error` return that may be nil). */
  datatype Outcome<+E> = Pass | Fail(error: E)

  /** The entry of `m` at `k`, if there is one. */
  function Lookup<K, V>(m: map<K, V>, k: K): Option<V>
  {
    if k in m then Some(m[k]) else None
  }
}
