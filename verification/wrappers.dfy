/** An optional value and a success-or-error result, used throughout the
    model for missing map keys, failed parses and failed backend calls. */
module Wrappers {

  /** A value that may be absent (Python's `None`, or a missing map key). */
  datatype Option<+T> = None | Some(value: T)

  /** Either a value or an error (a call that may raise). */
  datatype Result<+R, +E> = Success(value: R) | Failure(error: E)

  /** Looks `k` up in `m`, falling back to `default` when the key is absent. */
  function Get<K, V>(m: map<K, V>, k: K, default: V): (v: V)
    ensures k in m ==> v == m[k]
    ensures k !in m ==> v == default
  {
    if k in m then m[k] else default
  }
}
