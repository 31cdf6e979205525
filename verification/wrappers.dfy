/** Optional values and success-or-error results, standing for Go's nil
    handles and (value, error) return pairs. */
module Wrappers {

  /** A value that may be absent (a nil interface or map miss in Go). */
  datatype Option<+T> = None | Some(value: T)

  /** Either a value or an error, never both (Go's `(T, error)` pair). */
  datatype Result<+T, +E> = Success(value: T) | Failure(error: E)

  /** Looks up `k` in `m`, reporting a missing key as `None`. */
  function Lookup<K, V>(m: map<K, V>, k: K): (o: Option<V>)
    ensures o.Some? <==> k in m
    ensures o.Some? ==> m[k] == o.value
  {
    if k in m then Some(m[k]) else None
  }
}
