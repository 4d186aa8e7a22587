/** Optional values and success/failure results shared by every module. */
module Wrappers {

  /** A value that may be absent (TypeScript's `T | null` / `T | undefined`). */
  datatype Option<+T> = None | Some(value: T)

  /** The outcome of an operation that can throw: a value or the error thrown. */
  datatype Result<+R, +E> = Success(value: R) | Failure(error: E)

  /** Looks a key up the way `Storage.getItem` does: absent keys give None. */
  function Lookup<K, V>(m: map<K, V>, k: K): (r: Option<V>)
    ensures r.Some? <==> k in m
    ensures r.Some? ==> r.value == m[k]
  {
    if k in m then Some(m[k]) else None
  }
}
