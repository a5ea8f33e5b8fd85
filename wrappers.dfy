/** Optional values and fallible results, shared by every module of the model. */
module Wrappers {

  /** A value that may be absent: JavaScript's `undefined` for a missing map entry or field. */
  datatype Option<+T> = None | Some(value: T)

  /** The outcome of a call that may throw: the value, or the error message. */
  datatype Result<+T> = Success(value: T) | Failure(error: string)

  /** `m[k]` in JavaScript: the entry, or `undefined` when the key is absent. */
  function Lookup<K, V>(m: map<K, V>, k: K): (r: Option<V>)
    ensures r.Some? <==> k in m
    ensures r.Some? ==> r.value == m[k]
  {
    if k in m then Some(m[k]) else None
  }
}
