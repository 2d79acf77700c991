/** Wrappers used throughout the model: `Option` stands for
    a Java reference that may be null, `Result` for a call that either returns
    a value or throws, `Outcome` for a `void` call that may throw. */
module Wrappers {

  datatype Option<+T> = None | Some(value: T)

  datatype Result<+R, +E> = Ok(value: R) | Err(error: E)

  datatype Outcome<+E> = Pass | Fail(error: E)

  /** `Map.get`: the value stored under `k`, or `None` (Java's `null`). */
  function Lookup<K, V>(m: map<K, V>, k: K): (r: Option<V>)
    ensures r.Some? <==> k in m
    ensures r.Some? ==> m[k] == r.value
  {
    if k in m then Some(m[k]) else None
  }
}
