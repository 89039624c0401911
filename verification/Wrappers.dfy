/** The two result shapes used throughout the model, and total lookups in maps. */
module Wrappers {
  datatype Option<+T> = None | Some(value: T)

  datatype Result<+T, +E> = Ok(value: T) | Err(error: E)

  function Lookup<K, V>(m: map<K, V>, k: K): Option<V> { if k in m then Some(m[k]) else None }

  /** The amount under a key; a missing key counts as zero. */
  function Get<K>(m: map<K, real>, k: K): real { if k in m then m[k] else 0.0 }
}
