/** What several modules share: optional values, results of fallible operations, lookups and the length of a day. */
module Common {

  datatype Option<+T> = None | Some(value: T)

  datatype Result<+T, +E> = Ok(value: T) | Err(error: E)

  /** A day in milliseconds. */
  const DAY: int := 86400000

  function Lookup<K, V>(m: map<K, V>, k: K): Option<V> {
    if k in m then Some(m[k]) else None
  }
}
