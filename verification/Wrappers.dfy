/** Results of operations that may have no value or may fail. */
module Wrappers {
  datatype Option<+T> = None | Some(value: T)

  datatype Result<+T, +E> = Ok(value: T) | Err(error: E)

  /** Reading a Go map of counters: an absent key counts zero. */
  function Lookup<K>(counters: map<K, nat>, key: K): nat {
    if key in counters then counters[key] else 0
  }
}
