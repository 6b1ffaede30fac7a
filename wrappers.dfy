/** The optional value used wherever the source returns a Rust `Option`. */
module Wrappers {

  datatype Option<+T> = None | Some(value: T)

  /** `HashMap::get`: the value stored under `k`, if any. */
  function Get<K, V>(m: map<K, V>, k: K): Option<V>
  {
    if k in m then Some(m[k]) else None
  }
}
