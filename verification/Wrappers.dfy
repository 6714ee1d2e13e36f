/** Optional values, for the source's `undefined` and `null`, and deletion of a property. */
module Wrappers {
  datatype Option<+T> = None | Some(value: T)

  function Without<K, V>(m: map<K, V>, k: K): map<K, V> {
    m - {k}
  }
}
