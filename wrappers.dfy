/** Optional values: a nullable foreign key, a missing dictionary entry. */
module Wrappers {

  datatype Option<+T> = None | Some(value: T)

  /** `d.get(k)` on a dictionary: the value under `k`, or `None` when absent. */
  function Get<K, V>(d: map<K, V>, k: K): Option<V>
  {
    if k in d then Some(d[k]) else None
  }
}
