/** Minimal optional-value datatype used throughout the model. */
module Wrappers {

  /** `None` stands for Python's `None` (a missing key, a failed decode). */
  datatype Option<+T> = None | Some(value: T)

  /** Python's `dict.get(key)`: the value under `k`, or `None` when absent. */
  function Get<K, V>(m: map<K, V>, k: K): (r: Option<V>)
    ensures r.Some? <==> k in m
    ensures r.Some? ==> r.value == m[k]
  {
    if k in m then Some(m[k]) else None
  }
}
