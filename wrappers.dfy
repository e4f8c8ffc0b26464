/** Optional values and results with an error side, used for every attribute that
    the formatter probes defensively and for the one error that can escape it. */
module Wrappers {

  /** `None` stands for an attribute that is absent (or Python's `None`). */
  datatype Option<+T> = None | Some(value: T)

  /** The outcome of an operation that may raise. */
  datatype Result<+T, +E> = Ok(value: T) | Err(error: E)

  /** Looks a key up in a map without failing: Python's `d.get(k)`. */
  function Get<K, V>(m: map<K, V>, k: K): (r: Option<V>)
    ensures r.Some? <==> k in m
    ensures r.Some? ==> r.value == m[k]
  {
    if k in m then Some(m[k]) else None
  }
}
