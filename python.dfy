/**
 * The few Python values that flow through the discovery helpers: None,
 * strings, tuples and dicts. A dict is mutable and shared by reference, so it
 * is a class; every other value is immutable and is a datatype constructor.
 */
module Python {

  datatype Option<T> = None | Some(value: T)

  datatype Value =
    | NoneValue
    | Str(s: string)
    | Tuple(items: seq<Value>)
    | DictRef(dict: Dict)

  /** A Python dict with string keys. Two `DictRef`s are equal exactly when
      they name the same dict object, as with Python's `is`. */
  class Dict {
    var entries: map<string, Value>

    constructor (entries: map<string, Value>)
      ensures this.entries == entries
    {
      this.entries := entries;
    }
  }

  /** `m.get(k)` for a dict whose missing keys read as None. */
  function GetOrNone(m: map<string, Value>, k: string): (v: Value)
    ensures k in m ==> v == m[k]
    ensures k !in m ==> v == NoneValue
  {
    if k in m then m[k] else NoneValue
  }

  /** `m.get(k)` as an Option, used for the registry, whose values are routes
      rather than Python values. */
  function Lookup<K, V>(m: map<K, V>, k: K): (r: Option<V>)
    ensures r.Some? <==> k in m
    ensures r.Some? ==> r.value == m[k]
  {
    if k in m then Some(m[k]) else None
  }
}
