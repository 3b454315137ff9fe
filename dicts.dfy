/**
 * Python's `dict`: the keys in insertion order and the value stored under each. Assigning to
 * a key that is present replaces its value and keeps its place; a new key goes last.
 */
module Dicts {
  import opened Wrappers

  datatype Dict<K, V> = Dict(keys: seq<K>, values: map<K, V>)

  function Empty<K, V>(): Dict<K, V> {
    Dict([], map[])
  }

  /** No key listed twice, and the listed keys are exactly the stored ones. */
  ghost predicate Valid<K(!new), V>(d: Dict<K, V>) {
    && (forall i, j :: 0 <= i < j < |d.keys| ==> d.keys[i] != d.keys[j])
    && (forall k :: k in d.values <==> k in d.keys)
  }

  /** Python's `d.get(k)`. */
  function Get<K, V>(d: Dict<K, V>, k: K): Option<V> {
    if k in d.values then Some(d.values[k]) else None
  }

  /** Python's `d.get(k, dflt)`. */
  function GetOr<K, V>(d: Dict<K, V>, k: K, dflt: V): V {
    if k in d.values then d.values[k] else dflt
  }

  /** Python's `d[k] = v`. */
  function Put<K(==), V>(d: Dict<K, V>, k: K, v: V): Dict<K, V> {
    Dict(if k in d.values then d.keys else d.keys + [k], d.values[k := v])
  }

  /** Assignment keeps a dictionary a dictionary; a new key is appended, an old one stays put. */
  lemma PutValid<K(!new), V>(d: Dict<K, V>, k: K, v: V)
    requires Valid(d)
    ensures Valid(Put(d, k, v))
    ensures Put(d, k, v).keys == if k in d.keys then d.keys else d.keys + [k]
  {
  }
}
