/**
 * A JavaScript object used as a dictionary (`Record<string, V>`): string
 * keys kept in insertion order, as `Object.keys` and `Object.entries`
 * report them, each mapped to a value.
 */
module Records {
  import opened Optional

  datatype RawRecord<V> = RawRecord(keys: seq<string>, entries: map<string, V>) {

    /** Keys are listed once each, and exactly the keys that have a value are listed. */
    ghost predicate Valid() {
      && (forall i, j :: 0 <= i < j < |keys| ==> keys[i] != keys[j])
      && (forall k :: k in entries <==> k in keys)
    }
  }

  type Record<V> = r: RawRecord<V> | r.Valid() witness RawRecord([], map[])

  function Empty<V>(): (r: Record<V>)
    ensures r.keys == [] && r.entries == map[]
  {
    RawRecord([], map[])
  }

  /** `obj[k]`, with `None` for `undefined`. */
  function Get<V>(r: Record<V>, k: string): (v: Option<V>)
    ensures v.Some? <==> k in r.entries
    ensures v.Some? ==> v.value == r.entries[k]
  {
    if k in r.entries then Some(r.entries[k]) else None
  }

  /**
   * `{ ...obj, [k]: v }`: a key already present keeps its place in the
   * key order, a new key goes last.
   */
  function Set<V>(r: Record<V>, k: string, v: V): (r': Record<V>)
    ensures r'.entries == r.entries[k := v]
    ensures k in r.entries ==> r'.keys == r.keys
    ensures k !in r.entries ==> r'.keys == r.keys + [k]
  {
    if k in r.entries then RawRecord(r.keys, r.entries[k := v])
    else RawRecord(r.keys + [k], r.entries[k := v])
  }

  /** Builds an object by setting each key of `keys` in turn to the value `f` gives it. */
  function FromKeys<V>(keys: seq<string>, f: string -> V): (r: Record<V>)
    requires forall i, j :: 0 <= i < j < |keys| ==> keys[i] != keys[j]
    ensures r.keys == keys
    ensures forall k :: k in r.entries ==> r.entries[k] == f(k)
  {
    if keys == [] then Empty()
    else
      var prefix := FromKeys(keys[..|keys| - 1], f);
      assert keys[|keys| - 1] !in prefix.keys;
      Set(prefix, keys[|keys| - 1], f(keys[|keys| - 1]))
  }
}
