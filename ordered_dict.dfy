/**
 * Python's `OrderedDict`, as far as the package-ID computation uses it:
 * a dictionary that remembers the order in which its keys were first inserted.
 */
module OrderedDict {

  /** `keys` lists every key of `items` once, in first-insertion order. */
  datatype OrderedMap<K, V> = OrderedMap(keys: seq<K>, items: map<K, V>) {

    ghost predicate Valid() {
      && (forall i, j | 0 <= i < j < |keys| :: keys[i] != keys[j])
      && items.Keys == set k | k in keys
    }

    /** `d[k] = v`: a key already present keeps its place, a new key goes last. */
    function Put(k: K, v: V): (r: OrderedMap<K, V>)
      ensures Valid() ==> r.Valid()
      ensures r.items == items[k := v]
      ensures k in items ==> r.keys == keys
      ensures k !in items ==> r.keys == keys + [k]
    {
      if k in items then OrderedMap(keys, items[k := v])
      else OrderedMap(keys + [k], items[k := v])
    }
  }

  function Empty<K, V>(): (r: OrderedMap<K, V>)
    ensures r.Valid() && r.keys == [] && r.items == map[]
  {
    OrderedMap([], map[])
  }
}
