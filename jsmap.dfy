/**
 * A JavaScript `Map` with string keys, as a value: the keys in insertion
 * order and the key-to-value dictionary. `set` on a present key replaces
 * the value and keeps the key where it first went; on a new key it appends.
 */
module JsMap {
  import opened JsString

  datatype OrderedMap<V> = OrderedMap(keys: seq<string>, items: map<string, V>) {

    /** The keys are listed once each, and exactly the keys of `items` are listed. */
    ghost predicate Valid() {
      && (forall i, j :: 0 <= i < j < |keys| ==> keys[i] != keys[j])
      && (forall k :: k in items <==> k in keys)
    }

    /** `map.has(k)`. */
    predicate Has(k: string) {
      k in items
    }

    /** `map.get(k)`, with `undefined` as `None`. */
    function Get(k: string): (r: Option<V>)
      ensures r.Some? <==> Has(k)
      ensures r.Some? ==> r.value == items[k]
    {
      if k in items then Some(items[k]) else None
    }

    /** `map.set(k, v)`. */
    function Set(k: string, v: V): (r: OrderedMap<V>)
      requires Valid()
      ensures r.Valid()
      ensures r.items == items[k := v]
      ensures r.keys == if k in items then keys else keys + [k]
    {
      if k in items then OrderedMap(keys, items[k := v])
      else OrderedMap(keys + [k], items[k := v])
    }
  }

  /** `new Map()`. */
  function Empty<V>(): (r: OrderedMap<V>)
    ensures r.Valid() && r.keys == [] && r.items == map[]
  {
    OrderedMap([], map[])
  }
}
