/** Insertion-ordered dictionaries with the semantics of Python's `dict`:
    iteration follows first insertion, and storing under a key that is
    already present replaces its value but keeps its position. */
module OrderedMaps {

  datatype OrderedMap<K(==, !new), V> = OrderedMap(keys: seq<K>, entries: map<K, V>) {

    /** The keys are pairwise distinct and are exactly the map's domain. */
    ghost predicate Valid() {
      && (forall i, j :: 0 <= i < j < |keys| ==> keys[i] != keys[j])
      && (forall k :: k in entries <==> k in keys)
    }

    /** `d[k] = v`. */
    function Put(k: K, v: V): (r: OrderedMap<K, V>)
      ensures Valid() ==> r.Valid()
      ensures r.entries == entries[k := v]
      ensures k in entries ==> r.keys == keys
      ensures k !in entries ==> r.keys == keys + [k]
    {
      if k in entries then OrderedMap(keys, entries[k := v])
      else OrderedMap(keys + [k], entries[k := v])
    }

    /** `d.get(k, default)`. */
    function Get(k: K, default: V): V {
      if k in entries then entries[k] else default
    }

    /** `list(d.values())`, in iteration order. */
    function Values(): (vs: seq<V>)
      requires Valid()
      ensures |vs| == |keys|
      ensures forall i :: 0 <= i < |keys| ==> vs[i] == entries[keys[i]]
    {
      seq(|keys|, i requires 0 <= i < |keys| && Valid() => entries[keys[i]])
    }
  }

  function Empty<K(==, !new), V>(): (m: OrderedMap<K, V>)
    ensures m.Valid() && m.keys == [] && m.entries == map[]
  {
    OrderedMap([], map[])
  }

  /** Dropping the last key (and its entry) keeps a dictionary valid. */
  lemma DropLast<K(!new), V>(m: OrderedMap<K, V>)
    requires m.Valid() && m.keys != []
    ensures var k := m.keys[|m.keys| - 1];
      && OrderedMap(m.keys[..|m.keys| - 1], m.entries - {k}).Valid()
      && m.entries.Keys == (m.entries - {k}).Keys + {k}
      && k !in (m.entries - {k})
  {
    var k := m.keys[|m.keys| - 1];
    var rest := OrderedMap(m.keys[..|m.keys| - 1], m.entries - {k});
    forall x ensures x in rest.entries <==> x in rest.keys {
      if x in rest.keys {
        var i :| 0 <= i < |rest.keys| && rest.keys[i] == x;
        assert m.keys[i] == x && x != k;
      }
      if x in m.keys && x != k {
        var i :| 0 <= i < |m.keys| && m.keys[i] == x;
        assert i != |m.keys| - 1;
        assert rest.keys[i] == x;
      }
    }
  }

  /** `len(d)`: the key sequence is as long as the dictionary has entries. */
  lemma {:induction false} LengthIsSize<K(!new), V>(m: OrderedMap<K, V>)
    requires m.Valid()
    ensures |m.keys| == |m.entries|
    decreases |m.keys|
  {
    if m.keys != [] {
      var k := m.keys[|m.keys| - 1];
      DropLast(m);
      LengthIsSize(OrderedMap(m.keys[..|m.keys| - 1], m.entries - {k}));
    }
  }
}
