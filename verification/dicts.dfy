/** Python's `dict`: a finite map that also remembers the order in which
    keys were first inserted, which is the order `keys()`, `values()` and
    `items()` report. Assigning to an existing key keeps its position. */
module Dicts {
  import opened Wrappers
  import opened Seqs

  datatype Dict<K(==,!new), V> = Dict(order: seq<K>, entries: map<K, V>) {

    /** The order lists each key of the map exactly once. */
    ghost predicate Valid()
    {
      NoDup(order) && (forall k :: k in entries <==> k in order)
    }
  }

  function Empty<K(==,!new), V>(): (d: Dict<K, V>)
    ensures d.Valid() && |d.order| == 0
  {
    Dict([], map[])
  }

  /** `d.get(k)`. */
  function Get<K(==,!new), V>(d: Dict<K, V>, k: K): Option<V>
  {
    if k in d.entries then Some(d.entries[k]) else None
  }

  /** `d[k] = v`: a new key goes to the end, an existing key keeps its place. */
  function Put<K(==,!new), V>(d: Dict<K, V>, k: K, v: V): (r: Dict<K, V>)
    requires d.Valid()
    ensures r.Valid()
    ensures r.entries == d.entries[k := v]
    ensures Get(r, k) == Some(v)
    ensures forall k' :: k' != k ==> Get(r, k') == Get(d, k')
    ensures k in d.entries ==> r.order == d.order
    ensures k !in d.entries ==> r.order == d.order + [k]
  {
    if k in d.entries then Dict(d.order, d.entries[k := v])
    else Dict(d.order + [k], d.entries[k := v])
  }

  /** A dict written with `keys` in turn lists each key where it was first
      written; one more write keeps that so. */
  lemma PutKeepsFirstOrder<K(!new), V>(d: Dict<K, V>, keys: seq<K>, k: K, v: V)
    requires d.Valid() && d.order == Dedup(keys)
    ensures Put(d, k, v).order == Dedup(keys + [k])
  {
    assert (keys + [k])[..|keys|] == keys;
  }

  /** `list(d.values())`, in key order. */
  function Values<K(==,!new), V>(d: Dict<K, V>): (vs: seq<V>)
    requires d.Valid()
    ensures |vs| == |d.order|
    ensures forall i :: 0 <= i < |d.order| ==> vs[i] == d.entries[d.order[i]]
  {
    seq(|d.order|, i requires 0 <= i < |d.order| => d.entries[d.order[i]])
  }

  /** Every value of a valid dict is the value of one of its keys. */
  lemma ValuesAreEntries<K(!new), V>(d: Dict<K, V>, v: V)
    requires d.Valid()
    ensures v in Values(d) <==> exists k :: k in d.entries && d.entries[k] == v
  {
    if exists k :: k in d.entries && d.entries[k] == v {
      var k :| k in d.entries && d.entries[k] == v;
      var i :| 0 <= i < |d.order| && d.order[i] == k;
      assert Values(d)[i] == v;
    }
  }
}
