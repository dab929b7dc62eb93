/** The grouping loop of the portfolio risk check: walk a list of
    key and value pairs and keep, per key, a running value and a count in a
    dictionary, creating the entry the first time the key is seen. */
module Distribution {
  import opened Wrappers
  import opened Seqs
  import opened Dicts
  import opened Decimals

  /** `{'value': ..., 'count': ...}`. */
  datatype Bucket = Bucket(value: real, count: nat)

  /** One pair: the key a position is filed under and its value. */
  datatype Item<K> = Item(key: K, value: real)

  /** The keys of the items, in order. */
  function Keys<K>(items: seq<Item<K>>): (ks: seq<K>)
    ensures |ks| == |items|
    ensures forall i | 0 <= i < |items| :: ks[i] == items[i].key
  {
    seq(|items|, i requires 0 <= i < |items| => items[i].key)
  }

  /** One turn of the loop: `if key not in d: d[key] = {'value': 0,
      'count': 0}`, then `d[key]['value'] += value` and
      `d[key]['count'] += 1`. */
  function Add<K(==,!new)>(d: Dict<K, Bucket>, it: Item<K>): (r: Dict<K, Bucket>)
    requires d.Valid()
    ensures r.Valid()
  {
    if it.key in d.entries then
      var b := d.entries[it.key];
      Dict(d.order, d.entries[it.key := Bucket(b.value + it.value, b.count + 1)])
    else
      Dict(d.order + [it.key], d.entries[it.key := Bucket(it.value, 1)])
  }

  /** The whole loop, starting from an empty dictionary. */
  function Tally<K(==,!new)>(items: seq<Item<K>>): (d: Dict<K, Bucket>)
    ensures d.Valid()
    decreases |items|
  {
    if |items| == 0 then Empty() else Add(Tally(items[..|items| - 1]), items[|items| - 1])
  }

  /** The keys appear in the order in which they were first seen. */
  lemma {:induction false} TallyOrder<K(!new)>(items: seq<Item<K>>)
    ensures Tally(items).order == Dedup(Keys(items))
    decreases |items|
  {
    if |items| > 0 {
      var n := |items| - 1;
      TallyOrder(items[..n]);
      assert Keys(items)[..n] == Keys(items[..n]);
    }
  }

  /** The value a pair contributes to key `k`. */
  function ValueFor<K(==)>(k: K): Item<K> -> real
  {
    (x: Item<K>) => if x.key == k then x.value else 0.0
  }

  /** Whether a pair belongs to key `k`. */
  function IsFor<K(==)>(k: K): Item<K> -> bool
  {
    (x: Item<K>) => x.key == k
  }

  /** The value of a pair. */
  function ItemValue<K>(): Item<K> -> real
  {
    (x: Item<K>) => x.value
  }

  function BucketValue(): Bucket -> real
  {
    (b: Bucket) => b.value
  }

  function BucketCount(): Bucket -> real
  {
    (b: Bucket) => b.count as real
  }

  /** Each key's entry holds the sum of that key's values and the number of
      its pairs; a key that never occurs has no entry. */
  lemma {:induction false} TallyEntry<K(!new)>(items: seq<Item<K>>, k: K)
    ensures k in Tally(items).entries <==> k in Keys(items)
    ensures k in Tally(items).entries ==>
              Tally(items).entries[k] == Bucket(SumBy(items, ValueFor(k)), CountBy(items, IsFor(k)))
    decreases |items|
  {
    if |items| > 0 {
      var n := |items| - 1;
      var last := items[n];
      var d := Tally(items[..n]);
      var r := Tally(items);
      TallyEntry(items[..n], k);
      assert Keys(items) == Keys(items[..n]) + [last.key];
      assert SumBy(items, ValueFor(k)) == SumBy(items[..n], ValueFor(k)) + ValueFor(k)(last);
      assert CountBy(items, IsFor(k)) == CountBy(items[..n], IsFor(k)) + (if IsFor(k)(last) then 1 else 0);
      if last.key == k {
        if k !in d.entries {
          NoKeyNoTotal(items[..n], k);
        }
      } else {
        assert r.entries == d.entries[last.key := r.entries[last.key]];
      }
    }
  }

  /** A key that never occurs contributes nothing. */
  lemma {:induction false} NoKeyNoTotal<K>(items: seq<Item<K>>, k: K)
    requires k !in Keys(items)
    ensures SumBy(items, ValueFor(k)) == 0.0 && CountBy(items, IsFor(k)) == 0
    decreases |items|
  {
    if |items| > 0 {
      var n := |items| - 1;
      assert Keys(items[..n]) == Keys(items)[..n];
      assert items[n].key == Keys(items)[n];
      NoKeyNoTotal(items[..n], k);
    }
  }

  /** Replacing one term replaces its share of the sum. */
  lemma SumByUpdate<T>(s: seq<T>, j: int, x: T, f: T -> real)
    requires 0 <= j < |s|
    ensures SumBy(s[j := x], f) == SumBy(s, f) - f(s[j]) + f(x)
  {
    var t := s[j := x];
    SumByRemove(s, j, f);
    SumByRemove(t, j, f);
    assert t[..j] + t[j + 1..] == s[..j] + s[j + 1..];
  }

  /** Overwriting the entry of a key already at position `j` of the order
      overwrites value `j`. */
  lemma ValuesAfterUpdate<K(!new)>(d: Dict<K, Bucket>, j: int, nb: Bucket)
    requires d.Valid() && 0 <= j < |d.order|
    ensures Dict(d.order, d.entries[d.order[j] := nb]).Valid()
    ensures Values(Dict(d.order, d.entries[d.order[j] := nb])) == Values(d)[j := nb]
  {
    var r := Dict(d.order, d.entries[d.order[j] := nb]);
    forall i | 0 <= i < |d.order|
      ensures Values(r)[i] == Values(d)[j := nb][i]
    {
      if i != j {
        assert d.order[i] != d.order[j];
      }
    }
  }

  /** Adding a new key at the end of the order adds its value at the end. */
  lemma ValuesAfterInsert<K(!new)>(d: Dict<K, Bucket>, k: K, nb: Bucket)
    requires d.Valid() && k !in d.entries
    ensures Values(Dict(d.order + [k], d.entries[k := nb])) == Values(d) + [nb]
  {
    var r := Dict(d.order + [k], d.entries[k := nb]);
    forall i | 0 <= i < |r.order|
      ensures Values(r)[i] == (Values(d) + [nb])[i]
    {
      if i < |d.order| {
        assert d.order[i] in d.entries;
      }
    }
  }

  /** Where a present key sits in the order. */
  lemma KeyPosition<K(!new)>(d: Dict<K, Bucket>, k: K) returns (j: int)
    requires d.Valid() && k in d.entries
    ensures 0 <= j < |d.order| && d.order[j] == k
  {
    j :| 0 <= j < |d.order| && d.order[j] == k;
  }

  /** Adding `v` to the bucket of a key already present adds `v` to the
      value total and one to the count total. */
  lemma SumsAfterUpdate<K(!new)>(d: Dict<K, Bucket>, k: K, j: int, v: real)
    requires d.Valid() && 0 <= j < |d.order| && d.order[j] == k
    ensures var b := d.entries[k];
            var r := Dict(d.order, d.entries[k := Bucket(b.value + v, b.count + 1)]);
            SumBy(Values(r), BucketValue()) == SumBy(Values(d), BucketValue()) + v
            && SumBy(Values(r), BucketCount()) == SumBy(Values(d), BucketCount()) + 1.0
  {
    var b := d.entries[k];
    var nb := Bucket(b.value + v, b.count + 1);
    SumAfterUpdate(d, j, nb, BucketValue());
    SumAfterUpdate(d, j, nb, BucketCount());
    assert Values(d)[j] == b;
    assert BucketValue()(nb) - BucketValue()(b) == v;
    assert BucketCount()(nb) - BucketCount()(b) == 1.0;
  }

  /** Overwriting bucket `j` replaces its term in any sum over the
      buckets. */
  lemma SumAfterUpdate<K(!new)>(d: Dict<K, Bucket>, j: int, nb: Bucket, f: Bucket -> real)
    requires d.Valid() && 0 <= j < |d.order|
    ensures SumBy(Values(Dict(d.order, d.entries[d.order[j] := nb])), f)
            == SumBy(Values(d), f) - f(Values(d)[j]) + f(nb)
  {
    ValuesAfterUpdate(d, j, nb);
    SumByUpdate(Values(d), j, nb, f);
  }

  /** A new bucket holding `v` once adds `v` to the value total and one to
      the count total. */
  lemma SumsAfterInsert<K(!new)>(d: Dict<K, Bucket>, k: K, v: real)
    requires d.Valid() && k !in d.entries
    ensures var r := Dict(d.order + [k], d.entries[k := Bucket(v, 1)]);
            SumBy(Values(r), BucketValue()) == SumBy(Values(d), BucketValue()) + v
            && SumBy(Values(r), BucketCount()) == SumBy(Values(d), BucketCount()) + 1.0
  {
    var nb := Bucket(v, 1);
    ValuesAfterInsert(d, k, nb);
    SumByAppend(Values(d), [nb], BucketValue());
    SumByAppend(Values(d), [nb], BucketCount());
    assert [nb][..0] == [];
  }

  /** One more pair adds its value to the bucket total and one to the
      bucket count. */
  lemma AddSums<K(!new)>(d: Dict<K, Bucket>, it: Item<K>)
    requires d.Valid()
    ensures SumBy(Values(Add(d, it)), BucketValue()) == SumBy(Values(d), BucketValue()) + it.value
    ensures SumBy(Values(Add(d, it)), BucketCount()) == SumBy(Values(d), BucketCount()) + 1.0
  {
    var k := it.key;
    if k in d.entries {
      var b := d.entries[k];
      assert Add(d, it) == Dict(d.order, d.entries[k := Bucket(b.value + it.value, b.count + 1)]);
      var j := KeyPosition(d, k);
      SumsAfterUpdate(d, k, j, it.value);
    } else {
      assert Add(d, it) == Dict(d.order + [k], d.entries[k := Bucket(it.value, 1)]);
      SumsAfterInsert(d, k, it.value);
    }
  }

  /** The buckets hold every pair exactly once: their values add up to the
      sum of all values and their counts to the number of pairs. */
  lemma {:induction false} TallyTotals<K(!new)>(items: seq<Item<K>>)
    ensures SumBy(Values(Tally(items)), BucketValue()) == SumBy(items, ItemValue())
    ensures SumBy(Values(Tally(items)), BucketCount()) == |items| as real
    decreases |items|
  {
    if |items| > 0 {
      var n := |items| - 1;
      TallyTotals(items[..n]);
      AddSums(Tally(items[..n]), items[n]);
      assert SumBy(items, ItemValue()) == SumBy(items[..n], ItemValue()) + items[n].value;
    }
  }

  /** `value / total if total > 0 else 0` for one bucket. */
  function ShareOf(total: real): Bucket -> real
  {
    (b: Bucket) => Ratio(b.value, total)
  }

  /** Buckets whose values add up to a positive total have shares that add
      up to 1. */
  lemma SharesSumToOne(buckets: seq<Bucket>, total: real)
    requires total > 0.0
    requires SumBy(buckets, BucketValue()) == total
    ensures SumBy(buckets, ShareOf(total)) == 1.0
  {
    SharesScaled(total);
    SumByScaled(buckets, BucketValue(), ShareOf(total), 1.0 / total);
    InverseTimes(total);
  }

  /** A bucket's share is its value scaled by `1 / total`. */
  lemma SharesScaled(total: real)
    requires total > 0.0
    ensures forall b :: ShareOf(total)(b) == (1.0 / total) * BucketValue()(b)
  {
    forall b
      ensures ShareOf(total)(b) == (1.0 / total) * BucketValue()(b)
    {
      QuotientAsProduct(b.value, total);
    }
  }

  /** The `percentage` pass: every key, in order, with its bucket's share
      of `total`. */
  function Shares<K(==,!new)>(d: Dict<K, Bucket>, total: real): (s: seq<Item<K>>)
    requires d.Valid()
    ensures Keys(s) == d.order
    ensures forall i | 0 <= i < |s| :: s[i].value == ShareOf(total)(Values(d)[i])
  {
    seq(|d.order|, i requires 0 <= i < |d.order| => Item(d.order[i], ShareOf(total)(d.entries[d.order[i]])))
  }

  /** When the buckets add up to a positive total, the shares add up to 1. */
  lemma SharesOfTotalSumToOne<K(!new)>(d: Dict<K, Bucket>, total: real)
    requires d.Valid() && total > 0.0
    requires SumBy(Values(d), BucketValue()) == total
    ensures SumBy(Shares(d, total), ItemValue()) == 1.0
  {
    SumByPointwise(Shares(d, total), ItemValue(), Values(d), ShareOf(total));
    SharesSumToOne(Values(d), total);
  }
}
