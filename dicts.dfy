/**
 * The insertion-ordered dictionaries of Python: a sequence of (key, value) entries in
 * which assigning to a present key replaces its value in place and assigning to a new
 * key appends an entry.
 */
module Dicts {
  import opened Wrappers

  function Keys<K, V>(d: seq<(K, V)>): (ks: seq<K>)
    ensures |ks| == |d| && forall i :: 0 <= i < |d| ==> ks[i] == d[i].0
  {
    seq(|d|, i requires 0 <= i < |d| => d[i].0)
  }

  function Values<K, V>(d: seq<(K, V)>): (vs: seq<V>)
    ensures |vs| == |d| && forall i :: 0 <= i < |d| ==> vs[i] == d[i].1
  {
    seq(|d|, i requires 0 <= i < |d| => d[i].1)
  }

  predicate DistinctKeys<K(==), V>(d: seq<(K, V)>)
  {
    forall i, j :: 0 <= i < j < |d| ==> d[i].0 != d[j].0
  }

  /** `d.get(k)`: the value of the first entry with key `k`. */
  function Get<K(==), V>(d: seq<(K, V)>, k: K): Option<V>
  {
    if d == [] then None
    else if d[0].0 == k then Some(d[0].1)
    else Get(d[1..], k)
  }

  /** `d[k] = v`: the entry of `k` takes the new value in place, or a new entry goes last. */
  function Put<K(==), V>(d: seq<(K, V)>, k: K, v: V): seq<(K, V)>
  {
    if d == [] then [(k, v)]
    else if d[0].0 == k then [(k, v)] + d[1..]
    else [d[0]] + Put(d[1..], k, v)
  }

  lemma KeysCons<K, V>(d: seq<(K, V)>)
    requires d != []
    ensures Keys(d) == [d[0].0] + Keys(d[1..])
  {
  }

  /** A key has a value exactly when it is among the keys. */
  lemma {:induction false} GetKeys<K, V>(d: seq<(K, V)>, k: K)
    ensures Get(d, k).None? <==> k !in Keys(d)
  {
    if d != [] {
      KeysCons(d);
      GetKeys(d[1..], k);
    }
  }

  /** After `d[k] = v`, `k` maps to `v` and every other key keeps its value. */
  lemma {:induction false} PutGet<K, V>(d: seq<(K, V)>, k: K, v: V, k': K)
    ensures Get(Put(d, k, v), k') == if k' == k then Some(v) else Get(d, k')
  {
    if d != [] && d[0].0 != k {
      PutGet(d[1..], k, v, k');
      assert Put(d, k, v)[1..] == Put(d[1..], k, v);
    } else if d != [] {
      assert Put(d, k, v)[1..] == d[1..];
    }
  }

  /** Assignment keeps the order of the keys; a new key goes last. */
  lemma {:induction false} PutKeysOrder<K, V>(d: seq<(K, V)>, k: K, v: V)
    ensures Keys(Put(d, k, v)) == if k in Keys(d) then Keys(d) else Keys(d) + [k]
  {
    if d != [] {
      KeysCons(d);
      var r := Put(d, k, v);
      KeysCons(r);
      if d[0].0 != k {
        PutKeysOrder(d[1..], k, v);
        assert r[1..] == Put(d[1..], k, v);
      } else {
        assert r[1..] == d[1..];
      }
    }
  }

  /** After `d[k] = v` the keys are the old keys and `k`. */
  lemma PutKeys<K, V>(d: seq<(K, V)>, k: K, v: V)
    ensures forall k' :: k' in Keys(Put(d, k, v)) <==> k' in Keys(d) || k' == k
  {
    PutKeysOrder(d, k, v);
  }

  /** Assignment never creates a second entry for a key. */
  lemma PutDistinct<K, V>(d: seq<(K, V)>, k: K, v: V)
    requires DistinctKeys(d)
    ensures DistinctKeys(Put(d, k, v))
  {
    var r := Put(d, k, v);
    PutKeysOrder(d, k, v);
    assert Keys(r) == if k in Keys(d) then Keys(d) else Keys(d) + [k];
    forall i, j | 0 <= i < j < |r| ensures r[i].0 != r[j].0 {
      assert Keys(r)[i] == r[i].0 && Keys(r)[j] == r[j].0;
      if j == |d| {
        assert Keys(d)[i] == d[i].0;
      }
    }
  }

  /** With distinct keys, every entry is what its key looks up. */
  lemma {:induction false} GetEntry<K, V>(d: seq<(K, V)>, i: nat)
    requires DistinctKeys(d) && i < |d|
    ensures Get(d, d[i].0) == Some(d[i].1)
  {
    if i > 0 {
      assert d[0].0 != d[i].0;
      assert d[1..][i - 1] == d[i];
      GetEntry(d[1..], i - 1);
    }
  }
}
