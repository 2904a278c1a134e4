/** Insertion-ordered dictionaries with string-like keys: Python's `dict` and
    a JavaScript object, as a sequence of (key, value) entries. Assignment to a
    present key keeps its position; a new key goes to the end. */
module Dicts {
  import opened Wrappers

  type Dict<K, V> = seq<(K, V)>

  function Keys<K, V>(d: Dict<K, V>): (ks: seq<K>)
    ensures |ks| == |d| && forall i :: 0 <= i < |d| ==> ks[i] == d[i].0
  {
    if d == [] then [] else [d[0].0] + Keys(d[1..])
  }

  function Values<K, V>(d: Dict<K, V>): (vs: seq<V>)
    ensures |vs| == |d| && forall i :: 0 <= i < |d| ==> vs[i] == d[i].1
  {
    if d == [] then [] else [d[0].1] + Values(d[1..])
  }

  /** No key occurs twice: what every dictionary the program builds satisfies. */
  predicate DistinctKeys<K(==, !new), V>(d: Dict<K, V>) {
    forall i, j :: 0 <= i < j < |d| ==> d[i].0 != d[j].0
  }

  /** `d.get(k)` */
  function Lookup<K(==, !new), V>(d: Dict<K, V>, k: K): Option<V> {
    if d == [] then None
    else if d[0].0 == k then Some(d[0].1)
    else Lookup(d[1..], k)
  }

  /** `k in d` */
  predicate HasKey<K(==, !new), V>(d: Dict<K, V>, k: K) {
    Lookup(d, k).Some?
  }

  lemma {:induction false} HasKeyKeys<K(!new), V>(d: Dict<K, V>, k: K)
    ensures HasKey(d, k) <==> k in Keys(d)
  {
    if d != [] {
      HasKeyKeys(d[1..], k);
      assert Keys(d) == [d[0].0] + Keys(d[1..]);
    }
  }

  lemma {:induction false} HasKeyIndex<K(!new), V>(d: Dict<K, V>, k: K)
    ensures HasKey(d, k) <==> exists j :: 0 <= j < |d| && d[j].0 == k
  {
    if d != [] {
      HasKeyIndex(d[1..], k);
      if exists j :: 0 <= j < |d[1..]| && d[1..][j].0 == k {
        var j :| 0 <= j < |d[1..]| && d[1..][j].0 == k;
        assert d[j + 1].0 == k;
      }
      if exists j :: 0 <= j < |d| && d[j].0 == k {
        var j :| 0 <= j < |d| && d[j].0 == k;
        if j > 0 {
          assert d[1..][j - 1].0 == k;
        }
      }
    }
  }

  /** What `d.get(k)` finds is an entry of `d`. */
  lemma {:induction false} LookupFound<K(!new), V>(d: Dict<K, V>, k: K)
    requires HasKey(d, k)
    ensures (k, Lookup(d, k).value) in d
  {
    if d[0].0 != k {
      LookupFound(d[1..], k);
    }
  }

  /** In a dictionary without repeated keys, an entry is found by its key. */
  lemma {:induction false} LookupEntry<K(!new), V>(d: Dict<K, V>, i: nat)
    requires DistinctKeys(d) && i < |d|
    ensures Lookup(d, d[i].0) == Some(d[i].1)
  {
    if i > 0 {
      LookupEntry(d[1..], i - 1);
    }
  }

  /** An entry whose key no earlier entry has is what a lookup of the key finds. */
  lemma {:induction false} LookupFirst<K(!new), V>(d: Dict<K, V>, i: nat)
    requires i < |d| && forall k :: 0 <= k < i ==> d[k].0 != d[i].0
    ensures Lookup(d, d[i].0) == Some(d[i].1)
  {
    if i > 0 {
      LookupFirst(d[1..], i - 1);
    }
  }

  /** `d[k] = v` */
  function Put<K(==, !new), V>(d: Dict<K, V>, k: K, v: V): Dict<K, V> {
    if d == [] then [(k, v)]
    else if d[0].0 == k then [(k, v)] + d[1..]
    else [d[0]] + Put(d[1..], k, v)
  }

  /** After `d[k] = v`, `k` maps to `v` and every other key to what it did before. */
  lemma {:induction false} LookupPut<K(!new), V>(d: Dict<K, V>, k: K, v: V, k': K)
    ensures Lookup(Put(d, k, v), k') == if k' == k then Some(v) else Lookup(d, k')
  {
    if d != [] && d[0].0 != k {
      LookupPut(d[1..], k, v, k');
    }
  }

  /** Assignment to a new key appends one entry; to a present key replaces
      its entry in place, so the key order is kept. */
  lemma {:induction false} PutKeys<K(!new), V>(d: Dict<K, V>, k: K, v: V)
    ensures Keys(Put(d, k, v)) == if HasKey(d, k) then Keys(d) else Keys(d) + [k]
    ensures !HasKey(d, k) ==> Put(d, k, v) == d + [(k, v)]
  {
    if d != [] && d[0].0 != k {
      PutKeys(d[1..], k, v);
      assert Keys(Put(d, k, v)) == [d[0].0] + Keys(Put(d[1..], k, v));
      assert Keys(d) == [d[0].0] + Keys(d[1..]);
    }
  }

  /** Assignment never duplicates a key. */
  lemma PutDistinct<K(!new), V>(d: Dict<K, V>, k: K, v: V)
    requires DistinctKeys(d)
    ensures DistinctKeys(Put(d, k, v))
  {
    var r := Put(d, k, v);
    PutKeys(d, k, v);
    HasKeyKeys(d, k);
    var ks := Keys(r);
    var dk := Keys(d);
    forall i, j | 0 <= i < j < |r|
      ensures r[i].0 != r[j].0
    {
      assert r[i].0 == ks[i] && r[j].0 == ks[j];
      if j < |d| {
        assert ks[i] == dk[i] && ks[j] == dk[j];
        assert d[i].0 != d[j].0;
      } else {
        assert ks[j] == k && ks[i] == dk[i];
      }
    }
  }

  /** `del d[k]` (and `d.pop(k, None)`): every entry except those under `k`, in order. */
  function Remove<K(==, !new), V>(d: Dict<K, V>, k: K): (r: Dict<K, V>)
    ensures |r| <= |d|
  {
    if d == [] then []
    else if d[0].0 == k then Remove(d[1..], k)
    else [d[0]] + Remove(d[1..], k)
  }

  /** After `del d[k]`, `k` is gone and every other key maps to what it did before. */
  lemma {:induction false} LookupRemove<K(!new), V>(d: Dict<K, V>, k: K, k': K)
    ensures Lookup(Remove(d, k), k') == if k' == k then None else Lookup(d, k')
  {
    if d != [] {
      LookupRemove(d[1..], k, k');
    }
  }
}
