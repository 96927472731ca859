/**
 * A Python dict as main.py uses it: key-value pairs in insertion order.
 * Assigning to a new key appends it; assigning to an existing key replaces the
 * value where the key already stands, so key order is unchanged.
 */
module OrderedDict {
  import opened Wrappers

  /** list(d.keys()) */
  function Keys<K, V>(d: seq<(K, V)>): (ks: seq<K>)
    ensures |ks| == |d| && forall i :: 0 <= i < |d| ==> ks[i] == d[i].0
  {
    if d == [] then [] else [d[0].0] + Keys(d[1..])
  }

  /** No key appears twice, as in any dict. */
  predicate DistinctKeys<K(==), V>(d: seq<(K, V)>) {
    forall i, j :: 0 <= i < j < |d| ==> d[i].0 != d[j].0
  }

  /** d.get(k) */
  function Get<K(==), V>(d: seq<(K, V)>, k: K): Option<V> {
    if d == [] then None
    else if d[0].0 == k then Some(d[0].1)
    else Get(d[1..], k)
  }

  /** d[k] = v */
  function Put<K(==), V>(d: seq<(K, V)>, k: K, v: V): seq<(K, V)> {
    if d == [] then [(k, v)]
    else if d[0].0 == k then [(k, v)] + d[1..]
    else [d[0]] + Put(d[1..], k, v)
  }

  /** A key is found exactly when it is one of the keys. */
  lemma {:induction false} GetFound<K, V>(d: seq<(K, V)>, k: K)
    ensures Get(d, k).Some? <==> k in Keys(d)
  {
    if d != [] {
      GetFound(d[1..], k);
      assert Keys(d) == [d[0].0] + Keys(d[1..]);
    }
  }

  /** With distinct keys, looking up the key at index i gives the value at index i. */
  lemma {:induction false} GetAt<K, V>(d: seq<(K, V)>, i: nat)
    requires DistinctKeys(d) && i < |d|
    ensures Get(d, d[i].0) == Some(d[i].1)
  {
    if i > 0 {
      assert d[1..][i - 1] == d[i];
      GetAt(d[1..], i - 1);
    }
  }

  /** After d[k] = v, d[k] is v. */
  lemma {:induction false} PutGet<K, V>(d: seq<(K, V)>, k: K, v: V)
    ensures Get(Put(d, k, v), k) == Some(v)
  {
    if d != [] && d[0].0 != k {
      PutGet(d[1..], k, v);
    }
  }

  /** After d[k] = v, every other key maps to what it did before. */
  lemma {:induction false} PutGetOther<K, V>(d: seq<(K, V)>, k: K, v: V, k': K)
    requires k' != k
    ensures Get(Put(d, k, v), k') == Get(d, k')
  {
    if d != [] && d[0].0 != k {
      PutGetOther(d[1..], k, v, k');
    }
  }

  /** d[k] = v keeps the key order, and a new key goes last. */
  lemma {:induction false} PutKeys<K, V>(d: seq<(K, V)>, k: K, v: V)
    ensures Keys(Put(d, k, v)) == if k in Keys(d) then Keys(d) else Keys(d) + [k]
  {
    if d != [] && d[0].0 != k {
      PutKeys(d[1..], k, v);
      assert k in Keys(d) <==> k in Keys(d[1..]);
    }
  }

  /** d[k] = v never introduces a duplicate key. */
  lemma PutDistinct<K, V>(d: seq<(K, V)>, k: K, v: V)
    requires DistinctKeys(d)
    ensures DistinctKeys(Put(d, k, v))
  {
    var r := Put(d, k, v);
    PutKeys(d, k, v);
    var ks := Keys(r);
    assert forall i :: 0 <= i < |r| ==> r[i].0 == ks[i];
    if k in Keys(d) {
      assert ks == Keys(d);
    } else {
      assert ks == Keys(d) + [k];
      assert forall i :: 0 <= i < |d| ==> ks[i] == d[i].0;
    }
  }

  /**
   * The last key of d after d[k] = v: k when k is new, and the old last key
   * when k was already present, wherever k stands.
   */
  lemma LastKeyAfterPut<K, V>(d: seq<(K, V)>, k: K, v: V)
    ensures |Put(d, k, v)| > 0
    ensures k !in Keys(d) ==> Put(d, k, v)[|Put(d, k, v)| - 1] == (k, v)
    ensures k in Keys(d) ==> Put(d, k, v)[|Put(d, k, v)| - 1].0 == d[|d| - 1].0
  {
    PutKeys(d, k, v);
    var r := Put(d, k, v);
    assert Keys(r)[|r| - 1] == r[|r| - 1].0;
    if k !in Keys(d) {
      PutGet(d, k, v);
      PutNewKeyAppends(d, k, v);
    }
  }

  /** Assigning a key that is not yet present appends the pair at the end. */
  lemma {:induction false} PutNewKeyAppends<K, V>(d: seq<(K, V)>, k: K, v: V)
    requires k !in Keys(d)
    ensures Put(d, k, v) == d + [(k, v)]
  {
    if d != [] {
      assert Keys(d) == [d[0].0] + Keys(d[1..]);
      PutNewKeyAppends(d[1..], k, v);
      assert d == [d[0]] + d[1..];
    }
  }
}
