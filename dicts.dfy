/** Python dicts (on chain: Plutus maps) as the list of their entries in
    iteration order. A lookup finds the first entry with the key, which on a
    dict with distinct keys is its only one. */
module Dicts {
  import opened Wrappers

  type Dict<K, V> = seq<(K, V)>

  /** Python guarantees that a dict never holds a key twice. */
  predicate DistinctKeys<K(==), V>(d: Dict<K, V>) {
    forall i, j :: 0 <= i < j < |d| ==> d[i].0 != d[j].0
  }

  /** `d.get(k)`: the value of the first entry whose key is `k`. */
  function Get<K(==), V>(d: Dict<K, V>, k: K): Option<V> {
    if |d| == 0 then None
    else if d[0].0 == k then Some(d[0].1)
    else Get(d[1..], k)
  }

  /** A lookup finds nothing exactly when the key is absent, and otherwise
      the value of the first entry holding the key. */
  lemma {:induction false} GetFinds<K, V>(d: Dict<K, V>, k: K)
    ensures Get(d, k).None? <==> forall i :: 0 <= i < |d| ==> d[i].0 != k
    ensures Get(d, k).Some? ==> exists i :: 0 <= i < |d| && d[i] == (k, Get(d, k).value) &&
                                            forall j :: 0 <= j < i ==> d[j].0 != k
  {
    if |d| > 0 && d[0].0 != k {
      GetFinds(d[1..], k);
      assert forall i :: 0 <= i < |d| - 1 ==> d[1..][i] == d[i + 1];
      if Get(d, k).Some? {
        var i :| 0 <= i < |d[1..]| && d[1..][i] == (k, Get(d, k).value) && forall j :: 0 <= j < i ==> d[1..][j].0 != k;
        assert d[i + 1] == (k, Get(d, k).value);
      }
    } else if |d| > 0 {
      assert d[0] == (k, Get(d, k).value);
    }
  }

  /** `d.get(k, default)`. */
  function GetOr<K(==), V>(d: Dict<K, V>, k: K, default: V): V {
    match Get(d, k)
    case Some(x) => x
    case None => default
  }

  /** On a dict with distinct keys every entry is what a lookup of its key finds. */
  lemma GetDistinct<K, V>(d: Dict<K, V>, i: int)
    requires DistinctKeys(d) && 0 <= i < |d|
    ensures Get(d, d[i].0) == Some(d[i].1)
  {
    GetFinds(d, d[i].0);
    var r := Get(d, d[i].0);
    assert r.Some?;
    var i' :| 0 <= i' < |d| && d[i'] == (d[i].0, r.value) && forall j :: 0 <= j < i' ==> d[j].0 != d[i].0;
    assert i' == i;
  }
}
