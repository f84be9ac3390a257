/** Counts per key and their sum. */
module Tally {
  function Count<K>(m: map<K, nat>, key: K): nat {
    if key in m then m[key] else 0
  }

  /** Sum of all counts. */
  ghost function Sum<K>(m: map<K, nat>): nat {
    if m == map[] then 0
    else
      var k :| k in m;
      m[k] + Sum(m - {k})
  }

  lemma {:induction false} SumSplits<K>(m: map<K, nat>, key: K)
    requires key in m
    ensures Sum(m) == m[key] + Sum(m - {key})
    decreases |m|
  {
    var k :| k in m && Sum(m) == m[k] + Sum(m - {k});
    if k != key {
      RemovalShrinks(m, k);
      RemovalShrinks(m, key);
      SumSplits(m - {k}, key);
      SumSplits(m - {key}, k);
      assert m - {k} - {key} == m - {key} - {k};
    }
  }

  lemma RemovalShrinks<K>(m: map<K, nat>, k: K)
    requires k in m
    ensures |m - {k}| < |m|
  {
    assert (m - {k}).Keys == m.Keys - {k};
  }

  lemma SumBumps<K>(m: map<K, nat>, key: K)
    ensures Sum(m[key := Count(m, key) + 1]) == Sum(m) + 1
  {
    var m' := m[key := Count(m, key) + 1];
    SumSplits(m', key);
    if key in m {
      SumSplits(m, key);
      assert m' - {key} == m - {key};
    } else {
      assert m' - {key} == m;
    }
  }

  lemma SumDrops<K>(m: map<K, nat>, key: K, n: nat)
    requires key in m
    ensures Sum(m[key := n]) == Sum(m) - m[key] + n && Sum(m - {key}) == Sum(m) - m[key]
  {
    SumSplits(m, key);
    SumSplits(m[key := n], key);
    assert m[key := n] - {key} == m - {key};
  }
}
