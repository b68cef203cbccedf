/** The sum of the values of a finite map, and how it changes when one entry
    is bumped, as a report accumulating into a dictionary does. */
module MapSums {

  /** The sum of `m` over the keys in `keys`. */
  ghost function SumOver<K>(m: map<K, int>, keys: set<K>): int
    requires keys <= m.Keys
    decreases keys
  {
    if keys == {} then 0
    else
      var k :| k in keys;
      m[k] + SumOver(m, keys - {k})
  }

  ghost function MapSum<K>(m: map<K, int>): int
  {
    SumOver(m, m.Keys)
  }

  /** The sum does not depend on which key is taken out first. */
  lemma {:induction false} SumOverPick<K>(m: map<K, int>, keys: set<K>, x: K)
    requires keys <= m.Keys && x in keys
    ensures SumOver(m, keys) == m[x] + SumOver(m, keys - {x})
    decreases keys
  {
    var k :| k in keys && SumOver(m, keys) == m[k] + SumOver(m, keys - {k});
    if k != x {
      SumOverPick(m, keys - {k}, x);
      SumOverPick(m, keys - {x}, k);
      assert keys - {k} - {x} == keys - {x} - {k};
    }
  }

  /** Two maps that agree on `keys` have the same sum over them. */
  lemma {:induction false} SumOverAgree<K>(m1: map<K, int>, m2: map<K, int>, keys: set<K>)
    requires keys <= m1.Keys && keys <= m2.Keys
    requires forall k :: k in keys ==> m1[k] == m2[k]
    ensures SumOver(m1, keys) == SumOver(m2, keys)
    decreases keys
  {
    if keys != {} {
      var k :| k in keys && SumOver(m1, keys) == m1[k] + SumOver(m1, keys - {k});
      SumOverPick(m2, keys, k);
      SumOverAgree(m1, m2, keys - {k});
    }
  }

  /** The value at `k`, 0 when `k` is absent (a `defaultdict` read). */
  function Get<K>(m: map<K, int>, k: K): int
  {
    if k in m then m[k] else 0
  }

  /** Adding `delta` at key `k` adds `delta` to the sum. */
  lemma MapSumBump<K>(m: map<K, int>, k: K, delta: int)
    ensures MapSum(m[k := Get(m, k) + delta]) == MapSum(m) + delta
  {
    var m' := m[k := Get(m, k) + delta];
    SumOverPick(m', m'.Keys, k);
    SumOverAgree(m, m', m.Keys - {k});
    if k in m {
      assert m'.Keys == m.Keys;
      SumOverPick(m, m.Keys, k);
    } else {
      assert m'.Keys - {k} == m.Keys - {k} == m.Keys;
    }
  }
}
