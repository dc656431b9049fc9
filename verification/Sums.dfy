// Sums over the entries of a map.
module Sums {
  ghost function Total<K, V>(m: map<K, V>, weight: V -> int): int
    decreases |m|
  {
    if m == map[] then 0
    else
      var k :| k in m;
      assert m.Keys - {k} == (m - {k}).Keys;
      weight(m[k]) + Total(m - {k}, weight)
  }

  // The sum does not depend on the order.
  lemma {:induction false} TotalTakes<K, V>(m: map<K, V>, weight: V -> int, k: K)
    requires k in m
    ensures Total(m, weight) == weight(m[k]) + Total(m - {k}, weight)
    decreases |m|
  {
    var first :| first in m && Total(m, weight) == weight(m[first]) + Total(m - {first}, weight);
    if first != k {
      assert m.Keys - {first} == (m - {first}).Keys && m.Keys - {k} == (m - {k}).Keys;
      TotalTakes(m - {first}, weight, k);
      TotalTakes(m - {k}, weight, first);
      assert m - {first} - {k} == m - {k} - {first};
    }
  }

  lemma TotalSets<K, V>(m: map<K, V>, weight: V -> int, k: K, v: V)
    ensures Total(m[k := v], weight) == weight(v) + Total(m - {k}, weight)
  {
    TotalTakes(m[k := v], weight, k);
    assert m[k := v] - {k} == m - {k};
  }

  // Weights that are no smaller sum up to no less.
  lemma {:induction false} TotalAtMost<K, V>(m: map<K, V>, weight: V -> int, more: V -> int)
    requires forall k :: k in m ==> weight(m[k]) <= more(m[k])
    ensures Total(m, weight) <= Total(m, more)
    decreases |m|
  {
    if k :| k in m {
      TotalTakes(m, weight, k);
      TotalTakes(m, more, k);
      assert m.Keys - {k} == (m - {k}).Keys;
      TotalAtMost(m - {k}, weight, more);
    }
  }

  lemma {:induction false} TotalIsNat<K, V>(m: map<K, V>, weight: V -> int)
    requires forall k :: k in m ==> weight(m[k]) >= 0
    ensures Total(m, weight) >= 0
    decreases |m|
  {
    if k :| k in m {
      TotalTakes(m, weight, k);
      assert m.Keys - {k} == (m - {k}).Keys;
      TotalIsNat(m - {k}, weight);
    }
  }

  // One entry gets lighter, and no other heavier.
  lemma TotalFalls<K, V>(m: map<K, V>, weight: V -> int, k: K, v: V, weight': V -> int)
    requires k in m && weight'(v) < weight(m[k])
    requires forall j :: j in m && j != k ==> weight'(m[j]) <= weight(m[j])
    ensures Total(m[k := v], weight') < Total(m, weight)
  {
    TotalTakes(m, weight, k);
    TotalSets(m, weight', k, v);
    TotalAtMost(m - {k}, weight', weight);
  }
}
