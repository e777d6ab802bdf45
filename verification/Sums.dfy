/** Sums over finite maps, and how one update moves them. */
module Sums {

  ghost function Sum<K(!new)>(m: map<K, nat>): nat {
    if m == map[] then 0
    else
      var k :| k in m;
      m[k] + Sum(m - {k})
  }

  /** The sum does not depend on which entry is taken first. */
  lemma {:induction false} SumWithout<K(!new)>(m: map<K, nat>, k: K)
    requires k in m
    ensures Sum(m) == m[k] + Sum(m - {k})
  {
    var first :| first in m && Sum(m) == m[first] + Sum(m - {first});
    if first != k {
      SumWithout(m - {first}, k);
      SumWithout(m - {k}, first);
      assert m - {first} - {k} == m - {k} - {first};
    }
  }

  lemma SumSet<K(!new)>(m: map<K, nat>, k: K, v: nat)
    ensures Sum(m[k := v]) == Sum(m) - (if k in m then m[k] else 0) + v
    ensures k in m ==> m[k] <= Sum(m)
  {
    SumWithout(m[k := v], k);
    if k in m {
      SumWithout(m, k);
      assert m[k := v] - {k} == m - {k};
    } else {
      assert m[k := v] - {k} == m;
    }
  }

  /** A sum over the values of a map, seen through a measure. */
  ghost function Total<K(!new), V(!new)>(m: map<K, V>, measure: V -> nat): nat {
    Sum(map k | k in m :: measure(m[k]))
  }

  lemma TotalSet<K(!new), V(!new)>(m: map<K, V>, measure: V -> nat, k: K, v: V)
    ensures Total(m[k := v], measure) == Total(m, measure) - (if k in m then measure(m[k]) else 0) + measure(v)
    ensures k in m ==> measure(m[k]) <= Total(m, measure)
  {
    var image := map j | j in m :: measure(m[j]);
    var m' := m[k := v];
    assert (map j | j in m' :: measure(m'[j])) == image[k := measure(v)];
    SumSet(image, k, measure(v));
  }

  lemma TotalEmpty<K(!new), V(!new)>(m: map<K, V>, measure: V -> nat)
    ensures m == map[] ==> Total(m, measure) == 0
  {
    var image := map k | k in m :: measure(m[k]);
    assert image.Keys == m.Keys;
    assert m == map[] ==> image == map[];
  }
}
