/** Sums over the values of a finite map. */
module MapSums {

  ghost function Total<K>(m: map<K, nat>): nat {
    if m == map[] then 0 else
      var k :| k in m;
      m[k] + Total(m - {k})
  }

  /** The sum does not depend on the order of summation: any key can be taken out first. */
  lemma {:induction false} TotalRemove<K>(m: map<K, nat>, k: K)
    requires k in m
    ensures Total(m) == m[k] + Total(m - {k})
    decreases m.Keys
  {
    var first :| first in m && Total(m) == m[first] + Total(m - {first});
    if first != k {
      var rest := m - {first};
      assert rest.Keys < m.Keys by {
        assert first in m.Keys && first !in rest.Keys;
      }
      TotalRemove(rest, k);
      var other := m - {k};
      assert other.Keys < m.Keys by {
        assert k in m.Keys && k !in other.Keys;
      }
      TotalRemove(other, first);
      assert rest - {k} == other - {first};
    }
  }

  function At<K>(m: map<K, nat>, k: K): nat {
    if k in m then m[k] else 0
  }

  lemma TotalDrop<K>(m: map<K, nat>, k: K)
    ensures Total(m - {k}) == Total(m) - At(m, k)
  {
    if k in m {
      TotalRemove(m, k);
    } else {
      assert m - {k} == m;
    }
  }

  lemma TotalPut<K>(m: map<K, nat>, k: K, v: nat)
    ensures Total(m[k := v]) == Total(m) - At(m, k) + v
  {
    TotalRemove(m[k := v], k);
    assert m[k := v] - {k} == m - {k};
    TotalDrop(m, k);
  }

  lemma AtMostTotal<K>(m: map<K, nat>, k: K)
    ensures At(m, k) <= Total(m)
  {
    TotalDrop(m, k);
  }

  lemma NonEmpty<T>(s: set<T>)
    requires s != {}
    ensures exists x :: x in s
  {
  }

  lemma SameSet<T>(s: set<T>, t: set<T>)
    requires forall x :: x in s <==> x in t
    ensures s == t
  {
  }

  lemma SameMap<K, V>(m: map<K, V>, n: map<K, V>)
    requires m.Keys == n.Keys && forall k <- m :: m[k] == n[k]
    ensures m == n
  {
  }

  /** A set that maps one-to-one into another is no larger. */
  lemma {:induction false} InjectionBound(A: set<int>, B: set<int>, f: map<int, int>)
    requires forall i <- A :: i in f && f[i] in B
    requires forall i, j | i in A && j in A && f[i] == f[j] :: i == j
    ensures |A| <= |B|
  {
    if exists i :: i in A {
      var i :| i in A;
      InjectionBound(A - {i}, B - {f[i]}, f);
    }
  }
}
