// Solidity mappings (total, zero by default) as finite maps, and sums over them.
module MapSums {

  // A Solidity mapping answers zero for a key that was never written.
  function Get<K>(m: map<K, nat>, k: K): nat {
    if k in m then m[k] else 0
  }

  // One pair per unit held, so that a sum is a cardinality.
  ghost function Units<K>(m: map<K, nat>): set<(K, int)> {
    set k, i | k in m && 0 <= i < m[k] :: (k, i)
  }

  ghost function Sum<K>(m: map<K, nat>): nat {
    |Units(m)|
  }

  lemma {:induction false} UnitsOfOne<K>(k: K, n: nat)
    ensures Sum(map[k := n]) == n
  {
    if n == 0 {
      assert Units(map[k := n]) == {};
    } else {
      UnitsOfOne(k, n - 1);
      var fewer := Units(map[k := n - 1]);
      assert (k, n - 1) !in fewer;
      assert Units(map[k := n]) == fewer + {(k, n - 1)};
    }
  }

  lemma SumRemove<K>(m: map<K, nat>, k: K)
    requires k in m
    ensures Sum(m) == m[k] + Sum(m - {k})
  {
    var one := map[k := m[k]];
    UnitsOfOne(k, m[k]);
    assert Units(m) == Units(one) + Units(m - {k});
    assert Units(one) !! Units(m - {k});
  }

  lemma SumUpdate<K>(m: map<K, nat>, k: K, v: nat)
    ensures Sum(m[k := v]) == Sum(m) - Get(m, k) + v
  {
    SumRemove(m[k := v], k);
    assert m[k := v] - {k} == m - {k};
    if k in m {
      SumRemove(m, k);
    } else {
      assert m - {k} == m;
    }
  }

  // Two writes in a row; the keys may coincide.
  lemma SumUpdateTwice<K>(m: map<K, nat>, k: K, v: nat, l: K, u: nat)
    ensures Sum(m[k := v][l := u]) == Sum(m) - Get(m, k) + v - Get(m[k := v], l) + u
  {
    SumUpdate(m, k, v);
    SumUpdate(m[k := v], l, u);
  }

  lemma SumAtLeast<K>(m: map<K, nat>, k: K)
    ensures Get(m, k) <= Sum(m)
  {
    if k in m {
      SumRemove(m, k);
    }
  }

  lemma SumAtLeastTwo<K>(m: map<K, nat>, k: K, l: K)
    requires k != l
    ensures Get(m, k) + Get(m, l) <= Sum(m)
  {
    SumUpdate(m, k, 0);
    SumAtLeast(m[k := 0], l);
  }

  lemma {:induction false} SumZero<K>(m: map<K, nat>)
    requires forall k | k in m :: m[k] == 0
    ensures Sum(m) == 0
    decreases |m|
  {
    if m != map[] {
      var k :| k in m;
      SumRemove(m, k);
      SumZero(m - {k});
    }
  }

  // A map whose only non-zero entry sits at k sums to that entry.
  lemma SumOnly<K>(m: map<K, nat>, k: K)
    requires forall j | j in m && j != k :: m[j] == 0
    ensures Sum(m) == Get(m, k)
  {
    SumUpdate(m, k, 0);
    SumZero(m[k := 0]);
  }

  // Re-indexing: a weight-preserving bijection f, with inverse g, between the keys of two maps
  // preserves size and sum.
  lemma {:induction false} SumBijection<K, L>(m: map<K, nat>, n: map<L, nat>, f: map<K, L>, g: map<L, K>)
    requires f.Keys == m.Keys && g.Keys == n.Keys
    requires forall k | k in m :: f[k] in n && n[f[k]] == m[k] && g[f[k]] == k
    requires forall l | l in n :: g[l] in m && f[g[l]] == l
    ensures |m| == |n| && Sum(m) == Sum(n)
    decreases |m|
  {
    if m == map[] {
      assert n == map[] by {
        if l :| l in n {
          assert g[l] in m;
        }
      }
    } else {
      var k :| k in m;
      var l := f[k];
      SumRemove(m, k);
      SumRemove(n, l);
      SizeRemove(m, k);
      SizeRemove(n, l);
      SumBijection(m - {k}, n - {l}, f - {k}, g - {l});
    }
  }

  lemma SizeRemove<K, V>(m: map<K, V>, k: K)
    requires k in m
    ensures |m| == |m - {k}| + 1
  {
    assert m.Keys == (m - {k}).Keys + {k};
  }
}
