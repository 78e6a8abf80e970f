/** Small helpers shared by the other modules: options, tables keyed by an id, and sums over a table. */
module Common {

  datatype Option<+T> = None | Some(value: T)

  /** The rows filed under `k`, none if there is no such key. */
  function Of<K, V>(m: map<K, seq<V>>, k: K): seq<V> {
    if k in m then m[k] else []
  }

  /** SELECT SUM(...) over a table: every row contributes the integer it is mapped to. */
  ghost function Total(m: map<nat, int>): int {
    if m == map[] then 0 else
      var k :| k in m;
      m[k] + Total(m - {k})
  }

  lemma {:induction false} TotalRemove(m: map<nat, int>, k: nat)
    requires k in m
    ensures Total(m) == m[k] + Total(m - {k})
    decreases |m|
  {
    var k0 :| k0 in m && Total(m) == m[k0] + Total(m - {k0});
    if k0 != k {
      TotalRemove(m - {k0}, k);
      TotalRemove(m - {k}, k0);
      assert m - {k0} - {k} == m - {k} - {k0};
    }
  }

  /** Writing one row moves the sum by the difference of the new and the old contribution. */
  lemma TotalWrite(m: map<nat, int>, k: nat, v: int)
    ensures Total(m[k := v]) == Total(m) + v - (if k in m then m[k] else 0)
  {
    TotalRemove(m[k := v], k);
    assert m[k := v] - {k} == m - {k};
    if k in m {
      TotalRemove(m, k);
    } else {
      assert m - {k} == m;
    }
  }

  lemma {:induction false} TotalMonotone(m: map<nat, int>, n: map<nat, int>)
    requires forall k :: k in m ==> k in n && m[k] <= n[k]
    requires forall k :: k in n && k !in m ==> 0 <= n[k]
    ensures Total(m) <= Total(n)
    decreases |n|
  {
    if n == map[] {
      assert m == map[];
    } else {
      var k :| k in n;
      TotalRemove(n, k);
      if k in m {
        TotalRemove(m, k);
      } else {
        assert m - {k} == m;
      }
      TotalMonotone(m - {k}, n - {k});
    }
  }

  function EntryOf(m: map<nat, int>, k: nat): int {
    if k in m then m[k] else 0
  }

  /** Under the same conditions the sums are equal only if nothing has grown. */
  lemma TotalSame(m: map<nat, int>, n: map<nat, int>)
    requires forall k :: k in m ==> k in n && m[k] <= n[k]
    requires forall k :: k in n && k !in m ==> 0 <= n[k]
    ensures Total(m) == Total(n) <==> forall k :: k in n ==> n[k] == EntryOf(m, k)
  {
    if k :| k in n && n[k] != EntryOf(m, k) {
      TotalRemove(n, k);
      if k in m {
        TotalRemove(m, k);
      } else {
        assert m - {k} == m;
      }
      TotalMonotone(m - {k}, n - {k});
    } else {
      SameRowsSameTotal(m, n);
    }
  }

  lemma {:induction false} SameRowsSameTotal(m: map<nat, int>, n: map<nat, int>)
    requires m.Keys <= n.Keys && forall k :: k in n ==> n[k] == EntryOf(m, k)
    ensures Total(m) == Total(n)
    decreases |n|
  {
    if n == map[] {
      assert m == map[];
    } else {
      var k :| k in n;
      TotalRemove(n, k);
      if k in m {
        TotalRemove(m, k);
      } else {
        assert m - {k} == m;
      }
      SameRowsSameTotal(m - {k}, n - {k});
    }
  }

  lemma TotalNonNegative(m: map<nat, int>)
    requires forall k :: k in m ==> 0 <= m[k]
    ensures 0 <= Total(m)
    ensures forall k :: k in m ==> m[k] <= Total(m)
  {
    TotalMonotone(map[], m);
    forall k | k in m
      ensures m[k] <= Total(m)
    {
      TotalRemove(m, k);
      TotalMonotone(map[], m - {k});
    }
  }

  lemma {:induction false} TotalAdds(a: map<nat, int>, b: map<nat, int>, c: map<nat, int>)
    requires a.Keys == b.Keys == c.Keys
    requires forall k :: k in c ==> c[k] == a[k] + b[k]
    ensures Total(c) == Total(a) + Total(b)
    decreases |c|
  {
    if c == map[] {
      assert a == map[] && b == map[];
    } else {
      var k :| k in c;
      TotalRemove(a, k);
      TotalRemove(b, k);
      TotalRemove(c, k);
      TotalAdds(a - {k}, b - {k}, c - {k});
    }
  }
}
