/** Sums over finite tables of non-negative amounts. */
module Sums {

  ghost function Total(m: map<string, nat>): nat
    decreases |m|
  {
    if m == map[] then 0
    else
      var k :| k in m;
      assert |m - {k}| < |m| by { Shrinks(m, k); }
      m[k] + Total(m - {k})
  }

  lemma Shrinks(m: map<string, nat>, k: string)
    requires k in m
    ensures |m - {k}| == |m| - 1
  {
    assert (m - {k}).Keys == m.Keys - {k};
    assert |m.Keys - {k}| == |m.Keys| - 1;
  }

  /** The sum does not depend on which entry is taken first. */
  lemma {:induction false} Extract(m: map<string, nat>, k: string)
    requires k in m
    ensures Total(m) == m[k] + Total(m - {k})
    decreases |m|
  {
    var j :| j in m && Total(m) == m[j] + Total(m - {j});
    if j != k {
      Shrinks(m, j);
      Shrinks(m, k);
      Extract(m - {j}, k);
      Extract(m - {k}, j);
      assert m - {j} - {k} == m - {k} - {j};
    }
  }

  /** Entry by entry larger means larger in total. */
  lemma {:induction false} Monotone(m: map<string, nat>, n: map<string, nat>)
    requires forall k :: k in m ==> if k in n then m[k] <= n[k] else m[k] == 0
    ensures Total(m) <= Total(n)
    decreases |m|
  {
    if m != map[] {
      var k :| k in m;
      Extract(m, k);
      Shrinks(m, k);
      if k in n {
        Extract(n, k);
        Monotone(m - {k}, n - {k});
      } else {
        Monotone(m - {k}, n);
      }
    }
  }

  /** Adding a new entry adds its amount. */
  lemma Insert(m: map<string, nat>, k: string, v: nat)
    requires k !in m
    ensures Total(m[k := v]) == Total(m) + v
  {
    Extract(m[k := v], k);
    assert m[k := v] - {k} == m;
  }
}
