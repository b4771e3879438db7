/** Sums over the values of a finite map. */
module Sums {
  import opened Primitives

  ghost function Total(m: map<Word, nat>): nat {
    if m == map[] then 0
    else
      var k :| k in m;
      m[k] + Total(m - {k})
  }

  lemma {:induction false} TotalRemove(m: map<Word, nat>, k: Word)
    requires k in m
    ensures Total(m) == m[k] + Total(m - {k})
    decreases |m|
  {
    var j :| j in m && Total(m) == m[j] + Total(m - {j});
    if j != k {
      assert |m - {j}| < |m| && |m - {k}| < |m|;
      TotalRemove(m - {j}, k);
      TotalRemove(m - {k}, j);
      assert m - {j} - {k} == m - {k} - {j};
    }
  }

  /** Writing one entry changes the sum by exactly that entry's change. */
  lemma TotalUpdate(m: map<Word, nat>, k: Word, v: nat)
    ensures Total(m[k := v]) == v + Total(m) - (if k in m then m[k] else 0)
  {
    TotalRemove(m[k := v], k);
    assert m[k := v] - {k} == m - {k};
    if k in m {
      TotalRemove(m, k);
    } else {
      assert m - {k} == m;
    }
  }

  lemma TotalAtLeast(m: map<Word, nat>, k: Word)
    requires k in m
    ensures m[k] <= Total(m)
  {
    TotalRemove(m, k);
  }
}
