/** Sums over the values of a finite map. */
module MapSums {

  ghost function MapSum(m: map<nat, int>): int {
    if m == map[] then 0 else
      var k :| k in m;
      m[k] + MapSum(m - {k})
  }

  lemma {:induction false} MapSumRemove(m: map<nat, int>, k: nat)
    requires k in m
    ensures MapSum(m) == m[k] + MapSum(m - {k})
    decreases |m|
  {
    var j :| j in m && MapSum(m) == m[j] + MapSum(m - {j});
    if j != k {
      MapSumRemove(m - {j}, k);
      assert m - {j} - {k} == m - {k} - {j};
      MapSumRemove(m - {k}, j);
    }
  }

  lemma MapSumPut(m: map<nat, int>, k: nat, x: int)
    ensures MapSum(m[k := x]) == MapSum(m) - (if k in m then m[k] else 0) + x
  {
    MapSumRemove(m[k := x], k);
    assert m[k := x] - {k} == m - {k};
    if k in m {
      MapSumRemove(m, k);
    } else {
      assert m - {k} == m;
    }
  }
}
