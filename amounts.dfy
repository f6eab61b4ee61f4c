/**
  Token amounts and the sparse tables that hold them.

  The ledger's `Balance` is an unsigned 128-bit integer; its tables are hash
  maps in which an absent key reads as zero. `Sum` is the total of a table,
  the measure that the supply-conservation invariant is stated in.
 */
module Amounts {

  /** The largest value of an unsigned 128-bit integer. */
  const U128_MAX: int := 0xffff_ffff_ffff_ffff_ffff_ffff_ffff_ffff

  /** `u128`: every arithmetic result stored in one must be proved to fit. */
  newtype u128 = x: int | 0 <= x <= U128_MAX

  type Balance = u128

  /** Lookup with a default of zero (`*map.get(&k).unwrap_or(&0)`). */
  function GetOrZero<K>(m: map<K, Balance>, k: K): (r: Balance)
    ensures k in m ==> r == m[k]
    ensures k !in m ==> r == 0
  {
    if k in m then m[k] else 0
  }

  /** Some key of a non-empty table, fixed once and for all so that `Sum` is a function. */
  ghost function Pick<K>(m: map<K, Balance>): (k: K)
    requires m != map[]
    ensures k in m
  {
    var k :| k in m; k
  }

  /** The total of all entries of a table. */
  ghost function Sum<K>(m: map<K, Balance>): (r: nat)
    decreases |m|
  {
    if m == map[] then 0
    else
      var k := Pick(m);
      assert |m - {k}| < |m| by { assert m.Keys - {k} < m.Keys; }
      m[k] as nat + Sum(m - {k})
  }

  /** Any entry, not only the one `Sum` happens to pick first, can be split off the total. */
  lemma {:induction false} SumRemove<K>(m: map<K, Balance>, k: K)
    requires k in m
    ensures Sum(m) == m[k] as int + Sum(m - {k})
    decreases |m|
  {
    var j := Pick(m);
    if j != k {
      assert |m - {j}| < |m| by { assert m.Keys - {j} < m.Keys; }
      assert |m - {k}| < |m| by { assert m.Keys - {k} < m.Keys; }
      SumRemove(m - {j}, k);
      SumRemove(m - {k}, j);
      assert m - {j} - {k} == m - {k} - {j};
    }
  }

  /** Writing `v` under `k` changes the total by `v` minus what `k` held before. */
  lemma {:induction false} SumUpdate<K>(m: map<K, Balance>, k: K, v: Balance)
    ensures Sum(m[k := v]) == Sum(m) - GetOrZero(m, k) as int + v as int
  {
    SumRemove(m[k := v], k);
    assert m[k := v] - {k} == m - {k};
    if k in m {
      SumRemove(m, k);
    } else {
      assert m - {k} == m;
    }
  }

  /** No entry exceeds the total. */
  lemma {:induction false} GetAtMostSum<K>(m: map<K, Balance>, k: K)
    ensures GetOrZero(m, k) as int <= Sum(m)
  {
    if k in m {
      SumRemove(m, k);
    }
  }

  /** A table with a single entry totals that entry. */
  lemma {:induction false} SumSingleton<K>(k: K, v: Balance)
    ensures Sum(map[k := v]) == v as int
  {
    var m: map<K, Balance> := map[];
    SumUpdate(m, k, v);
  }
}
