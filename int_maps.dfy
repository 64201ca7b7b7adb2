/**
 * Finite maps to integers read with "absent means zero", and their sums.
 * The ledger stores every balance in such a map; its conservation law is a
 * statement about the sums of two of them.
 */
module IntMaps {

  /** The value stored under `k`, or 0 when `k` has never been written. */
  function Get<K>(m: map<K, int>, k: K): (v: int)
    ensures k in m ==> v == m[k]
    ensures k !in m ==> v == 0
    ensures NonNegative(m) ==> v >= 0
  {
    if k in m then m[k] else 0
  }

  /** Every stored value is at least zero. */
  predicate NonNegative<K>(m: map<K, int>)
  {
    forall k :: k in m ==> m[k] >= 0
  }

  /** The sum of all values stored in `m`. */
  ghost function Sum<K>(m: map<K, int>): int
    decreases |m|
  {
    if m == map[] then 0
    else
      var k :| k in m;
      assert m.Keys - {k} == (m - {k}).Keys;
      m[k] + Sum(m - {k})
  }

  /** Any key may be peeled off first: the sum does not depend on the order. */
  lemma {:induction false} SumRemove<K>(m: map<K, int>, k: K)
    requires k in m
    ensures Sum(m) == m[k] + Sum(m - {k})
    decreases |m|
  {
    var j :| j in m && Sum(m) == m[j] + Sum(m - {j});
    if j != k {
      assert m.Keys - {j} == (m - {j}).Keys;
      assert m.Keys - {k} == (m - {k}).Keys;
      SumRemove(m - {j}, k);
      SumRemove(m - {k}, j);
      assert m - {j} - {k} == m - {k} - {j};
    }
  }

  /** Overwriting one entry changes the sum by the difference of the two values. */
  lemma SumUpdate<K>(m: map<K, int>, k: K, v: int)
    ensures Sum(m[k := v]) == Sum(m) - Get(m, k) + v
  {
    SumRemove(m[k := v], k);
    if k in m {
      SumRemove(m, k);
      assert m[k := v] - {k} == m - {k};
    } else {
      assert m[k := v] - {k} == m;
    }
  }

  /** A map of non-negative values has a non-negative sum. */
  lemma {:induction false} SumNonNegative<K>(m: map<K, int>)
    requires NonNegative(m)
    ensures Sum(m) >= 0
    decreases |m|
  {
    if m != map[] {
      var k :| k in m;
      SumRemove(m, k);
      assert m.Keys - {k} == (m - {k}).Keys;
      SumNonNegative(m - {k});
    }
  }
}
