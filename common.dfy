/**
 * Shared vocabulary of the contract models: optional values, bytes, reads of a
 * key-value store where a missing key reads as a default, and sums over the
 * per-investor amounts of a ledger.
 */
module Common {

  datatype Option<T> = None | Some(value: T)

  /** A byte of a storage value. */
  type byte = b: int | 0 <= b < 256

  /** Identifiers and stored text; the contracts pass ASCII bytes and strings interchangeably. */
  type Id = string

  /** A storage read: the stored value, or `default` when the key was never written. */
  function GetOr<K, V>(m: map<K, V>, k: K, default: V): V
  {
    if k in m then m[k] else default
  }

  /** A storage read of a text value: the contracts compare it with b'' to test for presence. */
  function Lookup<K>(m: map<K, string>, k: K): string
  {
    GetOr(m, k, "")
  }

  /** Some key of a non-empty map. */
  ghost function Pick<K>(m: map<K, int>): (k: K)
    requires m != map[]
    ensures k in m
  {
    assert m.Keys != {};
    var k :| k in m.Keys; k
  }

  /** The sum of the values of a finite map. */
  ghost function Sum<K>(m: map<K, int>): int
    decreases |m|
  {
    if m == map[] then 0
    else
      var k := Pick(m);
      assert (m - {k}).Keys == m.Keys - {k};
      m[k] + Sum(m - {k})
  }

  /** Sum may be computed by removing any key first, not only the one Pick chooses. */
  lemma {:induction false} SumRemove<K>(m: map<K, int>, k: K)
    requires k in m
    ensures Sum(m) == m[k] + Sum(m - {k})
    decreases |m|
  {
    var p := Pick(m);
    assert (m - {p}).Keys == m.Keys - {p};
    if p != k {
      assert (m - {k}).Keys == m.Keys - {k};
      SumRemove(m - {p}, k);
      SumRemove(m - {k}, p);
      assert m - {p} - {k} == m - {k} - {p};
    }
  }

  /** Overwriting one entry changes the sum by the difference of the new and old values. */
  lemma SumUpdate<K>(m: map<K, int>, k: K, v: int)
    ensures Sum(m[k := v]) == Sum(m) - GetOr(m, k, 0) + v
  {
    SumRemove(m[k := v], k);
    if k in m {
      SumRemove(m, k);
      assert m[k := v] - {k} == m - {k};
    } else {
      assert m[k := v] - {k} == m;
    }
  }

  /** A sum of non-negative values is non-negative. */
  lemma {:induction false} SumNonNegative<K>(m: map<K, int>)
    requires forall k :: k in m ==> m[k] >= 0
    ensures Sum(m) >= 0
    decreases |m|
  {
    if m != map[] {
      var k := Pick(m);
      assert (m - {k}).Keys == m.Keys - {k};
      SumNonNegative(m - {k});
    }
  }

  /**
   * When every amount of `r` is at most the matching amount of `a` (missing keys
   * reading as 0) and `a` holds no negative amount, the sum of `r` is at most the sum of `a`.
   */
  lemma {:induction false} SumPointwiseLe<K>(r: map<K, int>, a: map<K, int>)
    requires forall k :: GetOr(r, k, 0) <= GetOr(a, k, 0)
    requires forall k :: k in a ==> a[k] >= 0
    ensures Sum(r) <= Sum(a)
    decreases |r|
  {
    if r == map[] {
      SumNonNegative(a);
    } else {
      var k := Pick(r);
      assert (r - {k}).Keys == r.Keys - {k};
      SumRemove(r, k);
      var a' := a - {k};
      if k in a {
        SumRemove(a, k);
      } else {
        assert a' == a;
      }
      assert forall j :: GetOr(r - {k}, j, 0) <= GetOr(a', j, 0) by {
        forall j ensures GetOr(r - {k}, j, 0) <= GetOr(a', j, 0) {
          if j != k {
            assert GetOr(r - {k}, j, 0) == GetOr(r, j, 0);
            assert GetOr(a', j, 0) == GetOr(a, j, 0);
          }
        }
      }
      SumPointwiseLe(r - {k}, a');
      assert GetOr(r, k, 0) <= GetOr(a, k, 0);
    }
  }
}
