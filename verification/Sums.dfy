/** Sums over maps and sequences, saturating addition. */
module Sums {

  const U64_MAX: nat := 0xFFFF_FFFF_FFFF_FFFF

  function Clamp(n: nat): nat {
    if n <= U64_MAX then n else U64_MAX
  }

  /** Sums and products stop at the largest 64-bit number. */
  lemma ClampStops(n: nat)
    ensures Clamp(n) == if n <= 18_446_744_073_709_551_615 then n else 18_446_744_073_709_551_615
  {
  }

  function SatAdd(a: nat, b: nat): nat {
    Clamp(a + b)
  }

  function SatMul(a: nat, b: nat): nat {
    Clamp(a * b)
  }

  /** The sum of the values of a map. */
  ghost function MapSum<K>(m: map<K, nat>): nat
    decreases |m|
  {
    if m == map[] then 0
    else
      var k :| k in m;
      m[k] + MapSum(m - {k})
  }

  /** The choice of the first key does not matter. */
  lemma {:induction false} MapSumSplit<K>(m: map<K, nat>, k: K)
    requires k in m
    ensures MapSum(m) == m[k] + MapSum(m - {k})
    decreases |m|
  {
    var j :| j in m && MapSum(m) == m[j] + MapSum(m - {j});
    if j != k {
      MapSumSplit(m - {j}, k);
      MapSumSplit(m - {k}, j);
      assert m - {j} - {k} == m - {k} - {j};
    }
  }

  lemma MapSumUpdate<K>(m: map<K, nat>, k: K, v: nat)
    ensures MapSum(m[k := v]) == MapSum(m) + v - (if k in m then m[k] else 0)
  {
    var n := m[k := v];
    MapSumSplit(n, k);
    assert n - {k} == m - {k};
    if k in m {
      MapSumSplit(m, k);
    } else {
      assert m - {k} == m;
    }
  }

  /** If the values are at most `c`, and zero outside `keys`, the sum is at most `c` per key. */
  lemma {:induction false} MapSumBound<K>(m: map<K, nat>, keys: set<K>, n: nat, c: nat)
    requires |keys| == n
    requires forall k :: k in m ==> m[k] <= c && (k !in keys ==> m[k] == 0)
    ensures MapSum(m) <= c * n
    decreases |m|
  {
    if m == map[] {
      NonNegative(c, n);
    } else {
      var k :| k in m;
      MapSumSplit(m, k);
      if k in keys {
        MapSumBound(m - {k}, keys - {k}, n - 1, c);
        Times(c, n - 1);
      } else {
        MapSumBound(m - {k}, keys, n, c);
      }
    }
  }

  lemma NonNegative(c: nat, n: nat)
    ensures 0 <= c * n
  {
  }

  lemma Times(c: nat, n: nat)
    ensures c * (n + 1) == c * n + c
  {
  }
}
