/** Finite sums over maps and sequences. */
module Sums {
  ghost function Pick<K(!new)>(m: map<K, int>): (k: K)
    requires m != map[]
    ensures k in m
  {
    var k :| k in m; k
  }

  ghost function MapSum<K(!new)>(m: map<K, int>): int
    decreases |m|
  {
    if m == map[] then 0
    else
      var k := Pick(m);
      m[k] + MapSum(m - {k})
  }

  lemma {:induction false} MapSumRemove<K(!new)>(m: map<K, int>, k: K)
    requires k in m
    ensures MapSum(m) == m[k] + MapSum(m - {k})
    decreases |m|
  {
    var p := Pick(m);
    if p != k {
      MapSumRemove(m - {p}, k);
      MapSumRemove(m - {k}, p);
      assert m - {p} - {k} == m - {k} - {p};
    }
  }

  lemma MapSumUpdate<K(!new)>(m: map<K, int>, k: K, v: int)
    ensures MapSum(m[k := v]) == MapSum(m) + v - (if k in m then m[k] else 0)
  {
    MapSumRemove(m[k := v], k);
    if k in m {
      MapSumRemove(m, k);
      assert m[k := v] - {k} == m - {k};
    } else {
      assert m[k := v] - {k} == m;
    }
  }

  lemma {:induction false} MapSumNonNegative<K(!new)>(m: map<K, int>)
    requires forall k :: k in m ==> m[k] >= 0
    ensures MapSum(m) >= 0
    decreases |m|
  {
    if m != map[] {
      MapSumNonNegative(m - {Pick(m)});
    }
  }

  /** Non-negative entries: one entry, or two distinct ones, never exceed the sum. */
  lemma MapSumBounds<K(!new)>(m: map<K, int>, a: K, b: K)
    requires forall k :: k in m ==> m[k] >= 0
    ensures a in m ==> m[a] <= MapSum(m)
    ensures a in m && b in m && a != b ==> m[a] + m[b] <= MapSum(m)
    ensures MapSum(m) >= 0
  {
    MapSumNonNegative(m);
    if a in m {
      MapSumRemove(m, a);
      MapSumNonNegative(m - {a});
      if b in m && b != a {
        MapSumRemove(m - {a}, b);
        MapSumNonNegative(m - {a} - {b});
      }
    }
  }

  /** A smaller family of smaller entries has a smaller sum. */
  lemma {:induction false} MapSumMonotone<K(!new)>(v: map<K, int>, m: map<K, int>)
    requires forall k :: k in m ==> m[k] >= 0
    requires forall k :: k in v ==> v[k] <= (if k in m then m[k] else 0)
    ensures MapSum(v) <= MapSum(m)
    decreases |v|
  {
    if v == map[] {
      MapSumNonNegative(m);
    } else {
      var k := Pick(v);
      if k in m {
        MapSumRemove(m, k);
        MapSumMonotone(v - {k}, m - {k});
      } else {
        MapSumMonotone(v - {k}, m);
      }
    }
  }

  ghost function SeqSum(s: seq<int>): int
  {
    if s == [] then 0 else SeqSum(s[..|s| - 1]) + s[|s| - 1]
  }

  lemma {:induction false} SeqSumUpdate(s: seq<int>, i: nat, v: int)
    requires i < |s|
    ensures SeqSum(s[i := v]) == SeqSum(s) - s[i] + v
  {
    var n := |s| - 1;
    if i == n {
      assert s[i := v][..n] == s[..n];
    } else {
      assert s[i := v][..n] == s[..n][i := v];
      SeqSumUpdate(s[..n], i, v);
    }
  }

  /** Pointwise bounded sequences: the sums are ordered, and equal only when the sequences are. */
  lemma {:induction false} SeqSumBounded(s: seq<int>, t: seq<int>)
    requires |s| == |t|
    requires forall i :: 0 <= i < |s| ==> s[i] <= t[i]
    ensures SeqSum(s) <= SeqSum(t)
    ensures SeqSum(s) == SeqSum(t) <==> s == t
  {
    if s != [] {
      var n := |s| - 1;
      SeqSumBounded(s[..n], t[..n]);
      assert s == s[..n] + [s[n]] && t == t[..n] + [t[n]];
    }
  }

  lemma {:induction false} SeqSumZero(s: seq<int>)
    requires forall i :: 0 <= i < |s| ==> s[i] == 0
    ensures SeqSum(s) == 0
  {
    if s != [] {
      SeqSumZero(s[..|s| - 1]);
    }
  }
}
