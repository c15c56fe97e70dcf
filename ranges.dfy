/**
 * Ownership ranges of src/graph.c:179-244: with `t = n / npes`, rank p in 1..npes-1 owns
 * the ids `[(p-1)*t, p*t)` and rank 0, the coordinator, owns the tail `[(npes-1)*t, n)`,
 * remainder included. The same scheme applies to vertices and to hyperedges.
 */
module Ranges {

  /** `vtarget`, `htarget`: the share of every non-coordinator rank. */
  function Target(n: nat, npes: nat): nat
    requires npes > 0
  {
    n / npes
  }

  /** The first id of rank p's range. */
  function RangeStart(n: nat, npes: nat, p: nat): nat
    requires p < npes
  {
    var t: nat := Target(n, npes);
    var q: nat := if p == 0 then npes - 1 else p - 1;
    q * t
  }

  /** One past the last id of rank p's range. */
  function RangeEnd(n: nat, npes: nat, p: nat): nat
    requires p < npes
  {
    var t: nat := Target(n, npes);
    if p == 0 then n else p * t
  }

  /** The number of ids rank p owns: `t` for ranks 1..npes-1 and the rest for rank 0. */
  function Share(n: nat, npes: nat, p: nat): (s: nat)
    requires p < npes
    ensures RangeStart(n, npes, p) + s == RangeEnd(n, npes, p) <= n
    ensures p > 0 ==> s == Target(n, npes)
    ensures p == 0 ==> Target(n, npes) <= s && (npes - 1) * Target(n, npes) + s == n
  {
    RangeBounds(n, npes, p);
    RangeEnd(n, npes, p) - RangeStart(n, npes, p)
  }

  /** The ids `[lo, hi)` in increasing order. */
  function IdRange(lo: nat, hi: nat): (ids: seq<nat>)
    requires lo <= hi
    ensures |ids| == hi - lo && forall i :: 0 <= i < |ids| ==> ids[i] == lo + i
  {
    seq(hi - lo, i requires 0 <= i < hi - lo => lo + i)
  }

  /** The rank that owns id `x`. */
  function Owner(n: nat, npes: nat, x: nat): nat
    requires npes > 0
  {
    var t := Target(n, npes);
    if t > 0 && x < (npes - 1) * t then x / t + 1 else 0
  }

  /**
   * Every range lies within `[0, n)`: ranks 1..npes-1 get exactly `t` ids and rank 0 gets
   * `n - (npes-1)*t`, which is never less than `t`.
   */
  lemma RangeBounds(n: nat, npes: nat, p: nat)
    requires p < npes
    ensures RangeStart(n, npes, p) <= RangeEnd(n, npes, p) <= n
    ensures p > 0 ==> RangeEnd(n, npes, p) - RangeStart(n, npes, p) == Target(n, npes)
    ensures p == 0 ==> RangeEnd(n, npes, p) - RangeStart(n, npes, p) == n - (npes - 1) * Target(n, npes) >= Target(n, npes)
  {
    var t := Target(n, npes);
    assert n == npes * t + n % npes;
    assert npes * t == (npes - 1) * t + t;
    if p > 0 {
      assert p * t == (p - 1) * t + t;
      MulMonotone(p, npes, t);
    }
  }

  lemma MulMonotone(a: nat, b: nat, t: nat)
    requires a <= b
    ensures a * t <= b * t
  {
  }

  /** `q*t <= x < (q+1)*t` exactly when `x / t == q`. */
  lemma DivBounds(x: nat, t: nat, q: nat)
    requires t > 0
    ensures q * t <= x < q * t + t <==> x / t == q
  {
    var d := x / t;
    assert x == d * t + x % t;
    if q * t <= x < q * t + t {
      if d < q {
        MulMonotone(d + 1, q, t);
      } else if d > q {
        MulMonotone(q + 1, d, t);
      }
    }
  }

  /**
   * The ranges are disjoint and cover `[0, n)`: id `x < n` lies in rank p's range exactly
   * when p is its owner.
   */
  lemma OwnerIsUnique(n: nat, npes: nat, x: nat, p: nat)
    requires x < n && p < npes
    ensures RangeStart(n, npes, p) <= x < RangeEnd(n, npes, p) <==> p == Owner(n, npes, x)
  {
    var t: nat := Target(n, npes);
    if t > 0 {
      if p > 0 {
        OwnerInTargetRange(n, npes, x, p);
      } else {
        RangeBounds(n, npes, 0);
      }
    }
  }

  /** For a rank other than the coordinator, membership is `x / t == p - 1` below `(npes-1)*t`. */
  lemma OwnerInTargetRange(n: nat, npes: nat, x: nat, p: nat)
    requires x < n && 0 < p < npes && Target(n, npes) > 0
    ensures RangeStart(n, npes, p) <= x < RangeEnd(n, npes, p) <==> p == Owner(n, npes, x)
  {
    var t: nat := Target(n, npes);
    var lo: nat := (p - 1) * t;
    var hi: nat := p * t;
    var m: nat := (npes - 1) * t;
    assert RangeStart(n, npes, p) == lo && RangeEnd(n, npes, p) == hi;
    assert hi == lo + t;
    DivBounds(x, t, p - 1);
    MulMonotone(p, npes - 1, t);
    assert hi <= m;
    if x < m {
      assert Owner(n, npes, x) == x / t + 1;
    } else {
      assert Owner(n, npes, x) == 0;
    }
  }
}
