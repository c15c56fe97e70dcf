/**
 * The compressed-by-edge layout of a shard: per-hyperedge rows flattened into one
 * incidence array, and the offset array that the in-place prefix sum of src/graph.c
 * builds from the per-hyperedge lengths.
 */
module Csr {

  /** The rows written one after another. */
  function Flatten(rows: seq<seq<nat>>): seq<nat>
    decreases |rows|
  {
    if rows == [] then [] else Flatten(rows[..|rows| - 1]) + rows[|rows| - 1]
  }

  /** The length of every row. */
  function RowLengths(rows: seq<seq<nat>>): (ls: seq<int>)
    ensures |ls| == |rows| && forall i :: 0 <= i < |rows| ==> ls[i] == |rows[i]|
  {
    seq(|rows|, i requires 0 <= i < |rows| => |rows[i]|)
  }

  function Sum(ls: seq<int>): int
    decreases |ls|
  {
    if ls == [] then 0 else Sum(ls[..|ls| - 1]) + ls[|ls| - 1]
  }

  /**
   * The exclusive prefix sums of `ls`: one more entry than `ls`, starting at 0, each
   * entry the previous one plus the previous length.
   */
  function Offsets(ls: seq<int>): (o: seq<int>)
    ensures |o| == |ls| + 1 && o[0] == 0
    ensures forall i :: 0 <= i < |ls| ==> o[i + 1] == o[i] + ls[i]
    decreases |ls|
  {
    if ls == [] then [0]
    else
      var p := Offsets(ls[..|ls| - 1]);
      p + [p[|ls| - 1] + ls[|ls| - 1]]
  }

  /** The last offset is the sum of all lengths. */
  lemma {:induction false} OffsetsEndIsSum(ls: seq<int>)
    ensures Offsets(ls)[|ls|] == Sum(ls)
    decreases |ls|
  {
    if ls != [] {
      OffsetsEndIsSum(ls[..|ls| - 1]);
    }
  }

  /** With no negative length the offsets never decrease. */
  lemma OffsetsMonotone(ls: seq<int>)
    requires forall i :: 0 <= i < |ls| ==> ls[i] >= 0
    ensures forall i, j :: 0 <= i <= j <= |ls| ==> Offsets(ls)[i] <= Offsets(ls)[j]
  {
    var o := Offsets(ls);
    forall i, j | 0 <= i <= j <= |ls| ensures o[i] <= o[j] {
      OffsetsStep(ls, i, j);
    }
  }

  lemma {:induction false} OffsetsStep(ls: seq<int>, i: nat, j: nat)
    requires forall k :: 0 <= k < |ls| ==> ls[k] >= 0
    requires i <= j <= |ls|
    ensures Offsets(ls)[i] <= Offsets(ls)[j]
    decreases j - i
  {
    if i < j {
      OffsetsStep(ls, i, j - 1);
    }
  }

  lemma {:induction false} FlattenAppend(a: seq<seq<nat>>, b: seq<seq<nat>>)
    ensures Flatten(a + b) == Flatten(a) + Flatten(b)
    decreases |b|
  {
    if b == [] {
      assert a + b == a;
    } else {
      var b' := b[..|b| - 1];
      assert (a + b)[..|a + b| - 1] == a + b';
      FlattenAppend(a, b');
    }
  }

  /** Every incidence entry comes from exactly one row: the flat length is the sum of the row lengths. */
  lemma {:induction false} FlattenLength(rows: seq<seq<nat>>)
    ensures |Flatten(rows)| == Sum(RowLengths(rows))
    decreases |rows|
  {
    if rows != [] {
      var init := rows[..|rows| - 1];
      assert RowLengths(rows)[..|rows| - 1] == RowLengths(init);
      FlattenLength(init);
    }
  }

  /**
   * Offsets `o` cut the flat incidence array `f` into `rows`: row h is `f[o[h]..o[h+1])`
   * and the last offset is the length of `f`.
   */
  ghost predicate Delimits(o: seq<int>, f: seq<nat>, rows: seq<seq<nat>>) {
    && |o| == |rows| + 1
    && o[|rows|] == |f|
    && forall h :: 0 <= h < |rows| ==> CutAt(o, f, rows, h)
  }

  /** Row h of `rows` is `f[o[h]..o[h+1])`. */
  ghost predicate CutAt(o: seq<int>, f: seq<nat>, rows: seq<seq<nat>>, h: nat) {
    h < |rows| && h + 1 < |o| && 0 <= o[h] <= o[h + 1] <= |f| && f[o[h]..o[h + 1]] == rows[h]
  }

  /** The offsets built from the row lengths cut the flattened rows back into the rows. */
  lemma {:induction false} OffsetsDelimitRows(rows: seq<seq<nat>>)
    ensures Delimits(Offsets(RowLengths(rows)), Flatten(rows), rows)
    decreases |rows|
  {
    if rows != [] {
      var n := |rows|;
      var init := rows[..n - 1];
      var last := rows[n - 1];
      assert RowLengths(rows)[..n - 1] == RowLengths(init);
      OffsetsDelimitRows(init);
      var o := Offsets(RowLengths(rows));
      var oi := Offsets(RowLengths(init));
      assert o == oi + [oi[n - 1] + |last|];
      var fi := Flatten(init);
      var f := fi + last;
      assert Flatten(rows) == f;
      forall h | 0 <= h < n
        ensures CutAt(o, f, rows, h)
      {
        if h < n - 1 {
          assert CutAt(oi, fi, init, h);
          assert rows[h] == init[h];
          assert f[oi[h]..oi[h + 1]] == fi[oi[h]..oi[h + 1]];
        } else {
          assert f[|fi|..|f|] == last;
        }
      }
    }
  }

  /**
   * The in-place prefix sum of src/graph.c:252-258 and src/graph.c:312-318: `eptr[0..n)`
   * holds raw lengths and becomes the `n + 1` offsets. Slot `n` is read (its old value is
   * discarded) and written, so the array needs `n + 1` slots; slots past `n` are untouched.
   */
  method PrefixSum(eptr: array<int>, n: nat)
    requires n < eptr.Length
    modifies eptr
    ensures eptr[..n + 1] == Offsets(old(eptr[..n]))
    ensures eptr[n + 1..] == old(eptr[n + 1..])
  {
    ghost var raw := eptr[..];
    ghost var o := Offsets(raw[..n]);
    var saved := eptr[0];
    eptr[0] := 0;
    var i := 1;
    while i <= n
      invariant 1 <= i <= n + 1
      invariant forall k :: 0 <= k < i ==> eptr[k] == o[k]
      invariant forall k :: i <= k < eptr.Length ==> eptr[k] == raw[k]
      invariant saved == raw[i - 1]
    {
      var tmp := eptr[i];
      eptr[i] := saved + eptr[i - 1];
      saved := tmp;
      i := i + 1;
    }
    assert eptr[..n + 1] == o;
  }
}
