/**
 * The growable incidence buffer of src/graph.c: `__accum_line` appends the numbers of the
 * next data line to it, stores that line's length and adds it to a running connection
 * count; `__send_graph` calls it once per hyperedge of a chunk and resets the buffer's
 * size between chunks.
 */
module ChunkAccum {
  import opened Wrappers
  import opened LineReader
  import opened Csr

  /** `buf` and `bsize`: the entries `buf[0..bsize)` have been accumulated for the current chunk. */
  class ChunkBuffer {
    var buf: array<nat>
    var bsize: nat

    ghost predicate Valid()
      reads this
    {
      bsize <= buf.Length
    }

    /** The accumulated entries. */
    ghost function Contents(): seq<nat>
      reads this, buf
      requires Valid()
    {
      buf[..bsize]
    }

    /** `buf = NULL, bsize = 0` (src/graph.c:176-177). */
    constructor ()
      ensures Valid() && bsize == 0 && buf.Length == 0
    {
      buf := new nat[0];
      bsize := 0;
    }

    /** `bsize = 0` before the next chunk (src/graph.c:218); the storage is kept. */
    method Reset()
      requires Valid()
      modifies this
      ensures Valid() && bsize == 0 && buf == old(buf)
    {
      bsize := 0;
    }

    /**
     * The `realloc` and `memcpy` of `__accum_line` (src/graph.c:127-129): the buffer grows to
     * `bsize + len` entries, keeps its first `bsize` and ends with the `len` new ones.
     */
    method Append(arr: array<nat>)
      requires Valid() && arr != buf
      modifies this
      ensures Valid() && fresh(buf) && buf.Length == bsize == old(bsize) + arr.Length
      ensures Contents() == old(Contents()) + arr[..]
    {
      var len := arr.Length;
      var kept := buf[..bsize] + arr[..];
      var grown := new nat[|kept|](i requires 0 <= i < |kept| => kept[i]);
      assert grown[..] == kept;
      buf := grown;
      bsize := bsize + len;
      assert buf[..bsize] == buf[..];
    }

    /**
     * The state after `|at|` calls of `__accum_line` in one chunk that started reading at
     * line `start`: the calls consumed the data lines at indices `at`, the buffer holds their
     * numbers one line after another, and `lengths[0..|at|)` holds their lengths.
     */
    ghost predicate Accumulated(fin: LineStream, lengths: array<int>, start: nat, at: seq<nat>)
      reads this, buf, fin, lengths
    {
      && Valid() && fin.Valid() && start <= |fin.lines| && |at| <= lengths.Length
      && DataLines(fin.lines, start, |at|) == Read(at, fin.pos)
      && Contents() == Joined(fin.values, at)
      && lengths[..|at|] == LineLengths(fin.values, at)
    }

    /**
     * `__accum_line` (src/graph.c:112-133), called as the `slot`-th line of a chunk: split the
     * next data line, store its length through `next_len` (`lengths + slot`), reallocate the
     * buffer to `bsize + len` entries keeping the old ones and append the line's numbers, and
     * return the connection count increased by `len`. When the input ends first the run
     * stops.
     */
    method AccumLine(fin: LineStream, lengths: array<int>, slot: nat, ncon: nat) returns (r: Result<nat, Error>)
      requires Valid() && fin.Valid() && slot < lengths.Length
      modifies this, fin, lengths
      ensures Valid() && fin.Valid()
      ensures NextData(fin.lines, old(fin.pos)).None? ==> r == Err(InputExhausted)
      ensures NextData(fin.lines, old(fin.pos)).Some? ==>
        var k := NextData(fin.lines, old(fin.pos)).value;
        var row := fin.values[k];
        && fin.pos == k + 1
        && r == Ok(ncon + |row|)
        && lengths[..] == old(lengths[..])[slot := |row|]
        && fresh(buf) && buf.Length == bsize
        && Contents() == old(Contents()) + row
    {
      var split := SplitLine(fin);
      if split.Err? {
        return Err(split.error);
      }
      var arr := split.value;
      var len := arr.Length;
      lengths[slot] := len;
      Append(arr);
      return Ok(ncon + len);
    }

    /** One `__accum_line` step of a chunk that started at line `start` and has consumed the data lines `at`. */
    method NextLine(fin: LineStream, lengths: array<int>, slot: nat, ncon: nat, ghost start: nat, ghost at: seq<nat>)
      returns (r: Result<nat, Error>)
      requires Accumulated(fin, lengths, start, at) && slot == |at| < lengths.Length && ncon == bsize
      modifies this, fin, lengths
      ensures Valid() && fin.Valid()
      ensures r.Err? ==> r == Err(InputExhausted) && DataLines(fin.lines, start, |at| + 1).Exhausted?
      ensures r.Ok? ==>
        && fin.pos > 0 && r.value == bsize && fresh(buf) && buf.Length == bsize
        && Accumulated(fin, lengths, start, at + [fin.pos - 1])
    {
      ghost var pos := fin.pos;
      ghost var joined := Contents();
      ghost var lens := lengths[..|at|];
      r := AccumLine(fin, lengths, slot, ncon);
      if r.Err? {
        DataStep(fin.lines, start, at, pos);
        return;
      }
      AccumStep(fin.lines, fin.values, start, at, pos, fin.pos - 1, joined, lens);
      assert lengths[..|at| + 1] == lens + [r.value - ncon];
    }

    /**
     * The accumulation loop of one chunk (src/graph.c:186-190 for a receiving rank,
     * src/graph.c:225-230 for the coordinator), started on an empty buffer
     * (src/graph.c:177, 218) with a connection count of 0 (src/graph.c:186): `count` data
     * lines are appended in order, their lengths fill `lengths[0..count)` and the connection
     * count ends as the number of accumulated entries. After at least one line the buffer
     * holds exactly its entries; with none it is the old buffer.
     */
    method ReadChunk(fin: LineStream, lengths: array<int>, count: nat) returns (r: Result<nat, Error>)
      requires Valid() && fin.Valid() && bsize == 0
      requires count <= lengths.Length
      modifies this, fin, lengths
      ensures Valid() && fin.Valid()
      ensures r.Ok? <==> DataLines(fin.lines, old(fin.pos), count).Read?
      ensures r.Err? ==> r.error == InputExhausted
      ensures r.Ok? ==>
        var d := DataLines(fin.lines, old(fin.pos), count);
        && fin.pos == d.next
        && r.value == bsize
        && Contents() == Joined(fin.values, d.at)
        && lengths[..count] == LineLengths(fin.values, d.at)
        && (count > 0 ==> fresh(buf) && buf.Length == bsize)
        && (count == 0 ==> buf == old(buf))
    {
      ghost var start := fin.pos;
      ghost var at: seq<nat> := [];
      var ncon := 0;
      var h := 0;
      while h < count
        invariant 0 <= h <= count && |at| == h
        invariant Accumulated(fin, lengths, start, at)
        invariant ncon == bsize
        invariant h > 0 ==> fresh(buf) && buf.Length == bsize
        invariant h == 0 ==> buf == old(buf)
      {
        var step := NextLine(fin, lengths, h, ncon, start, at);
        if step.Err? {
          EarlyEndExhausts(fin.lines, start, h + 1, count);
          return Err(step.error);
        }
        at := at + [fin.pos - 1];
        ncon := step.value;
        h := h + 1;
      }
      return Ok(ncon);
    }
  }

  /**
   * The numbers of the lines at the given indices, one line after another. Together with
   * LineLengths this is `Flatten` and `RowLengths` of `Rows(table, at)`, grown line by line
   * as the buffer grows; JoinedRows is the bridge between the two.
   */
  function Joined(table: seq<seq<nat>>, at: seq<nat>): seq<nat>
    decreases |at|
  {
    if at == [] then [] else Joined(table, at[..|at| - 1]) + Row(table, at[|at| - 1])
  }

  /** The lengths of the lines at the given indices. */
  function LineLengths(table: seq<seq<nat>>, at: seq<nat>): (ls: seq<int>)
    ensures |ls| == |at|
  {
    seq(|at|, i requires 0 <= i < |at| => |Row(table, at[i])|)
  }

  /** The joined lines and their lengths are the flattened rows and the row lengths. */
  lemma {:induction false} JoinedRows(table: seq<seq<nat>>, at: seq<nat>)
    ensures Joined(table, at) == Flatten(Rows(table, at))
    ensures LineLengths(table, at) == RowLengths(Rows(table, at))
    decreases |at|
  {
    if at != [] {
      var init := at[..|at| - 1];
      JoinedRows(table, init);
      assert Rows(table, at)[..|at| - 1] == Rows(table, init);
    }
  }

  /** One more data line at index `k`: the read, the joined numbers and the lengths all grow by that line. */
  lemma AccumStep(lines: seq<Line>, table: seq<seq<nat>>, pos: nat, at: seq<nat>, next: nat, k: nat,
                  joined: seq<nat>, lens: seq<int>)
    requires pos <= |lines| && DataLines(lines, pos, |at|) == Read(at, next) && NextData(lines, next) == Some(k)
    requires k < |table| && joined == Joined(table, at) && lens == LineLengths(table, at)
    ensures DataLines(lines, pos, |at| + 1) == Read(at + [k], k + 1)
    ensures Joined(table, at + [k]) == joined + table[k]
    ensures LineLengths(table, at + [k]) == lens + [|table[k]|]
  {
    DataStep(lines, pos, at, next);
    assert (at + [k])[..|at|] == at;
  }

  /** The next data line after `|at|` of them is the one `NextData` finds, or there is none. */
  lemma DataStep(lines: seq<Line>, pos: nat, at: seq<nat>, next: nat)
    requires pos <= |lines| && DataLines(lines, pos, |at|) == Read(at, next)
    ensures NextData(lines, next).None? ==> DataLines(lines, pos, |at| + 1).Exhausted?
    ensures NextData(lines, next).Some? ==>
      DataLines(lines, pos, |at| + 1) == Read(at + [NextData(lines, next).value], NextData(lines, next).value + 1)
  {
  }

  /** Once the input ends before the `a`-th data line, reading more lines finds no more. */
  lemma {:induction false} EarlyEndExhausts(lines: seq<Line>, pos: nat, a: nat, b: nat)
    requires pos <= |lines| && a <= b
    requires DataLines(lines, pos, a).Exhausted?
    ensures DataLines(lines, pos, b).Exhausted?
    decreases b - a
  {
    if a < b {
      EarlyEndExhausts(lines, pos, a, b - 1);
    }
  }
}
