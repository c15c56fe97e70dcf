/**
 * `distribute_hgraph` and its two halves (src/graph.c:144-343): the coordinator (rank 0)
 * reads the hypergraph file, sends every other rank its chunk and keeps the rest; every
 * other rank receives its chunk. Messages are modelled as one inbox per rank.
 */
module Distribution {
  import opened Wrappers
  import opened LineReader
  import opened Csr
  import opened Ranges
  import opened ChunkAccum
  import opened HGraph
  import opened Protocol

  // ---------------------------------------------------------------------------
  // What a run should produce

  /** The header values of the file and the line index of each hyperedge line, in file order. */
  datatype Layout = Layout(dims: seq<nat>, at: seq<nat>)

  /**
   * Reading the whole file from `pos`: the first data line is the header and must hold
   * exactly two numbers, the hyperedge and the vertex count (src/graph.c:160-165); then
   * one data line per hyperedge follows (src/graph.c:186-190, 225-230).
   */
  function ReadLayout(lines: seq<Line>, values: seq<seq<nat>>, pos: nat): (r: Result<Layout, Error>)
    requires pos <= |lines|
    ensures r.Ok? ==> |r.value.dims| == 2 && |r.value.at| == r.value.dims[0]
  {
    match NextData(lines, pos)
    case None => Err(InputExhausted)
    case Some(k) =>
      var dims := Row(values, k);
      if |dims| != 2 then Err(UnsupportedFormat)
      else match DataLines(lines, k + 1, dims[0])
        case Exhausted => Err(InputExhausted)
        case Read(at, _) => Ok(Layout(dims, at))
  }

  /** The ids rank p owns out of `n` (vertices or hyperedges), in increasing order. */
  function OwnedIds(n: nat, npes: nat, p: nat): (ids: seq<nat>)
    requires p < npes
    ensures |ids| == Share(n, npes, p)
  {
    var _ := Share(n, npes, p);
    IdRange(RangeStart(n, npes, p), RangeEnd(n, npes, p))
  }

  /** The pin lists of the hyperedges rank p owns, given the line index of every hyperedge. */
  function HedgeRows(values: seq<seq<nat>>, at: seq<nat>, npes: nat, p: nat): (rows: seq<seq<nat>>)
    requires p < npes
    ensures |rows| == Share(|at|, npes, p)
  {
    var _ := Share(|at|, npes, p);
    Rows(values, at[RangeStart(|at|, npes, p)..RangeEnd(|at|, npes, p)])
  }

  /** The messages a receiving rank p gets in a successful run: the header, then its chunk. */
  function RankMsgs(lay: Layout, values: seq<seq<nat>>, npes: nat, p: nat): seq<Msg>
    requires p < npes && |lay.dims| == 2
  {
    HeaderMsgs(lay.dims)
      + ChunkMsgs(OwnedIds(lay.dims[1], npes, p), OwnedIds(lay.dims[0], npes, p), HedgeRows(values, lay.at, npes, p))
  }

  /** The shard holds rank p's part of the hypergraph. */
  ghost predicate HoldsRank(shard: Shard, lay: Layout, values: seq<seq<nat>>, npes: nat, p: nat)
    requires p < npes && |lay.dims| == 2
    reads shard, shard.eptr, shard.vGids, shard.hGids, shard.eind
  {
    shard.Holds(lay.dims[1], lay.dims[0], OwnedIds(lay.dims[1], npes, p), OwnedIds(lay.dims[0], npes, p),
                HedgeRows(values, lay.at, npes, p))
  }

  /**
   * The outcome of the coordinator reading the file from `pos`: it fails exactly when the
   * file cannot be laid out, with the same error; otherwise it keeps rank 0's part and rank
   * p (for p in 1..npes-1) was sent the header and its own chunk, and rank 0 nothing.
   */
  ghost predicate Coordinated(lines: seq<Line>, values: seq<seq<nat>>, pos: nat, npes: nat,
                              r: Result<Shard, Error>, sent: seq<seq<Msg>>)
    requires pos <= |lines| && npes > 0
    reads if r.Ok? then {r.value, r.value.eptr, r.value.vGids, r.value.hGids, r.value.eind} else {}
  {
    var lay := ReadLayout(lines, values, pos);
    && (r.Err? <==> lay.Err?)
    && (r.Err? ==> r.error == lay.error)
    && (r.Ok? ==>
          && HoldsRank(r.value, lay.value, values, npes, 0)
          && |sent| == npes && sent[0] == []
          && forall p :: 1 <= p < npes ==> sent[p] == RankMsgs(lay.value, values, npes, p))
  }

  /** The shard holds what a receiving rank took from its messages, the lengths turned into offsets. */
  ghost predicate Stores(shard: Shard, m: Received)
    reads shard, shard.eptr, shard.vGids, shard.hGids, shard.eind
  {
    && shard.Sized()
    && shard.nglobalH == m.nglobalH && shard.nglobalV == m.nglobalV
    && shard.vGids[..] == m.vids && shard.hGids[..] == m.hids
    && shard.eptr[..] == Offsets(m.lengths) && shard.eind[..] == m.pins
  }

  // ---------------------------------------------------------------------------
  // The size of the coordinator's `lengths` array

  /** The number of `lengths` slots as written (src/graph.c:183): one per hyperedge of a receiving rank. */
  function LengthsSlotsAsWritten(nh: nat, npes: nat): nat
    requires npes > 0
  {
    Target(nh, npes)
  }

  /**
   * The coordinator keeps `local_hedges` hyperedges and stores their lengths at
   * `lengths + (h - hstart)` (src/graph.c:228-229), so the slots as written run out
   * exactly when the hyperedges do not divide evenly.
   */
  lemma AsWrittenAccumOverruns(nh: nat, npes: nat)
    requires npes > 0
    ensures Share(nh, npes, 0) > LengthsSlotsAsWritten(nh, npes) <==> nh % npes != 0
  {
    var t := Target(nh, npes);
    assert nh == npes * t + nh % npes;
    assert npes * t == (npes - 1) * t + t;
  }

  /**
   * Whatever the file, the prefix sum on the coordinator's `eptr`, which is `lengths`
   * (src/graph.c:248, 254-256), reads and writes slot `local_hedges`, which the slots as
   * written do not include: PrefixSum's `n < eptr.Length` fails. For three hyperedges on
   * two ranks even the lengths overrun.
   */
  lemma AsWrittenPrefixSumOverruns(nh: nat, npes: nat)
    requires npes > 0
    ensures !(Share(nh, npes, 0) < LengthsSlotsAsWritten(nh, npes))
    ensures LengthsSlotsAsWritten(3, 2) == 1 && Share(3, 2, 0) == 2
  {
  }

  /** The corrected size: one slot per hyperedge the coordinator keeps, plus the closing offset. */
  function LengthsSlots(nh: nat, npes: nat): (slots: nat)
    requires npes > 0
    ensures Target(nh, npes) < slots && Share(nh, npes, 0) < slots
  {
    Share(nh, npes, 0) + 1
  }

  // ---------------------------------------------------------------------------
  // The coordinator

  /** The id loops of src/graph.c:199-201, 206-208, 238-240 and 241-243: `ids[v - start] = v`. */
  method FillIds(ids: array<nat>, start: nat)
    modifies ids
    ensures ids[..] == IdRange(start, start + ids.Length)
  {
    var v := start;
    while v < start + ids.Length
      invariant start <= v <= start + ids.Length
      invariant forall j :: 0 <= j < v - start ==> ids[j] == start + j
    {
      ids[v - start] := v;
      v := v + 1;
    }
  }
  /**
   * `chunks` are the line indices of the chunks dealt so far, `t` hyperedge lines each,
   * read in order from `first` up to `pos`.
   */
  ghost predicate Dealt(lines: seq<Line>, first: nat, pos: nat, chunks: seq<seq<nat>>, t: nat)
    requires first <= |lines|
  {
    && (forall q :: 0 <= q < |chunks| ==> |chunks[q]| == t)
    && DataLines(lines, first, |Flatten(chunks)|) == Read(Flatten(chunks), pos)
  }

  /**
   * What the ranks have been sent once the first `|chunks|` receiving ranks got their
   * chunks: nothing to rank 0, the header and its chunk to each of those ranks, and only
   * the header to the others.
   */
  ghost function Sends(dims: seq<nat>, npes: nat, values: seq<seq<nat>>, chunks: seq<seq<nat>>): (sent: seq<seq<Msg>>)
    requires |dims| == 2 && |chunks| < npes
    ensures |sent| == npes && sent[0] == []
  {
    seq(npes, q requires 0 <= q < npes =>
      if q == 0 then []
      else if q <= |chunks| then
        HeaderMsgs(dims) + ChunkMsgs(OwnedIds(dims[1], npes, q), OwnedIds(dims[0], npes, q), Rows(values, chunks[q - 1]))
      else HeaderMsgs(dims))
  }

  /**
   * One pass of the loop over receiving ranks (src/graph.c:186-218) for rank p: read
   * `htarget` hyperedge lines, number rank p's vertices and hyperedges, produce the sends of
   * its chunk and empty the buffer. `at` are the indices of the lines read.
   */
  method SendChunk(fin: LineStream, acc: ChunkBuffer, lengths: array<int>, vids: array<nat>, hids: array<nat>,
                   npes: nat, dims: seq<nat>, p: nat, ghost first: nat, ghost chunks: seq<seq<nat>>)
    returns (r: Result<seq<Msg>, Error>, ghost at: seq<nat>)
    requires 0 < p < npes && |dims| == 2 && |chunks| == p - 1
    requires fin.Valid() && acc.Valid() && acc.bsize == 0
    requires first <= |fin.lines| && Dealt(fin.lines, first, fin.pos, chunks, hids.Length)
    requires vids.Length == Target(dims[1], npes) && hids.Length == Target(dims[0], npes)
    requires hids.Length <= lengths.Length
    requires vids != hids && acc.buf != vids && acc.buf != hids
    requires hids.Length == 0 ==> acc.buf.Length == 0
    modifies fin, acc, lengths, vids, hids
    ensures fin.Valid() && acc.Valid()
    ensures r.Err? ==> r.error == InputExhausted && DataLines(fin.lines, first, RangeStart(dims[0], npes, 0)).Exhausted?
    ensures r.Ok? ==>
      && acc.bsize == 0 && acc.buf != vids && acc.buf != hids && (hids.Length == 0 ==> acc.buf.Length == 0)
      && Dealt(fin.lines, first, fin.pos, chunks + [at], hids.Length)
      && r.value == PackedChunk(OwnedIds(dims[1], npes, p), OwnedIds(dims[0], npes, p),
                                LineLengths(fin.values, at), Joined(fin.values, at))
  {
    ghost var pos := fin.pos;
    var ht := hids.Length;
    var got := acc.ReadChunk(fin, lengths, ht);
    if got.Err? {
      DealtStop(fin.lines, first, pos, chunks, dims[0], npes);
      return Err(got.error), [];
    }
    at := DataLines(fin.lines, pos, ht).at;
    DealtStep(fin.lines, first, pos, chunks, ht);
    var msgs := PackChunk(vids, hids, npes, dims, p, lengths[..ht], acc.buf[..got.value]);
    acc.Reset();
    return Ok(msgs), at;
  }

  /**
   * The sends of rank p's chunk (src/graph.c:195-216): the three counts, then the vertex and
   * hyperedge id arrays, numbered from `(p-1)*vtarget` and `(p-1)*htarget` first
   * (src/graph.c:199-201, 206-208), then the lengths and the pins of the lines at `at`.
   */
  method PackChunk(vids: array<nat>, hids: array<nat>, npes: nat, dims: seq<nat>, p: nat,
                   lens: seq<int>, pins: seq<nat>)
    returns (msgs: seq<Msg>)
    requires 0 < p < npes && |dims| == 2
    requires vids.Length == Target(dims[1], npes) && hids.Length == Target(dims[0], npes) && vids != hids
    modifies vids, hids
    ensures msgs == PackedChunk(OwnedIds(dims[1], npes, p), OwnedIds(dims[0], npes, p), lens, pins)
  {
    var vt := vids.Length;
    var ht := hids.Length;
    FillIds(vids, (p - 1) * vt);
    FillIds(hids, (p - 1) * ht);
    OwnedIdsOfReceiver(dims[1], npes, p);
    OwnedIdsOfReceiver(dims[0], npes, p);
    msgs := [ Ints([vt]), Ints([ht]), Ids([|pins|]), Ids(vids[..]), Ids(hids[..]), Ints(lens), Ids(pins) ];
  }

  /**
   * The loop over receiving ranks of `__send_graph` (src/graph.c:185-219): for p = 1, 2, ...
   * read `htarget` hyperedge lines, then send the counts, the vertex ids `[(p-1)*vtarget,
   * p*vtarget)`, the hyperedge ids `[(p-1)*htarget, p*htarget)`, the lengths and the pins,
   * and empty the buffer. `sent0` holds the header broadcast; `chunks` are the line indices
   * each receiving rank's chunk came from.
   */
  method SendChunks(fin: LineStream, acc: ChunkBuffer, lengths: array<int>, vids: array<nat>, hids: array<nat>,
                    npes: nat, dims: seq<nat>, sent0: seq<seq<Msg>>)
    returns (r: Result<seq<seq<Msg>>, Error>, ghost chunks: seq<seq<nat>>)
    requires npes > 0 && |dims| == 2
    requires fin.Valid() && acc.Valid() && acc.bsize == 0
    requires vids.Length == Target(dims[1], npes) && hids.Length == Target(dims[0], npes)
    requires hids.Length <= lengths.Length
    requires vids != hids && acc.buf != vids && acc.buf != hids
    requires hids.Length == 0 ==> acc.buf.Length == 0
    requires sent0 == Sends(dims, npes, fin.values, [])
    modifies fin, acc, lengths, vids, hids
    ensures fin.Valid() && acc.Valid()
    ensures r.Ok? <==> DataLines(fin.lines, old(fin.pos), RangeStart(dims[0], npes, 0)).Read?
    ensures r.Err? ==> r.error == InputExhausted
    ensures r.Ok? ==>
      && acc.bsize == 0 && (hids.Length == 0 ==> acc.buf.Length == 0)
      && |chunks| == npes - 1 && Dealt(fin.lines, old(fin.pos), fin.pos, chunks, hids.Length)
      && r.value == Sends(dims, npes, fin.values, chunks)
  {
    ghost var first := fin.pos;
    chunks := [];
    var sent := sent0;
    var p := 1;
    while p < npes
      invariant 1 <= p <= npes && |chunks| == p - 1
      invariant fin.Valid() && acc.Valid() && acc.bsize == 0
      invariant acc.buf != vids && acc.buf != hids
      invariant hids.Length == 0 ==> acc.buf.Length == 0
      invariant first <= |fin.lines| && Dealt(fin.lines, first, fin.pos, chunks, hids.Length)
      invariant sent == Sends(dims, npes, fin.values, chunks)
    {
      var msgs;
      ghost var at;
      msgs, at := SendChunk(fin, acc, lengths, vids, hids, npes, dims, p, first, chunks);
      if msgs.Err? {
        return Err(msgs.error), chunks;
      }
      JoinedRows(fin.values, at);
      SendsStep(dims, npes, fin.values, chunks, at);
      sent := sent[p := sent[p] + msgs.value];
      chunks := chunks + [at];
      p := p + 1;
    }
    DealtAll(fin.lines, first, fin.pos, chunks, dims[0], npes);
    return Ok(sent), chunks;
  }

  /** Dealing one more chunk of `t` lines read from `pos`. */
  lemma DealtStep(lines: seq<Line>, first: nat, pos: nat, chunks: seq<seq<nat>>, t: nat)
    requires first <= |lines| && Dealt(lines, first, pos, chunks, t)
    requires DataLines(lines, pos, t).Read?
    ensures Dealt(lines, first, DataLines(lines, pos, t).next, chunks + [DataLines(lines, pos, t).at], t)
  {
    var at := DataLines(lines, pos, t).at;
    DataLinesAppend(lines, first, |Flatten(chunks)|, t);
    assert (chunks + [at])[..|chunks|] == chunks;
  }

  /** With every receiving rank dealt its chunk, the lines up to the coordinator's range are read. */
  lemma DealtAll(lines: seq<Line>, first: nat, pos: nat, chunks: seq<seq<nat>>, nh: nat, npes: nat)
    requires npes > 0 && |chunks| == npes - 1
    requires first <= |lines| && Dealt(lines, first, pos, chunks, Target(nh, npes))
    ensures DataLines(lines, first, RangeStart(nh, npes, 0)) == Read(Flatten(chunks), pos)
  {
    EqualChunksLength(chunks, Target(nh, npes));
  }

  /** When a chunk cannot be read in full, the receiving ranks' lines cannot be read either. */
  lemma DealtStop(lines: seq<Line>, first: nat, pos: nat, chunks: seq<seq<nat>>, nh: nat, npes: nat)
    requires |chunks| + 1 < npes
    requires first <= |lines| && Dealt(lines, first, pos, chunks, Target(nh, npes))
    requires DataLines(lines, pos, Target(nh, npes)).Exhausted?
    ensures DataLines(lines, first, RangeStart(nh, npes, 0)).Exhausted?
  {
    var t := Target(nh, npes);
    var done := |Flatten(chunks)|;
    DataLinesAppend(lines, first, done, t);
    EqualChunksLength(chunks, t);
    ChunkEnd(|chunks| + 1, npes, t);
    EarlyEndExhausts(lines, first, done + t, RangeStart(nh, npes, 0));
  }

  /** Before any chunk is sent, every receiving rank has the header broadcast and rank 0 nothing. */
  lemma SendsNone(dims: seq<nat>, npes: nat, values: seq<seq<nat>>, sent: seq<seq<Msg>>)
    requires |dims| == 2 && npes > 0
    requires sent == [[]] + seq(npes - 1, _ => HeaderMsgs(dims))
    ensures sent == Sends(dims, npes, values, [])
  {
  }

  /** Sending rank `|chunks| + 1` its chunk. */
  lemma SendsStep(dims: seq<nat>, npes: nat, values: seq<seq<nat>>, chunks: seq<seq<nat>>, at: seq<nat>)
    requires |dims| == 2 && |chunks| + 1 < npes
    ensures var p := |chunks| + 1;
      Sends(dims, npes, values, chunks)[p := Sends(dims, npes, values, chunks)[p]
        + ChunkMsgs(OwnedIds(dims[1], npes, p), OwnedIds(dims[0], npes, p), Rows(values, at))]
      == Sends(dims, npes, values, chunks + [at])
  {
  }

  /**
   * The coordinator's own part (src/graph.c:222-256): read the remaining `localHedges`
   * hyperedge lines, allocate the shard, number its vertices from `vstart` and its
   * hyperedges from `hstart`, adopt `lengths` and the buffer as `eptr` and `eind`, and turn
   * the lengths into offsets. The counts are filled in as well.
   */
  method KeepRest(fin: LineStream, acc: ChunkBuffer, lengths: array<int>, dims: seq<nat>,
                  vstart: nat, localVtxs: nat, hstart: nat, localHedges: nat)
    returns (r: Result<Shard, Error>)
    requires |dims| == 2
    requires fin.Valid() && acc.Valid() && acc.bsize == 0
    requires lengths.Length == localHedges + 1
    requires localHedges == 0 ==> acc.buf.Length == 0
    modifies fin, acc, lengths
    ensures fin.Valid()
    ensures r.Ok? <==> DataLines(fin.lines, old(fin.pos), localHedges).Read?
    ensures r.Err? ==> r.error == InputExhausted
    ensures r.Ok? ==>
      r.value.Holds(dims[1], dims[0], IdRange(vstart, vstart + localVtxs), IdRange(hstart, hstart + localHedges),
                    Rows(fin.values, DataLines(fin.lines, old(fin.pos), localHedges).at))
  {
    ghost var pos := fin.pos;
    var got := acc.ReadChunk(fin, lengths, localHedges);
    if got.Err? {
      return Err(got.error);
    }
    ghost var at := DataLines(fin.lines, pos, localHedges).at;
    JoinedRows(fin.values, at);
    var hg := BuildShard(lengths, acc.buf, dims[1], dims[0], vstart, localVtxs, hstart, localHedges, Rows(fin.values, at));
    return Ok(hg);
  }

  /**
   * `hgraph_alloc` for the coordinator's counts, with the vertex ids numbered from `vstart`
   * and the hyperedge ids from `hstart` (src/graph.c:233-241); the counts are recorded.
   */
  method NumberedShard(nvtxs: nat, nhedges: nat, vstart: nat, localVtxs: nat, hstart: nat, localHedges: nat, ncon: nat)
    returns (hg: Shard)
    ensures fresh(hg) && fresh(hg.vGids) && fresh(hg.hGids) && hg.vGids != hg.hGids
    ensures hg.nglobalV == nvtxs && hg.nglobalH == nhedges
    ensures hg.nlocalV == localVtxs && hg.nlocalH == localHedges && hg.nlocalCon == ncon
    ensures hg.vGids[..] == IdRange(vstart, vstart + localVtxs)
    ensures hg.hGids[..] == IdRange(hstart, hstart + localHedges)
  {
    hg := new Shard.Alloc(localVtxs, localHedges, ncon);
    hg.nglobalV := nvtxs;
    hg.nglobalH := nhedges;
    hg.nlocalV := localVtxs;
    hg.nlocalH := localHedges;
    hg.nlocalCon := ncon;
    FillIds(hg.vGids, vstart);
    FillIds(hg.hGids, hstart);
  }

  /**
   * The coordinator's shard around its accumulated chunk (src/graph.c:233-256): allocate it,
   * number its vertices from `vstart` and its hyperedges from `hstart`, adopt `lengths` as
   * `eptr` and the pin buffer as `eind`, and turn the lengths into offsets in place.
   */
  method BuildShard(lengths: array<int>, pins: array<nat>, nvtxs: nat, nhedges: nat,
                    vstart: nat, localVtxs: nat, hstart: nat, localHedges: nat, ghost rows: seq<seq<nat>>)
    returns (hg: Shard)
    requires lengths.Length == localHedges + 1 && |rows| == localHedges
    requires lengths[..localHedges] == RowLengths(rows) && pins[..] == Flatten(rows)
    modifies lengths
    ensures hg.Holds(nvtxs, nhedges, IdRange(vstart, vstart + localVtxs), IdRange(hstart, hstart + localHedges), rows)
  {
    hg := NumberedShard(nvtxs, nhedges, vstart, localVtxs, hstart, localHedges, pins.Length);
    hg.eptr := lengths;
    hg.eind := pins;
    PrefixSum(hg.eptr, localHedges);
    assert lengths[..] == lengths[..localHedges + 1];
  }

  /**
   * `__send_graph` after the header (src/graph.c:170-256): broadcast the header, send every
   * receiving rank its chunk and keep the rest. It stops with InputExhausted exactly when
   * the file holds fewer than `dims[0]` more hyperedge lines.
   */
  method Scatter(fin: LineStream, npes: nat, dims: seq<nat>) returns (r: Result<Shard, Error>, sent: seq<seq<Msg>>)
    requires npes > 0 && |dims| == 2 && fin.Valid()
    modifies fin
    ensures fin.Valid()
    ensures r.Ok? <==> DataLines(fin.lines, old(fin.pos), dims[0]).Read?
    ensures r.Err? ==> r.error == InputExhausted
    ensures r.Ok? ==>
      var lay := Layout(dims, DataLines(fin.lines, old(fin.pos), dims[0]).at);
      && HoldsRank(r.value, lay, fin.values, npes, 0)
      && |sent| == npes && sent[0] == []
      && forall p :: 1 <= p < npes ==> sent[p] == RankMsgs(lay, fin.values, npes, p)
  {
    ghost var first := fin.pos;
    sent := [[]] + seq(npes - 1, _ => HeaderMsgs(dims));
    SendsNone(dims, npes, fin.values, sent);
    var nhedges := dims[0];
    var nvtxs := dims[1];
    var acc := new ChunkBuffer();
    var vids := new nat[Target(nvtxs, npes)];
    var hids := new nat[Target(nhedges, npes)];
    var lengths := new int[LengthsSlots(nhedges, npes)];
    var chunked;
    ghost var chunks;
    chunked, chunks := SendChunks(fin, acc, lengths, vids, hids, npes, dims, sent);
    var hstart := RangeStart(nhedges, npes, 0);
    var localHedges := Share(nhedges, npes, 0);
    if chunked.Err? {
      EarlyEndExhausts(fin.lines, first, hstart, nhedges);
      return Err(chunked.error), sent;
    }
    sent := chunked.value;
    ghost var mid := fin.pos;
    var kept := KeepRest(fin, acc, lengths, dims, RangeStart(nvtxs, npes, 0), Share(nvtxs, npes, 0), hstart, localHedges);
    if kept.Err? {
      RunStopsInRest(fin.lines, first, mid, chunks, nhedges, npes);
      return Err(kept.error), sent;
    }
    RunLayout(fin.lines, fin.values, first, dims, npes, chunks, mid, DataLines(fin.lines, mid, localHedges).at);
    return Ok(kept.value), sent;
  }

  /**
   * `__send_graph` (src/graph.c:144-264): open the file (SourceUnavailable when it cannot
   * be), read the header and stop unless it holds exactly two numbers (UnsupportedFormat),
   * then scatter the hyperedges.
   */
  method SendGraph(file: Option<LineStream>, npes: nat) returns (r: Result<Shard, Error>, sent: seq<seq<Msg>>)
    requires npes > 0
    requires file.Some? ==> file.value.Valid()
    modifies if file.Some? then {file.value} else {}
    ensures file.None? ==> r == Err(SourceUnavailable)
    ensures file.Some? ==>
      Coordinated(file.value.lines, file.value.values, old(file.value.pos), npes, r, sent)
  {
    if file.None? {
      return Err(SourceUnavailable), [];
    }
    var fin := file.value;
    var header := SplitLine(fin);
    if header.Err? {
      return Err(header.error), [];
    }
    var dimsArr := header.value;
    if dimsArr.Length != 2 {
      return Err(UnsupportedFormat), [];
    }
    assert Row(fin.values, fin.pos - 1) == dimsArr[..];
    r, sent := Scatter(fin, npes, dimsArr[..]);
  }

  /** When the coordinator's own lines run out, the file as a whole does. */
  lemma RunStopsInRest(lines: seq<Line>, first: nat, mid: nat, chunks: seq<seq<nat>>, nh: nat, npes: nat)
    requires npes > 0 && first <= |lines| && mid <= |lines|
    requires |chunks| == npes - 1 && Dealt(lines, first, mid, chunks, Target(nh, npes))
    requires DataLines(lines, mid, Share(nh, npes, 0)).Exhausted?
    ensures DataLines(lines, first, nh).Exhausted?
  {
    DealtAll(lines, first, mid, chunks, nh, npes);
    DataLinesAppend(lines, first, RangeStart(nh, npes, 0), Share(nh, npes, 0));
  }

  /**
   * A run that read the receiving ranks' chunks from `first` and then the coordinator's
   * lines `rest` read all the hyperedge lines, sent each receiving rank its own messages and
   * left the coordinator its own rows.
   */
  lemma RunLayout(lines: seq<Line>, values: seq<seq<nat>>, first: nat, dims: seq<nat>, npes: nat,
                  chunks: seq<seq<nat>>, mid: nat, rest: seq<nat>)
    requires npes > 0 && first <= |lines| && |dims| == 2
    requires |chunks| == npes - 1 && Dealt(lines, first, mid, chunks, Target(dims[0], npes))
    requires mid <= |lines| && DataLines(lines, mid, Share(dims[0], npes, 0)).Read?
    requires rest == DataLines(lines, mid, Share(dims[0], npes, 0)).at
    ensures DataLines(lines, first, dims[0]).Read? && DataLines(lines, first, dims[0]).at == Flatten(chunks) + rest
    ensures Rows(values, rest) == HedgeRows(values, Flatten(chunks) + rest, npes, 0)
    ensures forall p :: 1 <= p < npes ==>
      Sends(dims, npes, values, chunks)[p] == RankMsgs(Layout(dims, Flatten(chunks) + rest), values, npes, p)
  {
    var a := RangeStart(dims[0], npes, 0);
    var b := Share(dims[0], npes, 0);
    DealtAll(lines, first, mid, chunks, dims[0], npes);
    assert DataLines(lines, first, a) == Read(Flatten(chunks), mid);
    DataLinesAppend(lines, first, a, b);
    assert a + b == dims[0];
    assert DataLines(lines, first, dims[0]) == Read(Flatten(chunks) + rest, DataLines(lines, mid, b).next);
    RanksFromChunks(values, dims, npes, chunks, rest);
  }

  /** The rows and messages of every rank, from the chunks dealt and the coordinator's rest. */
  lemma RanksFromChunks(values: seq<seq<nat>>, dims: seq<nat>, npes: nat, chunks: seq<seq<nat>>, rest: seq<nat>)
    requires npes > 0 && |dims| == 2
    requires |chunks| == npes - 1 && forall q :: 0 <= q < |chunks| ==> |chunks[q]| == Target(dims[0], npes)
    requires |rest| == Share(dims[0], npes, 0)
    ensures Rows(values, rest) == HedgeRows(values, Flatten(chunks) + rest, npes, 0)
    ensures forall p :: 1 <= p < npes ==>
      Sends(dims, npes, values, chunks)[p] == RankMsgs(Layout(dims, Flatten(chunks) + rest), values, npes, p)
  {
    RankRowsFromChunks(values, chunks, rest, dims[0], npes, 0);
    forall p | 1 <= p < npes
      ensures Sends(dims, npes, values, chunks)[p] == RankMsgs(Layout(dims, Flatten(chunks) + rest), values, npes, p)
    {
      RankSends(values, dims, npes, chunks, rest, p);
    }
  }

  /** Rank p > 0 was sent the header and the chunk of its own range. */
  lemma RankSends(values: seq<seq<nat>>, dims: seq<nat>, npes: nat, chunks: seq<seq<nat>>, rest: seq<nat>, p: nat)
    requires 0 < p < npes && |dims| == 2
    requires |chunks| == npes - 1 && forall q :: 0 <= q < |chunks| ==> |chunks[q]| == Target(dims[0], npes)
    requires |rest| == Share(dims[0], npes, 0)
    ensures Sends(dims, npes, values, chunks)[p] == RankMsgs(Layout(dims, Flatten(chunks) + rest), values, npes, p)
  {
    var o := OwnedIds(dims[1], npes, p);
    var h := OwnedIds(dims[0], npes, p);
    assert Sends(dims, npes, values, chunks)[p] == HeaderMsgs(dims) + ChunkMsgs(o, h, Rows(values, chunks[p - 1]));
    RankRowsFromChunks(values, chunks, rest, dims[0], npes, p);
  }

  // ---------------------------------------------------------------------------
  // A receiving rank

  /**
   * The receives into the shard's arrays (src/graph.c:300-308) and the prefix sum on the
   * received lengths (src/graph.c:311-318).
   */
  method StoreChunk(hg: Shard, vids: seq<nat>, hids: seq<nat>, lengths: seq<int>, pins: seq<nat>)
    requires hg.vGids.Length == |vids| && hg.hGids.Length == |hids|
    requires hg.eptr.Length == |lengths| + 1 && hg.eind.Length == |pins|
    requires hg.vGids != hg.hGids && hg.vGids != hg.eind && hg.hGids != hg.eind
    modifies hg.vGids, hg.hGids, hg.eptr, hg.eind
    ensures hg.vGids[..] == vids && hg.hGids[..] == hids
    ensures hg.eptr[..] == Offsets(lengths) && hg.eind[..] == pins
  {
    forall i | 0 <= i < |vids| {
      hg.vGids[i] := vids[i];
    }
    forall i | 0 <= i < |hids| {
      hg.hGids[i] := hids[i];
    }
    forall i | 0 <= i < |lengths| {
      hg.eptr[i] := lengths[i];
    }
    forall i | 0 <= i < |pins| {
      hg.eind[i] := pins[i];
    }
    assert hg.eptr[..|lengths|] == lengths;
    PrefixSum(hg.eptr, |lengths|);
    assert hg.eptr[..] == hg.eptr[..|lengths| + 1];
    assert hg.vGids[..] == vids && hg.hGids[..] == hids && hg.eind[..] == pins;
  }

  /**
   * `__recv_graph` (src/graph.c:274-324): receive the header and the three counts,
   * allocate the shard, receive the ids, the lengths and the pins into it, turn the lengths
   * into offsets and record the global counts; the local counts are recorded as well.
   */
  method RecvGraph(inbox: seq<Msg>) returns (r: Result<Shard, Error>)
    ensures Receive(inbox).Err? ==> r == Err(Receive(inbox).error)
    ensures Receive(inbox).Ok? ==> r.Ok? && Stores(r.value, Receive(inbox).value)
  {
    var lenMsg :- IntsAt(inbox, 0, 1);
    if lenMsg[0] < 2 {
      return Err(Malformed);
    }
    var dims :- IdsAt(inbox, 1, lenMsg[0]);
    var nhedges := dims[0];
    var nvtxs := dims[1];
    var vtxsMsg :- IntsAt(inbox, 2, 1);
    var hedgesMsg :- IntsAt(inbox, 3, 1);
    var nconMsg :- IdsAt(inbox, 4, 1);
    if vtxsMsg[0] < 0 || hedgesMsg[0] < 0 {
      return Err(Malformed);
    }
    var localVtxs: nat := vtxsMsg[0];
    var localHedges: nat := hedgesMsg[0];
    var ncon := nconMsg[0];
    var hg := new Shard.Alloc(localVtxs, localHedges, ncon);
    hg.nglobalV := nvtxs;
    hg.nglobalH := nhedges;
    hg.nlocalV := localVtxs;
    hg.nlocalH := localHedges;
    hg.nlocalCon := ncon;
    var vids :- IdsAt(inbox, 5, localVtxs);
    var hids :- IdsAt(inbox, 6, localHedges);
    var lengths :- IntsAt(inbox, 7, localHedges);
    var pins :- IdsAt(inbox, 8, ncon);
    StoreChunk(hg, vids, hids, lengths, pins);
    return Ok(hg);
  }

  /**
   * `distribute_hgraph` (src/graph.c:331-343): rank 0 coordinates, every other rank
   * receives from its inbox.
   */
  method DistributeHGraph(rank: nat, npes: nat, file: Option<LineStream>, inbox: seq<Msg>)
    returns (r: Result<Shard, Error>, sent: seq<seq<Msg>>)
    requires rank < npes
    requires file.Some? ==> file.value.Valid()
    modifies if file.Some? then {file.value} else {}
    ensures rank == 0 && file.None? ==> r == Err(SourceUnavailable)
    ensures rank == 0 && file.Some? ==>
      Coordinated(file.value.lines, file.value.values, old(file.value.pos), npes, r, sent)
    ensures rank > 0 ==> sent == []
    ensures rank > 0 && Receive(inbox).Err? ==> r == Err(Receive(inbox).error)
    ensures rank > 0 && Receive(inbox).Ok? ==> r.Ok? && Stores(r.value, Receive(inbox).value)
  {
    if rank == 0 {
      r, sent := SendGraph(file, npes);
    } else {
      r := RecvGraph(inbox);
      sent := [];
    }
  }

  // ---------------------------------------------------------------------------
  // Properties of a run

  /** Rank p > 0 owns the ids `[(p-1)*t, (p-1)*t + t)`. */
  lemma OwnedIdsOfReceiver(n: nat, npes: nat, p: nat)
    requires 0 < p < npes
    ensures OwnedIds(n, npes, p) == IdRange((p - 1) * Target(n, npes), (p - 1) * Target(n, npes) + Target(n, npes))
  {
    var t := Target(n, npes);
    assert p * t == (p - 1) * t + t;
  }

  /** The chunk of rank p ends at `p*t`, which is within the `(npes-1)*t` ids of the receiving ranks. */
  lemma ChunkEnd(p: nat, npes: nat, t: nat)
    requires 0 < p < npes
    ensures (p - 1) * t + t == p * t <= (npes - 1) * t
  {
    MulMonotone(p, npes - 1, t);
  }

  /** Chunks of `t` line indices each, flattened: chunk q is the slice `[q*t, q*t + t)`. */
  lemma {:induction false} FlattenSlice(chunks: seq<seq<nat>>, t: nat, q: nat)
    requires forall i :: 0 <= i < |chunks| ==> |chunks[i]| == t
    requires q < |chunks|
    ensures |Flatten(chunks)| == |chunks| * t
    ensures q * t + t <= |Flatten(chunks)| && Flatten(chunks)[q * t..q * t + t] == chunks[q]
    decreases |chunks|
  {
    var init := chunks[..|chunks| - 1];
    var f := Flatten(init);
    EqualChunksLength(init, t);
    assert |chunks| * t == |init| * t + t;
    if q < |init| {
      FlattenSlice(init, t, q);
      MulMonotone(q + 1, |init|, t);
      assert Flatten(chunks)[q * t..q * t + t] == f[q * t..q * t + t];
    } else {
      assert Flatten(chunks)[q * t..q * t + t] == Flatten(chunks)[|f|..];
    }
  }

  lemma {:induction false} EqualChunksLength(chunks: seq<seq<nat>>, t: nat)
    requires forall i :: 0 <= i < |chunks| ==> |chunks[i]| == t
    ensures |Flatten(chunks)| == |chunks| * t
    decreases |chunks|
  {
    if chunks != [] {
      EqualChunksLength(chunks[..|chunks| - 1], t);
      assert |chunks| * t == (|chunks| - 1) * t + t;
    }
  }

  /**
   * The hyperedges as the coordinator reads them, one chunk of `t` per receiving rank and
   * then the rest, give every rank the rows of its own range.
   */
  lemma RankRowsFromChunks(values: seq<seq<nat>>, chunks: seq<seq<nat>>, rest: seq<nat>, nh: nat, npes: nat, p: nat)
    requires npes > 0 && p < npes
    requires |chunks| == npes - 1 && forall i :: 0 <= i < |chunks| ==> |chunks[i]| == Target(nh, npes)
    requires |rest| == Share(nh, npes, 0)
    ensures |Flatten(chunks) + rest| == nh
    ensures HedgeRows(values, Flatten(chunks) + rest, npes, p) == Rows(values, if p == 0 then rest else chunks[p - 1])
  {
    var t := Target(nh, npes);
    var f := Flatten(chunks);
    var at := f + rest;
    EqualChunksLength(chunks, t);
    assert |at| == nh;
    if p == 0 {
      assert at[RangeStart(nh, npes, 0)..RangeEnd(nh, npes, 0)] == rest;
    } else {
      FlattenSlice(chunks, t, p - 1);
      ChunkEnd(p, npes, t);
      assert at[RangeStart(nh, npes, p)..RangeEnd(nh, npes, p)] == f[(p - 1) * t..(p - 1) * t + t];
    }
  }

  /**
   * The ranks' id lists are disjoint and cover every id: id `x < n` is in rank p's list
   * exactly when p is its owner.
   */
  lemma OwnedIdsPartition(n: nat, npes: nat, p: nat, x: nat)
    requires p < npes && x < n
    ensures x in OwnedIds(n, npes, p) <==> Owner(n, npes, x) == p
  {
    var lo := RangeStart(n, npes, p);
    var ids := OwnedIds(n, npes, p);
    OwnerIsUnique(n, npes, x, p);
    if lo <= x < RangeEnd(n, npes, p) {
      assert ids[x - lo] == x;
    }
  }

  /**
   * In a successful run, what receiving rank p takes from its messages is its own part:
   * the global counts, its vertex and hyperedge ids, and the lengths and pins of its rows.
   */
  lemma ReceiverGetsItsPart(lay: Layout, values: seq<seq<nat>>, npes: nat, p: nat)
    requires 0 < p < npes && |lay.dims| == 2 && |lay.at| == lay.dims[0]
    ensures
      var rows := HedgeRows(values, lay.at, npes, p);
      Receive(RankMsgs(lay, values, npes, p))
        == Ok(Received(lay.dims[0], lay.dims[1], OwnedIds(lay.dims[1], npes, p), OwnedIds(lay.dims[0], npes, p),
                       RowLengths(rows), Flatten(rows)))
  {
    ReceiveChunk(lay.dims, OwnedIds(lay.dims[1], npes, p), OwnedIds(lay.dims[0], npes, p),
                 HedgeRows(values, lay.at, npes, p));
  }

  /**
   * End to end: a receiving rank whose shard stores what it took from the messages of a
   * successful run holds exactly its part of the hypergraph, as the coordinator holds its own.
   */
  lemma ReceiverHoldsItsPart(shard: Shard, lay: Layout, values: seq<seq<nat>>, npes: nat, p: nat)
    requires 0 < p < npes && |lay.dims| == 2 && |lay.at| == lay.dims[0]
    requires Receive(RankMsgs(lay, values, npes, p)).Ok?
    requires Stores(shard, Receive(RankMsgs(lay, values, npes, p)).value)
    ensures HoldsRank(shard, lay, values, npes, p)
  {
    ReceiverGetsItsPart(lay, values, npes, p);
  }
}
