/**
 * The messages of a distribution run (src/graph.c:170-216 on the coordinator,
 * src/graph.c:278-308 on a receiving rank): the header broadcast, then seven
 * point-to-point sends per receiving rank, all with tag 0. A message carries either
 * `MPI_INT` values or `ZOLTAN_ID_MPI_TYPE` ids; a receiving rank sees its messages in the
 * order they were sent.
 */
module Protocol {
  import opened Wrappers
  import opened Csr

  datatype Msg = Ints(vals: seq<int>) | Ids(ids: seq<nat>)

  /** The header broadcast (src/graph.c:170-171): its number of values, then the values. */
  function HeaderMsgs(dims: seq<nat>): (ms: seq<Msg>)
    ensures IntsAt(ms, 0, 1) == Ok([|dims|]) && IdsAt(ms, 1, |dims|) == Ok(dims)
  {
    [Ints([|dims|]), Ids(dims)]
  }

  /**
   * The sends of one chunk (src/graph.c:195-216): the vertex count, the hyperedge count,
   * the pin count, the vertex ids, the hyperedge ids, the hyperedge lengths and the pins.
   * The pin count is the total of the row lengths, and each array is received whole by a
   * receive of the size its count announces.
   */
  function ChunkMsgs(vids: seq<nat>, hids: seq<nat>, rows: seq<seq<nat>>): (ms: seq<Msg>)
    ensures |ms| == 7
    ensures IdsAt(ms, 2, 1) == Ok([|Flatten(rows)|]) && |Flatten(rows)| == Sum(RowLengths(rows))
    ensures IntsAt(ms, 5, |rows|) == Ok(RowLengths(rows))
    ensures IdsAt(ms, 6, |Flatten(rows)|) == Ok(Flatten(rows))
  {
    FlattenLength(rows);
    PackedChunk(vids, hids, RowLengths(rows), Flatten(rows))
  }

  /**
   * The same sends, given the lengths and the pins of the chunk's hyperedges: each array
   * goes after the count that sizes its receive.
   */
  function PackedChunk(vids: seq<nat>, hids: seq<nat>, lengths: seq<int>, pins: seq<nat>): (ms: seq<Msg>)
    ensures |ms| == 7
    ensures IntsAt(ms, 0, 1) == Ok([|vids|]) && IdsAt(ms, 3, |vids|) == Ok(vids)
    ensures IntsAt(ms, 1, 1) == Ok([|hids|]) && IdsAt(ms, 4, |hids|) == Ok(hids)
    ensures IdsAt(ms, 2, 1) == Ok([|pins|]) && IdsAt(ms, 6, |pins|) == Ok(pins)
    ensures IntsAt(ms, 5, |lengths|) == Ok(lengths)
  {
    [ Ints([|vids|]), Ints([|hids|]), Ids([|pins|]), Ids(vids), Ids(hids), Ints(lengths), Ids(pins) ]
  }

  /**
   * An `MPI_Recv` or `MPI_Bcast` of `n` `MPI_INT` values as the `i`-th receive: Stalled when
   * no such message was sent, Malformed when it has another type or size.
   */
  function IntsAt(inbox: seq<Msg>, i: nat, n: nat): (r: Result<seq<int>, Error>)
    ensures r.Ok? ==> i < |inbox| && inbox[i] == Ints(r.value) && |r.value| == n
  {
    if i >= |inbox| then Err(Stalled)
    else match inbox[i]
      case Ints(vals) => if |vals| == n then Ok(vals) else Err(Malformed)
      case Ids(_) => Err(Malformed)
  }

  /** The same for `n` ids. */
  function IdsAt(inbox: seq<Msg>, i: nat, n: nat): (r: Result<seq<nat>, Error>)
    ensures r.Ok? ==> i < |inbox| && inbox[i] == Ids(r.value) && |r.value| == n
  {
    if i >= |inbox| then Err(Stalled)
    else match inbox[i]
      case Ids(ids) => if |ids| == n then Ok(ids) else Err(Malformed)
      case Ints(_) => Err(Malformed)
  }

  /** What a receiving rank takes from its messages. */
  datatype Received = Received(
    nglobalH: nat, nglobalV: nat,
    vids: seq<nat>, hids: seq<nat>,
    lengths: seq<int>, pins: seq<nat>)

  /**
   * The receives of `__recv_graph` in order (src/graph.c:280-308): the header length and
   * values (the first two are the global hyperedge and vertex counts), the local vertex,
   * hyperedge and pin counts, then as many vertex ids, hyperedge ids, lengths and pins as
   * those counts announce. A header of fewer than two values, or a negative count, cannot
   * be used and is Malformed.
   */
  function Receive(inbox: seq<Msg>): (r: Result<Received, Error>)
    ensures r.Ok? ==> |inbox| >= 9 && |r.value.hids| == |r.value.lengths|
  {
    var lenMsg :- IntsAt(inbox, 0, 1);
    if lenMsg[0] < 2 then Err(Malformed)
    else
      var dims :- IdsAt(inbox, 1, lenMsg[0]);
      var vtxs :- IntsAt(inbox, 2, 1);
      var hedges :- IntsAt(inbox, 3, 1);
      var ncon :- IdsAt(inbox, 4, 1);
      if vtxs[0] < 0 || hedges[0] < 0 then Err(Malformed)
      else
        var vids :- IdsAt(inbox, 5, vtxs[0]);
        var hids :- IdsAt(inbox, 6, hedges[0]);
        var lengths :- IntsAt(inbox, 7, hedges[0]);
        var pins :- IdsAt(inbox, 8, ncon[0]);
        Ok(Received(dims[0], dims[1], vids, hids, lengths, pins))
  }

  /**
   * The round trip: the messages the coordinator sends for a two-value header and a chunk
   * of hyperedges with their rows are received as exactly that chunk, with the rows given
   * by their lengths and their pins.
   */
  lemma ReceiveChunk(dims: seq<nat>, vids: seq<nat>, hids: seq<nat>, rows: seq<seq<nat>>)
    requires |dims| == 2 && |hids| == |rows|
    ensures Receive(HeaderMsgs(dims) + ChunkMsgs(vids, hids, rows))
         == Ok(Received(dims[0], dims[1], vids, hids, RowLengths(rows), Flatten(rows)))
  {
    var inbox := HeaderMsgs(dims) + ChunkMsgs(vids, hids, rows);
    assert inbox[0] == Ints([2]) && inbox[1] == Ids(dims);
    assert inbox[2] == Ints([|vids|]) && inbox[3] == Ints([|hids|]) && inbox[4] == Ids([|Flatten(rows)|]);
    assert inbox[5] == Ids(vids) && inbox[6] == Ids(hids);
    assert inbox[7] == Ints(RowLengths(rows)) && inbox[8] == Ids(Flatten(rows));
  }

  /** A rank whose messages stop short waits forever: every proper prefix of a chunk's messages stalls. */
  lemma TruncatedChunkStalls(dims: seq<nat>, vids: seq<nat>, hids: seq<nat>, rows: seq<seq<nat>>, n: nat)
    requires |dims| == 2 && |hids| == |rows| && n < 9
    ensures Receive((HeaderMsgs(dims) + ChunkMsgs(vids, hids, rows))[..n]) == Err(Stalled)
  {
    var full := HeaderMsgs(dims) + ChunkMsgs(vids, hids, rows);
    var inbox := full[..n];
    assert forall i :: 0 <= i < n ==> inbox[i] == full[i];
    assert full[0] == Ints([2]) && full[1] == Ids(dims);
    assert full[2] == Ints([|vids|]) && full[3] == Ints([|hids|]) && full[4] == Ids([|Flatten(rows)|]);
    assert full[5] == Ids(vids) && full[6] == Ids(hids);
    assert full[7] == Ints(RowLengths(rows)) && full[8] == Ids(Flatten(rows));
  }
}
