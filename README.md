# zpart hypergraph distribution, modelled in Dafny

This project models the hypergraph loading and distribution core of zpart
(`src/graph.c`, `src/graph.h`). zpart is a driver for Zoltan's parallel
hypergraph partitioner.

- **Coordinator (rank 0).** It reads a text hypergraph file. The first data line is the
  header `nhedges nvtxs`; then comes one line of vertex ids per hyperedge, and comment
  lines start with `#` or `%`. With `t = n / npes`, rank p in `1..npes-1` is sent the
  ids `[(p-1)t, pt)` of the vertices and of the hyperedges, together with the pin lists
  of its hyperedges. Rank 0 keeps the tail, remainder included.
- **Other ranks.** Each receives its chunk and rebuilds the compressed-by-hyperedge
  arrays (`eptr`, `eind`) with a prefix sum.
- **Query callbacks.** Four callbacks hand the shard to Zoltan.

The model is imperative, as the C code is:

- The input file is a `LineStream` object.
- The growing incidence buffer is a `ChunkBuffer` object.
- The shard is a `Shard` object with array fields.
- Every loop of the source is a `while`/`for` loop with invariants.

Each method is proved against specification functions:

- `LineValues` gives the numbers on a line.
- `DataLines` gives the positions of the next data lines.
- `Offsets`, `Flatten` and `RowLengths` describe the compressed layout.
- `OwnedIds` and `HedgeRows` give a rank's ranges.
- `HeaderMsgs`, `ChunkMsgs` and `Receive` describe the messages.

Modules:

- `Wrappers`: `Option`, `Result` and the error kinds.
- `LineText`: `strlen`, `__rstrip_line`, `strtok` on space/tab, `strtoll` base 10.
- `LineReader`: the line stream, comment skipping, `__split_line`.
- `Csr`: flattening, offsets, the in-place prefix sum.
- `Ranges`: ownership ranges.
- `ChunkAccum`: the `__accum_line` buffer.
- `HGraph`: the `hgraph` record, `hgraph_alloc` and the query callbacks.
- `Protocol`: message sequences and the receive order.
- `Distribution`: `__send_graph`, `__recv_graph`, `distribute_hgraph` and the
  whole-run properties.

The main end-to-end results:

- **Coordinator.** `Distribution.SendGraph` ends in the state `Coordinated`:
  - It fails exactly when the file cannot be laid out, with the same error.
  - On success it keeps rank 0's range of the hypergraph.
  - It has sent every rank p ≥ 1 the header and exactly its own chunk.
- **Receiving rank.** `Distribution.RecvGraph` stores what `Receive` takes from the inbox.
- **Whole run.** The two halves fit together: `Protocol.ReceiveChunk`,
  `Distribution.ReceiverGetsItsPart` and `Distribution.ReceiverHoldsItsPart` show that
  rank p ends up holding exactly its range. `Ranges.OwnerIsUnique` and
  `Distribution.OwnedIdsPartition` show the ranges are disjoint and together cover all ids.

## Behaviour of the code that the model keeps

- **Blank and whitespace-only lines are not skipped.** Only lines starting with `#` or
  `%` are skipped (src/graph.c:70). The strip never removes index 0 (src/graph.c:34), so
  a line made only of whitespace keeps its first character
  (`LineReader.WhitespaceLineValues`):
  - When that character is a space or a tab, `strtok` finds no token and the line reads
    as no numbers. `"  \n"` and `"\t\t\n"` both give an empty hyperedge
    (`LineReader.WhitespaceLineReadsNothing`).
  - When it is `\n`, `\r`, `\v` or `\f`, `strtok` sees it as one token and `strtoll`
    reads 0 from it. So `"\n"` and the CRLF line `"\r\n"` both read as `[0]`, a
    hyperedge holding vertex 0 (`LineReader.BlankLineReadsZero`,
    `LineReader.CrLfLineReadsZero`).
- **Rank 0 keeps the tail.** With `t = n / npes`, rank p ≥ 1 gets `[(p-1)t, pt)` and
  rank 0 gets the last range `[(npes-1)t, n)`, remainder included (src/graph.c:200, 207,
  226-227). `Ranges.Owner` follows this.

## Where the model corrects the code

Each of these is a defect in the source. The model uses the evident intent instead:

- **Root connection count.** The coordinator's `idx_t ncon` for its own chunk is never
  initialised (src/graph.c:225). The model starts it at 0, as for the other chunks
  (src/graph.c:186).
- **Size of `lengths`.** The `lengths` array has `htarget` slots (src/graph.c:183).
  The coordinator writes `local_hedges` lengths into it and the prefix sum then touches
  `local_hedges + 1` slots (src/graph.c:228-229, 248-258). The model allocates
  `local_hedges + 1` slots (see Findings).
- **Comment lines.** Each pass of the comment-skipping loop frees `line` but leaves the
  pointer and `len` as they were (src/graph.c:62-64). After a `#` or `%` line, `getline`
  is handed the freed block, and writes into it or reallocates it; the final
  `free(line)` (src/graph.c:94) can then free it a second time. Any input with a comment
  before a data line is affected. The model reads every line into a new buffer
  (`LineReader.LineStream.GetLine` returns a fresh array), as if `line = NULL` followed
  the `free`.
- **Local counts.** `nlocal_v`, `nlocal_h` and `nlocal_con` are never assigned by either
  half, and the coordinator never assigns `nglobal_v` and `nglobal_h` (src/graph.c:236,
  299, 320-321). The query callbacks read the three local counts (src/graph.c:386, 399,
  424-425, 441-443).
  - The model records all five counts right after allocating the shard.
  - `HGraph.Shard.Sized` ties each count to its array's length.

## Model

| member | source | states |
|---|---|---|
| LineText.Stripped | src/graph.c:31-41 | The buffer keeps its size; its C string becomes the first `KeptLength` characters; index 0 and everything after the terminator are unchanged. |
| LineText.KeptLength | src/graph.c:34-40 | The strip removes only whitespace, and stops at a non-space or at index 1. |
| LineText.RStripLine | src/graph.c:31-41 | After the backward loop the buffer equals `Stripped(old buffer)`. |
| LineText.StrLen | src/graph.c:34 | The C-string length: no NUL before it, and a NUL at it unless the buffer ends first. The strip loop starts below it and the copy at src/graph.c:76 is sized by it. |
| LineText.Tokens | src/graph.c:81-85 | Every token is non-empty and holds no space or tab. |
| LineText.Strtok | src/graph.c:81-84 | One call skips delimiters, returns the token up to the next space/tab and consumes that delimiter; it returns none only when delimiters alone remain. |
| LineText.StrtokFindsTokens | src/graph.c:80-85 | Successive `strtok` calls produce exactly the tokens of the string, in order. |
| LineText.CountTokens | src/graph.c:79-85 | The counting loop returns the number of tokens. |
| LineText.ParseValues | src/graph.c:88-93 | A fresh array holds the results of `count` successive `strtoll` calls. |
| LineText.Strtoll | src/graph.c:92 | One call returns a value and an `end` that lies between the start and the end of the string; `StrtollReads` says which. |
| LineText.StrtollReads | src/graph.c:92 | For `Strtoll`: `strtoll` skips leading whitespace; `end` moves exactly when a digit follows it, and then the value is that of the longest digit run; with no digit the value is 0 and `end` stays at the start. |
| LineText.StrtollReadsToken | src/graph.c:92 | On a digit token, one `strtoll` skips the delimiters before it and reads exactly that token. |
| LineText.ScanReadsTokens | src/graph.c:88-93 | When every token is a digit string, value i is the decimal value of token i. |
| LineReader.LineStream.constructor | src/graph.c:149 | An opened file reads from its first line. |
| LineReader.LineStream.GetLine | src/graph.c:64 | Returns the next line in a fresh buffer and advances; returns none, without moving, at end of input. |
| LineReader.NextData | src/graph.c:62-70 | The data line found lies between the position and the end. |
| LineReader.NextDataSkipsComments | src/graph.c:62-70 | The line found is not a comment (`IsComment`: first character `#` or `%`) and every line skipped is one; none is found exactly when only comments remain. |
| LineReader.SkipComments | src/graph.c:62-70 | Returns the next non-comment line in a fresh buffer and moves past it; at end of input returns none (the fatal exit). |
| LineReader.StrippedTextInBuffer | src/graph.c:73-77 | The copy made for counting is the C string left by the strip. |
| LineReader.SplitLine | src/graph.c:53-98 | Fails with InputExhausted exactly when no data line remains; otherwise returns that line's numbers and moves past it. |
| LineReader.LineValues | src/graph.c:73-97 | The array `__split_line` returns has one number per token of the stripped line (`nvals` is the token count). |
| LineReader.LineValuesAreTokenValues | src/graph.c:73-93 | A data line gives one number per token, and digit tokens give their decimal values. |
| LineReader.DataLines | src/graph.c:185-190 | Reading `count` data lines finds `count` line indices and moves forward. |
| LineReader.DataLinesAppend | src/graph.c:185-230 | Reading `a` data lines and then `b` more is reading `a + b`; it fails when the second part does. |
| LineReader.BlankLineReadsZero | src/graph.c:70 | A blank line is not skipped; it reads as the single value 0. |
| LineReader.WhitespaceLineReadsNothing | src/graph.c:34-40 | A line of several blanks reads as no numbers. |
| LineReader.WhitespaceLineValues | src/graph.c:34-92 | A whitespace-only line reads as no numbers when it starts with a space or a tab, and as the single value 0 otherwise. |
| LineReader.CrLfLineReadsZero | src/graph.c:34-92 | The CRLF blank line `"\r\n"` reads as the single value 0. |
| Csr.RowLengths | src/graph.c:124 | Entry i is the length of row i. |
| Csr.Offsets | src/graph.c:251-258 | Offsets start at 0, have one entry more than the lengths, and each adds the previous length. |
| Csr.OffsetsEndIsSum | src/graph.c:251-258 | The last offset is the sum of the lengths. |
| Csr.OffsetsMonotone | src/graph.h:29 | With no negative length the offsets never decrease. |
| Csr.FlattenLength | src/graph.c:125 | The pin count equals the sum of the hyperedge lengths. |
| Csr.FlattenAppend | src/graph.c:127-129 | Flattening two row lists in sequence is flattening their concatenation. |
| Csr.OffsetsDelimitRows | src/graph.h:29 | Offsets built from the row lengths cut the flattened pins back into exactly the rows. |
| Csr.PrefixSum | src/graph.c:251-258 | `eptr[0..n]` becomes `Offsets` of the old `eptr[0..n)`; slots past `n` are untouched. |
| Ranges.Share | src/graph.c:179-234 | With `t = Target = n / npes`, rank p ≥ 1's range `[RangeStart, RangeEnd)` is `[(p-1)t, pt)` and rank 0's is `[(npes-1)t, n)`. Ranks 1..npes-1 own `t` ids each; rank 0 owns `n - (npes-1)t ≥ t`; every range ends within `n`. |
| Ranges.IdRange | src/graph.c:200-203 | The ids `lo, lo+1, ..., hi-1`. |
| Ranges.RangeBounds | src/graph.c:226-234 | Every range lies inside `[0, n)`, with the sizes above. |
| Ranges.OwnerIsUnique | src/graph.c:185-244 | `Owner` gives id `x < (npes-1)t` to rank `x / t + 1` and every later id to rank 0. Id `x < n` lies in rank p's range exactly when p is its owner, so the ranges are disjoint and cover `[0, n)`. |
| ChunkAccum.ChunkBuffer.constructor | src/graph.c:176-177 | The buffer starts empty. |
| ChunkAccum.ChunkBuffer.Reset | src/graph.c:218 | The size drops to 0 and the storage is kept. |
| ChunkAccum.ChunkBuffer.Append | src/graph.c:127-129 | The buffer grows to `bsize + len` entries: the old ones, then the new line's numbers. |
| ChunkAccum.ChunkBuffer.AccumLine | src/graph.c:112-133 | Stores the next data line's length and appends its numbers; returns the connection count plus that length; fails with InputExhausted at end of input. |
| ChunkAccum.ChunkBuffer.ReadChunk | src/graph.c:186-190 | Succeeds exactly when `count` more data lines exist. The buffer then holds their numbers in order, `lengths[0..count)` their lengths, and the connection count is the number of entries. |
| ChunkAccum.JoinedRows | src/graph.c:186-190 | The accumulated buffer and lengths are the flattened rows and the row lengths of the lines read. |
| ChunkAccum.EarlyEndExhausts | src/graph.c:65-69 | Once the input ends, reading more lines fails as well. |
| HGraph.Shard.Alloc | src/graph.c:347-362 | Fresh, distinct arrays of `local_vtxs`, `local_hedges`, `local_hedges + 1` and `local_connections` entries. |
| HGraph.Shard.HoldsIsValid | src/graph.h:29 | A shard holding hyperedge rows is `Valid`: `Sized` (each array as long as its count; the vertex-id, hyperedge-id and pin arrays distinct), and `eptr` starts at 0, never decreases, ends at `nlocal_con`, and cuts `eind` into those rows. |
| HGraph.Shard.GetNvtx | src/graph.c:381-388 | Status OK; on a sized shard, the number of vertex ids. |
| HGraph.Shard.GetNetsizes | src/graph.c:415-429 | Compressed-edge format and status OK; on a valid shard, the hyperedge count and the pin count, which is the last offset. |
| HGraph.Shard.GetVlist | src/graph.c:390-411 | Copies the vertex ids and nothing beyond them. Only when `lid_size > 0` and `lids` are given, numbers the local ids `0..nlocal_v-1`; otherwise `lids` is unchanged. Status OK. |
| HGraph.Shard.GetHlist | src/graph.c:432-461 | FATAL exactly when the counts or the format disagree, and then nothing is copied. Otherwise it copies the hyperedge ids, the first `nhedges` offsets and the pins, and nothing else. |
| Protocol.HeaderMsgs | src/graph.c:170-171 | The two broadcasts: the receiver's `MPI_Bcast` of one `int` gets the header length, and the next, of that many ids, gets the header values (src/graph.c:280-282). |
| Protocol.PackedChunk | src/graph.c:195-215 | Seven sends; each count goes before the array it sizes, and a receive of that size takes the array whole. |
| Protocol.ChunkMsgs | src/graph.c:195-215 | The seven sends of a chunk of rows: the pin count is the total of the row lengths, the lengths message holds one length per row, and the pins message is the rows flattened. |
| Protocol.IntsAt | src/graph.c:279-308 | A receive that succeeds took a message of the right kind and size at that position. |
| Protocol.IdsAt | src/graph.c:279-308 | The same for id messages. |
| Protocol.Receive | src/graph.c:278-308 | A successful receive sequence took nine messages, and the lengths are as many as the hyperedge ids. |
| Protocol.ReceiveChunk | src/graph.c:170-308 | Round trip: the header and a chunk's seven sends are received as exactly that chunk, with the rows' lengths and pins. |
| Protocol.TruncatedChunkStalls | src/graph.c:293-308 | A rank that gets only a proper prefix of those messages waits forever. |
| Distribution.ReadLayout | src/graph.c:158-230 | A layout that reads has exactly two header values and one line per hyperedge. |
| Distribution.OwnedIds | src/graph.c:199-243 | Rank p's id list has as many ids as its share. |
| Distribution.HedgeRows | src/graph.c:185-230 | Rank p's rows are as many as its hyperedge share. |
| Distribution.AsWrittenAccumOverruns | src/graph.c:183-229 | With `htarget` slots, the coordinator's lengths overrun exactly when `nhedges % npes != 0`. |
| Distribution.AsWrittenPrefixSumOverruns | src/graph.c:248-258 | With `htarget` slots, the prefix sum always lacks slot `local_hedges`; for 3 hyperedges on 2 ranks even the lengths overrun. |
| Distribution.LengthsSlots | src/graph.c:183 | The corrected size covers every rank's lengths, plus the closing offset. |
| Distribution.FillIds | src/graph.c:199-203 | `ids[v - start] = v` for the whole array. |
| Distribution.Sends | src/graph.c:170-219 | One message list per rank; rank 0 is sent nothing. |
| Distribution.PackChunk | src/graph.c:195-215 | Rank p's seven sends: the counts, the ids of its ranges, the lengths and the pins. |
| Distribution.SendChunk | src/graph.c:186-218 | Reads `htarget` lines and returns rank p's sends for them, then empties the buffer; fails only when the receiving ranks' lines run out. |
| Distribution.SendChunks | src/graph.c:185-219 | Succeeds exactly when the `(npes-1)t` receiving ranks' lines exist. It then has sent rank p the header and the chunk of the p-th `t` lines. |
| Distribution.NumberedShard | src/graph.c:233-244 | A fresh shard whose vertex and hyperedge ids are the coordinator's ranges. |
| Distribution.BuildShard | src/graph.c:236-258 | Taking over the accumulated lengths and pins and running the prefix sum gives a shard holding exactly those rows. |
| Distribution.KeepRest | src/graph.c:222-258 | Succeeds exactly when `local_hedges` more lines exist; the shard then holds the coordinator's ids and those rows. |
| Distribution.Scatter | src/graph.c:170-258 | Succeeds exactly when `nhedges` hyperedge lines follow. Rank 0 then holds its part and rank p was sent the header and its own chunk. |
| Distribution.SendGraph | src/graph.c:144-263 | SourceUnavailable without a file; otherwise the run is `Coordinated` (described in the introduction). |
| Distribution.RunStopsInRest | src/graph.c:228-230 | When the coordinator's own lines run out, the whole file lacks hyperedge lines. |
| Distribution.RunLayout | src/graph.c:185-230 | The chunks and the rest are the file's hyperedge lines in order, and every rank's messages and rows follow from them. |
| Distribution.RankRowsFromChunks | src/graph.c:185-234 | Chunk p-1 is the rows of rank p's range, and the rest is rank 0's. |
| Distribution.StoreChunk | src/graph.c:300-318 | The shard's arrays hold the received ids and pins, and the offsets of the received lengths. |
| Distribution.RecvGraph | src/graph.c:274-324 | Fails with the first receive's error; otherwise the shard stores what `Receive` took, with the global counts. |
| Distribution.DistributeHGraph | src/graph.c:331-343 | Rank 0 coordinates as `SendGraph` does; every other rank sends nothing and receives as `RecvGraph` does. |
| Distribution.OwnedIdsOfReceiver | src/graph.c:200-209 | Rank p ≥ 1 owns `[(p-1)t, (p-1)t + t)`. |
| Distribution.OwnedIdsPartition | src/graph.c:179-244 | Id `x < n` is in rank p's id list exactly when p is its owner. |
| Distribution.ReceiverGetsItsPart | src/graph.c:195-308 | What rank p receives in a successful run is its ids, its global counts, and its rows' lengths and pins. |
| Distribution.ReceiverHoldsItsPart | src/graph.c:195-321 | A rank that stores what it received holds exactly its part of the hypergraph. |

## Left out

- MPI itself is not modelled: communicators, ranks, the tag and blocking. A run is the
  coordinator's list of message lists plus one inbox per receiving rank. A missing
  message is Stalled (the rank waits forever); a message of the wrong kind or size is
  Malformed.
- `fopen` is not modelled. The open file is an `Option<LineStream>`, with None meaning
  open failed.
- `getline`'s buffer management and `fclose` are not modelled.
- `fprintf`, `MPI_Finalize` and `exit(1)` are modelled as an `Err` result. What was sent
  before such a fatal stop is not specified.
- `malloc`, `realloc` and `free` are modelled as fresh Dafny arrays.
  - `hgraph_free` (src/graph.c:366-374) is left out, because memory is managed by Dafny.
  - The two `free`s that replace the shard's `eptr` and `eind` (src/graph.c:246-247)
    are left out for the same reason.
- Integer widths are not modelled: `int`, `idx_t` and `size_t` are unbounded here.
  - `strtoll` is modelled for unsigned decimal digits only. Signs, overflow and values
    beyond `idx_t` are not modelled.
  - A non-digit token reads as 0 without advancing, as `strtoll` does.
- The `idx_t` → `int` casts of `vtarget`/`htarget` (src/graph.c:179-180) are not
  modelled, because counts are unbounded here.
- Protocol.Receive: a header shorter than two values, or a negative count, is Malformed.
  In the C code these would read past `dims` or pass a negative size to `malloc`.
- HGraph.Shard.GetHlist: the `assert(gid_size == 1)` is a precondition. The contract also
  requires a sized shard and output buffers that are large enough and do not alias the
  shard's arrays, which the C code assumes.
- HGraph.Shard.GetVlist: it requires a sized shard and buffers that are large enough and
  do not alias the shard's arrays. `gid_size` is accepted and ignored, as in the C code.
  `wt_size` and `vtx_wts` are not parameters, because the callback never uses them.
- ChunkAccum.ChunkBuffer.ReadChunk: it does not state that the `lengths` slots past
  `count` are left unchanged, because no caller reads them.
- ChunkAccum.ChunkBuffer.AccumLine: `realloc`'s reuse of the old block is not modelled;
  the new buffer is always a fresh array.
- Distribution.DistributeHGraph: the C code's unreachable `return NULL` is not modelled.
- Distribution.StoreChunk: the C receives write straight into the shard's arrays
  (src/graph.c:300-318). The model receives each message as a value and then copies it
  into the arrays, in the same order, so it does not capture a receive buffer that
  aliases another array.
- LineText.RStripLine: it requires a non-empty C string, and the `Line` type excludes a
  line whose first character is NUL. `getline` returns such a line when the input holds
  a NUL byte at the start of a line. `__rstrip_line` then computes `strlen(line) - 1` in
  `size_t`, which wraps to `SIZE_MAX`, and reads `line[SIZE_MAX]` (src/graph.c:34). That
  is undefined behaviour, so the model does not describe it.
- The partitioning driver and the result gathering (`src/part.c`, `src/main.c`) are not
  part of this model.

## Findings

| source | as written | input that shows it | evidently intended | confidence | as-written member | corrected member |
|---|---|---|---|---|---|---|
| src/graph.c:183 | `lengths` gets `htarget` slots. The coordinator then stores `local_hedges` lengths and the prefix sum touches `local_hedges + 1` slots. | `nhedges = 3` on `npes = 2` gives one slot, two lengths and three prefix-sum slots; any input at all leaves the prefix sum one slot short. | `local_hedges + 1` slots, at least `htarget` | high (not executed) | Distribution.AsWrittenAccumOverruns | Distribution.LengthsSlots |
