/**
 * The distributed hypergraph record of src/graph.h:21-45 (one rank's shard), its
 * allocation, and the four query callbacks through which Zoltan's hypergraph
 * partitioner reads it (src/graph.c:381-461).
 */
module HGraph {
  import opened Csr

  /** The status a query callback writes through `ierr`. */
  datatype Status = ZoltanOk | ZoltanFatal

  /** `ZOLTAN_COMPRESSED_EDGE`: hyperedge lists stored hyperedge by hyperedge. */
  const CompressedEdge: int := 1

  /**
   * `hgraph`: the global vertex and hyperedge counts, the local counts, the global ids
   * of the local vertices and hyperedges, and the local hyperedges in compressed form
   * (`eptr` offsets into the pin array `eind`).
   */
  class Shard {
    var nglobalV: nat
    var nglobalH: nat
    var nlocalV: nat
    var nlocalH: nat
    var nlocalCon: nat
    var eptr: array<int>
    var vGids: array<nat>
    var hGids: array<nat>
    var eind: array<nat>

    /** Every array has the size its count announces; the id arrays are distinct storage. */
    ghost predicate Sized()
      reads this
    {
      && vGids.Length == nlocalV
      && hGids.Length == nlocalH
      && eptr.Length == nlocalH + 1
      && eind.Length == nlocalCon
      && vGids != hGids && vGids != eind && hGids != eind
    }

    /**
     * The shard is well formed: sized, and `eptr` cuts `eind` into `nlocal_h` consecutive
     * pin lists (src/graph.h:29): it starts at 0, never decreases and ends at `nlocal_con`.
     */
    ghost predicate Valid()
      reads this, eptr
    {
      && Sized()
      && eptr[0] == 0
      && eptr[nlocalH] == nlocalCon
      && forall h :: 0 <= h < nlocalH ==> 0 <= eptr[h] <= eptr[h + 1]
    }

    /**
     * The shard holds exactly the given data: the global counts, the vertex and
     * hyperedge ids, and the pin lists `rows` of its hyperedges in compressed form.
     */
    ghost predicate Holds(nv: nat, nh: nat, vids: seq<nat>, hids: seq<nat>, rows: seq<seq<nat>>)
      reads this, eptr, vGids, hGids, eind
    {
      && Sized()
      && nglobalV == nv && nglobalH == nh
      && |hids| == |rows|
      && vGids[..] == vids && hGids[..] == hids
      && eptr[..] == Offsets(RowLengths(rows))
      && eind[..] == Flatten(rows)
    }

    /**
     * `hgraph_alloc` (src/graph.c:347-362): fresh arrays for `local_vtxs` vertex ids,
     * `local_hedges` hyperedge ids, `local_hedges + 1` offsets and `local_connections`
     * pins. No count and no array entry is filled in (src/graph.h:63).
     */
    constructor Alloc(localVtxs: nat, localHedges: nat, localConnections: nat)
      ensures fresh(vGids) && fresh(hGids) && fresh(eptr) && fresh(eind)
      ensures vGids.Length == localVtxs && hGids.Length == localHedges
      ensures eptr.Length == localHedges + 1 && eind.Length == localConnections
      ensures vGids != hGids && vGids != eind && hGids != eind
    {
      vGids := new nat[localVtxs];
      hGids := new nat[localHedges];
      eptr := new int[localHedges + 1];
      eind := new nat[localConnections];
    }

    /** A shard holding hyperedge rows is well formed, and its offsets cut its pins back into those rows. */
    lemma HoldsIsValid(nv: nat, nh: nat, vids: seq<nat>, hids: seq<nat>, rows: seq<seq<nat>>)
      requires Holds(nv, nh, vids, hids, rows)
      ensures Valid()
      ensures Delimits(eptr[..], eind[..], rows)
    {
      OffsetsDelimitRows(rows);
      var o := Offsets(RowLengths(rows));
      assert eptr[..] == o;
      forall h | 0 <= h < nlocalH
        ensures 0 <= eptr[h] <= eptr[h + 1]
      {
        assert CutAt(o, Flatten(rows), rows, h);
      }
    }

    /**
     * `hg_get_nvtx` (src/graph.c:381-388): the number of local vertices, with status OK. On a
     * sized shard it is the number of vertex ids the shard holds.
     */
    function GetNvtx(): (r: (int, Status))
      reads this
      ensures r.1 == ZoltanOk
      ensures Sized() ==> r.0 == vGids.Length
    {
      (nlocalV, ZoltanOk)
    }

    /**
     * `hg_get_netsizes` (src/graph.c:415-429): the number of local hyperedges, the number of
     * pins and the compressed-by-hyperedge format, with status OK. On a well-formed shard they
     * are the numbers of hyperedge ids and of pins it holds, and the last offset.
     */
    function GetNetsizes(): (r: (int, int, int, Status))
      reads this, eptr
      ensures r.2 == CompressedEdge && r.3 == ZoltanOk
      ensures Valid() ==> r.0 == hGids.Length && r.1 == eind.Length == eptr[r.0]
    {
      (nlocalH, nlocalCon, CompressedEdge, ZoltanOk)
    }

    /**
     * `hg_get_vlist` (src/graph.c:390-411): copy the `nlocal_v` vertex ids into `gids` and,
     * only when local ids are asked for (`lid_size > 0`) and a buffer is given, number the
     * local vertices 0, 1, ... in `lids`. The status is OK; the weight arguments are unused.
     */
    method GetVlist(gidSize: int, lidSize: int, gids: array<nat>, lids: array?<nat>) returns (ierr: Status)
      requires Sized()
      requires gids.Length >= nlocalV && gids != vGids
      requires lids != null ==> lids != gids && lids != vGids
      requires lidSize > 0 && lids != null ==> lids.Length >= nlocalV
      modifies gids, lids
      ensures ierr == ZoltanOk
      ensures gids[..nlocalV] == vGids[..] && gids[nlocalV..] == old(gids[nlocalV..])
      ensures lidSize > 0 && lids != null ==>
        (forall i :: 0 <= i < nlocalV ==> lids[i] == i) && lids[nlocalV..] == old(lids[nlocalV..])
      ensures !(lidSize > 0 && lids != null) && lids != null ==> lids[..] == old(lids[..])
    {
      forall i | 0 <= i < nlocalV {
        gids[i] := vGids[i];
      }
      assert gids[..nlocalV] == vGids[..];
      if lidSize > 0 && lids != null {
        for i := 0 to nlocalV
          invariant forall j :: 0 <= j < i ==> lids[j] == j
          invariant lids[nlocalV..] == old(lids[nlocalV..])
          invariant gids[..nlocalV] == vGids[..] && gids[nlocalV..] == old(gids[nlocalV..])
        {
          lids[i] := i;
        }
      }
      return ZoltanOk;
    }

    /**
     * `hg_get_hlist` (src/graph.c:432-461), for one-word ids (the `assert` on `gid_size`):
     * when Zoltan's `nhedges`, `ncon` and `format` disagree with the shard's counts and the
     * compressed-by-hyperedge format, the status is FATAL and nothing is copied; otherwise
     * the first `nhedges` hyperedge ids, the first `nhedges` offsets (not the closing one)
     * and the `ncon` pins are copied out, with status OK.
     */
    method GetHlist(gidSize: int, nhedges: int, ncon: int, format: int,
                    hGidsOut: array<nat>, eptrOut: array<int>, eindOut: array<nat>) returns (ierr: Status)
      requires gidSize == 1
      requires Sized()
      requires hGidsOut.Length >= nhedges && eptrOut.Length >= nhedges && eindOut.Length >= ncon
      requires hGidsOut != hGids && hGidsOut != eind && eindOut != hGids && eindOut != eind && hGidsOut != eindOut
      requires eptrOut != eptr
      modifies hGidsOut, eptrOut, eindOut
      ensures ierr == ZoltanFatal <==> nhedges != nlocalH || ncon != nlocalCon || format != CompressedEdge
      ensures ierr == ZoltanFatal ==>
        hGidsOut[..] == old(hGidsOut[..]) && eptrOut[..] == old(eptrOut[..]) && eindOut[..] == old(eindOut[..])
      ensures ierr == ZoltanOk ==>
        && hGidsOut[..nlocalH] == hGids[..] && hGidsOut[nlocalH..] == old(hGidsOut[nlocalH..])
        && eptrOut[..nlocalH] == eptr[..nlocalH] && eptrOut[nlocalH..] == old(eptrOut[nlocalH..])
        && eindOut[..nlocalCon] == eind[..] && eindOut[nlocalCon..] == old(eindOut[nlocalCon..])
    {
      if nhedges != nlocalH || ncon != nlocalCon || format != CompressedEdge {
        return ZoltanFatal;
      }
      forall i | 0 <= i < nlocalH {
        hGidsOut[i] := hGids[i];
      }
      forall i | 0 <= i < nlocalH {
        eptrOut[i] := eptr[i];
      }
      forall i | 0 <= i < nlocalCon {
        eindOut[i] := eind[i];
      }
      assert hGidsOut[..nlocalH] == hGids[..];
      assert eindOut[..nlocalCon] == eind[..];
      return ZoltanOk;
    }
  }
}
