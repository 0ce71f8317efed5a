// Mapping a buffer that lies partly in on-chip memory: one IOVA range, first
// the cache bytes, then the pages (rknpu_gem_alloc_buf_with_cache and
// rknpu_gem_free_buf_with_cache of rknpu_gem.c, without the sgt variant).
module CacheMapping {
  import opened Arith
  import opened Iommu
  import opened Kernel

  // Map the first `length` bytes of the pieces, one after the other.
  function MapFirst(t: Table, iova: nat, ps: seq<Piece>, length: nat): Table
    decreases |ps|
  {
    if ps == [] || length == 0 then t
    else
      var size := if length < ps[0].length then length else ps[0].length;
      MapFirst(MapRange(t, iova, ps[0].phys, size), iova + size, ps[1..], length - size)
  }

  function Total(ps: seq<Piece>): nat {
    if ps == [] then 0 else ps[0].length + Total(ps[1..])
  }

  // Byte k of the memory the pieces describe.
  function ByteAt(ps: seq<Piece>, k: nat): nat
    requires k < Total(ps)
  {
    if k < ps[0].length then ps[0].phys + k else ByteAt(ps[1..], k - ps[0].length)
  }

  // How many pieces the first `length` bytes take.
  function Used(ps: seq<Piece>, length: nat): (n: nat)
    ensures n <= |ps|
  {
    if ps == [] || length == 0 then 0
    else 1 + Used(ps[1..], if length < ps[0].length then 0 else length - ps[0].length)
  }

  // One piece of the mapping, and of its length.
  lemma {:induction false} MapFirstStep(t: Table, iova: nat, ps: seq<Piece>, length: nat)
    requires ps != [] && 0 < length <= Total(ps)
    ensures var size := if length < ps[0].length then length else ps[0].length;
            && MapFirst(t, iova, ps, length)
                 == MapFirst(MapRange(t, iova, ps[0].phys, size), iova + size, ps[1..], length - size)
            && Used(ps, length) == 1 + Used(ps[1..], length - size)
            && length - size <= Total(ps[1..])
  {
    hide MapRange;
  }

  lemma {:induction false} MapFirstEnds(t: Table, iova: nat, ps: seq<Piece>, length: nat)
    requires ps == [] || length == 0
    requires length <= Total(ps)
    ensures length == 0 && MapFirst(t, iova, ps, length) == t && Used(ps, length) == 0
  {
  }

  lemma {:induction false} MapNothing(t: Table, iova: nat, ps: seq<Piece>)
    ensures MapFirst(t, iova, ps, 0) == t
  {
  }

  // MapFirst maps exactly `length` bytes, in the order of the pieces.
  lemma {:induction false} MapFirstByte(t: Table, iova: nat, ps: seq<Piece>, length: nat, a: nat)
    requires length <= Total(ps)
    ensures var t' := MapFirst(t, iova, ps, length);
            if iova <= a < iova + length then a in t' && t'[a] == ByteAt(ps, a - iova)
            else (a in t' <==> a in t) && (a in t ==> t'[a] == t[a])
    decreases |ps|
  {
    hide MapRange;
    if ps != [] && length > 0 {
      var size := if length < ps[0].length then length else ps[0].length;
      MapRangeAt(t, iova, ps[0].phys, size);
      MapFirstByte(MapRange(t, iova, ps[0].phys, size), iova + size, ps[1..], length - size, a);
    }
  }

  // Mapping past the end of a range that is unmapped again anyway.
  lemma {:induction false} UnmapAbsorbs(t: Table, start: nat, at: nat, phys: nat, size: nat)
    requires start <= at
    ensures UnmapRange(MapRange(t, at, phys, size), start, at + size - start)
         == UnmapRange(UnmapRange(t, start, at - start), at, size)
  {
  }

  lemma {:induction false} UnmapFree(t: Table, at: nat, size: nat)
    requires forall a :: at <= a < at + size ==> a !in t
    ensures UnmapRange(t, at, size) == t
  {
  }

  lemma {:induction false} CacheUnmaps(t: Table, iova: nat, phys: nat, cacheSize: nat, size: nat)
    requires forall a :: iova <= a < iova + cacheSize + size ==> a !in t
    ensures UnmapRange(MapRange(t, iova, phys, cacheSize), iova, cacheSize) == t
    ensures forall a :: iova + cacheSize <= a < iova + cacheSize + size ==> a !in MapRange(t, iova, phys, cacheSize)
  {
  }

  // What the buffer looks like to the device after a successful allocation.
  function CacheThenPages(t: Table, iova: nat, cachePhys: nat, cacheSize: nat, ps: seq<Piece>, size: nat): Table {
    MapFirst(MapRange(t, iova, cachePhys, cacheSize), iova + cacheSize, ps, size)
  }

  // Byte by byte: the cache first, then the pages in order, and nothing else.
  lemma {:induction false} DeviceSeesCacheThenPages(t: Table, iova: nat, cachePhys: nat, cacheSize: nat,
                                                    ps: seq<Piece>, size: nat)
    requires size <= Total(ps)
    ensures var t' := CacheThenPages(t, iova, cachePhys, cacheSize, ps, size);
            && (forall a: nat :: iova <= a < iova + cacheSize ==> a in t' && t'[a] == cachePhys + (a - iova))
            && (forall a: nat :: iova + cacheSize <= a < iova + cacheSize + size ==>
                  a in t' && t'[a] == ByteAt(ps, a - iova - cacheSize))
            && (forall a: nat :: !(iova <= a < iova + cacheSize + size) ==>
                  (a in t' <==> a in t) && (a in t ==> t'[a] == t[a]))
  {
    hide MapRange, MapFirst, ByteAt, Total;
    MapRangeAt(t, iova, cachePhys, cacheSize);
    forall a: nat
      ensures var t' := CacheThenPages(t, iova, cachePhys, cacheSize, ps, size);
              var m := MapRange(t, iova, cachePhys, cacheSize);
              if iova + cacheSize <= a < iova + cacheSize + size then
                a in t' && t'[a] == ByteAt(ps, a - iova - cacheSize)
              else (a in t' <==> a in m) && (a in m ==> t'[a] == m[a])
    {
      MapFirstByte(MapRange(t, iova, cachePhys, cacheSize), iova + cacheSize, ps, size, a);
    }
  }

  // What the kernel answers: the address chosen (0: none) and whether each of
  // the mappings and allocations succeeds.
  datatype Answers = Answers(choice: nat, cacheOk: bool, pagesOk: bool, sgtOk: bool, mapOk: seq<bool>)

  // The kernel's side of what an object holds: pages and scatter tables handed
  // out, and how many of them came back.
  class Ledger {
    ghost var pagesOut: nat
    ghost var pagesBack: nat
    ghost var tablesOut: nat
    ghost var tablesBack: nat

    constructor ()
      ensures pagesOut == pagesBack == tablesOut == tablesBack == 0
    {
      pagesOut, pagesBack, tablesOut, tablesBack := 0, 0, 0, 0;
    }
  }

  class GemObject {
    const size: nat       // bytes in pages
    const cachePhys: nat  // cache_start + cache_offset
    const cacheSize: nat
    const pieces: seq<Piece>  // the scatter list of the pages
    const ledger: Ledger
    var iovaStart: nat
    var iovaSize: nat
    var dmaAddr: nat
    var pagesHeld: bool
    var tableHeld: bool

    constructor (size: nat, cachePhys: nat, cacheSize: nat, pieces: seq<Piece>)
      ensures this.size == size && this.cachePhys == cachePhys && this.cacheSize == cacheSize
      ensures this.pieces == pieces && Balanced() && fresh(ledger) && !pagesHeld && !tableHeld
    {
      this.size, this.cachePhys, this.cacheSize, this.pieces := size, cachePhys, cacheSize, pieces;
      ledger := new Ledger();
      iovaStart, iovaSize, dmaAddr, pagesHeld, tableHeld := 0, 0, 0, false, false;
    }

    // What is out and not back is exactly what the object holds.
    ghost predicate Balanced()
      reads this, ledger
    {
      && ledger.pagesOut == ledger.pagesBack + (if pagesHeld then 1 else 0)
      && ledger.tablesOut == ledger.tablesBack + (if tableHeld then 1 else 0)
    }

    function IovaSize(granule: nat): nat
      requires granule > 0
    {
      AlignUp(cacheSize + size, granule)
    }

    // Every answer that counts is good.
    ghost predicate AllGood(k: Answers) {
      && |k.mapOk| == |pieces| && k.choice != 0 && k.cacheOk
      && (size > 0 ==> k.pagesOk && k.sgtOk && forall i :: 0 <= i < Used(pieces, size) ==> k.mapOk[i])
    }

    method AllocBuf(domain: IommuDomain, k: Answers) returns (ret: int)
      requires domain.Valid() && Balanced() && !pagesHeld && !tableHeld
      requires size <= Total(pieces) && |k.mapOk| == |pieces|
      requires k.choice == 0 || Available(domain.iovas, domain.granule, k.choice, IovaSize(domain.granule))
      modifies domain, this, ledger
      ensures domain.Valid() && Balanced()
      ensures ret == 0 <==> AllGood(k)
      ensures ret == 0 ==>
                && iovaStart == dmaAddr == k.choice && iovaSize == IovaSize(domain.granule) >= cacheSize + size
                && domain.iovas == old(domain.iovas)[iovaStart := iovaSize]
                && domain.table == CacheThenPages(old(domain.table), iovaStart, cachePhys, cacheSize, pieces, size)
                && (pagesHeld <==> size > 0) && (tableHeld <==> size > 0)
      // the range is the least whole number of granules
      ensures ret == 0 ==> iovaSize % domain.granule == 0 && iovaSize < cacheSize + size + domain.granule
      ensures k.choice == 0 ==> ret == -ENOMEM
      // all or nothing: whatever was taken on the way is back, once
      ensures ret != 0 ==> ret < 0 && domain.table == old(domain.table) && domain.iovas == old(domain.iovas)
      ensures ret != 0 ==> !pagesHeld && !tableHeld
      // pages and table are asked for only when all before them went well
      ensures ledger.pagesOut == old(ledger.pagesOut)
                                 + if k.choice != 0 && k.cacheOk && size > 0 && k.pagesOk then 1 else 0
      ensures ledger.tablesOut == old(ledger.tablesOut)
                                  + if k.choice != 0 && k.cacheOk && size > 0 && k.pagesOk && k.sgtOk then 1 else 0
    {
      hide PowerOfTwo, MapFirst, MapRange, UnmapRange, Rem, Distance, Total, Covered, Used;
      ghost var t, iovas := domain.table, domain.iovas;
      iovaSize := AlignUp(cacheSize + size, domain.granule);
      MacrosAreModular(cacheSize + size, domain.granule);
      iovaStart := domain.AllocIova(iovaSize, k.choice);
      if iovaStart == 0 {
        return -ENOMEM;
      }
      AvailableIsUnmapped(t, iovas, domain.granule, iovaStart, iovaSize);
      assert iovas[k.choice := iovaSize] - {k.choice} == iovas;
      ret := domain.Map(iovaStart, cachePhys, cacheSize, k.cacheOk);
      if ret != 0 {
        FreeIovaLabel(domain);
        return;
      }
      CacheUnmaps(t, iovaStart, cachePhys, cacheSize, size);
      dmaAddr := iovaStart;
      BufferIsCovered(t, iovas, iovaStart, iovaSize, cachePhys, cacheSize, pieces, size);
      if size == 0 {
        MapNothing(MapRange(t, iovaStart, cachePhys, cacheSize), iovaStart + cacheSize, pieces);
        return 0;
      }
      if !k.pagesOk {
        CacheUnmapLabel(domain);
        return -ENOMEM;
      }
      pagesHeld := true;
      ledger.pagesOut := ledger.pagesOut + 1;
      if !k.sgtOk {
        PutPagesLabel(domain);
        return -ENOMEM;
      }
      tableHeld := true;
      ledger.tablesOut := ledger.tablesOut + 1;
      var left;
      ret, left := MapPages(domain, k.mapOk);
      if ret != 0 {
        SglUnmapLabel(domain, left);
        return;
      }
    }

    // The loop over the scatter list. On an error `left` bytes are not mapped,
    // and unmapping the others undoes the loop.
    method MapPages(domain: IommuDomain, mapOk: seq<bool>) returns (ret: int, left: nat)
      requires size <= Total(pieces) && |mapOk| == |pieces|
      requires forall a :: iovaStart + cacheSize <= a < iovaStart + cacheSize + size ==> a !in domain.table
      modifies domain`table
      ensures ret == 0 <==> forall i :: 0 <= i < Used(pieces, size) ==> mapOk[i]
      ensures ret == 0 ==> domain.table == MapFirst(old(domain.table), iovaStart + cacheSize, pieces, size)
      ensures ret != 0 ==>
                && ret < 0 && left <= size
                && UnmapRange(domain.table, iovaStart + cacheSize, size - left) == old(domain.table)
    {
      hide MapRange, UnmapRange, MapFirst, Used, Total;
      ghost var t := domain.table;
      left := size;
      var offset := iovaStart + cacheSize;
      var i := 0;
      ret := 0;
      UnmapFree(t, offset, 0);
      assert pieces[0..] == pieces;
      while i < |pieces| && left > 0
        invariant 0 <= i <= |pieces| && 0 <= left <= size && left <= Total(pieces[i..])
        invariant offset == iovaStart + cacheSize + (size - left)
        invariant MapFirst(domain.table, offset, pieces[i..], left) == MapFirst(t, iovaStart + cacheSize, pieces, size)
        invariant UnmapRange(domain.table, iovaStart + cacheSize, size - left) == t
        invariant ret == 0 && Used(pieces, size) == i + Used(pieces[i..], left)
        invariant forall j :: 0 <= j < i ==> mapOk[j]
      {
        var s := pieces[i];
        var part := if left < s.length then left else s.length;
        ghost var before := domain.table;
        assert pieces[i..][0] == s && pieces[i..][1..] == pieces[i + 1..];
        MapFirstStep(before, offset, pieces[i..], left);
        ret := domain.Map(offset, s.phys, part, mapOk[i]);
        if ret != 0 {
          return;
        }
        UnmapAbsorbs(before, iovaStart + cacheSize, offset, s.phys, part);
        UnmapFree(t, offset, part);
        left := left - part;
        offset := offset + part;
        i := i + 1;
      }
      MapFirstEnds(domain.table, offset, pieces[i..], left);
    }

    // The cleanup labels, each falling through to the next. Nothing is given
    // back that is not held.
    method SglUnmapLabel(domain: IommuDomain, left: nat)
      requires Balanced() && tableHeld && pagesHeld && left <= size
      modifies domain, this`tableHeld, this`pagesHeld, ledger
      ensures Balanced() && !tableHeld && !pagesHeld && TakenAsBefore(old(ledger.pagesOut), old(ledger.tablesOut))
      ensures domain.table == UnmapRange(UnmapRange(old(domain.table), iovaStart + cacheSize, size - left),
                                         iovaStart, cacheSize)
      ensures domain.iovas == old(domain.iovas) - {iovaStart}
    {
      domain.Unmap(iovaStart + cacheSize, size - left);
      tableHeld := false;
      ledger.tablesBack := ledger.tablesBack + 1;
      PutPagesLabel(domain);
    }

    method PutPagesLabel(domain: IommuDomain)
      requires Balanced() && pagesHeld && !tableHeld
      modifies domain, this`pagesHeld, ledger
      ensures Balanced() && !pagesHeld && TakenAsBefore(old(ledger.pagesOut), old(ledger.tablesOut))
      ensures domain.table == UnmapRange(old(domain.table), iovaStart, cacheSize)
      ensures domain.iovas == old(domain.iovas) - {iovaStart}
    {
      pagesHeld := false;
      ledger.pagesBack := ledger.pagesBack + 1;
      CacheUnmapLabel(domain);
    }

    method CacheUnmapLabel(domain: IommuDomain)
      requires !pagesHeld && !tableHeld
      modifies domain
      ensures domain.table == UnmapRange(old(domain.table), iovaStart, cacheSize)
      ensures domain.iovas == old(domain.iovas) - {iovaStart}
    {
      domain.Unmap(iovaStart, cacheSize);
      FreeIovaLabel(domain);
    }

    method FreeIovaLabel(domain: IommuDomain)
      requires !pagesHeld && !tableHeld
      modifies domain`iovas
      ensures domain.iovas == old(domain.iovas) - {iovaStart}
    {
      domain.FreeIova(iovaStart);
    }

    ghost predicate TakenAsBefore(pages: nat, tables: nat)
      reads ledger
    {
      ledger.pagesOut == pages && ledger.tablesOut == tables
    }

    method FreeBuf(domain: IommuDomain)
      requires Balanced()
      modifies domain, this`pagesHeld, this`tableHeld, ledger
      ensures domain.table == UnmapRange(UnmapRange(old(domain.table), iovaStart, cacheSize),
                                         iovaStart + cacheSize, size)
      ensures domain.iovas == old(domain.iovas) - {iovaStart}
      ensures Balanced() && !pagesHeld && !tableHeld && TakenAsBefore(old(ledger.pagesOut), old(ledger.tablesOut))
    {
      domain.Unmap(iovaStart, cacheSize);
      if size > 0 {
        domain.Unmap(iovaStart + cacheSize, size);
      } else {
        assert UnmapRange(domain.table, iovaStart + cacheSize, 0) == domain.table;
      }
      domain.FreeIova(iovaStart);
      if pagesHeld {
        pagesHeld := false;
        ledger.pagesBack := ledger.pagesBack + 1;
      }
      if tableHeld {
        tableHeld := false;
        ledger.tablesBack := ledger.tablesBack + 1;
      }
    }
  }

  lemma {:induction false} BufferIsCovered(t: Table, iovas: map<nat, nat>, iova: nat, iovaSize: nat,
                                           cachePhys: nat, cacheSize: nat, ps: seq<Piece>, size: nat)
    requires Covered(t, iovas) && iova !in iovas && cacheSize + size <= iovaSize && size <= Total(ps)
    ensures Covered(CacheThenPages(t, iova, cachePhys, cacheSize, ps, size), iovas[iova := iovaSize])
  {
    var iovas' := iovas[iova := iovaSize];
    var t' := CacheThenPages(t, iova, cachePhys, cacheSize, ps, size);
    DeviceSeesCacheThenPages(t, iova, cachePhys, cacheSize, ps, size);
    forall a | a in t'
      ensures exists b :: b in iovas' && b <= a < b + iovas'[b]
    {
      if iova <= a < iova + iovaSize {
        assert iova in iovas';
      } else {
        var b :| b in iovas && b <= a < b + iovas[b];
        assert b in iovas' && iovas'[b] == iovas[b];
      }
    }
  }

  // Free undoes a successful allocation.
  lemma {:induction false} FreeUndoesAlloc(t: Table, iovas: map<nat, nat>, iova: nat, iovaSize: nat,
                                           cachePhys: nat, cacheSize: nat, ps: seq<Piece>, size: nat)
    requires iova !in iovas && size <= Total(ps)
    requires forall a :: iova <= a < iova + cacheSize + size ==> a !in t
    ensures UnmapRange(UnmapRange(CacheThenPages(t, iova, cachePhys, cacheSize, ps, size), iova, cacheSize),
                       iova + cacheSize, size) == t
    ensures iovas[iova := iovaSize] - {iova} == iovas
  {
    DeviceSeesCacheThenPages(t, iova, cachePhys, cacheSize, ps, size);
  }

  // A successful allocation followed by a free leaves page table and allocator
  // as they were, and everything taken is back.
  method AllocThenFree(domain: IommuDomain, o: GemObject, k: Answers)
    requires domain.Valid() && o.Balanced() && !o.pagesHeld && !o.tableHeld
    requires o.size <= Total(o.pieces) && |k.mapOk| == |o.pieces|
    requires k.choice == 0 || Available(domain.iovas, domain.granule, k.choice, o.IovaSize(domain.granule))
    modifies domain, o, o.ledger
    ensures domain.table == old(domain.table) && domain.iovas == old(domain.iovas)
    ensures o.Balanced() && !o.pagesHeld && !o.tableHeld
  {
    hide PowerOfTwo, MapRange, UnmapRange, MapFirst, Total, Rem, Distance;
    ghost var t, iovas := domain.table, domain.iovas;
    var ret := o.AllocBuf(domain, k);
    if ret == 0 {
      AvailableIsUnmapped(t, iovas, domain.granule, k.choice, o.iovaSize);
      FreeUndoesAlloc(t, iovas, o.iovaStart, o.iovaSize, o.cachePhys, o.cacheSize, o.pieces, o.size);
      o.FreeBuf(domain);
    }
  }
}
