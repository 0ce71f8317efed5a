// Several lists and buffers in one domain: each is mapped into a range of its
// own and unmapped at some later time, with any maps and unmaps of the others
// in between.
module SharedDomain {
  import opened Arith
  import opened Iommu
  import opened ScatterLayout
  import opened ScatterList
  import opened ScatterMerge

  // The page table and the ranges that the IOVA allocator has handed out.
  datatype Space = Space(table: Table, iovas: map<nat, nat>)

  datatype Op = MapAt(base: nat, pieces: seq<Piece>) | UnmapAt(base: nat)

  ghost predicate CanDo(x: Space, granule: nat, op: Op) {
    match op
    case MapAt(base, ps) => Available(x.iovas, granule, base, Length(ps, |ps|))
    case UnmapAt(base) => base in x.iovas
  }

  function Mapped(x: Space, base: nat, ps: seq<Piece>): Space {
    Space(MapPieces(x.table, base, ps, |ps|), x.iovas[base := Length(ps, |ps|)])
  }

  function Without(x: Space, base: nat): Space
    requires base in x.iovas
  {
    Space(UnmapRange(x.table, base, x.iovas[base]), x.iovas - {base})
  }

  ghost function Do(x: Space, granule: nat, op: Op): Space
    requires CanDo(x, granule, op)
  {
    match op
    case MapAt(base, ps) => Mapped(x, base, ps)
    case UnmapAt(base) => Without(x, base)
  }

  ghost predicate CanDoAll(x: Space, granule: nat, ops: seq<Op>)
    decreases |ops|
  {
    ops == [] || (CanDo(x, granule, ops[0]) && CanDoAll(Do(x, granule, ops[0]), granule, ops[1..]))
  }

  ghost function DoAll(x: Space, granule: nat, ops: seq<Op>): Space
    requires CanDoAll(x, granule, ops)
    decreases |ops|
  {
    if ops == [] then x else DoAll(Do(x, granule, ops[0]), granule, ops[1..])
  }

  // Live ranges do not overlap.
  ghost predicate Separate(iovas: map<nat, nat>) {
    forall b, c :: b in iovas && c in iovas && b != c ==> b + iovas[b] <= c || c + iovas[c] <= b
  }

  // The two spaces have the same mapping in the range at `base`.
  ghost predicate SameAt(x: Space, y: Space, base: nat) {
    && base in x.iovas && base in y.iovas && x.iovas[base] == y.iovas[base]
    && forall a :: base <= a < base + x.iovas[base] ==>
         (a in x.table <==> a in y.table) && (a in x.table ==> x.table[a] == y.table[a])
  }

  lemma {:induction false} MapKeepsCovered(x: Space, base: nat, ps: seq<Piece>)
    requires Covered(x.table, x.iovas) && base !in x.iovas
    ensures Covered(Mapped(x, base, ps).table, Mapped(x, base, ps).iovas)
  {
    hide MapPieces;
    var y := Mapped(x, base, ps);
    MapPiecesFrame(x.table, base, ps, |ps|);
    forall a | a in y.table
      ensures exists b :: b in y.iovas && b <= a < b + y.iovas[b]
    {
      if base <= a < base + Length(ps, |ps|) {
        assert base in y.iovas;
      } else {
        var b :| b in x.iovas && b <= a < b + x.iovas[b];
        assert b in y.iovas && y.iovas[b] == x.iovas[b];
      }
    }
  }

  lemma {:induction false} UnmapKeepsCovered(x: Space, base: nat)
    requires Covered(x.table, x.iovas) && base in x.iovas
    ensures Covered(Without(x, base).table, Without(x, base).iovas)
  {
    var y := Without(x, base);
    forall a | a in y.table
      ensures exists b :: b in y.iovas && b <= a < b + y.iovas[b]
    {
      var b :| b in x.iovas && b <= a < b + x.iovas[b];
      assert b in y.iovas && y.iovas[b] == x.iovas[b];
    }
  }

  // What the allocator hands out keeps live ranges apart, and nothing is mapped
  // outside them.
  lemma {:induction false} OpKeepsSeparate(x: Space, granule: nat, op: Op)
    requires Separate(x.iovas) && Covered(x.table, x.iovas) && CanDo(x, granule, op)
    ensures Separate(Do(x, granule, op).iovas) && Covered(Do(x, granule, op).table, Do(x, granule, op).iovas)
  {
    hide Covered, MapPieces, UnmapRange;
    match op
    case MapAt(base, ps) => MapKeepsCovered(x, base, ps);
    case UnmapAt(base) => UnmapKeepsCovered(x, base);
  }

  lemma {:induction false} RangesCommute(t: Table, iova: nat, phys: nat, length: nat, base: nat, size: nat)
    requires iova + length <= base || base + size <= iova
    ensures UnmapRange(MapRange(t, iova, phys, length), base, size)
         == MapRange(UnmapRange(t, base, size), iova, phys, length)
  {
  }

  lemma {:induction false} MapUnmapCommute(t: Table, iova: nat, ps: seq<Piece>, i: nat, base: nat, size: nat)
    requires i <= |ps| && (iova + Length(ps, i) <= base || base + size <= iova)
    ensures UnmapRange(MapPieces(t, iova, ps, i), base, size) == MapPieces(UnmapRange(t, base, size), iova, ps, i)
  {
    hide UnmapRange, MapRange;
    if i > 0 {
      MapUnmapCommute(t, iova, ps, i - 1, base, size);
      RangesCommute(MapPieces(t, iova, ps, i - 1), iova + Length(ps, i - 1), ps[i - 1].phys, ps[i - 1].length,
                    base, size);
    }
  }

  lemma {:induction false} UnmapsCommute(t: Table, a: nat, m: nat, b: nat, n: nat)
    ensures UnmapRange(UnmapRange(t, a, m), b, n) == UnmapRange(UnmapRange(t, b, n), a, m)
  {
  }

  // An operation on another range commutes with unmapping this one.
  lemma {:induction false} OpCommutes(x: Space, granule: nat, base: nat, op: Op)
    requires Separate(x.iovas) && base in x.iovas && CanDo(x, granule, op) && op != UnmapAt(base)
    ensures SameAt(Do(x, granule, op), x, base) && CanDo(Without(x, base), granule, op)
    ensures Without(Do(x, granule, op), base) == Do(Without(x, base), granule, op)
  {
    hide MapPieces, Covered;
    var size := x.iovas[base];
    match op
    case MapAt(at, ps) =>
      MapUnmapCommute(x.table, at, ps, |ps|, base, size);
      MapPiecesFrame(x.table, at, ps, |ps|);
      assert x.iovas[at := Length(ps, |ps|)] - {base} == (x.iovas - {base})[at := Length(ps, |ps|)];
    case UnmapAt(at) =>
      UnmapsCommute(x.table, at, x.iovas[at], base, size);
      assert x.iovas - {at} - {base} == x.iovas - {base} - {at};
  }

  // Unmapping a range after any operations on others leaves table and allocator
  // as those operations alone would have; until then its mapping is untouched.
  lemma {:induction false} UnmapLater(x: Space, granule: nat, base: nat, ops: seq<Op>)
    requires Separate(x.iovas) && Covered(x.table, x.iovas) && base in x.iovas
    requires CanDoAll(x, granule, ops) && UnmapAt(base) !in ops
    ensures SameAt(DoAll(x, granule, ops), x, base) && CanDoAll(Without(x, base), granule, ops)
    ensures Without(DoAll(x, granule, ops), base) == DoAll(Without(x, base), granule, ops)
    decreases |ops|
  {
    hide Separate, Covered, CanDo, Do, Without;
    if ops != [] {
      assert ops[0] in ops && forall op :: op in ops[1..] ==> op in ops;
      OpKeepsSeparate(x, granule, ops[0]);
      OpCommutes(x, granule, base, ops[0]);
      UnmapLater(Do(x, granule, ops[0]), granule, base, ops[1..]);
    }
  }

  // A mapping into a free range is undone by its unmap.
  lemma {:induction false} WithoutMapped(x: Space, granule: nat, base: nat, ps: seq<Piece>)
    requires Covered(x.table, x.iovas) && Available(x.iovas, granule, base, Length(ps, |ps|))
    ensures Without(Mapped(x, base, ps), base) == x
  {
    AvailableIsUnmapped(x.table, x.iovas, granule, base, Length(ps, |ps|));
    UnmapUndoesMap(x.table, base, ps, |ps|);
    assert x.iovas[base := Length(ps, |ps|)] - {base} == x.iovas;
  }

  // ---------- Scatter lists ----------

  // The DMA bytes of a list lie in its own range.
  lemma {:induction false} DmaBytesInRange(o: seq<Entry>, l: Limits, base: nat, a: nat)
    requires ValidLimits(l) && Fits(o, l)
    requires a in Bytes(Merged(Slots(o, l, base), l, |o|).outs)
    ensures base <= a < base + Bound(o, l, |o|)
  {
    hide Merged, Slots, Bytes, Fits, Prepared, Pieces, Bound, Physical;
    var ps := Pieces(Prepared(o, l));
    DmaReachesList(map[], o, l, base);
    PiecesFollowLayout(o, l, |o|);
    MapPiecesFrame(map[], base, ps, |o|);
  }

  // While others map and unmap, the device goes on reading the list's bytes; and
  // the unmap that is computed from the merged list at the end leaves table and
  // allocator as if the list had never been mapped.
  lemma {:induction false} ListUnmapsLater(x: Space, f: seq<Entry>, o: seq<Entry>, l: Limits, base: nat, ops: seq<Op>)
    requires ValidLimits(l) && Fits(o, l) && o != []
    requires Separate(x.iovas) && Covered(x.table, x.iovas) && Available(x.iovas, l.granule, base, Bound(o, l, |o|))
    requires Finalised(f, o, Merged(Slots(o, l, base), l, |o|).outs)
    requires CanDoAll(Mapped(x, base, Pieces(Prepared(o, l))), l.granule, ops) && UnmapAt(base) !in ops
    ensures var y := DoAll(Mapped(x, base, Pieces(Prepared(o, l))), l.granule, ops);
            var outs := Merged(Slots(o, l, base), l, |o|).outs;
            && Reaches(y.table, Bytes(outs), Bytes(Physical(o, |o|)))
            && 0 < |outs| <= |f| && f[0].dmaAddress <= f[|outs| - 1].dmaAddress + f[|outs| - 1].dmaLength
            && CanDoAll(x, l.granule, ops)
            && Space(UnmapRange(y.table, RegionStart(f, l.granule), RegionSize(f, |outs|, l.granule)),
                     y.iovas - {RegionStart(f, l.granule)}) == DoAll(x, l.granule, ops)
  {
    hide Merged, Slots, Bytes, Fits, Prepared, Pieces, Bound, Physical, Finalised, Available, Separate, Covered,
         RegionStart, RegionSize, CanDoAll, DoAll, MapPieces, UnmapRange, PowerOfTwo, Rem;
    var ps := Pieces(Prepared(o, l));
    var x1 := Mapped(x, base, ps);
    PiecesFollowLayout(o, l, |o|);
    assert CanDo(x, l.granule, MapAt(base, ps));
    OpKeepsSeparate(x, l.granule, MapAt(base, ps));
    UnmapLater(x1, l.granule, base, ops);
    WithoutMapped(x, l.granule, base, ps);
    AvailableIsAligned(x.iovas, l.granule, base, Bound(o, l, |o|));
    UnmapFindsAllocation(f, o, l, base);
    StillReaches(x, DoAll(x1, l.granule, ops), o, l, base);
  }

  lemma {:induction false} AvailableIsAligned(iovas: map<nat, nat>, granule: nat, base: nat, size: nat)
    requires Available(iovas, granule, base, size)
    ensures granule > 0 && Rem(base, granule) == 0
  {
  }

  lemma {:induction false} StillReaches(x: Space, y: Space, o: seq<Entry>, l: Limits, base: nat)
    requires ValidLimits(l) && Fits(o, l) && SameAt(y, Mapped(x, base, Pieces(Prepared(o, l))), base)
    ensures Reaches(y.table, Bytes(Merged(Slots(o, l, base), l, |o|).outs), Bytes(Physical(o, |o|)))
  {
    hide Merged, Slots, Bytes, Fits, Prepared, Pieces, Bound, Physical, MapPieces;
    var dma := Bytes(Merged(Slots(o, l, base), l, |o|).outs);
    DmaReachesList(x.table, o, l, base);
    PiecesFollowLayout(o, l, |o|);
    forall k | 0 <= k < |dma|
      ensures dma[k] in y.table && y.table[dma[k]] == Bytes(Physical(o, |o|))[k]
    {
      DmaBytesInRange(o, l, base, dma[k]);
    }
  }
}
