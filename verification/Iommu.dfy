// The I/O address space of one IOMMU domain: a page table, kept per byte, and
// the ranges the IOVA allocator has handed out. These are kernel services; the
// model keeps only what the driver relies on, and every choice the kernel
// makes (the address returned, whether a mapping succeeds) is a parameter.
module Iommu {
  import opened Arith
  import opened Kernel

  type Table = map<nat, nat>

  // A physically contiguous run of bytes.
  datatype Piece = Piece(phys: nat, length: nat)

  function Translate(a: nat, iova: nat, phys: nat): nat
    requires iova <= a
  {
    phys + (a - iova)
  }

  function MapRange(t: Table, iova: nat, phys: nat, size: nat): Table {
    t + map a: nat | iova <= a < iova + size :: Translate(a, iova, phys)
  }

  function UnmapRange(t: Table, iova: nat, size: nat): Table {
    map a: nat | a in t && !(iova <= a < iova + size) :: t[a]
  }

  // Total length of the first i pieces.
  function Length(ps: seq<Piece>, i: nat): nat
    requires i <= |ps|
  {
    if i == 0 then 0 else Length(ps, i - 1) + ps[i - 1].length
  }

  // The first i pieces mapped one after the other from iova on.
  function MapPieces(t: Table, iova: nat, ps: seq<Piece>, i: nat): Table
    requires i <= |ps|
  {
    if i == 0 then t
    else MapRange(MapPieces(t, iova, ps, i - 1), iova + Length(ps, i - 1), ps[i - 1].phys, ps[i - 1].length)
  }

  lemma {:induction false} MapRangeAt(t: Table, iova: nat, phys: nat, size: nat)
    ensures forall a :: a in MapRange(t, iova, phys, size) <==> a in t || iova <= a < iova + size
    ensures forall a :: iova <= a < iova + size ==> MapRange(t, iova, phys, size)[a] == phys + (a - iova)
    ensures forall a :: a in t && !(iova <= a < iova + size) ==> MapRange(t, iova, phys, size)[a] == t[a]
  {
  }

  // Mapping pieces touches exactly the bytes [iova, iova + Length).
  lemma {:induction false} MapPiecesFrame(t: Table, iova: nat, ps: seq<Piece>, i: nat)
    requires i <= |ps|
    ensures forall a :: iova <= a < iova + Length(ps, i) ==> a in MapPieces(t, iova, ps, i)
    ensures forall a :: !(iova <= a < iova + Length(ps, i)) ==>
              (a in MapPieces(t, iova, ps, i) <==> a in t) &&
              (a in t ==> MapPieces(t, iova, ps, i)[a] == t[a])
  {
    if i > 0 {
      MapPiecesFrame(t, iova, ps, i - 1);
    }
  }

  // Piece j is readable, byte for byte, at its place in the mapping.
  lemma {:induction false} MapPiecesAt(t: Table, iova: nat, ps: seq<Piece>, i: nat, j: nat)
    requires j < i <= |ps|
    ensures forall a :: iova + Length(ps, j) <= a < iova + Length(ps, j + 1) ==>
              a in MapPieces(t, iova, ps, i) &&
              MapPieces(t, iova, ps, i)[a] == ps[j].phys + (a - iova - Length(ps, j))
  {
    hide MapRange;
    MapRangeAt(MapPieces(t, iova, ps, i - 1), iova + Length(ps, i - 1), ps[i - 1].phys, ps[i - 1].length);
    if j < i - 1 {
      MapPiecesAt(t, iova, ps, i - 1, j);
      LengthMonotone(ps, j + 1, i - 1);
    }
  }

  lemma {:induction false} LengthMonotone(ps: seq<Piece>, i: nat, j: nat)
    requires i <= j <= |ps|
    ensures Length(ps, i) <= Length(ps, j)
  {
    if i < j {
      LengthMonotone(ps, i, j - 1);
    }
  }

  // Unmapping a range that was free before restores the table.
  lemma {:induction false} UnmapUndoesMap(t: Table, iova: nat, ps: seq<Piece>, i: nat)
    requires i <= |ps|
    requires forall a :: iova <= a < iova + Length(ps, i) ==> a !in t
    ensures UnmapRange(MapPieces(t, iova, ps, i), iova, Length(ps, i)) == t
  {
    MapPiecesFrame(t, iova, ps, i);
  }

  // Every mapped byte lies in a range the allocator has handed out.
  ghost predicate Covered(t: Table, iovas: map<nat, nat>) {
    forall a :: a in t ==> exists b :: b in iovas && b <= a < b + iovas[b]
  }

  // A range the allocator may return: aligned, non-zero, clear of live ranges.
  ghost predicate Available(iovas: map<nat, nat>, granule: nat, iova: nat, size: nat) {
    && granule > 0 && Rem(iova, granule) == 0 && iova > 0
    && iova + size < U64_MODULUS
    && iova !in iovas
    && forall b :: b in iovas ==> b + iovas[b] <= iova || iova + size <= b
  }

  lemma {:induction false} AvailableIsUnmapped(t: Table, iovas: map<nat, nat>, granule: nat, iova: nat, size: nat)
    requires Covered(t, iovas) && Available(iovas, granule, iova, size)
    ensures forall a :: iova <= a < iova + size ==> a !in t
  {
  }

  class IommuDomain {
    const granule: nat
    var table: Table
    var iovas: map<nat, nat>

    ghost predicate Valid()
      reads this
    {
      granule > 0 && PowerOfTwo(granule) && granule <= U32_MODULUS && Covered(table, iovas)
    }

    constructor (granule: nat)
      requires PowerOfTwo(granule) && 0 < granule <= U32_MODULUS
      ensures Valid() && table == map[] && iovas == map[] && this.granule == granule
    {
      this.granule := granule;
      table := map[];
      iovas := map[];
    }

    // The kernel's choice of address; 0 means that no range was found.
    method AllocIova(size: nat, choice: nat) returns (iova: nat)
      requires choice == 0 || Available(iovas, granule, choice, size)
      modifies this`iovas
      ensures iova == choice
      ensures iovas == if choice == 0 then old(iovas) else old(iovas)[choice := size]
    {
      if choice != 0 {
        iovas := iovas[choice := size];
      }
      iova := choice;
    }

    method FreeIova(iova: nat)
      modifies this`iovas
      ensures iovas == old(iovas) - {iova}
    {
      iovas := iovas - {iova};
    }

    // All or nothing: a failing call leaves no mapping behind.
    method MapSg(iova: nat, ps: seq<Piece>, ok: bool) returns (mapped: int)
      modifies this`table
      ensures ok ==> mapped == Length(ps, |ps|) && table == MapPieces(old(table), iova, ps, |ps|)
      ensures !ok ==> mapped < 0 && table == old(table)
    {
      if ok {
        table := MapPieces(table, iova, ps, |ps|);
        mapped := Length(ps, |ps|);
      } else {
        mapped := -EINVAL;
      }
    }

    method Map(iova: nat, phys: nat, size: nat, ok: bool) returns (ret: int)
      modifies this`table
      ensures ok ==> ret == 0 && table == MapRange(old(table), iova, phys, size)
      ensures !ok ==> ret < 0 && table == old(table)
    {
      if ok {
        table := MapRange(table, iova, phys, size);
        ret := 0;
      } else {
        ret := -EINVAL;
      }
    }

    method Unmap(iova: nat, size: nat)
      modifies this`table
      ensures table == UnmapRange(old(table), iova, size)
    {
      table := UnmapRange(table, iova, size);
    }
  }
}
