// Laying a scatter list out in one IOVA allocation: how much space each segment
// gets and where it starts (the preparation loop of rknpu_iommu_dma_map_sg).
// Bus-address segments are not part of this model.
module ScatterLayout {
  import opened Arith
  import opened ScatterMerge

  // One struct scatterlist. `page` is the physical address of its page.
  datatype Entry = Entry(page: nat, offset: nat, length: nat, dmaAddress: nat, dmaLength: nat)

  function Off(s: seq<Entry>, l: Limits, i: nat): nat
    requires l.granule > 0 && i < |s|
  {
    Rem(s[i].offset, l.granule)
  }

  // A segment grown to whole granules.
  function Span(s: seq<Entry>, l: Limits, i: nat): nat
    requires l.granule > 0 && i < |s|
  {
    AlignUp(s[i].length + Off(s, l, i), l.granule)
  }

  // The bytes skipped at position x so that `span` bytes start on a boundary.
  function Pad(x: nat, span: nat, boundary: nat): nat
    requires boundary > 0
  {
    var pad := Distance(x, boundary);
    if pad != 0 && pad < span - 1 then pad else 0
  }

  // IOVA space used by the first i segments.
  function End(s: seq<Entry>, l: Limits, i: nat): nat
    requires l.granule > 0 && l.boundary > 0 && i <= |s|
    decreases i, 0
  {
    if i == 0 then 0 else Start(s, l, i - 1) + Span(s, l, i - 1)
  }

  function Start(s: seq<Entry>, l: Limits, i: nat): nat
    requires l.granule > 0 && l.boundary > 0 && i < |s|
    decreases i, 1
  {
    End(s, l, i) + Pad(End(s, l, i), Span(s, l, i), l.boundary)
  }

  // Where segment i begins, and past the last one where the layout ends.
  function Bound(s: seq<Entry>, l: Limits, i: nat): nat
    requires l.granule > 0 && l.boundary > 0 && i <= |s|
  {
    if i < |s| then Start(s, l, i) else End(s, l, i)
  }

  // What the preparation loop leaves in entry i: the unaligned parts stashed in
  // the DMA fields, the padding of the successor added to the length.
  function PreparedEntry(s: seq<Entry>, l: Limits, i: nat): Entry
    requires l.granule > 0 && l.boundary > 0 && i < |s|
  {
    Entry(s[i].page, s[i].offset - Off(s, l, i), Width(s, l, i), Off(s, l, i), s[i].length)
  }

  function Width(s: seq<Entry>, l: Limits, i: nat): (w: nat)
    requires l.granule > 0 && l.boundary > 0 && i < |s|
    ensures w >= Span(s, l, i)
    ensures Bound(s, l, i) + w == Bound(s, l, i + 1)
  {
    assert End(s, l, i + 1) == Start(s, l, i) + Span(s, l, i);
    Bound(s, l, i + 1) - Start(s, l, i)
  }

  function Prepared(s: seq<Entry>, l: Limits): (p: seq<Entry>)
    requires l.granule > 0 && l.boundary > 0
    ensures |p| == |s|
  {
    seq(|s|, i requires 0 <= i < |s| => PreparedEntry(s, l, i))
  }

  // The lists the driver passes: no empty segment, and every value fits the
  // width of the field the code stores it in.
  ghost predicate Fits(s: seq<Entry>, l: Limits)
    requires l.granule > 0 && l.boundary > 0
  {
    && (forall i :: 0 <= i < |s| ==> 0 < s[i].length)
    && (forall i {:trigger Width(s, l, i)} :: 0 <= i < |s| ==> Width(s, l, i) < U32_MODULUS)
    && ((forall i :: 0 <= i < |s| ==> s[i].length <= l.maxLen) || Bound(s, l, |s|) < U32_MODULUS)
  }

  lemma {:induction false} BoundMonotone(s: seq<Entry>, l: Limits, i: nat, j: nat)
    requires l.granule > 0 && l.boundary > 0 && i <= j <= |s|
    ensures Bound(s, l, i) <= Bound(s, l, j)
  {
    if i < j {
      BoundMonotone(s, l, i, j - 1);
      var w := Width(s, l, j - 1);
    }
  }

  // Data plus its unaligned lead-in fits in the granules reserved for it.
  lemma {:induction false} SpanCovers(s: seq<Entry>, l: Limits, i: nat)
    requires l.granule > 0 && l.boundary > 0 && i < |s|
    ensures Off(s, l, i) + s[i].length <= Span(s, l, i) <= Width(s, l, i)
    ensures Rem(Span(s, l, i), l.granule) == 0
  {
    AlignUpIsMultiple(s[i].length + Off(s, l, i), l.granule);
  }

  lemma {:induction false} LayoutIsAligned(s: seq<Entry>, l: Limits, i: nat)
    requires ValidLimits(l) && i <= |s|
    ensures Rem(End(s, l, i), l.granule) == 0 && Rem(Bound(s, l, i), l.granule) == 0
  {
    hide PowerOfTwo, Rem, Distance, AlignUp;
    if i > 0 {
      LayoutIsAligned(s, l, i - 1);
      SpanCovers(s, l, i - 1);
      RemShift(Start(s, l, i - 1), Span(s, l, i - 1), l.granule);
    }
    if i < |s| {
      DistanceAligned(End(s, l, i), l.boundary, l.granule);
      RemShift(End(s, l, i), Pad(End(s, l, i), Span(s, l, i), l.boundary), l.granule);
    }
  }

  // The layout of a list at a base address.
  function Slots(s: seq<Entry>, l: Limits, base: nat): (ts: seq<Slot>)
    requires l.granule > 0 && l.boundary > 0
    ensures |ts| == |s|
  {
    seq(|s|, i requires 0 <= i < |s| => Slot(base + Start(s, l, i), Off(s, l, i), s[i].length, Width(s, l, i)))
  }

  lemma {:induction false} SlotFacts(s: seq<Entry>, l: Limits, base: nat, i: nat)
    requires l.granule > 0 && l.boundary > 0 && i < |s| && 0 < s[i].length
    ensures Spans(Slots(s, l, base)[i], base + Bound(s, l, i), base + Bound(s, l, i + 1))
    ensures Bound(s, l, i + 1) <= Bound(s, l, |s|)
  {
    SpanCovers(s, l, i);
    BoundMonotone(s, l, i + 1, |s|);
  }

  lemma {:induction false} LayoutChains(s: seq<Entry>, l: Limits, base: nat)
    requires ValidLimits(l) && Fits(s, l)
    ensures Chain(Slots(s, l, base), l, base)
  {
    var ts := Slots(s, l, base);
    var bs := seq(|s| + 1, i requires 0 <= i <= |s| => Bound(s, l, i));
    forall i | 0 <= i < |ts|
      ensures Between(ts, bs, base, i)
    {
      SlotFacts(s, l, base, i);
    }
    ChainFromBounds(ts, bs, l, base);
  }

  lemma {:induction false} LayoutStartsAtZero(s: seq<Entry>, l: Limits)
    requires l.granule > 0 && l.boundary > 0 && |s| > 0
    ensures Start(s, l, 0) == 0
  {
  }

  // ---------- What the padding is for ----------

  lemma {:induction false} DataFromBoundary(y: nat, off: nat, len: nat, b: nat)
    requires off < b && Rem(y, b) == 0
    ensures Crosses(Extent(y + off, len), b) <==> off + len > b
  {
    RemAdd(y, off, b);
  }

  lemma {:induction false} DataBeforeBoundary(x: nat, off: nat, len: nat, span: nat, b: nat)
    requires b > 0 && Rem(x, b) + span <= b && off + len <= span && 0 < len
    ensures !Crosses(Extent(x + off, len), b)
  {
    RemAdd(x, off, b);
  }

  // Data of `len` bytes at offset `off` in a span placed by the padding rule.
  lemma {:induction false} PlacedInsideBoundary(x: nat, off: nat, len: nat, span: nat, b: nat, g: nat)
    requires g <= b && off < g && 0 < len && off + len <= span
    requires Distance(x, b) + 1 != span
    ensures Crosses(Extent(x + Pad(x, span, b) + off, len), b) <==> off + len > b
  {
    var pad := Pad(x, span, b);
    if pad != 0 || Rem(x, b) == 0 {
      RemAdd(x, pad, b);
      DataFromBoundary(x + pad, off, len, b);
    } else {
      DataBeforeBoundary(x, off, len, span, b);
    }
  }

  // A distance is whole granules, so it is never one short of a span.
  lemma {:induction false} DistanceIsNotOneShort(x: nat, span: nat, l: Limits)
    requires ValidLimits(l) && l.granule >= 2 && Rem(x, l.granule) == 0 && Rem(span, l.granule) == 0
    ensures Distance(x, l.boundary) + 1 != span
  {
    hide PowerOfTwo;
    DistanceAligned(x, l.boundary, l.granule);
    MultiplesApart(Distance(x, l.boundary), span, l.granule);
  }

  // In an allocation that starts on a boundary, the padding keeps a segment
  // inside one boundary window exactly when it fits in one at all.
  lemma {:induction false} PaddingAvoidsBoundaries(s: seq<Entry>, l: Limits, base: nat, i: nat)
    requires ValidLimits(l) && 2 <= l.granule <= l.boundary && Rem(base, l.boundary) == 0
    requires i < |s| && 0 < s[i].length
    ensures Crosses(Extent(base + Start(s, l, i) + Off(s, l, i), s[i].length), l.boundary)
       <==> Off(s, l, i) + s[i].length > l.boundary
  {
    hide PowerOfTwo, Pad, Distance, Rem, AlignUp, End;
    LayoutIsAligned(s, l, i);
    SpanCovers(s, l, i);
    DistanceIsNotOneShort(End(s, l, i), Span(s, l, i), l);
    PlacedInsideBoundary(End(s, l, i), Off(s, l, i), s[i].length, Span(s, l, i), l.boundary, l.granule);
    RemShift(Start(s, l, i) + Off(s, l, i), base, l.boundary);
  }

  // The data of segment i in an allocation at `base`.
  function DataAt(s: seq<Entry>, l: Limits, base: nat, i: nat): Extent
    requires l.granule > 0 && l.boundary > 0 && i < |s|
  {
    Extent(base + Start(s, l, i) + Off(s, l, i), s[i].length)
  }

  // Wherever the allocation lies, no DMA segment handed to the device crosses a
  // boundary if and only if no segment of the list does at its place.
  lemma {:induction false} OutputCrossesIffDataDoes(s: seq<Entry>, l: Limits, base: nat)
    requires ValidLimits(l) && Fits(s, l)
    ensures NoneCrosses(Merged(Slots(s, l, base), l, |s|).outs, l.boundary)
       <==> forall i :: 0 <= i < |s| ==> !Crosses(DataAt(s, l, base, i), l.boundary)
  {
    hide Crosses, Fits, Rem, Distance, AlignUp, PowerOfTwo, Slots, Merged, Unmerged;
    var ts := Slots(s, l, base);
    LayoutChains(s, l, base);
    MergeCrossesIffSegmentDoes(ts, l, base, |s|);
    UnmergedIsData(s, l, base);
  }

  lemma {:induction false} UnmergedIsData(s: seq<Entry>, l: Limits, base: nat)
    requires l.granule > 0 && l.boundary > 0
    ensures |Unmerged(Slots(s, l, base), |s|)| == |s|
    ensures forall i :: 0 <= i < |s| ==> Unmerged(Slots(s, l, base), |s|)[i] == DataAt(s, l, base, i)
  {
    hide Start;
  }

  // A place the allocator may choose below the DMA limit: whole granules, not 0.
  ghost predicate Placeable(s: seq<Entry>, l: Limits, base: nat, limit: nat)
    requires l.granule > 0 && l.boundary > 0
  {
    base > 0 && Rem(base, l.granule) == 0 && base + Bound(s, l, |s|) <= limit
  }

  // Segment i crosses nowhere: with its lead-in it is a single granule, or the
  // lowest place at which it would cross leaves no room for the list.
  predicate SafeBelow(s: seq<Entry>, l: Limits, limit: nat, i: nat)
    requires 0 < l.granule <= l.boundary && i < |s|
  {
    var used := Off(s, l, i) + s[i].length;
    used <= l.granule || FirstAcross(Start(s, l, i), used, l.granule, l.boundary) + Bound(s, l, |s|) > limit
  }

  // Over all the places the allocator may choose below a limit, no boundary is
  // ever crossed if and only if each segment is safe there.
  lemma {:induction false} NeverCrossesBelowLimit(s: seq<Entry>, l: Limits, limit: nat)
    requires ValidLimits(l) && Fits(s, l) && l.granule <= l.boundary
    ensures (forall base: nat :: Placeable(s, l, base, limit) ==>
               NoneCrosses(Merged(Slots(s, l, base), l, |s|).outs, l.boundary))
       <==> forall i :: 0 <= i < |s| ==> SafeBelow(s, l, limit, i)
  {
    hide Crosses, Fits, Rem, PowerOfTwo, Slots, Merged, NoneCrosses, SafeBelow, Placeable;
    if forall i :: 0 <= i < |s| ==> SafeBelow(s, l, limit, i) {
      forall base: nat | Placeable(s, l, base, limit)
        ensures NoneCrosses(Merged(Slots(s, l, base), l, |s|).outs, l.boundary)
      {
        OutputCrossesIffDataDoes(s, l, base);
        forall i | 0 <= i < |s|
          ensures !Crosses(DataAt(s, l, base, i), l.boundary)
        {
          SafeStaysInside(s, l, limit, base, i);
        }
      }
    } else {
      var i :| 0 <= i < |s| && !SafeBelow(s, l, limit, i);
      var base := CrossingBase(s, l, limit, i);
      OutputCrossesIffDataDoes(s, l, base);
    }
  }

  // From a granule on, data crosses exactly if it goes past the boundary above.
  lemma {:induction false} CrossesFromGranule(p: nat, off: nat, len: nat, b: nat, g: nat)
    requires PowerOfTwo(b) && PowerOfTwo(g) && 0 < g <= b && Rem(p, g) == 0 && off < g
    ensures Crosses(Extent(p + off, len), b) <==> Rem(p, b) + off + len > b
  {
    hide PowerOfTwo, Rem;
    GranuleBelowBoundary(p, b, g);
    RemAdd(p, off, b);
  }

  lemma {:induction false} SafeStaysInside(s: seq<Entry>, l: Limits, limit: nat, base: nat, i: nat)
    requires ValidLimits(l) && l.granule <= l.boundary && i < |s|
    requires Placeable(s, l, base, limit) && SafeBelow(s, l, limit, i)
    ensures !Crosses(DataAt(s, l, base, i), l.boundary)
  {
    hide PowerOfTwo, Rem, Start, Crosses, FirstAcross, Bound;
    var p, used := base + Start(s, l, i), Off(s, l, i) + s[i].length;
    LayoutIsAligned(s, l, i);
    StartIsAligned(s, l, i);
    RemShift(base, Start(s, l, i), l.granule);
    OffIsShort(s, l, i);
    CrossesFromGranule(p, Off(s, l, i), s[i].length, l.boundary, l.granule);
    if used <= l.granule {
      GranuleBelowBoundary(p, l.boundary, l.granule);
    } else {
      NotBefore(Start(s, l, i), used, l.granule, l.boundary, base);
    }
  }

  lemma {:induction false} StartIsAligned(s: seq<Entry>, l: Limits, i: nat)
    requires ValidLimits(l) && i < |s|
    ensures Rem(Start(s, l, i), l.granule) == 0
  {
    hide PowerOfTwo, Rem, Start, End;
    LayoutIsAligned(s, l, i);
  }

  lemma {:induction false} OffIsShort(s: seq<Entry>, l: Limits, i: nat)
    requires l.granule > 0 && i < |s|
    ensures Off(s, l, i) < l.granule
  {
  }

  // The lowest place at which segment i crosses.
  lemma {:induction false} CrossingBase(s: seq<Entry>, l: Limits, limit: nat, i: nat) returns (base: nat)
    requires ValidLimits(l) && l.granule <= l.boundary && i < |s| && !SafeBelow(s, l, limit, i)
    ensures Placeable(s, l, base, limit) && Crosses(DataAt(s, l, base, i), l.boundary)
  {
    hide PowerOfTwo, Rem, Start, Crosses, FirstAcross, Bound;
    var used := Off(s, l, i) + s[i].length;
    StartIsAligned(s, l, i);
    AtFirst(Start(s, l, i), used, l.granule, l.boundary);
    base := FirstAcross(Start(s, l, i), used, l.granule, l.boundary);
    RemShift(base, Start(s, l, i), l.granule);
    OffIsShort(s, l, i);
    CrossesFromGranule(base + Start(s, l, i), Off(s, l, i), s[i].length, l.boundary, l.granule);
  }

  // A device that addresses no more than one boundary window: no list crosses.
  lemma {:induction false} LowLimitNeverCrosses(s: seq<Entry>, l: Limits, limit: nat, base: nat)
    requires ValidLimits(l) && Fits(s, l) && limit <= l.boundary && Placeable(s, l, base, limit)
    ensures NoneCrosses(Merged(Slots(s, l, base), l, |s|).outs, l.boundary)
  {
    hide Crosses, Fits, Rem, PowerOfTwo, Slots, Merged, NoneCrosses, AlignUp, Pad;
    OutputCrossesIffDataDoes(s, l, base);
    forall i | 0 <= i < |s|
      ensures !Crosses(DataAt(s, l, base, i), l.boundary)
    {
      SpanCovers(s, l, i);
      BoundMonotone(s, l, i + 1, |s|);
      var w := Width(s, l, i);
      BelowBoundary(base + Start(s, l, i) + Off(s, l, i), s[i].length, l.boundary);
    }
  }

  lemma {:induction false} BelowBoundary(a: nat, len: nat, b: nat)
    requires b > 0 && a + len <= b
    ensures !Crosses(Extent(a, len), b)
  {
  }

  // A device with room for the list above a boundary: no boundary is ever crossed
  // if and only if each segment, with its lead-in, is a single granule.
  lemma {:induction false} NeverCrossesIffOneGranule(s: seq<Entry>, l: Limits, limit: nat)
    requires ValidLimits(l) && Fits(s, l) && l.granule <= l.boundary
    requires limit >= l.boundary + Bound(s, l, |s|)
    ensures (forall base: nat :: Placeable(s, l, base, limit) ==>
               NoneCrosses(Merged(Slots(s, l, base), l, |s|).outs, l.boundary))
       <==> forall i :: 0 <= i < |s| ==> Off(s, l, i) + s[i].length <= l.granule
  {
    hide Crosses, Fits, Rem, PowerOfTwo, Slots, Merged, NoneCrosses, Placeable, FirstAcross, Start, Bound;
    NeverCrossesBelowLimit(s, l, limit);
    forall i | 0 <= i < |s|
      ensures SafeBelow(s, l, limit, i) <==> Off(s, l, i) + s[i].length <= l.granule
    {
      StartIsAligned(s, l, i);
      if Off(s, l, i) + s[i].length > l.granule {
        AtFirst(Start(s, l, i), Off(s, l, i) + s[i].length, l.granule, l.boundary);
      }
    }
  }

  // Padding and join test together: with a boundary-aligned base, no DMA
  // segment handed to the device crosses a boundary if and only if every
  // segment of the list fits in a boundary window with its lead-in.
  lemma {:induction false} NoOutputCrosses(s: seq<Entry>, l: Limits, base: nat)
    requires ValidLimits(l) && Fits(s, l) && 2 <= l.granule <= l.boundary && Rem(base, l.boundary) == 0
    ensures NoneCrosses(Merged(Slots(s, l, base), l, |s|).outs, l.boundary)
       <==> forall i :: 0 <= i < |s| ==> Off(s, l, i) + s[i].length <= l.boundary
  {
    hide Crosses, Rem, PowerOfTwo, Merged, Slots, Start;
    OutputCrossesIffDataDoes(s, l, base);
    forall i | 0 <= i < |s|
      ensures Crosses(DataAt(s, l, base, i), l.boundary) <==> Off(s, l, i) + s[i].length > l.boundary
    {
      PaddingAvoidsBoundaries(s, l, base, i);
    }
  }

  lemma {:induction false} SingleSegment(e: Entry, l: Limits, base: nat)
    requires l.granule > 0 && l.boundary > 0
    ensures var off := Rem(e.offset, l.granule);
            && Slots([e], l, base) == [Slot(base, off, e.length, AlignUp(e.length + off, l.granule))]
            && Merged(Slots([e], l, base), l, 1).outs == [Extent(base + off, e.length)]
  {
    LayoutStartsAtZero([e], l);
    assert End([e], l, 1) == Span([e], l, 0);
    var ts := Slots([e], l, base);
    assert Merged(ts, l, 0) == Merge([], 0);
  }

  // The alignment of the base is needed even for a list shorter than the
  // boundary. With the kernel's default boundary of 4 GB and a 40-bit device the
  // allocator may place two granules one granule below it, and they cross it.
  lemma {:induction false} UnalignedBaseCrosses(page: nat)
    ensures var s := [Entry(page, 0, 0x2000, 0, 0)];
            var l := Limits(0x1000, 0x1_0000_0000, 0x1_0000);
            && Off(s, l, 0) + s[0].length <= l.boundary && Placeable(s, l, 0xFFFF_F000, 0x100_0000_0000)
            && !NoneCrosses(Merged(Slots(s, l, 0xFFFF_F000), l, 1).outs, l.boundary)
  {
    hide AlignUp;
    var s := [Entry(page, 0, 0x2000, 0, 0)];
    var l := Limits(0x1000, 0x1_0000_0000, 0x1_0000);
    SingleSegment(s[0], l, 0xFFFF_F000);
    RemIsModulo(0xFFFF_F000, 0x1000);
    WholeGranules(0x2000, 0x1000);
    assert Bound(s, l, 1) == End(s, l, 1) == 0x2000 by {
      LayoutStartsAtZero(s, l);
    }
    assert Crosses(Merged(Slots(s, l, 0xFFFF_F000), l, 1).outs[0], l.boundary);
  }

  lemma {:induction false} WholeGranules(x: nat, g: nat)
    requires g > 0 && x == g + g
    ensures AlignUp(x, g) == x
  {
    Unit(g);
    RemShift(g, g, g);
  }
}
