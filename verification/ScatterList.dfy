// The in-place life of a scatter list: prepared, then either restored or merged
// into DMA segments, and unmapped from the merged entries alone
// (rknpu_iommu_dma_map_sg, __finalise_sg, __invalidate_sg and
// rknpu_iommu_dma_unmap_sg of rknpu_iommu.c). The list is an array of structs;
// DMA segments are written into the same entries the segments are read from.
module ScatterList {
  import opened Arith
  import opened Iommu
  import opened ScatterMerge
  import opened ScatterLayout

  const DMA_MAPPING_ERROR: nat := 0xFFFF_FFFF_FFFF_FFFF

  // What the caller sees of an entry besides its DMA fields.
  ghost predicate SameSegment(e: Entry, o: Entry) {
    e.page == o.page && e.offset == o.offset && e.length == o.length
  }

  ghost predicate NotMapped(e: Entry) {
    e.dmaAddress == DMA_MAPPING_ERROR && e.dmaLength == 0
  }

  // The list as it was, without DMA data.
  ghost predicate Restored(f: seq<Entry>, o: seq<Entry>) {
    |f| == |o| && forall i :: 0 <= i < |f| ==> SameSegment(f[i], o[i]) && NotMapped(f[i])
  }

  // The list as it was, with the DMA segments `outs` in its first entries.
  ghost predicate Finalised(f: seq<Entry>, o: seq<Entry>, outs: seq<Extent>) {
    && |f| == |o| && |outs| <= |f|
    && (forall i :: 0 <= i < |f| ==> SameSegment(f[i], o[i]))
    && (forall i :: 0 <= i < |outs| ==> Extent(f[i].dmaAddress, f[i].dmaLength) == outs[i])
    && (forall i :: |outs| <= i < |f| ==> NotMapped(f[i]))
  }

  // The list after i rounds of the preparation loop: the last entry prepared
  // has not yet received the padding of its successor.
  ghost predicate PreparedUpTo(f: seq<Entry>, o: seq<Entry>, l: Limits, i: nat)
    requires l.granule > 0 && l.boundary > 0 && i <= |o|
  {
    && |f| == |o|
    && (forall j :: 0 <= j < i - 1 ==> f[j] == PreparedEntry(o, l, j))
    && (i > 0 ==> f[i - 1] == Stashed(o[i - 1], l))
    && (forall j :: i <= j < |o| ==> f[j] == o[j])
  }

  function Stashed(e: Entry, l: Limits): Entry
    requires l.granule > 0
  {
    var off := Rem(e.offset, l.granule);
    Entry(e.page, e.offset - off, AlignUp(e.length + off, l.granule), off, e.length)
  }

  // Grow segment i and push the padding it asks for onto its predecessor.
  function PrepareStep(f: seq<Entry>, l: Limits, i: nat, pad: nat): seq<Entry>
    requires l.granule > 0 && i < |f| && (pad > 0 ==> i > 0)
  {
    var f' := f[i := Stashed(f[i], l)];
    if pad > 0 then f'[i - 1 := f'[i - 1].(length := f'[i - 1].length + pad)] else f'
  }

  lemma {:induction false} PrepareStepPrepares(f: seq<Entry>, o: seq<Entry>, l: Limits, i: nat)
    requires ValidLimits(l) && i < |o| && PreparedUpTo(f, o, l, i)
    ensures var pad := Pad(End(o, l, i), Span(o, l, i), l.boundary);
            (pad > 0 ==> i > 0) && PreparedUpTo(PrepareStep(f, l, i, pad), o, l, i + 1)
    ensures |f| == |o| && f[i] == o[i] && (i > 0 ==> f[i - 1] == Stashed(o[i - 1], l))
  {
    hide Bound, End, Pad, AlignUp;
    PaddingNeedsPrevious(o, l, i);
    if i > 0 {
      WidthIsSpanPlusPad(o, l, i);
    }
  }

  lemma {:induction false} LayoutBegins(o: seq<Entry>, l: Limits)
    requires l.granule > 0 && l.boundary > 0
    ensures Bound(o, l, 0) == 0
  {
  }

  lemma {:induction false} PrepareBegins(o: seq<Entry>, l: Limits)
    requires l.granule > 0 && l.boundary > 0
    ensures PreparedUpTo(o, o, l, 0) && End(o, l, 0) == 0 && End(o, l, |o|) == Bound(o, l, |o|)
  {
  }

  // There is always a previous segment when padding is due.
  lemma {:induction false} PaddingNeedsPrevious(s: seq<Entry>, l: Limits, i: nat)
    requires l.granule > 0 && l.boundary > 0 && i < |s|
    ensures Pad(End(s, l, i), Span(s, l, i), l.boundary) > 0 ==> i > 0
  {
  }

  lemma {:induction false} WidthIsSpanPlusPad(s: seq<Entry>, l: Limits, i: nat)
    requires l.granule > 0 && l.boundary > 0 && 0 < i < |s|
    ensures Width(s, l, i - 1) == Span(s, l, i - 1) + Pad(End(s, l, i), Span(s, l, i), l.boundary)
  {
    assert End(s, l, i) == Start(s, l, i - 1) + Span(s, l, i - 1);
  }

  lemma {:induction false} PreparedLast(f: seq<Entry>, o: seq<Entry>, l: Limits)
    requires ValidLimits(l) && PreparedUpTo(f, o, l, |o|)
    ensures f == Prepared(o, l)
  {
    if |o| > 0 {
      var i := |o| - 1;
      assert Width(o, l, i) == Span(o, l, i) by {
        assert End(o, l, |o|) == Start(o, l, i) + Span(o, l, i);
      }
      assert f[i] == PreparedEntry(o, l, i);
    }
  }

  // One round of the layout; every value it stores fits its field.
  lemma {:induction false} Round(s: seq<Entry>, l: Limits, i: nat)
    requires ValidLimits(l) && Fits(s, l) && i < |s|
    ensures Stashed(s[i], l).length == Span(s, l, i) > 0
    ensures End(s, l, i + 1) == End(s, l, i) + Pad(End(s, l, i), Span(s, l, i), l.boundary) + Span(s, l, i)
    ensures Span(s, l, i) < U32_MODULUS
    ensures i > 0 ==> Stashed(s[i - 1], l).length + Pad(End(s, l, i), Span(s, l, i), l.boundary) < U32_MODULUS
  {
    hide Rem, Distance, AlignUp, Pad, PowerOfTwo, Bound;
    SpanCovers(s, l, i);
    assert Span(s, l, i) <= Width(s, l, i) < U32_MODULUS;
    if i > 0 {
      WidthIsSpanPlusPad(s, l, i);
      assert Width(s, l, i - 1) < U32_MODULUS;
    }
  }

  // Grow every segment to whole granules, push boundary padding onto the
  // previous segment and stash the unaligned parts in the DMA fields.
  method Prepare(sg: array<Entry>, l: Limits) returns (iovaLen: nat)
    requires ValidLimits(l) && Fits(sg[..], l)
    modifies sg
    ensures iovaLen == Bound(old(sg[..]), l, sg.Length)
    ensures sg[..] == Prepared(old(sg[..]), l)
  {
    hide PreparedEntry, PreparedUpTo, Width, Bound, End, Start, Span, Off, AlignUp;
    ghost var o := sg[..];
    PrepareBegins(o, l);
    iovaLen := 0;
    var prev := -1;
    for i := 0 to sg.Length
      invariant prev == i - 1
      invariant iovaLen == End(o, l, i)
      invariant PreparedUpTo(sg[..], o, l, i)
    {
      ghost var f := sg[..];
      ghost var pad := Pad(End(o, l, i), Span(o, l, i), l.boundary);
      PrepareStepPrepares(f, o, l, i);
      Round(o, l, i);

      var sIovaOff := Rem(sg[i].offset, l.granule);
      var sLength := sg[i].length;
      var padLen := Distance(iovaLen, l.boundary);

      sg[i] := sg[i].(dmaAddress := sIovaOff, dmaLength := sLength, offset := sg[i].offset - sIovaOff);
      sLength := AlignUp(sLength + sIovaOff, l.granule);
      sg[i] := sg[i].(length := U32(sLength));
      assert sg[..] == f[i := Stashed(f[i], l)];

      if padLen != 0 && padLen < sLength - 1 {
        sg[prev] := sg[prev].(length := U32(sg[prev].length + padLen));
        iovaLen := iovaLen + padLen;
      }
      assert sg[..] == PrepareStep(f, l, i, pad);

      iovaLen := iovaLen + sLength;
      prev := i;
    }
    PreparedLast(sg[..], o, l);
  }

  // ---------- Success: restore and merge in one pass ----------

  // A prepared entry holds its slot and, in pieces, the original segment.
  ghost predicate Holds(e: Entry, t: Slot, o: Entry) {
    && e.page == o.page && e.offset + t.off == o.offset && e.length == t.width
    && e.dmaAddress == t.off && e.dmaLength == t.len == o.length
  }

  ghost predicate AllHold(p: seq<Entry>, ts: seq<Slot>, o: seq<Entry>) {
    |p| == |ts| == |o| && forall i :: 0 <= i < |p| ==> Holds(p[i], ts[i], o[i])
  }

  lemma {:induction false} PreparedHolds(o: seq<Entry>, l: Limits, base: nat)
    requires l.granule > 0 && l.boundary > 0
    ensures AllHold(Prepared(o, l), Slots(o, l, base), o)
  {
    hide Width, Bound, End, Start, Pad;
  }

  // After i rounds: DMA data only in entries already read, the rest untouched.
  ghost predicate FinalisedUpTo(f: seq<Entry>, p: seq<Entry>, o: seq<Entry>, outs: seq<Extent>, i: nat) {
    && |f| == |p| == |o| && |outs| <= i <= |f|
    && (forall j :: 0 <= j < i ==> SameSegment(f[j], o[j]))
    && (forall j :: 0 <= j < |outs| ==> Extent(f[j].dmaAddress, f[j].dmaLength) == outs[j])
    && (forall j :: |outs| <= j < i ==> NotMapped(f[j]))
    && (forall j :: i <= j < |f| ==> f[j] == p[j])
  }

  function Unstashed(e: Entry): Entry {
    Entry(e.page, e.offset + e.dmaAddress, e.dmaLength, DMA_MAPPING_ERROR, 0)
  }

  // Entry i restored, then the last output written over entry c <= i.
  function FinaliseStep(f: seq<Entry>, i: nat, c: nat, out: Extent): seq<Entry>
    requires c <= i < |f|
  {
    var f' := f[i := Unstashed(f[i])];
    f'[c := f'[c].(dmaAddress := out.addr, dmaLength := out.len)]
  }

  lemma {:induction false} FinaliseStepFinalises(f: seq<Entry>, p: seq<Entry>, o: seq<Entry>, m: Merge,
                                                 l: Limits, t: Slot, i: nat)
    requires FinalisedUpTo(f, p, o, m.outs, i) && i < |f| && l.boundary > 0 && Holds(p[i], t, o[i])
    ensures var outs := MergeStep(m, l, t).outs;
            && 0 < |outs| <= i + 1
            && FinalisedUpTo(FinaliseStep(f, i, |outs| - 1, Last(outs)), p, o, outs, i + 1)
  {
    hide Rem;
    var outs := MergeStep(m, l, t).outs;
    assert forall k :: 0 <= k < |outs| - 1 ==> outs[k] == m.outs[k];
  }

  method Finalise(sg: array<Entry>, l: Limits, base: nat, ghost o: seq<Entry>) returns (count: nat)
    requires ValidLimits(l) && Fits(o, l) && sg[..] == Prepared(o, l)
    modifies sg
    ensures var outs := Merged(Slots(o, l, base), l, |o|).outs; count == |outs| && Finalised(sg[..], o, outs)
  {
    hide Prepared, Slots, Width, Bound, End, Start, Off, Fits, Chain, Tracks, NoWrap, Rem, FinalisedUpTo, MergeStep,
         U32, Merged, Finalised, AllHold, PowerOfTwo, SameSegment;
    ghost var p, ts := sg[..], Slots(o, l, base);
    PreparedHolds(o, l, base);
    FinaliseBegins(p, o, ts, l, base);
    var cur, curLen, dmaAddr := 0, 0, base;
    count := 0;
    for i := 0 to sg.Length
      invariant FinalisedUpTo(sg[..], p, o, Merged(ts, l, i).outs, i)
      invariant count == |Merged(ts, l, i).outs| && curLen == Merged(ts, l, i).curLen
      invariant cur == if count == 0 then 0 else count - 1
      invariant i < sg.Length ==> dmaAddr == ts[i].d
    {
      ghost var f, m := sg[..], Merged(ts, l, i);
      ghost var m' := MergeStep(m, l, ts[i]);
      FinaliseRound(f, p, o, ts, l, base, i);
      FinaliseReads(f, p, o, ts, m.outs, i);
      StepEffect(m, l, ts[i]);
      assert Merged(ts, l, i + 1) == m' by {
        MergedStep(ts, l, i);
      }

      var sIovaOff := sg[i].dmaAddress;
      var sLength := sg[i].dmaLength;
      var sIovaLen := sg[i].length;

      sg[i] := sg[i].(dmaAddress := DMA_MAPPING_ERROR, dmaLength := 0,
                      offset := sg[i].offset + sIovaOff, length := sLength);
      ghost var f' := sg[..];
      assert f' == f[i := Unstashed(f[i])];

      if curLen != 0 && sIovaOff == 0 && Rem(dmaAddr, l.boundary) != 0 && U32(l.maxLen - curLen) >= sLength {
        curLen := U32(curLen + sLength);
      } else {
        if i > 0 {
          cur := cur + 1;
        }
        curLen := sLength;
        count := count + 1;
        sg[cur] := sg[cur].(dmaAddress := dmaAddr + sIovaOff);
      }
      assert cur == |m'.outs| - 1 && count == |m'.outs|;

      sg[cur] := sg[cur].(dmaLength := curLen);
      assert sg[..] == f'[cur := f'[cur].(dmaAddress := Last(m'.outs).addr, dmaLength := Last(m'.outs).len)];
      dmaAddr := dmaAddr + sIovaLen;
      if sLength + sIovaOff < sIovaLen {
        curLen := 0;
      }
    }
    FinaliseEnds(sg[..], p, o, Merged(ts, l, |o|).outs);
  }

  lemma {:induction false} FinaliseBegins(p: seq<Entry>, o: seq<Entry>, ts: seq<Slot>, l: Limits, base: nat)
    requires ValidLimits(l) && Fits(o, l) && p == Prepared(o, l) && ts == Slots(o, l, base)
    ensures |p| == |ts| == |o| && Chain(ts, l, base)
    ensures Merged(ts, l, 0) == Merge([], 0) && FinalisedUpTo(p, p, o, [], 0)
    ensures |o| > 0 ==> ts[0].d == base
  {
    LayoutChains(o, l, base);
  }

  lemma {:induction false} FinaliseEnds(f: seq<Entry>, p: seq<Entry>, o: seq<Entry>, outs: seq<Extent>)
    requires |f| == |o| && FinalisedUpTo(f, p, o, outs, |o|)
    ensures Finalised(f, o, outs)
  {
  }

  // What one round of the finalising loop reads ...
  lemma {:induction false} FinaliseReads(f: seq<Entry>, p: seq<Entry>, o: seq<Entry>, ts: seq<Slot>,
                                         outs: seq<Extent>, i: nat)
    requires AllHold(p, ts, o) && i < |o| && FinalisedUpTo(f, p, o, outs, i)
    ensures |f| == |o| && Holds(f[i], ts[i], o[i])
    ensures |outs| <= i && (outs != [] ==> f[|outs| - 1].dmaAddress == Last(outs).addr)
  {
  }

  // ... and what it has to leave.
  lemma {:induction false} FinaliseRound(f: seq<Entry>, p: seq<Entry>, o: seq<Entry>, ts: seq<Slot>,
                                         l: Limits, base: nat, i: nat)
    requires AllHold(p, ts, o) && i < |o| && Chain(ts, l, base)
    requires FinalisedUpTo(f, p, o, Merged(ts, l, i).outs, i)
    ensures var m, m' := Merged(ts, l, i), Merged(ts, l, i + 1);
            && |f| == |o| && 0 < |m'.outs| <= i + 1
            && FinalisedUpTo(FinaliseStep(f, i, |m'.outs| - 1, Last(m'.outs)), p, o, m'.outs, i + 1)
    ensures Merged(ts, l, i).outs == [] ==> Merged(ts, l, i).curLen == 0
    ensures i + 1 < |o| ==> ts[i + 1].d == ts[i].d + ts[i].width
  {
    hide Holds, FinalisedUpTo, Tracks, NoWrap, MergeStep, FinaliseStep;
    MergeTracks(ts, l, base, i);
    FinaliseReads(f, p, o, ts, Merged(ts, l, i).outs, i);
    MergeOpens(ts, l, base, i);
    FinaliseStepFinalises(f, p, o, Merged(ts, l, i), l, ts[i], i);
    assert i + 1 < |o| ==> Follows(ts, i + 1);
  }

  lemma {:induction false} MergeOpens(ts: seq<Slot>, l: Limits, base: nat, i: nat)
    requires i < |ts| && l.boundary > 0 && Tracks(Merged(ts, l, i), base, ts[i].d)
    ensures Merged(ts, l, i).outs == [] ==> Merged(ts, l, i).curLen == 0
  {
  }

  lemma {:induction false} MergedStep(ts: seq<Slot>, l: Limits, i: nat)
    requires i < |ts| && l.boundary > 0
    ensures Merged(ts, l, 0) == Merge([], 0)
    ensures Merged(ts, l, i + 1) == MergeStep(Merged(ts, l, i), l, ts[i])
  {
  }

  lemma {:induction false} StepEffect(m: Merge, l: Limits, t: Slot)
    requires l.boundary > 0
    ensures var m' := MergeStep(m, l, t);
            && (Joins(m, l, t) ==> m.outs != [] && |m'.outs| == |m.outs|
                                   && Last(m'.outs) == Extent(Last(m.outs).addr, U32(m.curLen + t.len)))
            && (!Joins(m, l, t) ==> |m'.outs| == |m.outs| + 1 && Last(m'.outs) == Extent(t.d + t.off, t.len))
            && m'.curLen == if t.len + t.off < t.width then 0 else Last(m'.outs).len
  {
  }

  // ---------- Failure: undo the preparation ----------

  method Invalidate(sg: array<Entry>, l: Limits, ghost o: seq<Entry>)
    requires ValidLimits(l) && Fits(o, l) && sg[..] == Prepared(o, l)
    modifies sg
    ensures Restored(sg[..], o)
  {
    hide Slots, Prepared, Width, Bound, End, Start;
    ghost var p, ts := sg[..], Slots(o, l, 0);
    PreparedHolds(o, l, 0);
    OffsetsAreShort(o, l);
    for i := 0 to sg.Length
      invariant forall j :: 0 <= j < i ==> SameSegment(sg[j], o[j]) && NotMapped(sg[j])
      invariant forall j :: i <= j < sg.Length ==> sg[j] == p[j]
    {
      assert Holds(p[i], ts[i], o[i]) && ts[i].off < U32_MODULUS && 0 < o[i].length;
      if sg[i].dmaAddress != DMA_MAPPING_ERROR {
        sg[i] := sg[i].(offset := sg[i].offset + sg[i].dmaAddress);
      }
      if sg[i].dmaLength != 0 {
        sg[i] := sg[i].(length := sg[i].dmaLength);
      }
      sg[i] := sg[i].(dmaAddress := DMA_MAPPING_ERROR, dmaLength := 0);
    }
  }

  lemma {:induction false} OffsetsAreShort(o: seq<Entry>, l: Limits)
    requires ValidLimits(l)
    ensures forall i :: 0 <= i < |o| ==> Slots(o, l, 0)[i].off < U32_MODULUS
  {
    hide Width, Bound, End, Start;
  }

  // ---------- Mapping ----------

  // What iommu_map_sg maps: each segment from its granule-aligned start.
  function Pieces(s: seq<Entry>): (ps: seq<Piece>)
    ensures |ps| == |s|
  {
    seq(|s|, i requires 0 <= i < |s| => Piece(s[i].page + s[i].offset, s[i].length))
  }

  lemma {:induction false} PiecesFollowLayout(o: seq<Entry>, l: Limits, i: nat)
    requires l.granule > 0 && l.boundary > 0 && i <= |o|
    ensures Length(Pieces(Prepared(o, l)), i) == Bound(o, l, i)
  {
    hide Bound, End, Start, Span, Pad, AlignUp, Rem;
    if i == 0 {
      LayoutBegins(o, l);
    } else {
      PiecesFollowLayout(o, l, i - 1);
      var w := Width(o, l, i - 1);
    }
  }

  // `choice` is the address the allocator returns (0: none), `mapOk` whether
  // the IOMMU accepts the mapping.
  method MapSg(domain: IommuDomain, sg: array<Entry>, l: Limits, choice: nat, mapOk: bool) returns (ret: int)
    requires domain.Valid() && ValidLimits(l) && l.granule == domain.granule && Fits(sg[..], l)
    requires choice == 0 || Available(domain.iovas, l.granule, choice, Bound(sg[..], l, sg.Length))
    modifies domain, sg
    ensures domain.Valid()
    ensures var o := old(sg[..]);
            if o != [] && choice != 0 && mapOk then
              && Finalised(sg[..], o, Merged(Slots(o, l, choice), l, |o|).outs)
              && ret == |Merged(Slots(o, l, choice), l, |o|).outs| > 0
              && domain.iovas == old(domain.iovas)[choice := Bound(o, l, |o|)]
              && domain.table == MapPieces(old(domain.table), choice, Pieces(Prepared(o, l)), |o|)
            else
              && Restored(sg[..], o) && ret == 0
              && domain.iovas == old(domain.iovas) && domain.table == old(domain.table)
  {
    hide Prepared, Slots, Width, Bound, End, Start, Merged, Fits, MapPieces, PowerOfTwo;
    ghost var o := sg[..];
    var iovaLen := Prepare(sg, l);
    LayoutLength(o, l);
    if iovaLen == 0 {
      ret := Finalise(sg, l, 0, o);
      EmptyList(sg[..], o, l);
      return;
    }
    var iova := domain.AllocIova(iovaLen, choice);
    if iova == 0 {
      Invalidate(sg, l, o);
      return 0;
    }
    ret := domain.MapSg(iova, Pieces(sg[..]), mapOk);
    if ret < 0 || ret < iovaLen {
      domain.FreeIova(iova);
      assert domain.iovas == old(domain.iovas);
      Invalidate(sg, l, o);
      return 0;
    }
    MappedIsCovered(old(domain.table), old(domain.iovas), o, l, iova);
    ret := Finalise(sg, l, iova, o);
  }

  lemma {:induction false} LayoutLength(o: seq<Entry>, l: Limits)
    requires ValidLimits(l) && Fits(o, l)
    ensures Bound(o, l, |o|) == 0 <==> o == []
    ensures |Prepared(o, l)| == |o| && Length(Pieces(Prepared(o, l)), |o|) == Bound(o, l, |o|)
    ensures o != [] ==> forall base :: |Merged(Slots(o, l, base), l, |o|).outs| > 0
  {
    PiecesFollowLayout(o, l, |o|);
    if o != [] {
      BoundMonotone(o, l, 1, |o|);
      SpanCovers(o, l, 0);
      var w := Width(o, l, 0);
    }
  }

  lemma {:induction false} EmptyList(f: seq<Entry>, o: seq<Entry>, l: Limits)
    requires ValidLimits(l) && o == [] && |f| == 0
    ensures Restored(f, o) && Merged(Slots(o, l, 0), l, |o|).outs == []
  {
  }

  lemma {:induction false} MappedIsCovered(t: Table, iovas: map<nat, nat>, o: seq<Entry>, l: Limits, base: nat)
    requires ValidLimits(l) && Covered(t, iovas) && base !in iovas
    ensures Covered(MapPieces(t, base, Pieces(Prepared(o, l)), |o|), iovas[base := Bound(o, l, |o|)])
  {
    var iovas' := iovas[base := Bound(o, l, |o|)];
    var t' := MapPieces(t, base, Pieces(Prepared(o, l)), |o|);
    PiecesFollowLayout(o, l, |o|);
    MapPiecesFrame(t, base, Pieces(Prepared(o, l)), |o|);
    forall a | a in t'
      ensures exists b :: b in iovas' && b <= a < b + iovas'[b]
    {
      if base <= a < base + Bound(o, l, |o|) {
        assert base in iovas';
      } else {
        var b :| b in iovas && b <= a < b + iovas[b];
        assert b in iovas' && iovas'[b] == iovas[b];
      }
    }
  }

  // ---------- Unmapping, from the merged list alone ----------

  // The first k entries carry DMA segments and the next one does not.
  ghost predicate IsLeading(f: seq<Entry>, k: nat) {
    && k <= |f|
    && (forall i :: 0 <= i < k ==> f[i].dmaLength != 0)
    && (k < |f| ==> f[k].dmaLength == 0)
  }

  // The region that unmap recomputes from the first and the last DMA segment.
  function RegionStart(f: seq<Entry>, granule: nat): nat
    requires f != [] && granule > 0
  {
    f[0].dmaAddress - Rem(f[0].dmaAddress, granule)
  }

  function RegionSize(f: seq<Entry>, k: nat, granule: nat): nat
    requires 0 < k <= |f| && granule > 0 && f[0].dmaAddress <= f[k - 1].dmaAddress + f[k - 1].dmaLength
  {
    var size := f[k - 1].dmaAddress + f[k - 1].dmaLength - f[0].dmaAddress;
    AlignUp(size + Rem(f[0].dmaAddress, granule), granule)
  }

  method UnmapSg(domain: IommuDomain, sg: array<Entry>, ghost k: nat)
    requires domain.granule > 0 && IsLeading(sg[..], k)
    requires k > 0 ==> sg[0].dmaAddress <= sg[k - 1].dmaAddress + sg[k - 1].dmaLength
    modifies domain
    ensures if k == 0 then
              domain.table == old(domain.table) && domain.iovas == old(domain.iovas)
            else
              && domain.table == UnmapRange(old(domain.table), RegionStart(sg[..], domain.granule),
                                            RegionSize(sg[..], k, domain.granule))
              && domain.iovas == old(domain.iovas) - {RegionStart(sg[..], domain.granule)}
  {
    var nents := sg.Length;
    var start, end := 0, 0;
    if nents > 0 && sg[0].dmaLength != 0 {
      start := sg[0].dmaAddress;
    }
    var i := 0;
    while i < nents && sg[i].dmaLength != 0
      invariant 0 <= i <= k
      invariant i == 0 ==> end == 0
      invariant i > 0 ==> end == sg[i - 1].dmaAddress + sg[i - 1].dmaLength && end > 0
    {
      end := sg[i].dmaAddress + sg[i].dmaLength;
      i := i + 1;
    }
    assert i == k;
    if end != 0 {
      var iovaOff := Rem(start, domain.granule);
      var size := AlignUp(end - start + iovaOff, domain.granule);
      domain.Unmap(start - iovaOff, size);
      domain.FreeIova(start - iovaOff);
    }
  }

  // Round trip: what unmap recomputes from the merged list, despite padding,
  // merging and the empty tail entries, is exactly what map allocated.
  lemma {:induction false} UnmapFindsAllocation(f: seq<Entry>, o: seq<Entry>, l: Limits, base: nat)
    requires ValidLimits(l) && Fits(o, l) && o != [] && Rem(base, l.granule) == 0
    requires Finalised(f, o, Merged(Slots(o, l, base), l, |o|).outs)
    ensures var k := |Merged(Slots(o, l, base), l, |o|).outs|;
            && 0 < k && IsLeading(f, k) && f[0].dmaAddress <= f[k - 1].dmaAddress + f[k - 1].dmaLength
            && RegionStart(f, l.granule) == base && RegionSize(f, k, l.granule) == Bound(o, l, |o|)
  {
    hide Merged, Slots, Rem, Distance, PowerOfTwo, Fits;
    var ts := Slots(o, l, base);
    var n := |o|;
    var outs := Merged(ts, l, n).outs;
    RegionEnds(o, l, base);
    assert Extent(f[0].dmaAddress, f[0].dmaLength) == outs[0];
    assert Extent(f[|outs| - 1].dmaAddress, f[|outs| - 1].dmaLength) == Last(outs);
  }

  // The ends of the merged list, in terms of the layout.
  lemma {:induction false} RegionEnds(o: seq<Entry>, l: Limits, base: nat)
    requires ValidLimits(l) && Fits(o, l) && o != [] && Rem(base, l.granule) == 0
    ensures var outs := Merged(Slots(o, l, base), l, |o|).outs;
            && outs != [] && NonEmpty(outs)
            && outs[0].addr <= Last(outs).addr + Last(outs).len
            && outs[0].addr - Rem(outs[0].addr, l.granule) == base
            && AlignUp(Last(outs).addr + Last(outs).len - outs[0].addr + Rem(outs[0].addr, l.granule), l.granule)
                 == Bound(o, l, |o|)
  {
    hide Merged, Slots, Rem, Distance, PowerOfTwo, AlignUp, Fits, Tracks, NoWrap, Chain, Pad;
    var n := |o|;
    LayoutChains(o, l, base);
    MergePreservesBytes(Slots(o, l, base), l, base, n);
    MergeEnds(Slots(o, l, base), l, base, n);
    FirstAndLastSlot(o, l, base);
    RemAddUnder(base, Off(o, l, 0), l.granule);
    LayoutIsAligned(o, l, n - 1);
    assert Bound(o, l, n - 1) == Start(o, l, n - 1);
    AlignUpShift(Start(o, l, n - 1), Off(o, l, n - 1) + o[n - 1].length, l.granule);
  }

  lemma {:induction false} RemAddUnder(a: nat, c: nat, d: nat)
    requires d > 0 && Rem(a, d) == 0 && c < d
    ensures Rem(a + c, d) == c
  {
    RemAdd(a, c, d);
  }

  lemma {:induction false} FirstAndLastSlot(o: seq<Entry>, l: Limits, base: nat)
    requires ValidLimits(l) && o != []
    ensures var ts := Slots(o, l, base);
            && |ts| == |o|
            && ts[0].d + ts[0].off == base + Off(o, l, 0)
            && ts[|o| - 1].d == base + Start(o, l, |o| - 1)
            && ts[|o| - 1].off == Off(o, l, |o| - 1) && ts[|o| - 1].len == o[|o| - 1].length
    ensures Off(o, l, 0) < l.granule
    ensures Off(o, l, 0) <= Start(o, l, |o| - 1) + Off(o, l, |o| - 1)
    ensures Bound(o, l, |o|) == Start(o, l, |o| - 1) + AlignUp(Off(o, l, |o| - 1) + o[|o| - 1].length, l.granule)
  {
    hide Pad, AlignUp, Rem;
    LayoutStartsAtZero(o, l);
    if |o| > 1 {
      SpanCovers(o, l, 0);
      var w := Width(o, l, 0);
      BoundMonotone(o, l, 1, |o| - 1);
    }
  }

  // ---------- What the device sees ----------

  // The physical bytes of the caller's list.
  function Physical(o: seq<Entry>, i: nat): seq<Extent>
    requires i <= |o|
  {
    seq(i, k requires 0 <= k < i => Extent(o[k].page + o[k].offset, o[k].length))
  }

  // Through the page table, the DMA addresses are these physical addresses.
  ghost predicate Reaches(t: Table, dma: seq<nat>, phys: seq<nat>) {
    |dma| == |phys| && forall k :: 0 <= k < |dma| ==> dma[k] in t && t[dma[k]] == phys[k]
  }

  lemma {:induction false} SegmentReaches(t: Table, o: seq<Entry>, l: Limits, base: nat, i: nat)
    requires l.granule > 0 && l.boundary > 0 && i < |o|
    ensures var ts := Slots(o, l, base);
            Reaches(MapPieces(t, base, Pieces(Prepared(o, l)), |o|),
                    Range(ts[i].d + ts[i].off, ts[i].len), Range(o[i].page + o[i].offset, o[i].length))
  {
    hide Bound, End, Start, Pad, AlignUp, Rem;
    SlotInPieces(o, l, base, i);
    MapPiecesAt(t, base, Pieces(Prepared(o, l)), |o|, i);
  }

  lemma {:induction false} SlotInPieces(o: seq<Entry>, l: Limits, base: nat, i: nat)
    requires l.granule > 0 && l.boundary > 0 && i < |o|
    ensures var t, ps := Slots(o, l, base)[i], Pieces(Prepared(o, l));
            && t.d == base + Length(ps, i) && t.off + t.len <= ps[i].length && t.len == o[i].length
            && ps[i].phys + t.off == o[i].page + o[i].offset
  {
    PiecesFollowLayout(o, l, i);
    SpanCovers(o, l, i);
    PreparedHolds(o, l, base);
    assert Holds(Prepared(o, l)[i], Slots(o, l, base)[i], o[i]);
  }

  lemma {:induction false} UnmergedReaches(t: Table, o: seq<Entry>, l: Limits, base: nat, i: nat)
    requires l.granule > 0 && l.boundary > 0 && i <= |o|
    ensures Reaches(MapPieces(t, base, Pieces(Prepared(o, l)), |o|),
                    Bytes(Unmerged(Slots(o, l, base), i)), Bytes(Physical(o, i)))
  {
    hide MapPieces, Pieces, Prepared, Slots, Bytes, Unmerged, Physical, Reaches;
    if i == 0 {
      NothingReaches(t, o, l, base);
    } else {
      UnmergedReaches(t, o, l, base, i - 1);
      SegmentReaches(t, o, l, base, i - 1);
      UnmergedAppend(Slots(o, l, base), i - 1);
      PhysicalAppend(o, i - 1);
      var t' := MapPieces(t, base, Pieces(Prepared(o, l)), |o|);
      var s := Slots(o, l, base)[i - 1];
      ReachesAppend(t', Bytes(Unmerged(Slots(o, l, base), i - 1)), Bytes(Physical(o, i - 1)),
                    Range(s.d + s.off, s.len), Range(o[i - 1].page + o[i - 1].offset, o[i - 1].length));
    }
  }

  lemma {:induction false} NothingReaches(t: Table, o: seq<Entry>, l: Limits, base: nat)
    requires l.granule > 0 && l.boundary > 0
    ensures Reaches(MapPieces(t, base, Pieces(Prepared(o, l)), |o|),
                    Bytes(Unmerged(Slots(o, l, base), 0)), Bytes(Physical(o, 0)))
  {
    UnmergedNone(Slots(o, l, base), 1);
  }

  lemma {:induction false} PhysicalAppend(o: seq<Entry>, i: nat)
    requires i < |o|
    ensures Bytes(Physical(o, i + 1)) == Bytes(Physical(o, i)) + Range(o[i].page + o[i].offset, o[i].length)
  {
    var e := Extent(o[i].page + o[i].offset, o[i].length);
    BytesAppend(Physical(o, i), e);
    assert Physical(o, i + 1) == Physical(o, i) + [e];
  }

  lemma {:induction false} ReachesAppend(t: Table, d: seq<nat>, p: seq<nat>, d': seq<nat>, p': seq<nat>)
    requires Reaches(t, d, p) && Reaches(t, d', p')
    ensures Reaches(t, d + d', p + p')
  {
  }

  // The whole of mapping in one statement: reading the merged DMA segments in
  // order through the page table gives the bytes of the caller's list, in order.
  lemma {:induction false} DmaReachesList(t: Table, o: seq<Entry>, l: Limits, base: nat)
    requires ValidLimits(l) && Fits(o, l)
    ensures Reaches(MapPieces(t, base, Pieces(Prepared(o, l)), |o|),
                    Bytes(Merged(Slots(o, l, base), l, |o|).outs), Bytes(Physical(o, |o|)))
  {
    LayoutChains(o, l, base);
    MergePreservesBytes(Slots(o, l, base), l, base, |o|);
    UnmergedReaches(t, o, l, base, |o|);
  }

  // A caller's map followed by its unmap leaves page table and allocator as
  // they were, and the segments of the list untouched.
  method MapThenUnmap(domain: IommuDomain, sg: array<Entry>, l: Limits, choice: nat, mapOk: bool)
    requires domain.Valid() && ValidLimits(l) && l.granule == domain.granule && Fits(sg[..], l)
    requires choice == 0 || Available(domain.iovas, l.granule, choice, Bound(sg[..], l, sg.Length))
    modifies domain, sg
    ensures domain.table == old(domain.table) && domain.iovas == old(domain.iovas)
    ensures forall i :: 0 <= i < sg.Length ==> SameSegment(sg[i], old(sg[..])[i])
  {
    hide Merged, Prepared, Pieces, Bound, MapPieces, Slots, PowerOfTwo;
    ghost var o, t := sg[..], domain.table;
    ghost var k := 0;
    var ret := MapSg(domain, sg, l, choice, mapOk);
    if ret > 0 {
      UnmapFindsAllocation(sg[..], o, l, choice);
      AvailableIsUnmapped(t, old(domain.iovas), l.granule, choice, Bound(o, l, |o|));
      LayoutLength(o, l);
      UnmapUndoesMap(t, choice, Pieces(Prepared(o, l)), |o|);
      k := |Merged(Slots(o, l, choice), l, |o|).outs|;
      assert sg[0] == sg[..][0] && sg[k - 1] == sg[..][k - 1];
    }
    UnmapSg(domain, sg, k);
    assert domain.iovas == old(domain.iovas);
  }
}
