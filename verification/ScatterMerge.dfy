// Merging a laid-out scatter list into fewer DMA segments: the decision made for
// each segment by __finalise_sg (rknpu_iommu.c), and what the result means.
module ScatterMerge {
  import opened Arith

  // IOVA granule, segment boundary (mask + 1) and longest DMA segment.
  datatype Limits = Limits(granule: nat, boundary: nat, maxLen: nat)

  datatype Extent = Extent(addr: nat, len: nat)

  ghost predicate ValidLimits(l: Limits) {
    && l.granule > 0 && PowerOfTwo(l.granule) && l.granule <= U32_MODULUS
    && l.boundary > 0 && PowerOfTwo(l.boundary)
    && l.maxLen < U32_MODULUS
  }

  // ---------- Merging, slot by slot ----------

  // The output segments so far, and the length of the one still open (0: none).
  datatype Merge = Merge(outs: seq<Extent>, curLen: nat)

  // A segment: `len` bytes of data from d + off on, in `width` reserved bytes.
  datatype Slot = Slot(d: nat, off: nat, len: nat, width: nat)

  ghost predicate Follows(ts: seq<Slot>, i: nat)
    requires 0 < i < |ts|
  {
    ts[i].d == ts[i - 1].d + ts[i - 1].width
  }

  // Slots lie end to end, each holding its data, and no length wraps.
  ghost predicate Chain(ts: seq<Slot>, l: Limits, base: nat) {
    && l.boundary > 0 && l.maxLen < U32_MODULUS
    && (forall i :: 0 <= i < |ts| ==> base <= ts[i].d && 0 < ts[i].len && ts[i].off + ts[i].len <= ts[i].width)
    && (forall i :: 0 < i < |ts| ==> Follows(ts, i))
    && ((forall i :: 0 <= i < |ts| ==> ts[i].len <= l.maxLen)
        || (forall i :: 0 <= i < |ts| ==> ts[i].d + ts[i].width < base + U32_MODULUS))
  }

  // The slot fills [lo, hi) and has room for its data.
  ghost predicate Spans(t: Slot, lo: nat, hi: nat) {
    t.d == lo && t.d + t.width == hi && 0 < t.len && t.off + t.len <= t.width
  }

  ghost predicate Between(ts: seq<Slot>, bs: seq<nat>, base: nat, i: nat)
    requires i < |ts| && |bs| == |ts| + 1
  {
    Spans(ts[i], base + bs[i], base + bs[i + 1]) && bs[i + 1] <= bs[|ts|]
  }

  lemma {:induction false} ChainFromBounds(ts: seq<Slot>, bs: seq<nat>, l: Limits, base: nat)
    requires l.boundary > 0 && l.maxLen < U32_MODULUS && |bs| == |ts| + 1
    requires forall i :: 0 <= i < |ts| ==> Between(ts, bs, base, i)
    requires (forall i :: 0 <= i < |ts| ==> ts[i].len <= l.maxLen) || bs[|ts|] < U32_MODULUS
    ensures Chain(ts, l, base)
  {
    forall i | 0 < i < |ts|
      ensures Follows(ts, i)
    {
      assert Between(ts, bs, base, i - 1) && Between(ts, bs, base, i);
    }
    forall i | 0 <= i < |ts|
      ensures base <= ts[i].d && 0 < ts[i].len && ts[i].off + ts[i].len <= ts[i].width
      ensures ts[i].d + ts[i].width <= base + bs[|ts|]
    {
      assert Between(ts, bs, base, i);
    }
  }

  function Last(es: seq<Extent>): Extent
    requires es != []
  {
    es[|es| - 1]
  }

  // Whether a segment joins the open output. The subtraction is the unsigned
  // one of the source.
  predicate Joins(m: Merge, l: Limits, t: Slot)
    requires l.boundary > 0
  {
    m.outs != [] && m.curLen != 0 && t.off == 0 && Rem(t.d, l.boundary) != 0 && U32(l.maxLen - m.curLen) >= t.len
  }

  function MergeStep(m: Merge, l: Limits, t: Slot): Merge
    requires l.boundary > 0
  {
    var curLen := if Joins(m, l, t) then U32(m.curLen + t.len) else t.len;
    var outs := if Joins(m, l, t) then m.outs[..|m.outs| - 1] + [Extent(Last(m.outs).addr, curLen)]
                else m.outs + [Extent(t.d + t.off, t.len)];
    Merge(outs, if t.len + t.off < t.width then 0 else curLen)
  }

  function Merged(ts: seq<Slot>, l: Limits, i: nat): (m: Merge)
    requires l.boundary > 0 && i <= |ts|
    ensures |m.outs| <= i && (i > 0 ==> |m.outs| > 0)
  {
    if i == 0 then Merge([], 0) else MergeStep(Merged(ts, l, i - 1), l, ts[i - 1])
  }

  // The addresses of a list of extents, in order.
  function Range(addr: nat, len: nat): seq<nat> {
    seq(len, k requires k >= 0 => addr + k)
  }

  function Bytes(es: seq<Extent>): seq<nat> {
    if es == [] then [] else Bytes(es[..|es| - 1]) + Range(Last(es).addr, Last(es).len)
  }

  // The reference: one DMA extent for each segment, none of them merged.
  function Unmerged(ts: seq<Slot>, i: nat): seq<Extent>
    requires i <= |ts|
  {
    seq(i, k requires 0 <= k < i => Extent(ts[k].d + ts[k].off, ts[k].len))
  }

  lemma {:induction false} BytesAppend(es: seq<Extent>, e: Extent)
    ensures Bytes(es + [e]) == Bytes(es) + Range(e.addr, e.len)
  {
    assert (es + [e])[..|es|] == es;
  }

  ghost predicate NonEmpty(es: seq<Extent>) {
    forall k :: 0 <= k < |es| ==> es[k].len > 0
  }

  // The open output is the last one, and while it is open it ends exactly at
  // `next`, where the next segment will be laid out.
  ghost predicate Tracks(m: Merge, base: nat, next: nat) {
    && (m.outs == [] ==> m.curLen == 0)
    && (m.outs != [] ==>
          var e := Last(m.outs);
          && e.addr >= base
          && (m.curLen != 0 ==> m.curLen == e.len && e.addr + e.len == next)
          && (m.curLen == 0 ==> e.addr + e.len < next))
  }

  // No 32-bit length wraps when the segment is added.
  ghost predicate NoWrap(m: Merge, l: Limits, base: nat, t: Slot) {
    && l.maxLen < U32_MODULUS && t.d >= base
    && ((m.curLen <= l.maxLen && t.len <= l.maxLen) || t.d + t.width < base + U32_MODULUS)
  }

  lemma {:induction false} StepTracks(m: Merge, l: Limits, base: nat, t: Slot)
    requires l.boundary > 0 && Tracks(m, base, t.d) && NoWrap(m, l, base, t)
    requires 0 < t.len && t.off + t.len <= t.width
    ensures Tracks(MergeStep(m, l, t), base, t.d + t.width)
    ensures Last(MergeStep(m, l, t).outs).addr + Last(MergeStep(m, l, t).outs).len == t.d + t.off + t.len
    ensures m.curLen <= l.maxLen && t.len <= l.maxLen ==> MergeStep(m, l, t).curLen <= l.maxLen
    ensures Joins(m, l, t) ==>
              MergeStep(m, l, t).outs == m.outs[..|m.outs| - 1] + [Extent(Last(m.outs).addr, Last(m.outs).len + t.len)]
  {
    if Joins(m, l, t) {
      assert m.curLen + t.len < U32_MODULUS;
    }
  }

  lemma {:induction false} StepBytes(m: Merge, l: Limits, base: nat, t: Slot)
    requires l.boundary > 0 && Tracks(m, base, t.d) && NoWrap(m, l, base, t)
    requires 0 < t.len && t.off + t.len <= t.width
    ensures Bytes(MergeStep(m, l, t).outs) == Bytes(m.outs) + Range(t.d + t.off, t.len)
    ensures NonEmpty(m.outs) ==> NonEmpty(MergeStep(m, l, t).outs)
    ensures m.outs != [] ==> MergeStep(m, l, t).outs[0].addr == m.outs[0].addr
  {
    StepTracks(m, l, base, t);
    if Joins(m, l, t) {
      var e := Last(m.outs);
      BytesAppend(m.outs[..|m.outs| - 1], Extent(e.addr, e.len + t.len));
      assert Range(e.addr, e.len + t.len) == Range(e.addr, e.len) + Range(t.d, t.len);
    } else {
      BytesAppend(m.outs, Extent(t.d + t.off, t.len));
    }
  }

  // The merge of a prefix tracks the layout, and its next step wraps nothing.
  lemma {:induction false} MergeTracks(ts: seq<Slot>, l: Limits, base: nat, i: nat)
    requires Chain(ts, l, base) && i < |ts|
    ensures Tracks(Merged(ts, l, i), base, ts[i].d)
    ensures NoWrap(Merged(ts, l, i), l, base, ts[i])
    ensures (forall j :: 0 <= j < |ts| ==> ts[j].len <= l.maxLen) ==> Merged(ts, l, i).curLen <= l.maxLen
  {
    if i > 0 {
      MergeTracks(ts, l, base, i - 1);
      StepTracks(Merged(ts, l, i - 1), l, base, ts[i - 1]);
      assert Follows(ts, i);
    }
  }

  // Merging preserves meaning: read in order, the outputs are the same DMA
  // bytes as the unmerged layout.
  lemma {:induction false} MergePreservesBytes(ts: seq<Slot>, l: Limits, base: nat, i: nat)
    requires Chain(ts, l, base) && i <= |ts|
    ensures Bytes(Merged(ts, l, i).outs) == Bytes(Unmerged(ts, i))
    ensures NonEmpty(Merged(ts, l, i).outs)
  {
    hide Unmerged, MergeStep, Bytes, NonEmpty, Tracks, NoWrap;
    if i == 0 {
      UnmergedNone(ts, l.boundary);
    } else {
      var t := ts[i - 1];
      MergePreservesBytes(ts, l, base, i - 1);
      MergeTracks(ts, l, base, i - 1);
      StepBytes(Merged(ts, l, i - 1), l, base, t);
      UnmergedAppend(ts, i - 1);
    }
  }

  lemma {:induction false} UnmergedNone(ts: seq<Slot>, boundary: nat)
    requires boundary > 0
    ensures Unmerged(ts, 0) == [] && Bytes([]) == [] && NonEmpty([]) && NoneCrosses([], boundary)
  {
  }

  lemma {:induction false} UnmergedAppend(ts: seq<Slot>, i: nat)
    requires i < |ts|
    ensures Bytes(Unmerged(ts, i + 1)) == Bytes(Unmerged(ts, i)) + Range(ts[i].d + ts[i].off, ts[i].len)
  {
    var e := Extent(ts[i].d + ts[i].off, ts[i].len);
    BytesAppend(Unmerged(ts, i), e);
    assert Unmerged(ts, i + 1) == Unmerged(ts, i) + [e];
  }

  // The first output starts where the first segment does and the last one ends
  // where the last segment does.
  lemma {:induction false} MergeEnds(ts: seq<Slot>, l: Limits, base: nat, i: nat)
    requires Chain(ts, l, base) && 0 < i <= |ts|
    ensures Merged(ts, l, i).outs[0].addr == ts[0].d + ts[0].off
    ensures var e := Last(Merged(ts, l, i).outs); e.addr + e.len == ts[i - 1].d + ts[i - 1].off + ts[i - 1].len
  {
    hide MergeStep, Tracks, NoWrap, Bytes;
    MergeTracks(ts, l, base, i - 1);
    StepTracks(Merged(ts, l, i - 1), l, base, ts[i - 1]);
    if i == 1 {
      StepFirst(l, ts[0]);
    } else {
      StepBytes(Merged(ts, l, i - 1), l, base, ts[i - 1]);
      MergeEnds(ts, l, base, i - 1);
    }
  }

  lemma {:induction false} StepFirst(l: Limits, t: Slot)
    requires l.boundary > 0
    ensures MergeStep(Merge([], 0), l, t).outs == [Extent(t.d + t.off, t.len)]
  {
  }

  // ---------- Boundaries, lengths and maximality ----------

  // The bytes of e lie on both sides of a multiple of the boundary.
  ghost predicate Crosses(e: Extent, boundary: nat)
    requires boundary > 0
  {
    Rem(e.addr, boundary) + e.len > boundary
  }

  ghost predicate NoneCrosses(es: seq<Extent>, boundary: nat)
    requires boundary > 0
  {
    forall k :: 0 <= k < |es| ==> !Crosses(es[k], boundary)
  }

  // Growing an extent across a join: the join test is what keeps it inside.
  lemma {:induction false} JoinCrosses(a: nat, len: nat, more: nat, boundary: nat)
    requires boundary > 0 && Rem(a + len, boundary) != 0 && more > 0
    ensures Crosses(Extent(a, len + more), boundary)
       <==> Crosses(Extent(a, len), boundary) || Crosses(Extent(a + len, more), boundary)
  {
    RemAdd(a, len, boundary);
  }

  lemma {:induction false} SplitLast(es: seq<Extent>, boundary: nat)
    requires boundary > 0 && es != []
    ensures NoneCrosses(es, boundary) <==> NoneCrosses(es[..|es| - 1], boundary) && !Crosses(Last(es), boundary)
  {
    if NoneCrosses(es[..|es| - 1], boundary) && !Crosses(Last(es), boundary) {
      forall k | 0 <= k < |es|
        ensures !Crosses(es[k], boundary)
      {
        if k < |es| - 1 {
          assert es[k] == es[..|es| - 1][k];
        }
      }
    }
  }

  // An output crosses a boundary exactly when some segment does on its own:
  // testing only the start address of a segment before joining it is enough,
  // wherever the allocation lies.
  lemma {:induction false} MergeCrossesIffSegmentDoes(ts: seq<Slot>, l: Limits, base: nat, i: nat)
    requires Chain(ts, l, base) && i <= |ts|
    ensures NoneCrosses(Merged(ts, l, i).outs, l.boundary) <==> NoneCrosses(Unmerged(ts, i), l.boundary)
  {
    hide Rem, NoneCrosses, Crosses, Unmerged, MergeStep, Tracks, NoWrap;
    if i == 0 {
      UnmergedNone(ts, l.boundary);
    } else {
      MergeCrossesIffSegmentDoes(ts, l, base, i - 1);
      MergeTracks(ts, l, base, i - 1);
      StepCrosses(Merged(ts, l, i - 1), l, base, ts[i - 1]);
      UnmergedCrosses(ts, l.boundary, i - 1);
    }
  }

  lemma {:induction false} UnmergedCrosses(ts: seq<Slot>, boundary: nat, i: nat)
    requires boundary > 0 && i < |ts|
    ensures NoneCrosses(Unmerged(ts, i + 1), boundary)
       <==> NoneCrosses(Unmerged(ts, i), boundary) && !Crosses(Extent(ts[i].d + ts[i].off, ts[i].len), boundary)
  {
    SplitLast(Unmerged(ts, i + 1), boundary);
    assert Unmerged(ts, i + 1)[..i] == Unmerged(ts, i);
  }

  lemma {:induction false} StepCrosses(m: Merge, l: Limits, base: nat, t: Slot)
    requires l.boundary > 0 && Tracks(m, base, t.d) && NoWrap(m, l, base, t)
    requires 0 < t.len && t.off + t.len <= t.width
    ensures NoneCrosses(MergeStep(m, l, t).outs, l.boundary)
       <==> NoneCrosses(m.outs, l.boundary) && !Crosses(Extent(t.d + t.off, t.len), l.boundary)
  {
    StepTracks(m, l, base, t);
    var es := MergeStep(m, l, t).outs;
    SplitLast(es, l.boundary);
    if Joins(m, l, t) {
      SplitLast(m.outs, l.boundary);
      assert es[..|es| - 1] == m.outs[..|m.outs| - 1];
      JoinCrosses(Last(m.outs).addr, Last(m.outs).len, t.len, l.boundary);
    } else {
      assert es[..|es| - 1] == m.outs;
    }
  }

  ghost predicate NoneLonger(es: seq<Extent>, max: nat) {
    forall k :: 0 <= k < |es| ==> es[k].len <= max
  }

  // No output exceeds the maximal size if and only if no segment does on its own.
  lemma {:induction false} MergeKeepsMaxLength(ts: seq<Slot>, l: Limits, base: nat, i: nat)
    requires Chain(ts, l, base) && i <= |ts|
    ensures NoneLonger(Merged(ts, l, i).outs, l.maxLen) <==> forall j :: 0 <= j < i ==> ts[j].len <= l.maxLen
  {
    hide Rem, MergeStep, Tracks, NoWrap, NoneLonger;
    if i == 0 {
      NoneLongerThan(l.maxLen);
    } else {
      MergeKeepsMaxLength(ts, l, base, i - 1);
      MergeTracks(ts, l, base, i - 1);
      StepKeepsMaxLength(Merged(ts, l, i - 1), l, base, ts[i - 1]);
    }
  }

  lemma {:induction false} NoneLongerThan(max: nat)
    ensures NoneLonger([], max)
  {
  }

  lemma {:induction false} LongerLast(es: seq<Extent>, max: nat)
    requires es != []
    ensures NoneLonger(es, max) <==> NoneLonger(es[..|es| - 1], max) && Last(es).len <= max
  {
    if NoneLonger(es[..|es| - 1], max) && Last(es).len <= max {
      forall k | 0 <= k < |es|
        ensures es[k].len <= max
      {
        if k < |es| - 1 {
          assert es[k] == es[..|es| - 1][k];
        }
      }
    }
  }

  lemma {:induction false} StepKeepsMaxLength(m: Merge, l: Limits, base: nat, t: Slot)
    requires l.boundary > 0 && Tracks(m, base, t.d) && NoWrap(m, l, base, t)
    requires 0 < t.len && t.off + t.len <= t.width
    ensures NoneLonger(MergeStep(m, l, t).outs, l.maxLen) <==> NoneLonger(m.outs, l.maxLen) && t.len <= l.maxLen
  {
    hide Rem, NoneLonger;
    StepTracks(m, l, base, t);
    var es := MergeStep(m, l, t).outs;
    LongerLast(es, l.maxLen);
    if Joins(m, l, t) {
      LongerLast(m.outs, l.maxLen);
      assert es[..|es| - 1] == m.outs[..|m.outs| - 1];
    } else {
      assert es[..|es| - 1] == m.outs;
    }
  }

  // Past an oversized segment the length test of the source is no test: the
  // unsigned subtraction wraps, and a segment joins an output that is already
  // longer than the maximum.
  lemma {:induction false} OversizeOutputStillGrows(base: nat)
    requires Rem(base, 0x1_0000_0000) == 0
    ensures var ts := [Slot(base, 0, 0x2000, 0x2000), Slot(base + 0x2000, 0, 0x1000, 0x1000)];
            var l := Limits(0x1000, 0x1_0000_0000, 0x1000);
            Chain(ts, l, base) && Merged(ts, l, 2).outs == [Extent(base, 0x3000)]
  {
    var ts := [Slot(base, 0, 0x2000, 0x2000), Slot(base + 0x2000, 0, 0x1000, 0x1000)];
    var l := Limits(0x1000, 0x1_0000_0000, 0x1000);
    assert Merged(ts, l, 0) == Merge([], 0);
    assert Merged(ts, l, 1) == Merge([Extent(base, 0x2000)], 0x2000);
    RemAdd(base, 0x2000, 0x1_0000_0000);
    assert U32(0x1000 - 0x2000) == 0xFFFF_F000;
    assert Joins(Merged(ts, l, 1), l, ts[1]);
  }

  // Two neighbouring outputs that could have been one: they touch, the second
  // starts on a granule but not on a boundary, and together they are short enough.
  ghost predicate Joinable(a: Extent, b: Extent, l: Limits)
    requires l.boundary > 0 && l.granule > 0
  {
    && a.addr + a.len == b.addr && Rem(b.addr, l.granule) == 0 && Rem(b.addr, l.boundary) != 0
    && a.len + b.len <= l.maxLen
  }

  ghost predicate JoinableAt(es: seq<Extent>, k: nat, l: Limits)
    requires l.boundary > 0 && l.granule > 0 && 0 < k < |es|
  {
    Joinable(es[k - 1], es[k], l)
  }

  ghost predicate Maximal(es: seq<Extent>, l: Limits)
    requires l.boundary > 0 && l.granule > 0
  {
    forall k :: 0 < k < |es| ==> !JoinableAt(es, k, l)
  }

  // Merging misses nothing: no two neighbouring outputs could be one.
  lemma {:induction false} MergeIsMaximal(ts: seq<Slot>, l: Limits, base: nat, i: nat)
    requires Chain(ts, l, base) && i <= |ts| && l.granule > 0
    requires forall j :: 0 <= j < |ts| ==> Rem(ts[j].d, l.granule) == 0 && ts[j].off < l.granule
    ensures Maximal(Merged(ts, l, i).outs, l)
  {
    hide Rem, MergeStep, Tracks, NoWrap;
    if i > 0 {
      var m, t := Merged(ts, l, i - 1), ts[i - 1];
      MergeIsMaximal(ts, l, base, i - 1);
      MergeTracks(ts, l, base, i - 1);
      StepMaximal(m, l, base, t);
    }
  }

  lemma {:induction false} StepMaximal(m: Merge, l: Limits, base: nat, t: Slot)
    requires l.boundary > 0 && l.granule > 0 && Tracks(m, base, t.d) && NoWrap(m, l, base, t)
    requires 0 < t.len && t.off + t.len <= t.width && Rem(t.d, l.granule) == 0 && t.off < l.granule
    requires Maximal(m.outs, l)
    ensures Maximal(MergeStep(m, l, t).outs, l)
  {
    StepTracks(m, l, base, t);
    RemAdd(t.d, t.off, l.granule);
    var es := MergeStep(m, l, t).outs;
    forall k | 0 < k < |es|
      ensures !JoinableAt(es, k, l)
    {
      if k < |m.outs| {
        assert !JoinableAt(m.outs, k, l);
      }
    }
  }
}
