// The layout of a scatter list wastes nothing: every segment takes the least
// whole granules, a gap is left only where a segment would go past a boundary,
// and only up to that boundary; so short lists are dense and merge into one.
module ScatterTightness {
  import opened Arith
  import opened ScatterLayout
  import opened ScatterMerge

  // The granule-aligned start of a segment lies less than a granule below its
  // data, and its span is the least multiple of the granule that holds them.
  lemma {:induction false} SpanIsLeast(s: seq<Entry>, l: Limits, i: nat)
    requires l.granule > 0 && l.boundary > 0 && i < |s|
    ensures Off(s, l, i) == s[i].offset % l.granule && Span(s, l, i) % l.granule == 0
    ensures Off(s, l, i) + s[i].length <= Span(s, l, i) < Off(s, l, i) + s[i].length + l.granule
  {
    hide Rem, Distance, AlignUp;
    MacrosAreModular(s[i].offset, l.granule);
    MacrosAreModular(s[i].length + Off(s, l, i), l.granule);
  }

  // Where the segment before i ends.
  function PreviousEnd(s: seq<Entry>, l: Limits, i: nat): nat
    requires l.granule > 0 && l.boundary > 0 && i < |s|
  {
    if i == 0 then 0 else Start(s, l, i - 1) + Span(s, l, i - 1)
  }

  // `span` bytes from x on go past the boundary above x; x itself is not on one.
  ghost predicate GoesPast(x: nat, span: nat, boundary: nat)
    requires boundary > 0
  {
    x % boundary != 0 && x % boundary + span > boundary
  }

  // A segment starts right behind its predecessor unless it would go past a
  // boundary from there, and then at the next boundary.
  lemma {:induction false} LayoutIsTight(s: seq<Entry>, l: Limits, i: nat)
    requires ValidLimits(l) && l.granule >= 2 && i < |s|
    ensures var e := PreviousEnd(s, l, i);
            if GoesPast(e, Span(s, l, i), l.boundary) then
              Start(s, l, i) % l.boundary == 0 && e < Start(s, l, i) < e + l.boundary
            else Start(s, l, i) == e
    ensures i == |s| - 1 ==> Bound(s, l, |s|) == Start(s, l, i) + Span(s, l, i)
  {
    hide PowerOfTwo, Rem, Distance, AlignUp;
    var e := PreviousEnd(s, l, i);
    assert e == End(s, l, i);
    LayoutIsAligned(s, l, i);
    SpanCovers(s, l, i);
    DistanceIsNotOneShort(e, Span(s, l, i), l);
    MacrosAreModular(e, l.boundary);
    DistanceIsRest(e, l.boundary);
  }

  lemma {:induction false} DistanceIsRest(x: nat, b: nat)
    requires b > 0
    ensures Distance(x, b) == if Rem(x, b) == 0 then 0 else b - Rem(x, b)
  {
  }

  // ---------- Lists that fit between two boundaries ----------

  function SumSpans(s: seq<Entry>, l: Limits, i: nat): nat
    requires l.granule > 0 && i <= |s|
  {
    if i == 0 then 0 else SumSpans(s, l, i - 1) + Span(s, l, i - 1)
  }

  lemma {:induction false} SumSpansGrow(s: seq<Entry>, l: Limits, i: nat, j: nat)
    requires l.granule > 0 && i <= j <= |s|
    ensures SumSpans(s, l, i) <= SumSpans(s, l, j)
  {
    if i < j {
      SumSpansGrow(s, l, i, j - 1);
    }
  }

  lemma {:induction false} NoPadding(x: nat, span: nat, b: nat)
    requires b > 0 && x + span <= b
    ensures Pad(x, span, b) == 0
  {
    if x == b {
      Unit(b);
    }
  }

  // A list whose spans fit a boundary window gets exactly their sum.
  lemma {:induction false} ShortListIsDense(s: seq<Entry>, l: Limits, i: nat)
    requires l.granule > 0 && l.boundary > 0 && i <= |s| && SumSpans(s, l, |s|) <= l.boundary
    ensures End(s, l, i) == Bound(s, l, i) == SumSpans(s, l, i)
  {
    hide Pad, Span;
    if i > 0 {
      ShortListIsDense(s, l, i - 1);
    }
    if i < |s| {
      SumSpansGrow(s, l, i + 1, |s|);
      NoPadding(SumSpans(s, l, i), Span(s, l, i), l.boundary);
    }
  }

  // Page-aligned segments of whole granules.
  ghost predicate WholeSegments(s: seq<Entry>, l: Limits)
    requires l.granule > 0
  {
    forall i :: 0 <= i < |s| ==> Rem(s[i].offset, l.granule) == 0 && Rem(s[i].length, l.granule) == 0
  }

  lemma {:induction false} WholeSpan(s: seq<Entry>, l: Limits, i: nat)
    requires l.granule > 0 && i < |s| && WholeSegments(s, l)
    ensures Off(s, l, i) == 0 && Span(s, l, i) == s[i].length
  {
  }

  lemma {:induction false} WholeSlot(s: seq<Entry>, l: Limits, base: nat, i: nat)
    requires ValidLimits(l) && i < |s| && WholeSegments(s, l) && SumSpans(s, l, |s|) <= l.boundary
    ensures Slots(s, l, base)[i] == Slot(base + SumSpans(s, l, i), 0, s[i].length, s[i].length)
    ensures SumSpans(s, l, i + 1) == SumSpans(s, l, i) + s[i].length
  {
    hide Rem, AlignUp, Pad, PowerOfTwo;
    WholeSpan(s, l, i);
    ShortListIsDense(s, l, i);
    ShortListIsDense(s, l, i + 1);
  }

  // A whole segment opens an output or joins the one that ends where it starts.
  lemma {:induction false} WholeStep(l: Limits, base: nat, sum: nat, len: nat)
    requires l.boundary > 0 && l.maxLen < U32_MODULUS && len > 0 && sum + len <= l.maxLen
    requires sum > 0 ==> Rem(base + sum, l.boundary) != 0
    ensures var m := if sum == 0 then Merge([], 0) else Merge([Extent(base, sum)], sum);
            MergeStep(m, l, Slot(base + sum, 0, len, len)) == Merge([Extent(base, sum + len)], sum + len)
  {
    hide Rem;
  }

  lemma {:induction false} OneOutput(s: seq<Entry>, l: Limits, base: nat, i: nat)
    requires ValidLimits(l) && Fits(s, l) && 0 < i <= |s| && WholeSegments(s, l)
    requires SumSpans(s, l, |s|) <= l.boundary && SumSpans(s, l, |s|) <= l.maxLen
    requires forall j :: 0 < j < |s| ==> Rem(base + SumSpans(s, l, j), l.boundary) != 0
    ensures Merged(Slots(s, l, base), l, i)
         == Merge([Extent(base, SumSpans(s, l, i))], SumSpans(s, l, i)) && SumSpans(s, l, i) > 0
  {
    hide Rem, PowerOfTwo, Slots, SumSpans, Off, Span, Width, MergeStep, WholeSegments, Bound;
    var ts := Slots(s, l, base);
    NoSpans(s, l);
    WholeSlot(s, l, base, i - 1);
    SumSpansGrow(s, l, i, |s|);
    if i == 1 {
      assert Merged(ts, l, 0) == Merge([], 0);
    } else {
      OneOutput(s, l, base, i - 1);
    }
    WholeStep(l, base, SumSpans(s, l, i - 1), s[i - 1].length);
  }

  lemma {:induction false} NoSpans(s: seq<Entry>, l: Limits)
    requires l.granule > 0
    ensures SumSpans(s, l, 0) == 0
  {
  }

  // ... and, made of whole granules, not too long and nowhere on a boundary but
  // at its start, becomes a single DMA segment.
  lemma {:induction false} ShortListMergesToOne(s: seq<Entry>, l: Limits, base: nat)
    requires ValidLimits(l) && Fits(s, l) && s != [] && WholeSegments(s, l)
    requires SumSpans(s, l, |s|) <= l.boundary && SumSpans(s, l, |s|) <= l.maxLen
    requires forall j :: 0 < j < |s| ==> Rem(base + SumSpans(s, l, j), l.boundary) != 0
    ensures Merged(Slots(s, l, base), l, |s|).outs == [Extent(base, Bound(s, l, |s|))]
    ensures Bound(s, l, |s|) == SumSpans(s, l, |s|)
  {
    hide Merged, Slots, SumSpans, Bound, Rem, PowerOfTwo;
    OneOutput(s, l, base, |s|);
    ShortListIsDense(s, l, |s|);
  }
}
