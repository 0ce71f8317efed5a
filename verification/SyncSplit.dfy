// Splitting a cache-maintenance request over a scatter list: the loop of
// rknpu_gem_sync_ioctl (rknpu_gem.c), which takes each segment's own address,
// and rknpu_dma_buf_sync (rknpu_mem.c), which keeps a running DMA address.
module SyncSplit {

  datatype Segment = Segment(phys: nat, length: nat)

  // One call dma_sync_single_range_for_*(addr, offset, size), on segment `seg`.
  datatype Call = Call(seg: nat, addr: nat, offset: nat, size: nat)

  // Length of the first i segments: where segment i starts in the buffer.
  function Prefix(s: seq<Segment>, i: nat): nat
    requires i <= |s|
  {
    if i == 0 then 0 else Prefix(s, i - 1) + s[i - 1].length
  }

  // The buffer positions lo..hi-1.
  function Interval(lo: nat, hi: nat): seq<nat>
    requires lo <= hi
  {
    seq(hi - lo, k requires k >= 0 => lo + k)
  }

  // The buffer positions that the calls touch, in order.
  function Touched(s: seq<Segment>, cs: seq<Call>): seq<nat> {
    if cs == [] then []
    else
      var c := cs[|cs| - 1];
      var from := (if c.seg < |s| then Prefix(s, c.seg) else 0) + c.offset;
      Touched(s, cs[..|cs| - 1]) + Interval(from, from + c.size)
  }

  // How far a request for `length` bytes from `offset` reaches in a buffer that
  // is covered up to `p`.
  function Reach(offset: nat, length: nat, p: nat): (r: nat)
    ensures offset <= r <= offset + length
  {
    if p <= offset then offset else if p < offset + length then p else offset + length
  }

  // A call stays inside its segment.
  ghost predicate Inside(s: seq<Segment>, c: Call) {
    c.seg < |s| && c.offset + c.size <= s[c.seg].length
  }

  ghost predicate AllInside(s: seq<Segment>, cs: seq<Call>) {
    forall k :: 0 <= k < |cs| ==> Inside(s, cs[k])
  }

  lemma {:induction false} TouchedAppend(s: seq<Segment>, cs: seq<Call>, c: Call, lo: nat, mid: nat)
    requires AllInside(s, cs) && Inside(s, c) && lo <= mid == Prefix(s, c.seg) + c.offset
    requires Touched(s, cs) == Interval(lo, mid)
    ensures AllInside(s, cs + [c]) && Touched(s, cs + [c]) == Interval(lo, mid + c.size)
  {
    assert (cs + [c])[..|cs|] == cs;
  }

  // Every call takes the address of its own segment.
  ghost predicate OwnAddresses(s: seq<Segment>, cs: seq<Call>) {
    forall k :: 0 <= k < |cs| ==> cs[k].seg < |s| && cs[k].addr == s[cs[k].seg].phys && cs[k].size > 0
  }

  // Every call takes the address at which a contiguous mapping has its segment.
  ghost predicate Contiguous(s: seq<Segment>, cs: seq<Call>, start: nat) {
    forall k :: 0 <= k < |cs| ==> cs[k].seg < |s| && cs[k].addr == start + Prefix(s, cs[k].seg)
  }

  // The requested positions that the list covers, each touched once, in order.
  ghost predicate TouchesRequest(s: seq<Segment>, cs: seq<Call>, offset: nat, length: nat) {
    && (forall q: nat :: q in Touched(s, cs) <==> offset <= q < offset + length && q < Prefix(s, |s|))
    && (forall i, k :: 0 <= i < k < |Touched(s, cs)| ==> Touched(s, cs)[i] < Touched(s, cs)[k])
  }

  // At most one call for each segment, in the order of the list.
  ghost predicate SegmentsRise(cs: seq<Call>, below: nat) {
    && (forall i, k :: 0 <= i < k < |cs| ==> cs[i].seg < cs[k].seg)
    && (forall k :: 0 <= k < |cs| ==> cs[k].seg < below)
  }

  lemma {:induction false} ReachIsRequest(s: seq<Segment>, cs: seq<Call>, offset: nat, length: nat)
    requires Touched(s, cs) == Interval(offset, Reach(offset, length, Prefix(s, |s|)))
    ensures TouchesRequest(s, cs, offset, length)
  {
    hide Touched, Prefix;
    var t, hi := Touched(s, cs), Reach(offset, length, Prefix(s, |s|));
    forall q: nat | offset <= q < hi
      ensures q in t
    {
      assert t[q - offset] == q;
    }
  }

  lemma {:induction false} NothingTouched(s: seq<Segment>, lo: nat)
    ensures AllInside(s, []) && Touched(s, []) == Interval(lo, lo)
  {
  }

  // The walker with per-segment addresses: its calls tile exactly the part of
  // the request that the list covers, without gap or overlap.
  method SyncSegments(s: seq<Segment>, offset0: nat, length0: nat) returns (calls: seq<Call>)
    ensures AllInside(s, calls)
    ensures Touched(s, calls) == Interval(offset0, Reach(offset0, length0, Prefix(s, |s|)))
    ensures OwnAddresses(s, calls)
    ensures TouchesRequest(s, calls, offset0, length0) && SegmentsRise(calls, |s|)
  {
    hide Touched, Interval, AllInside, TouchesRequest;
    NothingTouched(s, offset0);
    var offset, length := offset0, length0;
    var len := 0;
    calls := [];
    var i := 0;
    while i < |s|
      invariant 0 <= i <= |s| && len == Prefix(s, i)
      invariant offset == Reach(offset0, length0, len) && offset + length == offset0 + length0
      invariant AllInside(s, calls) && Touched(s, calls) == Interval(offset0, offset)
      invariant OwnAddresses(s, calls) && SegmentsRise(calls, i)
    {
      if length == 0 {
        PrefixMonotone(s, i, |s|);
        ReachIsRequest(s, calls, offset0, length0);
        return;
      }
      len := len + s[i].length;
      if len <= offset {
        i := i + 1;
        continue;
      }
      var sgLeft := len - offset;
      var sgOffset := s[i].length - sgLeft;
      var size := if length < sgLeft then length else sgLeft;
      var c := Call(i, s[i].phys, sgOffset, size);
      TouchedAppend(s, calls, c, offset0, offset);
      calls := calls + [c];
      offset := offset + size;
      length := length - size;
      i := i + 1;
    }
    ReachIsRequest(s, calls, offset0, length0);
  }

  // The walker with a running address: the same buffer positions, each at
  // its distance from the start of a contiguous mapping.
  method SyncRunning(s: seq<Segment>, dmaStart: nat, offset0: nat, length0: nat) returns (calls: seq<Call>)
    ensures AllInside(s, calls)
    ensures Touched(s, calls) == Interval(offset0, Reach(offset0, length0, Prefix(s, |s|)))
    ensures Contiguous(s, calls, dmaStart)
    ensures TouchesRequest(s, calls, offset0, length0) && SegmentsRise(calls, |s|)
  {
    hide Touched, Interval, AllInside, TouchesRequest;
    NothingTouched(s, offset0);
    var offset, length := offset0, length0;
    var len, sgDmaAddr := 0, dmaStart;
    calls := [];
    var i := 0;
    while i < |s|
      invariant 0 <= i <= |s| && len == Prefix(s, i) && sgDmaAddr == dmaStart + len
      invariant offset == Reach(offset0, length0, len) && offset + length == offset0 + length0
      invariant length == 0 ==> len <= offset
      invariant AllInside(s, calls) && Touched(s, calls) == Interval(offset0, offset)
      invariant Contiguous(s, calls, dmaStart) && SegmentsRise(calls, i)
    {
      len := len + s[i].length;
      if len <= offset {
        sgDmaAddr := sgDmaAddr + s[i].length;
        i := i + 1;
        continue;
      }
      var sgLeft := len - offset;
      var sgOffset := s[i].length - sgLeft;
      var size := if length < sgLeft then length else sgLeft;
      var c := Call(i, sgDmaAddr, sgOffset, size);
      TouchedAppend(s, calls, c, offset0, offset);
      calls := calls + [c];
      offset := offset + size;
      length := length - size;
      sgDmaAddr := sgDmaAddr + s[i].length;
      i := i + 1;
      if length == 0 {
        PrefixMonotone(s, i, |s|);
        ReachIsRequest(s, calls, offset0, length0);
        return;
      }
    }
    ReachIsRequest(s, calls, offset0, length0);
  }

  lemma {:induction false} PrefixMonotone(s: seq<Segment>, i: nat, j: nat)
    requires i <= j <= |s|
    ensures Prefix(s, i) <= Prefix(s, j)
  {
    if i < j {
      PrefixMonotone(s, i, j - 1);
    }
  }

  // ---------- The two walkers compared ----------

  // The addresses that the calls maintain, in order.
  function Addresses(cs: seq<Call>): seq<nat> {
    if cs == [] then []
    else
      var c := cs[|cs| - 1];
      Addresses(cs[..|cs| - 1]) + Interval(c.addr + c.offset, c.addr + c.offset + c.size)
  }

  function Shifted(xs: seq<nat>, d: nat): seq<nat> {
    seq(|xs|, k requires 0 <= k < |xs| => xs[k] + d)
  }

  lemma {:induction false} ShiftedInterval(lo: nat, hi: nat, d: nat)
    requires lo <= hi
    ensures Shifted(Interval(lo, hi), d) == Interval(lo + d, hi + d)
  {
  }

  lemma {:induction false} ShiftedAppend(xs: seq<nat>, ys: seq<nat>, d: nat)
    ensures Shifted(xs + ys, d) == Shifted(xs, d) + Shifted(ys, d)
  {
  }

  // In a contiguous mapping the addresses are the positions, shifted.
  lemma {:induction false} AddressesShift(s: seq<Segment>, cs: seq<Call>, start: nat)
    requires Contiguous(s, cs, start)
    ensures Addresses(cs) == Shifted(Touched(s, cs), start)
    decreases |cs|
  {
    hide Interval, Shifted, Prefix;
    if cs == [] {
      ShiftedNone(start);
    } else {
      var n := |cs| - 1;
      var c := cs[n];
      var from := Prefix(s, c.seg) + c.offset;
      AddressesShift(s, cs[..n], start);
      ShiftedAppend(Touched(s, cs[..n]), Interval(from, from + c.size), start);
      ShiftedInterval(from, from + c.size, start);
    }
  }

  lemma {:induction false} ShiftedNone(d: nat)
    ensures Shifted([], d) == []
  {
  }

  // On a list that is contiguous for the device both walkers maintain the same
  // addresses in the same order, namely those of the request.
  lemma {:induction false} WalkersAgree(s: seq<Segment>, a: seq<Call>, b: seq<Call>,
                                        start: nat, offset: nat, length: nat)
    requires OwnAddresses(s, a) && Contiguous(s, b, start)
    requires forall i :: 0 <= i < |s| ==> s[i].phys == start + Prefix(s, i)
    requires Touched(s, a) == Touched(s, b) == Interval(offset, Reach(offset, length, Prefix(s, |s|)))
    ensures Addresses(a) == Addresses(b) == Interval(start + offset, start + Reach(offset, length, Prefix(s, |s|)))
    ensures forall x: nat :: x in Addresses(a) <==>
              start + offset <= x < start + offset + length && x < start + Prefix(s, |s|)
  {
    hide Shifted, Touched, Addresses, Prefix;
    assert Contiguous(s, a, start);
    AddressesShift(s, a, start);
    AddressesShift(s, b, start);
    ShiftedInterval(offset, Reach(offset, length, Prefix(s, |s|)), start);
    InInterval(start + offset, start + Reach(offset, length, Prefix(s, |s|)));
  }

  lemma {:induction false} InInterval(lo: nat, hi: nat)
    requires lo <= hi
    ensures forall x: nat :: x in Interval(lo, hi) <==> lo <= x < hi
  {
    forall x: nat | lo <= x < hi
      ensures x in Interval(lo, hi)
    {
      assert Interval(lo, hi)[x - lo] == x;
    }
  }
}
