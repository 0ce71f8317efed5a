// The heap of pages below 4 GB (dma32_heap.c): greedy blocks of 256, 16 and 1
// pages, cleanup at every failure, and the page array built for vmap.
module PageHeap {
  import opened Arith
  import opened Kernel

  const PAGE_SIZE: nat := 4096
  const FOUR_GB: nat := 0x1_0000_0000

  // A block of 2^order pages at a physical address.
  datatype Block = Block(addr: nat, order: nat)

  datatype Result = Ok(blocks: seq<Block>) | Err(error: int)

  // The orders the heap asks for, largest first.
  const ORDERS: seq<nat> := [8, 4, 0]

  predicate IsOrder(o: nat) {
    o == 8 || o == 4 || o == 0
  }

  // 1 << order, for those orders.
  function Pages(order: nat): nat {
    if order == 8 then 256 else if order == 4 then 16 else 1
  }

  lemma {:induction false} PagesIsPower(order: nat)
    requires IsOrder(order)
    ensures Pages(order) == Pow2(order)
  {
    assert Pow2(4) == 16 * Pow2(0);
    assert Pow2(8) == 16 * Pow2(4);
  }

  function Size(order: nat): (s: nat)
    ensures s > 0
  {
    PAGE_SIZE * Pages(order)
  }

  // A length in whole pages, and their number.
  predicate Whole(len: nat) {
    len % PAGE_SIZE == 0
  }

  function PageCount(len: nat): nat {
    len / PAGE_SIZE
  }

  // ---------- The kernel's page allocator ----------

  // `script` fixes its future answers: an address, or a negative number for a
  // refusal. Blocks are naturally aligned. `held` are the blocks handed out.
  class PageAllocator {
    var script: seq<int>
    ghost var held: multiset<Block>
    ghost var refused: seq<nat>  // the orders whose answer was no block below 4 GB

    constructor (script: seq<int>)
      ensures this.script == script && held == multiset{} && refused == []
    {
      this.script := script;
      held := multiset{};
      refused := [];
    }

    method AllocPages(order: nat) returns (r: Option<nat>)
      requires IsOrder(order)
      modifies this
      ensures r.Some? ==> r.value % Size(order) == 0 && held == old(held) + multiset{Block(r.value, order)}
      ensures r.None? ==> held == old(held)
      ensures refused == old(refused) + if r.Some? && r.value < FOUR_GB then [] else [order]
    {
      r := None;
      if |script| > 0 {
        if script[0] >= 0 && script[0] % Size(order) == 0 {
          r := Some(script[0]);
          held := held + multiset{Block(script[0], order)};
        }
        script := script[1..];
      }
      if !(r.Some? && r.value < FOUR_GB) {
        refused := refused + [order];
      }
    }

    // __free_pages: only a block that is out can come back.
    method FreePages(b: Block)
      requires b in held
      modifies this`held
      ensures held == old(held) - multiset{b}
    {
      held := held - multiset{b};
    }
  }

  // The orders a request for `size` bytes may use.
  predicate Admissible(o: nat, size: nat, max: nat) {
    IsOrder(o) && Size(o) <= size && o <= max
  }

  // The requests refused on the way to order `o` are exactly those for the
  // larger admissible orders, each made once, largest first.
  ghost predicate RefusedAbove(asked: seq<nat>, o: int, size: nat, max: nat) {
    && (forall i, j :: 0 <= i < j < |asked| ==> asked[i] > asked[j])
    && (forall q: nat :: q in asked <==> Admissible(q, size, max) && q > o)
  }

  ghost predicate Low(b: Block) {
    b.addr + Size(b.order) <= FOUR_GB
  }

  // The start check of the source covers the whole block, because a naturally
  // aligned block cannot straddle 4 GB.
  lemma {:induction false} StartCheckCoversBlock(addr: nat, order: nat)
    requires IsOrder(order) && addr % Size(order) == 0 && addr < FOUR_GB
    ensures Low(Block(addr, order))
  {
  }

  // The largest order that fits in `size` and is at most `max`.
  function Best(size: nat, max: nat): nat {
    if max >= 8 && size >= Size(8) then 8 else if max >= 4 && size >= Size(4) then 4 else 0
  }

  // alloc_largest_available_dma32.
  method AllocLargest(alloc: PageAllocator, size: nat, maxOrder: nat)
    returns (r: Option<Block>, ghost asked: seq<nat>)
    modifies alloc
    ensures r.Some? ==>
              && Admissible(r.value.order, size, maxOrder)
              && Low(r.value) && alloc.held == old(alloc.held) + multiset{r.value}
    ensures r.None? ==> alloc.held == old(alloc.held)
    // the largest admissible order that was not refused; none if all were
    ensures alloc.refused == old(alloc.refused) + asked
    ensures RefusedAbove(asked, if r.Some? then r.value.order else -1, size, maxOrder)
  {
    asked := [];
    ghost var last: int := 9;
    for i := 0 to |ORDERS|
      invariant alloc.held == old(alloc.held) && alloc.refused == old(alloc.refused) + asked
      invariant last == if i == 0 then 9 else if i == 1 then 8 else if i == 2 then 4 else 0
      invariant RefusedAbove(asked, last - 1, size, maxOrder)
    {
      var order := ORDERS[i];
      assert order == if i == 0 then 8 else if i == 1 then 4 else 0;
      NextOrder(asked, last, order, size, maxOrder);
      last := order;
      if size < Size(order) || maxOrder < order {
        continue;
      }
      var page := alloc.AllocPages(order);
      if page.None? {
        asked := asked + [order];
        continue;
      }
      if page.value >= FOUR_GB {
        alloc.FreePages(Block(page.value, order));
        asked := asked + [order];
        continue;
      }
      StartCheckCoversBlock(page.value, order);
      return Some(Block(page.value, order)), asked;
    }
    r := None;
  }

  // Passing from one order of the heap to the next.
  lemma {:induction false} NextOrder(asked: seq<nat>, last: int, order: nat, size: nat, max: nat)
    requires RefusedAbove(asked, last - 1, size, max)
    requires (last, order) == (9, 8) || (last, order) == (8, 4) || (last, order) == (4, 0)
    ensures RefusedAbove(asked, order, size, max)
    ensures Admissible(order, size, max) ==> RefusedAbove(asked + [order], order - 1, size, max)
    ensures !Admissible(order, size, max) ==> RefusedAbove(asked, order - 1, size, max)
  {
    assert forall q: nat :: q in asked + [order] <==> q in asked || q == order;
    forall i | 0 <= i < |asked|
      ensures asked[i] > order
    {
      assert asked[i] in asked;
    }
  }

  // Without a refusal the block is the best one; and a page was refused exactly
  // if nothing was found, as soon as a page was asked for.
  lemma {:induction false} AskedTells(asked: seq<nat>, r: Option<Block>, size: nat, max: nat)
    requires RefusedAbove(asked, if r.Some? then r.value.order else -1, size, max)
    requires r.Some? ==> Admissible(r.value.order, size, max)
    ensures asked == [] && size >= PAGE_SIZE ==> r.Some? && r.value.order == Best(size, max)
    ensures size >= PAGE_SIZE ==> (r.None? <==> 0 in asked)
  {
    assert size >= PAGE_SIZE ==> Admissible(0, size, max);
    assert Admissible(8, size, max) <==> size >= Size(8) && max >= 8;
    assert Admissible(4, size, max) <==> size >= Size(4) && max >= 4;
  }

  // ---------- One buffer ----------

  function SumPages(bs: seq<Block>): nat {
    if bs == [] then 0 else SumPages(bs[..|bs| - 1]) + Pages(bs[|bs| - 1].order)
  }

  ghost predicate NonIncreasing(bs: seq<Block>) {
    forall i, j :: 0 <= i < j < |bs| ==> bs[i].order >= bs[j].order
  }

  ghost predicate GoodBlocks(bs: seq<Block>) {
    NonIncreasing(bs) && forall i :: 0 <= i < |bs| ==> IsOrder(bs[i].order) && Low(bs[i])
  }

  // The number of blocks greedy division takes.
  function Greedy(pages: nat): nat {
    if pages >= 256 then 1 + Greedy(pages - 256)
    else if pages >= 16 then 1 + Greedy(pages - 16)
    else pages
  }

  lemma {:induction false} GreedyBelow256(pages: nat)
    requires pages < 256
    ensures Greedy(pages) == pages / 16 + pages % 16
  {
    if pages >= 16 {
      GreedyBelow256(pages - 16);
    }
  }

  // No list of blocks with these orders is shorter than the greedy one.
  lemma {:induction false} GreedyIsFewest(bs: seq<Block>)
    requires forall i :: 0 <= i < |bs| ==> IsOrder(bs[i].order)
    ensures |bs| >= Greedy(SumPages(bs))
    decreases |bs|
  {
    if bs != [] {
      GreedyIsFewest(bs[..|bs| - 1]);
      OneBlockMore(SumPages(bs[..|bs| - 1]), bs[|bs| - 1].order);
    }
  }

  lemma {:induction false} OneBlockMore(pages: nat, order: nat)
    requires IsOrder(order)
    ensures Greedy(pages + Pages(order)) <= Greedy(pages) + 1
    decreases pages
  {
    if pages >= 256 {
      OneBlockMore(pages - 256, order);
    } else {
      GreedyBelow256(pages);
      if pages + Pages(order) < 256 {
        GreedyBelow256(pages + Pages(order));
      } else if order != 8 {
        GreedyBelow256(pages + Pages(order) - 256);
      }
    }
  }

  // Taking the best block is a step of the greedy division.
  lemma {:induction false} BestIsGreedy(pages: nat, max: nat)
    requires pages > 0 && IsOrder(max) && (max < 8 ==> pages < 256) && (max < 4 ==> pages < 16)
    ensures var o := Best(PAGE_SIZE * pages, max);
            && Pages(o) <= pages && Greedy(pages) == Greedy(pages - Pages(o)) + 1
            && (o < 8 ==> pages - Pages(o) < 256) && (o < 4 ==> pages - Pages(o) < 16)
  {
  }

  // `left` pages remain, after `count` blocks of the greedy division of `total`.
  ghost predicate OnGreedyTrack(remaining: nat, left: nat, count: nat, total: nat, max: nat) {
    && remaining == PAGE_SIZE * left && count + Greedy(left) == Greedy(total)
    && (max < 8 ==> left < 256) && (max < 4 ==> left < 16)
  }

  lemma {:induction false} TrackBegins(len: nat)
    ensures Whole(len) ==> OnGreedyTrack(len, PageCount(len), 0, PageCount(len), 8)
  {
  }

  lemma {:induction false} TrackStops(left: nat, count: nat, total: nat, max: nat)
    ensures OnGreedyTrack(0, left, count, total, max) ==> count == Greedy(total)
  {
  }

  lemma {:induction false} TrackNext(remaining: nat, left: nat, count: nat, total: nat, max: nat)
    requires OnGreedyTrack(remaining, left, count, total, max) && remaining > 0 && IsOrder(max)
    ensures remaining >= PAGE_SIZE
    ensures var o := Best(remaining, max);
            && Pages(o) <= left && Size(o) <= remaining
            && OnGreedyTrack(remaining - Size(o), left - Pages(o), count + 1, total, o)
  {
    BestIsGreedy(left, max);
  }

  lemma {:induction false} SumAppend(bs: seq<Block>, b: Block)
    ensures SumPages(bs + [b]) == SumPages(bs) + Pages(b.order)
    ensures PAGE_SIZE * SumPages(bs + [b]) == PAGE_SIZE * SumPages(bs) + Size(b.order)
  {
    assert (bs + [b])[..|bs|] == bs;
  }

  // One more block of no larger order.
  lemma {:induction false} BlocksAppend(bs: seq<Block>, b: Block, max: nat)
    requires GoodBlocks(bs) && IsOrder(b.order) && Low(b) && b.order <= max
    requires forall i :: 0 <= i < |bs| ==> bs[i].order >= max
    ensures GoodBlocks(bs + [b]) && multiset(bs + [b]) == multiset(bs) + multiset{b}
    ensures forall i :: 0 <= i < |bs + [b]| ==> (bs + [b])[i].order >= b.order
  {
  }

  // __free_pages for every block of a list; on the way out of an error, and
  // when the buffer is released.
  method FreeAll(alloc: PageAllocator, bs: seq<Block>)
    requires multiset(bs) <= alloc.held
    modifies alloc`held
    ensures alloc.held == old(alloc.held) - multiset(bs)
  {
    ghost var held := alloc.held;
    assert bs[..0] == [];
    for i := 0 to |bs|
      invariant alloc.held == held - multiset(bs[..i])
    {
      assert bs[..i + 1] == bs[..i] + [bs[i]];
      assert bs == bs[..i] + [bs[i]] + bs[i + 1..];
      alloc.FreePages(bs[i]);
    }
    assert bs[..|bs|] == bs;
  }

  // The list so far, with `remaining` of `len` bytes still to be found in
  // blocks of at most order `max`.
  ghost predicate Gathered(len: nat, pages: seq<Block>, remaining: nat, max: nat) {
    && IsOrder(max) && PAGE_SIZE * SumPages(pages) + remaining == len
    && GoodBlocks(pages) && forall i :: 0 <= i < |pages| ==> pages[i].order >= max
  }

  lemma {:induction false} GatherBegins(len: nat)
    ensures Gathered(len, [], len, 8)
  {
  }

  lemma {:induction false} GatherNext(len: nat, pages: seq<Block>, remaining: nat, max: nat, b: Block)
    requires Gathered(len, pages, remaining, max) && Low(b)
    requires IsOrder(b.order) && b.order <= max && Size(b.order) <= remaining
    ensures Gathered(len, pages + [b], remaining - Size(b.order), b.order)
    ensures multiset(pages + [b]) == multiset(pages) + multiset{b}
  {
    SumAppend(pages, b);
    BlocksAppend(pages, b, max);
  }

  // A fatal signal is pending in round k.
  predicate Signal(signals: seq<bool>, k: nat) {
    k < |signals| && signals[k]
  }

  // The loop of dma32_heap_allocate. `signals[k]`: a fatal signal is pending in
  // round k. `pages` is the list so far, whether the loop ended well or not, and
  // `asked` the orders refused on the way.
  method Gather(alloc: PageAllocator, len: nat, signals: seq<bool>)
    returns (ret: int, pages: seq<Block>, ghost asked: seq<nat>)
    modifies alloc
    ensures alloc.held == old(alloc.held) + multiset(pages) && alloc.refused == old(alloc.refused) + asked
    ensures PAGE_SIZE * SumPages(pages) <= len && GoodBlocks(pages)
    // the three ways to end
    ensures ret == 0 <==> PAGE_SIZE * SumPages(pages) == len
    ensures ret == -EINTR <==> PAGE_SIZE * SumPages(pages) < len && Signal(signals, |pages|)
    ensures ret == 0 || ret == -EINTR || ret == -ENOMEM
    // no round before the last one had a signal
    ensures forall k :: 0 <= k < |pages| ==> !Signal(signals, k)
    // whole pages fail for lack of memory exactly if a single page was refused
    ensures Whole(len) ==> (ret == -ENOMEM <==> 0 in asked)
    ensures asked == [] && ret != -EINTR && Whole(len) ==> ret == 0 && |pages| == Greedy(PageCount(len))
  {
    hide Greedy, SumPages, GoodBlocks, Low, Size, Whole, PageCount, RefusedAbove, Admissible, Progress, Signal, IsOrder;
    ghost var held, refused := alloc.held, alloc.refused;
    var remaining: nat := len;
    var maxOrder := 8;
    ret, pages, asked := 0, [], [];
    ProgressBegins(len);
    while remaining > 0
      invariant Progress(len, pages, remaining, maxOrder, asked) && ret == 0
      invariant alloc.held == held + multiset(pages) && alloc.refused == refused + asked
      invariant forall k :: 0 <= k < |pages| ==> !Signal(signals, k)
      decreases remaining
    {
      ProgressTells(len, pages, remaining, maxOrder, asked);
      SignalTells(signals, |pages|);
      if |pages| < |signals| && signals[|pages|] {
        ret := -EINTR;
        return;
      }
      ghost var more;
      var page;
      page, more := AllocLargest(alloc, remaining, maxOrder);
      if page.None? {
        NoneFound(len, pages, remaining, maxOrder, asked, more);
        asked := asked + more;
        ret := -ENOMEM;
        return;
      }
      ProgressNext(len, pages, remaining, maxOrder, asked, more, page.value);
      asked := asked + more;
      pages := pages + [page.value];
      remaining := remaining - Size(page.value.order);
      maxOrder := page.value.order;
    }
    ProgressTells(len, pages, remaining, maxOrder, asked);
  }

  lemma {:induction false} SignalTells(signals: seq<bool>, k: nat)
    ensures Signal(signals, k) <==> k < |signals| && signals[k]
  {
  }

  // The list so far, and the orders refused so far: for whole pages the rest is
  // whole and no single page was refused; and without any refusal the blocks are
  // those of the greedy division.
  ghost predicate Progress(len: nat, pages: seq<Block>, remaining: nat, max: nat, asked: seq<nat>) {
    && Gathered(len, pages, remaining, max)
    && (Whole(len) ==>
          && 0 !in asked && Whole(remaining)
          && (asked == [] ==> OnGreedyTrack(remaining, PageCount(remaining), |pages|, PageCount(len), max)))
  }

  lemma {:induction false} ProgressBegins(len: nat)
    ensures Progress(len, [], len, 8, [])
  {
    hide Greedy;
    TrackBegins(len);
    GatherBegins(len);
  }

  lemma {:induction false} ProgressTells(len: nat, pages: seq<Block>, remaining: nat, max: nat, asked: seq<nat>)
    requires Progress(len, pages, remaining, max, asked)
    ensures PAGE_SIZE * SumPages(pages) + remaining == len && GoodBlocks(pages)
    ensures Whole(len) ==> 0 !in asked
    ensures Whole(len) && remaining == 0 && asked == [] ==> |pages| == Greedy(PageCount(len))
  {
    hide SumPages, GoodBlocks;
    TrackStops(PageCount(remaining), |pages|, PageCount(len), max);
  }

  // One round more: a block found behind the refusals of larger ones.
  lemma {:induction false} ProgressNext(len: nat, pages: seq<Block>, remaining: nat, max: nat, asked: seq<nat>,
                                        more: seq<nat>, b: Block)
    requires Progress(len, pages, remaining, max, asked) && remaining > 0
    requires Admissible(b.order, remaining, max) && Low(b) && RefusedAbove(more, b.order, remaining, max)
    ensures Size(b.order) <= remaining
    ensures Progress(len, pages + [b], remaining - Size(b.order), b.order, asked + more)
    ensures multiset(pages + [b]) == multiset(pages) + multiset{b}
  {
    hide SumPages, GoodBlocks, Low, Greedy, OnGreedyTrack, RefusedAbove, Gathered, Best;
    AskedTells(more, Some(b), remaining, max);
    WholeIsPages(remaining);
    OrderOfGathered(len, pages, remaining, max);
    GatherNext(len, pages, remaining, max, b);
    if Whole(len) {
      WholeNext(remaining, b.order);
      if asked + more == [] {
        assert asked == [] && more == [];
        TrackNext(remaining, PageCount(remaining), |pages|, PageCount(len), max);
      }
    }
  }

  lemma {:induction false} OrderOfGathered(len: nat, pages: seq<Block>, remaining: nat, max: nat)
    requires Gathered(len, pages, remaining, max)
    ensures IsOrder(max)
  {
  }

  lemma {:induction false} NoneFound(len: nat, pages: seq<Block>, remaining: nat, max: nat, asked: seq<nat>,
                                     more: seq<nat>)
    requires Progress(len, pages, remaining, max, asked) && remaining > 0 && RefusedAbove(more, -1, remaining, max)
    ensures Whole(len) ==> 0 in asked + more
  {
    hide SumPages, GoodBlocks, Greedy, OnGreedyTrack, RefusedAbove, Gathered;
    AskedTells(more, None, remaining, max);
    WholeIsPages(remaining);
  }

  lemma {:induction false} WholeIsPages(remaining: nat)
    ensures Whole(remaining) && remaining > 0 ==> remaining >= PAGE_SIZE
  {
  }

  lemma {:induction false} WholeNext(remaining: nat, o: nat)
    requires IsOrder(o) && Size(o) <= remaining
    ensures Whole(remaining) ==>
              Whole(remaining - Size(o)) && PageCount(remaining - Size(o)) == PageCount(remaining) - Pages(o)
  {
  }

  // dma32_heap_allocate. `bufferOk`, `tableOk`: buffer and scatter table could be
  // allocated; `exportRet`: 0 or the error of dma_buf_export. The blocks move from
  // the list to the table between the two, so each error label finds them in one
  // place only.
  method Allocate(alloc: PageAllocator, len: nat, signals: seq<bool>, bufferOk: bool, tableOk: bool, exportRet: int)
    returns (r: Result, ghost asked: seq<nat>)
    requires exportRet <= 0
    modifies alloc
    // success: the exact length, in blocks of non-increasing order, below 4 GB
    ensures r.Ok? ==>
              && bufferOk && tableOk && exportRet == 0
              && PAGE_SIZE * SumPages(r.blocks) == len && GoodBlocks(r.blocks)
              && alloc.held == old(alloc.held) + multiset(r.blocks)
    // failure: every page went back, once
    ensures r.Err? ==> alloc.held == old(alloc.held) && r.error < 0
    ensures r.Err? ==> r.error == -ENOMEM || r.error == exportRet || (r.error == -EINTR && true in signals)
    // without signals, whole pages: success exactly if nothing that is needed is refused
    ensures alloc.refused == old(alloc.refused) + asked
    ensures true !in signals && Whole(len) ==> (r.Ok? <==> bufferOk && 0 !in asked && tableOk && exportRet == 0)
    ensures true !in signals && Whole(len) && r.Err? ==>
              r.error == if bufferOk && 0 !in asked && tableOk then exportRet else -ENOMEM
    // undisturbed: the blocks of greedy division
    ensures asked == [] && r.Ok? && Whole(len) ==> |r.blocks| == Greedy(PageCount(len))
  {
    hide Whole, Greedy, PageCount, GoodBlocks, SumPages;
    asked := [];
    if !bufferOk {
      r := Err(-ENOMEM);
      return;
    }
    var ret, list;
    ret, list, asked := Gather(alloc, len, signals);
    var table: seq<Block> := [];
    if ret < 0 {
      FreeAll(alloc, list);
      r := Err(ret);
      return;
    }
    if !tableOk {
      FreeAll(alloc, list);
      r := Err(-ENOMEM);
      return;
    }
    list, table := [], list;
    if exportRet != 0 {
      FreeAll(alloc, table);
      FreeAll(alloc, list);
      r := Err(exportRet);
      return;
    }
    r := Ok(table);
  }

  // ---------- The page array for vmap ----------

  // The page frames of the blocks, in order.
  function Frames(bs: seq<Block>): seq<nat> {
    if bs == [] then []
    else
      var b := bs[|bs| - 1];
      Frames(bs[..|bs| - 1]) + seq(Pages(b.order), j requires j >= 0 => b.addr / PAGE_SIZE + j)
  }

  lemma {:induction false} FramesCount(bs: seq<Block>)
    ensures |Frames(bs)| == SumPages(bs)
    decreases |bs|
  {
    if bs != [] {
      FramesCount(bs[..|bs| - 1]);
    }
  }

  // Frame k of block i comes behind the frames of all blocks before.
  lemma {:induction false} FrameAt(bs: seq<Block>, i: nat, k: nat)
    requires i < |bs| && k < Pages(bs[i].order)
    ensures SumPages(bs[..i]) + k < |Frames(bs)| && Frames(bs)[SumPages(bs[..i]) + k] == bs[i].addr / PAGE_SIZE + k
    decreases |bs|
  {
    var n := |bs| - 1;
    FramesCount(bs[..n]);
    if i < n {
      FrameAt(bs[..n], i, k);
      assert bs[..n][..i] == bs[..i];
    }
  }

  lemma {:induction false} FramesNext(bs: seq<Block>, i: nat)
    requires i < |bs|
    ensures Frames(bs[..i + 1])
         == Frames(bs[..i]) + seq(Pages(bs[i].order), j requires j >= 0 => bs[i].addr / PAGE_SIZE + j)
  {
    assert bs[..i + 1][..i] == bs[..i];
  }

  lemma {:induction false} SumMonotone(bs: seq<Block>, i: nat)
    requires i <= |bs|
    ensures SumPages(bs[..i]) <= SumPages(bs)
    decreases |bs|
  {
    if i < |bs| {
      SumMonotone(bs[..|bs| - 1], i);
      assert bs[..|bs| - 1][..i] == bs[..i];
    } else {
      assert bs[..i] == bs;
    }
  }

  // The fill loop of dma32_heap_vmap: for a buffer of that length the running
  // pointer never leaves the array and ends exactly behind its last element.
  method FillPages(bs: seq<Block>, len: nat) returns (pages: array<nat>)
    requires PAGE_SIZE * SumPages(bs) == len
    ensures fresh(pages) && pages[..] == Frames(bs) && PAGE_SIZE * pages.Length == len
  {
    var npages := (len + PAGE_SIZE - 1) / PAGE_SIZE;
    pages := new nat[npages];
    var tmp := 0;
    assert bs[..0] == [];
    for i := 0 to |bs|
      invariant tmp == SumPages(bs[..i]) == |Frames(bs[..i])| <= npages
      invariant pages[..tmp] == Frames(bs[..i])
    {
      FramesNext(bs, i);
      FramesCount(bs[..i + 1]);
      SumMonotone(bs, i + 1);
      ghost var done := Frames(bs[..i]);
      var page := bs[i].addr / PAGE_SIZE;
      for j := 0 to Pages(bs[i].order)
        invariant tmp == |done| + j && tmp <= npages && page == bs[i].addr / PAGE_SIZE + j
        invariant pages[..tmp] == done + seq(j, x requires x >= 0 => bs[i].addr / PAGE_SIZE + x)
      {
        pages[tmp] := page;
        tmp := tmp + 1;
        page := page + 1;
      }
    }
    assert bs[..|bs|] == bs;
    assert pages[..tmp] == pages[..];
  }
}
