// The SRAM chunk allocator (rknpu_mm.c): first fit over a bitmap, with the
// restarting search of the source, and the dump that walks the bitmap run by run.
module ChunkPool {
  import opened Kernel

  const U32_LIMIT := 0x1_0000_0000

  // struct rknpu_mm_obj: the chunks first..last, both included.
  datatype Chunks = Chunks(first: nat, last: nat)

  datatype Result = Ok(chunks: Chunks) | Err(error: int)

  // ---------- What the allocator is to find ----------

  // Chunks that `size` bytes take.
  function Needed(size: nat, chunk: nat): nat
    requires chunk > 0
  {
    if size == 0 then 0 else if size <= chunk then 1 else 1 + Needed(size - chunk, chunk)
  }

  ghost predicate FreeRun(b: seq<bool>, p: nat, n: nat) {
    p + n <= |b| && forall k :: p <= k < p + n ==> !b[k]
  }

  // p starts the lowest run of n free chunks.
  ghost predicate FirstFit(b: seq<bool>, n: nat, p: nat) {
    FreeRun(b, p, n) && forall q :: 0 <= q < p ==> !FreeRun(b, q, n)
  }

  ghost predicate NoFit(b: seq<bool>, n: nat) {
    forall q: nat :: !FreeRun(b, q, n)
  }

  function SetRange(b: seq<bool>, lo: nat, hi: nat, v: bool): seq<bool>
    requires lo <= hi <= |b|
  {
    b[..lo] + seq(hi - lo, _ => v) + b[hi..]
  }

  function CountClear(b: seq<bool>): nat {
    if b == [] then 0 else CountClear(b[..|b| - 1]) + (if b[|b| - 1] then 0 else 1)
  }

  // Needed is the quotient by the chunk size, rounded up.
  lemma {:induction false} NeededIsCeiling(size: nat, chunk: nat)
    requires chunk > 0
    ensures (Needed(size, chunk) - 1) * chunk < size <= Needed(size, chunk) * chunk || size == Needed(size, chunk) == 0
    decreases size
  {
    if size > chunk {
      NeededIsCeiling(size - chunk, chunk);
      var n := Needed(size - chunk, chunk);
      assert (n + 1) * chunk == n * chunk + chunk && n * chunk == (n - 1) * chunk + chunk;
    }
  }

  lemma {:induction false} CountAppend(a: seq<bool>, b: seq<bool>)
    ensures CountClear(a + b) == CountClear(a) + CountClear(b)
    decreases |b|
  {
    if b == [] {
      assert a + b == a;
    } else {
      assert (a + b)[..|a + b| - 1] == a + b[..|b| - 1];
      CountAppend(a, b[..|b| - 1]);
    }
  }

  lemma {:induction false} CountUniform(n: nat, v: bool)
    ensures CountClear(seq(n, _ => v)) == if v then 0 else n
  {
    if n > 0 {
      assert seq(n, _ => v)[..n - 1] == seq(n - 1, _ => v);
      CountUniform(n - 1, v);
    }
  }

  // Overwriting a uniform range moves the number of clear bits by its length.
  lemma {:induction false} CountSetRange(b: seq<bool>, lo: nat, hi: nat, v: bool)
    requires lo <= hi <= |b| && forall k :: lo <= k < hi ==> b[k] == !v
    ensures CountClear(SetRange(b, lo, hi, v)) == CountClear(b) + (if v then -(hi - lo) else hi - lo)
  {
    var before, after := seq(hi - lo, _ => !v), seq(hi - lo, _ => v);
    assert b == b[..lo] + before + b[hi..];
    CountAppend(b[..lo] + before, b[hi..]);
    CountAppend(b[..lo], before);
    CountAppend(b[..lo] + after, b[hi..]);
    CountAppend(b[..lo], after);
    CountUniform(hi - lo, v);
    CountUniform(hi - lo, !v);
  }

  // Freeing what was just allocated restores the bitmap.
  lemma {:induction false} SetThenClear(b: seq<bool>, lo: nat, hi: nat)
    requires lo <= hi <= |b| && forall k :: lo <= k < hi ==> !b[k]
    ensures SetRange(SetRange(b, lo, hi, true), lo, hi, false) == b
  {
  }

  // ---------- Live objects ----------

  ghost predicate Within(o: Chunks, total: nat) {
    o.first <= o.last < total
  }

  ghost predicate Apart(a: Chunks, b: Chunks) {
    a.last < b.first || b.last < a.first
  }

  ghost predicate Holds(o: Chunks, k: int) {
    o.first <= k <= o.last
  }

  // Live objects are disjoint and their union is exactly the set bits.
  ghost predicate Conserved(b: seq<bool>, live: set<Chunks>) {
    && (forall o :: o in live ==> Within(o, |b|))
    && (forall a, c :: a in live && c in live && a != c ==> Apart(a, c))
    && (forall k :: 0 <= k < |b| ==> (b[k] <==> exists o :: o in live && Holds(o, k)))
  }

  lemma {:induction false} AllocConserves(b: seq<bool>, live: set<Chunks>, o: Chunks)
    requires Conserved(b, live) && Within(o, |b|) && FreeRun(b, o.first, o.last - o.first + 1)
    ensures o !in live && Conserved(SetRange(b, o.first, o.last + 1, true), live + {o})
  {
    var b' := SetRange(b, o.first, o.last + 1, true);
    assert !b[o.first];
    assert o in live ==> Holds(o, o.first);
    assert forall k :: 0 <= k < |b| && Holds(o, k) ==> !b[k];
    assert forall c, k :: c in live && 0 <= k < |b| && Holds(c, k) ==> b[k];
    forall c | c in live
      ensures Apart(o, c)
    {
      var k := if c.first < o.first then o.first else c.first;
      assert !(Holds(o, k) && Holds(c, k));
    }
    forall k | 0 <= k < |b'|
      ensures b'[k] <==> exists c :: c in live + {o} && Holds(c, k)
    {
      if Holds(o, k) {
        assert o in live + {o};
      } else {
        assert b'[k] == b[k];
        if c :| c in live && Holds(c, k) {
          assert c in live + {o};
        }
      }
    }
  }

  lemma {:induction false} FreeConserves(b: seq<bool>, live: set<Chunks>, o: Chunks)
    requires Conserved(b, live) && o in live
    ensures Within(o, |b|) && Conserved(SetRange(b, o.first, o.last + 1, false), live - {o})
    ensures forall k :: o.first <= k < o.last + 1 ==> b[k]
  {
    var b' := SetRange(b, o.first, o.last + 1, false);
    forall k | o.first <= k < o.last + 1
      ensures b[k]
    {
      assert Holds(o, k);
    }
    forall k | 0 <= k < |b'|
      ensures b'[k] <==> exists c :: c in live - {o} && Holds(c, k)
    {
      if Holds(o, k) {
        forall c | c in live - {o}
          ensures !Holds(c, k)
        {
          assert Apart(c, o);
        }
      } else {
        assert b'[k] == b[k];
        if c :| c in live && Holds(c, k) {
          assert c in live - {o};
        }
      }
    }
  }

  // The bitmap is a function of the live objects: whatever happened in between,
  // a pool with the same live objects has the same bits and the same free count.
  lemma {:induction false} LiveDetermineBitmap(b: seq<bool>, b': seq<bool>, live: set<Chunks>)
    requires Conserved(b, live) && Conserved(b', live) && |b| == |b'|
    ensures b == b' && CountClear(b) == CountClear(b')
  {
    assert forall k :: 0 <= k < |b| ==> b[k] == b'[k];
  }

  // ---------- The search ----------

  // What a search from `start` that stops at set bit or end `stop` rules out:
  // chunks start..lo are taken, lo..stop are free but too few.
  lemma {:induction false} RuleOut(b: seq<bool>, n: nat, start: nat, lo: nat, stop: nat)
    requires start <= lo <= stop <= |b| && stop < lo + n
    requires forall q :: 0 <= q < start ==> !FreeRun(b, q, n)
    requires forall k :: start <= k < lo ==> b[k]
    requires stop < |b| ==> b[stop]
    ensures forall q :: 0 <= q < stop ==> !FreeRun(b, q, n)
    ensures stop == |b| ==> NoFit(b, n)
  {
    forall q: nat | start <= q && (q < stop || stop == |b|)
      ensures !FreeRun(b, q, n)
    {
      if q < lo {
        assert b[q];
      } else if q + n <= |b| {
        assert q <= stop < q + n;
      }
    }
    if stop == |b| {
      forall q: nat
        ensures !FreeRun(b, q, n)
      {
        if q < start {
          assert !FreeRun(b, q, n);
        }
      }
    }
  }

  class Pool {
    const chunkSize: nat
    const totalChunks: nat
    const bitmap: array<bool>
    var freeChunks: nat
    ghost var live: set<Chunks>

    ghost predicate Valid()
      reads this, bitmap
    {
      && bitmap.Length == totalChunks && chunkSize > 0
      && totalChunks * chunkSize < U32_LIMIT
      && freeChunks == CountClear(bitmap[..])
      && Conserved(bitmap[..], live)
    }

    // rknpu_mm_create. `memOk`: the pool and its bitmap could be allocated.
    static method Create(memSize: nat, chunkSize: nat, memOk: bool) returns (ret: int, pool: Pool?)
      requires memSize < U32_LIMIT
      ensures ret == if memSize < chunkSize || memSize == 0 || chunkSize == 0 then -EINVAL
                     else if !memOk then -ENOMEM else 0
      ensures ret == 0 <==> pool != null
      ensures pool != null ==>
                && fresh(pool) && fresh(pool.bitmap) && pool.Valid() && pool.live == {} && pool.chunkSize == chunkSize
                && pool.totalChunks == memSize / chunkSize == pool.freeChunks
    {
      pool := null;
      if memSize < chunkSize || memSize == 0 || chunkSize == 0 {
        return -EINVAL, null;
      }
      if !memOk {
        return -ENOMEM, null;
      }
      pool := new Pool(memSize, chunkSize);
      ret := 0;
    }

    constructor (memSize: nat, chunkSize: nat)
      requires 0 < chunkSize <= memSize < U32_LIMIT
      ensures Valid() && fresh(bitmap) && live == {} && this.chunkSize == chunkSize
      ensures totalChunks == memSize / chunkSize && freeChunks == totalChunks
    {
      this.chunkSize := chunkSize;
      totalChunks := memSize / chunkSize;
      freeChunks := memSize / chunkSize;
      bitmap := new bool[memSize / chunkSize](_ => false);
      live := {};
      new;
      assert bitmap[..] == seq(totalChunks, _ => false);
      CountUniform(totalChunks, false);
      assert memSize == (memSize / chunkSize) * chunkSize + memSize % chunkSize;
    }

    // find_next_zero_bit: the first clear bit from start on, or the end.
    method FindNextZero(start: nat) returns (found: nat)
      requires bitmap.Length == totalChunks
      ensures if start >= totalChunks then found == totalChunks else start <= found <= totalChunks
      ensures forall k :: start <= k < found ==> bitmap[k]
      ensures found < totalChunks ==> !bitmap[found]
    {
      if start >= totalChunks {
        return totalChunks;
      }
      found := start;
      while found < totalChunks && bitmap[found]
        invariant start <= found <= totalChunks
        invariant forall k :: start <= k < found ==> bitmap[k]
      {
        found := found + 1;
      }
    }

    // The search between mm_restart_search and mm_no_free_chunk.
    method Search(size: nat) returns (found: bool, obj: Chunks)
      requires bitmap.Length == totalChunks && chunkSize > 0 && size > 0
      ensures found ==> FirstFit(bitmap[..], Needed(size, chunkSize), obj.first)
      ensures found ==> obj.last == obj.first + Needed(size, chunkSize) - 1
      ensures !found ==> NoFit(bitmap[..], Needed(size, chunkSize))
    {
      ghost var b, n := bitmap[..], Needed(size, chunkSize);
      var startSearch := 0;
      obj := Chunks(0, 0);
      while true
        invariant startSearch <= totalChunks
        invariant forall q :: 0 <= q < startSearch ==> !FreeRun(b, q, n)
        decreases totalChunks - startSearch
      {
        var chunk := FindNextZero(startSearch);
        if chunk == totalChunks {
          RuleOut(b, n, startSearch, totalChunks, totalChunks);
          return false, obj;
        }
        var first := chunk;
        obj := Chunks(first, chunk);
        if size <= chunkSize {
          FitIsFirst(b, n, startSearch, first);
          return true, obj;
        }
        var curSize: nat := size - chunkSize;
        var restart := false;
        while curSize > 0 && !restart
          invariant first <= chunk < totalChunks && obj.first == first && (!restart ==> obj.last == chunk)
          invariant restart ==> b[chunk] && first < chunk < first + n
          invariant forall k :: first <= k < chunk ==> !b[k]
          invariant !restart ==> !b[chunk] && chunk - first + 1 + Needed(curSize, chunkSize) == n
          decreases curSize, !restart
        {
          chunk := chunk + 1;
          var next := FindNextZero(chunk);
          obj := Chunks(first, next);
          if next != chunk {
            restart := true;
          } else {
            if chunk == totalChunks {
              RuleOut(b, n, startSearch, first, totalChunks);
              return false, obj;
            }
            curSize := if curSize <= chunkSize then 0 else curSize - chunkSize;
          }
        }
        if !restart {
          FitIsFirst(b, n, startSearch, first);
          return true, obj;
        }
        RuleOut(b, n, startSearch, first, chunk);
        startSearch := chunk;
      }
    }

    static lemma {:induction false} FitIsFirst(b: seq<bool>, n: nat, start: nat, first: nat)
      requires n > 0 && start <= first && first + n <= |b|
      requires forall q :: 0 <= q < start ==> !FreeRun(b, q, n)
      requires forall k :: start <= k < first ==> b[k]
      requires forall k :: first <= k < first + n ==> !b[k]
      ensures FirstFit(b, n, first)
    {
      forall q | start <= q < first
        ensures !FreeRun(b, q, n)
      {
        assert b[q];
      }
    }

    // rknpu_mm_alloc. `memOk` tells whether the descriptor could be allocated.
    method Alloc(size: nat, memOk: bool) returns (r: Result)
      requires Valid() && size < U32_LIMIT
      modifies this`freeChunks, this`live, bitmap
      ensures Valid()
      ensures size == 0 ==> r == Err(-EINVAL)
      ensures size > totalChunks * chunkSize || (size > 0 && !memOk) ==> r == Err(-ENOMEM)
      // fails exactly when no run is long enough
      ensures 0 < size <= totalChunks * chunkSize && memOk ==>
                if r.Err? then r.error == -ENOMEM && NoFit(old(bitmap[..]), Needed(size, chunkSize))
                else FirstFit(old(bitmap[..]), Needed(size, chunkSize), r.chunks.first)
      ensures r.Err? ==> bitmap[..] == old(bitmap[..]) && freeChunks == old(freeChunks) && live == old(live)
      ensures r.Ok? ==>
                && r.chunks !in old(live) && live == old(live) + {r.chunks}
                && r.chunks.last == r.chunks.first + Needed(size, chunkSize) - 1 < totalChunks
                && bitmap[..] == SetRange(old(bitmap[..]), r.chunks.first, r.chunks.last + 1, true)
                && freeChunks == old(freeChunks) - Needed(size, chunkSize)
    {
      hide Conserved, CountClear, Needed;
      if size == 0 {
        return Err(-EINVAL);
      }
      if size > totalChunks * chunkSize || !memOk {
        return Err(-ENOMEM);
      }
      var found, obj := Search(size);
      if !found {
        return Err(-ENOMEM);
      }
      ghost var b := bitmap[..];
      NeededIsPositive(size, chunkSize);
      AllocConserves(b, live, obj);
      CountSetRange(b, obj.first, obj.last + 1, true);
      SetBits(obj, true);
      freeChunks := freeChunks - (obj.last - obj.first + 1);
      live := live + {obj};
      r := Ok(obj);
    }

    static lemma {:induction false} NeededIsPositive(size: nat, chunk: nat)
      requires chunk > 0 && size > 0
      ensures Needed(size, chunk) > 0
    {
    }

    // The marking loops of alloc and free.
    method SetBits(obj: Chunks, v: bool)
      requires Within(obj, bitmap.Length)
      modifies bitmap
      ensures bitmap[..] == SetRange(old(bitmap[..]), obj.first, obj.last + 1, v)
    {
      for bit := obj.first to obj.last + 1
        invariant bitmap[..] == SetRange(old(bitmap[..]), obj.first, bit, v)
      {
        bitmap[bit] := v;
      }
    }

    // rknpu_mm_free of a live object.
    method Free(obj: Chunks)
      requires Valid() && obj in live
      modifies this`freeChunks, this`live, bitmap
      ensures Valid() && live == old(live) - {obj}
      ensures obj.first <= obj.last < totalChunks
      ensures bitmap[..] == SetRange(old(bitmap[..]), obj.first, obj.last + 1, false)
      ensures freeChunks == old(freeChunks) + (obj.last - obj.first + 1)
    {
      FreeConserves(bitmap[..], live, obj);
      CountSetRange(bitmap[..], obj.first, obj.last + 1, false);
      SetBits(obj, false);
      freeChunks := freeChunks + (obj.last - obj.first + 1);
      live := live - {obj};
    }
  }
}
