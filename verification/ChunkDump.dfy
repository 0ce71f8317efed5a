// The bitmap dump (rknpu_mm_dump): it jumps from run to run of set bits and
// prints through a small buffer that is flushed whenever a segment is full.
module ChunkDump {

  // What the dump is to say, bit by bit.
  function Render(b: seq<bool>): string {
    seq(|b|, i requires 0 <= i < |b| => if b[i] then '*' else '.')
  }

  function Join(lines: seq<string>): string {
    if lines == [] then "" else Join(lines[..|lines| - 1]) + lines[|lines| - 1]
  }

  // The printed segments and the reused buffer.
  class Printer {
    const width: nat
    var lines: seq<string>
    var buf: string

    constructor (width: nat)
      requires width > 0
      ensures Valid() && Text() == "" && this.width == width
    {
      this.width := width;
      lines := [];
      buf := "";
    }

    // Every printed segment is full, and the buffer never is.
    ghost predicate Valid()
      reads this
    {
      |buf| < width && forall i :: 0 <= i < |lines| ==> |lines[i]| == width
    }

    ghost function Text(): string
      reads this
    {
      Join(lines) + buf
    }

    method Put(c: char)
      requires Valid()
      modifies this
      ensures Valid() && Text() == old(Text()) + [c]
    {
      buf := buf + [c];
      if |buf| >= width {
        assert (lines + [buf])[..|lines|] == lines;
        lines := lines + [buf];
        buf := "";
      }
    }

    // The last, partly filled segment.
    method Flush()
      requires Valid()
      modifies this
      ensures buf == "" && Join(lines) == old(Text())
      ensures forall i :: 0 <= i < |lines| - 1 ==> |lines[i]| == width
      ensures lines != [] ==> 0 < |lines[|lines| - 1]| <= width
    {
      if |buf| > 0 {
        assert (lines + [buf])[..|lines|] == lines;
        lines := lines + [buf];
        buf := "";
      }
    }
  }

  // find_next_bit: the first set bit from start on, or the end.
  method FindNextBit(b: seq<bool>, start: nat) returns (found: nat)
    ensures if start >= |b| then found == |b| else start <= found <= |b|
    ensures forall k :: start <= k < found ==> !b[k]
    ensures found < |b| ==> b[found]
  {
    if start >= |b| {
      return |b|;
    }
    found := start;
    while found < |b| && !b[found]
      invariant start <= found <= |b|
      invariant forall k :: start <= k < found ==> !b[k]
    {
      found := found + 1;
    }
  }

  lemma {:induction false} RenderNext(b: seq<bool>, i: nat)
    requires i < |b|
    ensures Render(b[..i + 1]) == Render(b[..i]) + [if b[i] then '*' else '.']
  {
  }

  // Print the stretch [lo, hi), all bits of which equal v.
  method PutRun(p: Printer, b: seq<bool>, lo: nat, hi: nat, v: bool)
    requires p.Valid() && lo <= hi <= |b| && p.Text() == Render(b[..lo])
    requires forall k :: lo <= k < hi ==> b[k] == v
    modifies p
    ensures p.Valid() && p.Text() == Render(b[..hi])
  {
    for i := lo to hi
      invariant p.Valid() && p.Text() == Render(b[..i])
    {
      RenderNext(b, i);
      p.Put(if v then '*' else '.');
    }
  }

  // For every bitmap, the segments, joined, are the rendering of the bitmap:
  // every chunk appears once, in order; all segments but the last are full.
  method Dump(b: seq<bool>, width: nat) returns (lines: seq<string>)
    requires width > 0
    ensures Join(lines) == Render(b)
    ensures |Join(lines)| == |b| && forall k :: 0 <= k < |b| ==> Join(lines)[k] == if b[k] then '*' else '.'
    ensures forall i :: 0 <= i < |lines| - 1 ==> |lines[i]| == width
    ensures lines != [] ==> 0 < |lines[|lines| - 1]| <= width
  {
    var p := new Printer(width);
    var cur := FindNextBit(b, 0);
    var rbot := cur;
    PutRun(p, b, 0, cur, false);
    while cur < |b|
      invariant 0 <= rbot <= cur <= |b| && (cur == |b| ==> rbot == cur)
      invariant forall k :: rbot <= k <= cur && k < |b| ==> b[k]
      invariant p.Valid() && p.Text() == Render(b[..rbot])
      decreases |b| - cur
    {
      var rtop := cur;
      cur := FindNextBit(b, cur + 1);
      if cur < |b| && cur <= rtop + 1 {
        continue;
      }
      PutRun(p, b, rbot, rtop + 1, true);
      PutRun(p, b, rtop + 1, cur, false);
      rbot := cur;
    }
    assert b[..rbot] == b;
    p.Flush();
    lines := p.lines;
  }
}
