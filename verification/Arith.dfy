// The arithmetic of the kernel's alignment macros and of fixed-width fields.
//
// The masks of the source are powers of two minus one: `x & mask` is the
// remainder modulo mask + 1. `Rem` is that remainder, defined by repeated
// subtraction so that every fact about it is a linear induction.
module Arith {

  const U32_MODULUS: int := 0x1_0000_0000
  const U64_MODULUS: int := 0x1_0000_0000_0000_0000

  // An unsigned 32-bit store or subtraction.
  function U32(x: int): nat {
    x % U32_MODULUS
  }

  function Rem(x: nat, d: nat): (r: nat)
    requires d > 0
    ensures r < d && r <= x
  {
    if x < d then x else Rem(x - d, d)
  }

  // The bytes from x to the next multiple of d: (d - x) & (d - 1).
  function Distance(x: nat, d: nat): (r: nat)
    requires d > 0
    ensures r < d
  {
    if Rem(x, d) == 0 then 0 else d - Rem(x, d)
  }

  // ALIGN(x, granule).
  function AlignUp(x: nat, granule: nat): nat
    requires granule > 0
  {
    x + Distance(x, granule)
  }

  function Pow2(k: nat): (p: nat)
    ensures p > 0
  {
    if k == 0 then 1 else 2 * Pow2(k - 1)
  }

  ghost predicate PowerOfTwo(n: nat) {
    exists k: nat :: n == Pow2(k)
  }

  // Rem is the remainder of the language's own division.
  lemma {:induction false} RemIsModulo(x: nat, d: nat)
    requires d > 0
    ensures Rem(x, d) == x % d
    decreases x
  {
    if x >= d {
      RemIsModulo(x - d, d);
      var q := (x - d) / d;
      assert x - d == q * d + (x - d) % d;
      assert x == (q + 1) * d + (x - d) % d;
      QuotientUnique(x, d, q + 1, (x - d) % d);
    } else {
      QuotientUnique(x, d, 0, x);
    }
  }

  // The quotient and remainder of a division are determined by the equation.
  lemma {:induction false} QuotientUnique(x: int, d: int, q: int, r: int)
    requires d > 0 && 0 <= r < d && x == q * d + r
    ensures x / d == q && x % d == r
  {
    var k := x / d - q;
    assert x == (x / d) * d + x % d;
    assert k * d == r - x % d;
    ProductSign(k, d);
  }

  lemma {:induction false} ProductSign(k: int, d: int)
    requires d > 0
    ensures k >= 1 ==> k * d >= d
    ensures k <= -1 ==> k * d <= -d
  {
  }

  lemma {:induction false} RemAdd(a: nat, c: nat, d: nat)
    requires d > 0
    ensures Rem(a, d) + c < d ==> Rem(a + c, d) == Rem(a, d) + c
    ensures Rem(a, d) + c == d ==> Rem(a + c, d) == 0
    decreases a
  {
    if a >= d {
      RemAdd(a - d, c, d);
    }
  }

  // Adding a multiple of d does not change the remainder.
  lemma {:induction false} RemShift(a: nat, m: nat, d: nat)
    requires d > 0 && Rem(m, d) == 0
    ensures Rem(a + m, d) == Rem(a, d)
    decreases m
  {
    if m >= d {
      RemShift(a, m - d, d);
    }
  }

  // The space up to the next multiple reaches a multiple.
  lemma {:induction false} AlignUpIsMultiple(x: nat, d: nat)
    requires d > 0
    ensures Rem(AlignUp(x, d), d) == 0
  {
    RemAdd(x, Distance(x, d), d);
  }

  lemma {:induction false} AlignUpShift(a: nat, x: nat, d: nat)
    requires d > 0 && Rem(a, d) == 0
    ensures AlignUp(a + x, d) == a + AlignUp(x, d)
  {
    RemShift(x, a, d);
  }

  lemma {:induction false} DividesTransitive(x: nat, g: nat, b: nat)
    requires g > 0 && b > 0 && Rem(x, g) == 0 && Rem(g, b) == 0
    ensures Rem(x, b) == 0
    decreases x
  {
    if x >= g {
      DividesTransitive(x - g, g, b);
      RemShift(x - g, g, b);
    }
  }

  // Of two powers of two, the smaller divides the larger.
  lemma {:induction false} PowersDivide(a: nat, b: nat)
    requires PowerOfTwo(a) && PowerOfTwo(b) && a <= b
    ensures a > 0 && Rem(b, a) == 0
  {
    var i: nat :| a == Pow2(i);
    var j: nat :| b == Pow2(j);
    if j < i {
      PowMonotone(j, i);
    }
    PowDivides(i, j);
  }

  lemma {:induction false} PowMonotone(j: nat, i: nat)
    requires j < i
    ensures Pow2(j) < Pow2(i)
  {
    if j + 1 < i {
      PowMonotone(j, i - 1);
    }
  }

  lemma {:induction false} PowDivides(i: nat, j: nat)
    requires i <= j
    ensures Rem(Pow2(j), Pow2(i)) == 0
    decreases j
  {
    if i < j {
      PowDivides(i, j - 1);
      RemShift(Pow2(j - 1), Pow2(j - 1), Pow2(i));
    }
  }

  // A remainder of a multiple of g modulo a multiple of g is a multiple of g.
  lemma {:induction false} RemOfMultiple(x: nat, b: nat, g: nat)
    requires g > 0 && b > 0 && Rem(b, g) == 0 && Rem(x, g) == 0
    ensures Rem(Rem(x, b), g) == 0
    decreases x
  {
    if x >= b {
      RemShift(x - b, b, g);
      RemOfMultiple(x - b, b, g);
    }
  }

  // The distance from a multiple of g to a boundary is whole granules.
  lemma {:induction false} DistanceAligned(x: nat, b: nat, g: nat)
    requires PowerOfTwo(b) && PowerOfTwo(g) && b > 0 && g > 0 && Rem(x, g) == 0
    ensures Rem(Distance(x, b), g) == 0
  {
    if g <= b {
      PowersDivide(g, b);
      RemOfMultiple(x, b, g);
      RemShift(b - Rem(x, b), Rem(x, b), g);
    } else {
      PowersDivide(b, g);
      DividesTransitive(x, g, b);
    }
  }

  // Two multiples of g >= 2 never differ by one.
  lemma {:induction false} MultiplesApart(p: nat, s: nat, g: nat)
    requires g >= 2 && Rem(p, g) == 0 && Rem(s, g) == 0
    ensures p + 1 != s
  {
    RemAdd(p, 1, g);
  }

  // The macros in the language's own arithmetic: the offset in a granule, the
  // bytes to the next boundary, and the length rounded up to whole granules.
  lemma {:induction false} MacrosAreModular(x: nat, d: nat)
    requires d > 0
    ensures Rem(x, d) == x % d
    ensures Distance(x, d) < d && (x + Distance(x, d)) % d == 0
    ensures AlignUp(x, d) % d == 0 && x <= AlignUp(x, d) < x + d
  {
    RemIsModulo(x, d);
    AlignUpIsMultiple(x, d);
    RemIsModulo(AlignUp(x, d), d);
  }

  // Between a multiple of g and the boundary above it lies at least one g.
  lemma {:induction false} GranuleBelowBoundary(p: nat, b: nat, g: nat)
    requires PowerOfTwo(b) && PowerOfTwo(g) && 0 < g <= b && Rem(p, g) == 0
    ensures Rem(p, b) + g <= b
  {
    DistanceAligned(p, b, g);
    if Rem(p, b) == 0 {
      PowersDivide(g, b);
    }
  }

  // Different multiples of g are at least g apart.
  lemma {:induction false} MultiplesGap(u: nat, v: nat, g: nat)
    requires g > 0 && Rem(u, g) == 0 && Rem(v, g) == 0 && u < v
    ensures u + g <= v && Rem(v - u, g) == 0
  {
    RemShift(v - u, u, g);
  }

  // Rounding up stays below any multiple.
  lemma {:induction false} AlignUpLeast(x: nat, b: nat, g: nat)
    requires g > 0 && Rem(b, g) == 0 && x <= b
    ensures AlignUp(x, g) <= b
  {
    hide Rem;
    AlignUpIsMultiple(x, g);
    if b < AlignUp(x, g) {
      MultiplesGap(b, AlignUp(x, g), g);
    }
  }

  // The lowest whole-granule address a > 0 such that `used` bytes from a + x on,
  // more than a granule, go past the next boundary.
  function FirstAcross(x: nat, used: nat, g: nat, b: nat): int
    requires 0 < g <= b
  {
    var first := Rem(g + x, b);
    if first + used > b then g else g + (b - AlignUp(used, g) + g) - first
  }

  // What both lemmas below rest on: all the quantities are whole granules.
  lemma {:induction false} FirstAcrossParts(x: nat, used: nat, g: nat, b: nat)
    requires PowerOfTwo(b) && PowerOfTwo(g) && 0 < g <= b && Rem(x, g) == 0 && used > g
    requires Rem(g + x, b) + used <= b
    ensures var first, last := Rem(g + x, b), b - AlignUp(used, g) + g;
            && Rem(first, g) == 0 && first < last && last + g <= b && Rem(last, g) == 0
            && last - g + used <= b < last + used
  {
    hide Rem, PowerOfTwo;
    var first := Rem(g + x, b);
    PowersDivide(g, b);
    Unit(g);
    RemShift(g, x, g);
    RemOfMultiple(g + x, b, g);
    AlignUpLeast(first + used, b, g);
    RemShift(used, first, g);
    AlignUpIsMultiple(used, g);
    MultiplesGap(g, AlignUp(used, g), g);
    if AlignUp(used, g) < b {
      MultiplesGap(AlignUp(used, g), b, g);
      RemShift(b - AlignUp(used, g), g, g);
    }
  }

  lemma {:induction false} Unit(g: nat)
    requires g > 0
    ensures Rem(g, g) == 0 && Rem(0, g) == 0
  {
  }

  // No lower address does it ...
  lemma {:induction false} NotBefore(x: nat, used: nat, g: nat, b: nat, a: nat)
    requires PowerOfTwo(b) && PowerOfTwo(g) && 0 < g <= b && Rem(x, g) == 0 && used > g
    requires a > 0 && Rem(a, g) == 0 && a < FirstAcross(x, used, g, b)
    ensures Rem(a + x, b) + used <= b
  {
    hide Rem, PowerOfTwo, AlignUp;
    var first, last := Rem(g + x, b), b - AlignUp(used, g) + g;
    Unit(g);
    MultiplesGap(0, a, g);
    if first + used <= b {
      FirstAcrossParts(x, used, g, b);
      RemAdd(g + x, a - g, b);
      PowersDivide(g, b);
      RemShift(a, x, g);
      RemOfMultiple(a + x, b, g);
      MultiplesGap(Rem(a + x, b), last, g);
    }
  }

  // ... and this one does.
  lemma {:induction false} AtFirst(x: nat, used: nat, g: nat, b: nat)
    requires PowerOfTwo(b) && PowerOfTwo(g) && 0 < g <= b && Rem(x, g) == 0 && used > g
    ensures var a := FirstAcross(x, used, g, b);
            0 < a <= b && Rem(a, g) == 0 && Rem(a + x, b) + used > b
  {
    hide Rem, PowerOfTwo, AlignUp;
    var first, last := Rem(g + x, b), b - AlignUp(used, g) + g;
    Unit(g);
    if first + used <= b {
      FirstAcrossParts(x, used, g, b);
      MultiplesGap(first, last, g);
      RemShift(last - first, g, g);
      RemAdd(g + x, last - first, b);
    }
  }
}
