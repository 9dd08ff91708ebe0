/**
 The bin of a chunk size (shared/malloc.c): eight bytes wide up to 256, then four bins to each
 power of two.
 */
module BinIndex {
  import opened Powers

  const NBINS := 96
  const NSMALLBINS := 32
  const MIN_LARGE_SIZE := 256

  predicate Small(size: int) {
    size < MIN_LARGE_SIZE
  }

  // The position of the highest bit that is set (bsrl).
  function HighBit(x: nat): (m: nat)
    requires x > 0
    ensures Pow2(m) <= x < 2 * Pow2(m)
  {
    if x == 1 then 0 else 1 + HighBit(x / 2)
  }

  function LargeIndex(size: nat): (i: nat)
    requires !Small(size)
  {
    var x := size / 256;
    if x >= 0x10000 then NBINS - 1
    else
      var m := HighBit(x);
      NSMALLBINS + 4 * m + size / Pow2(m + 6) % 4
  }

  function IndexOf(size: nat): (i: nat) {
    if Small(size) then size / 8 else LargeIndex(size)
  }

  lemma {:induction false} HighBitMonotone(x: nat, y: nat)
    requires 0 < x <= y
    ensures HighBit(x) <= HighBit(y)
  {
    if HighBit(x) > HighBit(y) {
      Pow2Monotone(HighBit(y) + 1, HighBit(x));
    }
  }

  // The two bits behind the highest one.
  lemma Quarter(size: nat)
    requires !Small(size)
    ensures var m := HighBit(size / 256); 4 <= size / Pow2(m + 6) < 8
  {
    var m := HighBit(size / 256);
    var w := Pow2(m + 6);
    Shift(m);
    assert 4 * w == 256 * Pow2(m);
    assert 4 * w <= size < 8 * w;
    QuotientBounds(size, w, 4, 8);
  }

  lemma Shift(m: nat)
    ensures Pow2(m + 6) == 64 * Pow2(m)
  {
    assert Pow2(m + 6) == 2 * Pow2(m + 5);
    assert Pow2(m + 4) == 2 * Pow2(m + 3);
    assert Pow2(m + 2) == 2 * Pow2(m + 1);
  }

  lemma QuotientBounds(x: nat, w: nat, lo: nat, hi: nat)
    requires w > 0 && lo * w <= x < hi * w
    ensures lo <= x / w < hi
  {
    var q := x / w;
    assert q * w <= x < (q + 1) * w;
    if q < lo {
      MulMonotone(q + 1, lo, w);
    }
    if q >= hi {
      MulMonotone(hi, q, w);
    }
  }

  lemma DivMonotone(x: nat, y: nat, w: nat)
    requires w > 0 && x <= y
    ensures x / w <= y / w
  {
    if x / w > y / w {
      MulMonotone(y / w + 1, x / w, w);
    }
  }

  lemma LargeIndexRange(size: nat)
    requires !Small(size)
    ensures NSMALLBINS <= LargeIndex(size) < NBINS
    ensures size / 256 < 0x10000 ==>
      var m := HighBit(size / 256); LargeIndex(size) == NSMALLBINS + 4 * m + size / Pow2(m + 6) - 4
  {
    if size / 256 < 0x10000 {
      Quarter(size);
      var m := HighBit(size / 256);
      var q := size / Pow2(m + 6);
      assert q % 4 == q - 4;
      HighBitBelow16(size / 256);
    }
  }

  lemma HighBitBelow16(x: nat)
    requires 0 < x < 0x10000
    ensures HighBit(x) < 16
  {
    if HighBit(x) >= 16 {
      assert Pow2(16) == 0x10000 by {
        assert Pow2(8) == 256;
      }
      Pow2Monotone(16, HighBit(x));
    }
  }

  // Larger chunks never have a smaller bin index.
  lemma Monotone(a: nat, b: nat)
    requires a <= b
    ensures IndexOf(a) <= IndexOf(b)
  {
    if !Small(b) {
      LargeIndexRange(b);
      if !Small(a) {
        LargeMonotone(a, b);
      }
    }
  }

  lemma LargeMonotone(a: nat, b: nat)
    requires a <= b && !Small(a)
    ensures LargeIndex(a) <= LargeIndex(b)
  {
    LargeIndexRange(a);
    LargeIndexRange(b);
    if b / 256 < 0x10000 {
      HighBitMonotone(a / 256, b / 256);
      Quarter(a);
      Quarter(b);
      if HighBit(a / 256) == HighBit(b / 256) {
        DivMonotone(a, b, Pow2(HighBit(a / 256) + 6));
      }
    }
  }

  // So every chunk of a bin above that of the request is large enough, and every chunk that is
  // large enough lies in the request's bin or above.
  lemma HigherBinFits(nb: nat, size: nat)
    ensures IndexOf(size) > IndexOf(nb) ==> size > nb
    ensures size >= nb ==> IndexOf(size) >= IndexOf(nb)
  {
    if size <= nb {
      Monotone(size, nb);
    } else {
      Monotone(nb, size);
    }
  }

  lemma IndexRange(size: nat)
    requires size >= 16
    ensures 2 <= IndexOf(size) < NBINS && (Small(size) <==> IndexOf(size) < NSMALLBINS)
  {
    if !Small(size) {
      LargeIndexRange(size);
    }
  }

  // A small bin holds chunks of one size.
  lemma SmallBinExact(a: nat, b: nat)
    requires a % 8 == 0 && b % 8 == 0 && Small(a) && IndexOf(b) == IndexOf(a)
    ensures a == b
  {
    if !Small(b) {
      LargeIndexRange(b);
    }
  }

  // The branch-free search for the highest bit used without bsrl.
  function BranchFreeHighBit(x0: bv32): bv32 {
    var n := ((x0 - 0x100) >> 16) & 8;
    var x := x0 << n;
    var m := ((x - 0x1000) >> 16) & 4;
    var n' := n + m;
    var x' := x << m;
    var m' := ((x' - 0x4000) >> 16) & 2;
    var n'' := n' + m';
    var y := (x' << m') >> 14;
    13 - n'' + (y & !(y >> 1))
  }

  // It finds the highest bit of every x that largebin_index gives it.
  lemma BranchFreeIsHighBit(x: bv32)
    requires 0 < x < 0x10000
    ensures BranchFreeHighBit(x) < 16 && x >> BranchFreeHighBit(x) == 1
  {
  }
}
