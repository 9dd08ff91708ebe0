/**
 Alignments (mEMALIGn in shared/malloc.c): rounding an alignment to a power of two, and an address
 up to a multiple of it.
 */
module Alignments {
  import opened Powers
  import opened ChunkTags

  // The smallest of b, 2b, 4b, ... that is at least x.
  function DoubledTo(b: nat, x: nat): (a: nat)
    requires b > 0
    ensures a >= x && a >= b && (a == b || a < 2 * x)
    decreases x - b
  {
    if b >= x then b else DoubledTo(2 * b, x)
  }

  // The alignment that is used: a power of two.
  function Alignment(x: nat): nat {
    DoubledTo(MINSIZE, x)
  }

  // (x & (x - 1)) == 0
  predicate IsPow2(x: nat) {
    x == 1 || (x > 1 && x % 2 == 0 && IsPow2(x / 2))
  }

  lemma {:induction false} DoubledIsPow2(b: nat, x: nat)
    requires b > 0 && IsPow2(b)
    ensures IsPow2(DoubledTo(b, x))
    decreases x - b
  {
    if b < x {
      assert 2 * b / 2 == b;
      DoubledIsPow2(2 * b, x);
    }
  }

  // A power of two is its own alignment.
  lemma {:induction false} Pow2Kept(b: nat, x: nat)
    requires b > 0 && IsPow2(b) && IsPow2(x) && b <= x
    ensures DoubledTo(b, x) == x
    decreases x - b
  {
    if b < x {
      BetweenPowers(b, x);
      assert 2 * b / 2 == b;
      Pow2Kept(2 * b, x);
    }
  }

  lemma {:induction false} BetweenPowers(b: nat, x: nat)
    requires IsPow2(b) && IsPow2(x) && b < x
    ensures 2 * b <= x
  {
    if b > 1 {
      BetweenPowers(b / 2, x / 2);
    }
  }

  lemma {:induction false} AlignmentMultiple(b: nat, x: nat)
    requires b >= MINSIZE && b % ALIGN == 0
    ensures DoubledTo(b, x) >= MINSIZE && DoubledTo(b, x) % ALIGN == 0
    decreases x - b
  {
    if b < x {
      AlignmentMultiple(2 * b, x);
    }
  }

  method RoundAlignment(alignment: nat) returns (a: nat)
    requires 8 < alignment
    ensures a == Alignment(alignment)
  {
    a := if alignment < MINSIZE then MINSIZE else alignment;
    assert IsPow2(1) && IsPow2(2) && IsPow2(4) && IsPow2(8) && IsPow2(16);
    if IsPow2(a) {
      Pow2Kept(MINSIZE, a);
    } else {
      var b := MINSIZE;
      while b < a
        invariant b > 0 && DoubledTo(b, a) == DoubledTo(MINSIZE, a)
        decreases a - b
      {
        b := 2 * b;
      }
      a := b;
    }
  }

  predicate Aligned(x: int, a: nat)
    requires a > 0
  {
    x % a == 0
  }

  // The first multiple of a at or above m.
  function RoundUp(m: nat, a: nat): int
    requires a > 0
  {
    (m + a - 1) / a * a
  }

  lemma RoundedUp(m: nat, a: nat)
    requires a > 0 && a % ALIGN == 0
    ensures m <= RoundUp(m, a) < m + a && RoundUp(m, a) % ALIGN == 0
    ensures Aligned(RoundUp(m, a), a) && Aligned(RoundUp(m, a) + a, a)
  {
    var q := (m + a - 1) / a;
    MultipleOf(q, a);
    MultipleOf(q + 1, a);
    assert q * a + a == (q + 1) * a;
    Eighths(q, a);
  }

  lemma MultipleOf(q: int, a: int)
    requires a > 0
    ensures q * a % a == 0
  {
    var r := q * a % a;
    var d := q * a / a;
    assert (q - d) * a == r;
    SmallMultiple(q - d, a);
  }

  lemma Eighths(q: nat, a: nat)
    requires a % 8 == 0
    ensures q * a % 8 == 0
  {
    var b := a / 8;
    assert q * a == q * b * 8;
    MultipleOf(q * b, 8);
  }

  // Either x or the next multiple leaves room for a minimal chunk in front.
  lemma LeadFits(x: nat, m: nat, a: nat)
    requires m % ALIGN == 0 && a >= MINSIZE && a % ALIGN == 0 && x % ALIGN == 0 && m <= x < m + a
    ensures x - m < MINSIZE ==> MINSIZE <= x + a - m < a + MINSIZE && (x + a) % ALIGN == 0
  {
    var k, j, b := x / 8, m / 8, a / 8;
    assert x == 8 * k && m == 8 * j && a == 8 * b;
  }

  // Where the aligned chunk starts, with room for a minimal chunk in front of it;
  // the memory of a chunk is eight bytes behind it.
  method AlignedSpot(m: nat, a: nat) returns (spot: int)
    requires m > 8 && m % ALIGN == 0 && a >= MINSIZE && a % ALIGN == 0
    ensures Aligned(spot + 8, a) && spot % ALIGN == 0 && MINSIZE <= spot - (m - 8) < a + MINSIZE
  {
    RoundedUp(m, a);
    LeadFits(RoundUp(m, a), m, a);
    hide *;
    spot := RoundUp(m, a) - 8;
    if spot - (m - 8) < MINSIZE {
      spot := spot + a;
      assert spot + 8 == RoundUp(m, a) + a;
    }
  }
}
