/**
 The kernel's 64-bit division (kernel/math.c, default variant): doubling the divisor
 until it would exceed the dividend, then subtracting the halved divisor back down.
 */
module Division {
  import opened Powers

  const WIDTH64 := 0x1_0000_0000_0000_0000

  // A 64-bit unsigned machine word. A sum that does not fit fails the type's constraint,
  // so the absence of overflow in Div64 is part of what is proved.
  newtype uint64 = x: int | 0 <= x < WIDTH64

  // The divisor after k doublings.
  function Doubled(d: nat, k: nat): (m: nat)
    ensures m == d * Pow2(k)
  {
    if k == 0 then d else 2 * Doubled(d, k - 1)
  }

  // Moving m * d from the rest to the quotient keeps the equation; the quotient stays a word.
  lemma StepQuotient(x0: nat, q: nat, k: nat, d: nat, x: nat)
    requires d > 0 && x0 == q * d + x && Doubled(d, k) <= x
    ensures x0 == (q + Pow2(k)) * d + (x - Doubled(d, k))
    ensures q + Pow2(k) <= x0
  {
    Distribute(q, Pow2(k), d);
    AtLeastFactor(q + Pow2(k), d);
  }

  lemma Distribute(a: int, b: int, d: int)
    ensures (a + b) * d == a * d + d * b
  {
  }

  lemma AtLeastFactor(a: nat, d: nat)
    requires d > 0
    ensures a * d >= a
  {
  }

  // div64: (0, x) when the divisor is zero or larger than x, else (x / d, x % d).
  method Div64(x0: uint64, d0: uint64) returns (q: uint64, rem: uint64)
    ensures d0 == 0 ==> q == 0 && rem == x0
    ensures d0 != 0 ==> q as int == x0 as int / d0 as int && rem as int == x0 as int % d0 as int
  {
    if d0 > x0 || d0 == 0 {
      if d0 != 0 {
        DivisionUnique(x0 as int, d0 as int, 0, x0 as int);
      }
      return 0, x0;
    }
    var x, div, mul: uint64 := x0, d0, 1;
    ghost var k: nat := 0;
    while div / 0x1_0000_0000 < 0x8000_0000
      invariant mul as int == Pow2(k)
      invariant div as int == Doubled(d0 as int, k)
      invariant div <= x0 && mul <= div
      decreases x0 - div
    {
      var newd := div + div;
      if newd > x0 {
        break;
      }
      div := newd;
      mul := mul + mul;
      k := k + 1;
    }
    assert x0 as int < 2 * div as int;

    q := mul;
    x := x - div;
    while true
      invariant mul as int == Pow2(k)
      invariant div as int == Doubled(d0 as int, k)
      invariant x < div
      invariant x0 as int == q as int * d0 as int + x as int
      decreases k
    {
      mul := mul / 2;
      div := div / 2;
      if mul == 0 {
        DivisionUnique(x0 as int, d0 as int, q as int, x as int);
        return q, x;
      }
      k := k - 1;
      if x < div {
        continue;
      }
      StepQuotient(x0 as int, q as int, k, d0 as int, x as int);
      q := q + mul;
      x := x - div;
    }
  }
}
