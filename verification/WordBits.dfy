/**
 Single bits and bit fields of a 32-bit word (kernel/page.c). A word is a natural number below
 2^32; a mask with one bit is a power of two.
 */
module WordBits {
  import opened Powers

  // x >> n, and the low n bits of x.
  function Quot(x: nat, n: nat): nat {
    DivNonnegative(x, Pow2(n));
    x / Pow2(n)
  }

  function Rem(x: nat, n: nat): nat {
    x % Pow2(n)
  }

  lemma DivNonnegative(x: nat, d: nat)
    requires d > 0
    ensures x / d >= 0
  {
  }

  // is_bit_n_true
  predicate IsBitTrue(n: int, x: nat) {
    0 <= n < 32 && Quot(x, n) % 2 == 1
  }

  // x with bit n set (|= mask) or cleared (& ~mask).
  function WithBit(n: nat, b: bool, x: nat): int {
    if x / Pow2(n) % 2 == (if b then 1 else 0) then x else if b then x + Pow2(n) else x - Pow2(n)
  }

  // set_bit_n: bit n becomes b and no other bit changes.
  method SetBit(n: int, b: bool, x: nat) returns (r: nat)
    requires x < WORD
    ensures r < WORD
    ensures 0 <= n < 32 ==>
      r == WithBit(n, b, x) &&
      forall m | 0 <= m < 32 :: IsBitTrue(m, r) <==> if m == n then b else IsBitTrue(m, x)
    ensures !(0 <= n < 32) ==> r == x
  {
    if n < 0 || n > 31 {
      return x;
    }
    WithBitIsWord(n, b, x);
    r := WithBit(n, b, x);
    hide WithBit, IsBitTrue;
    forall m | 0 <= m < 32
      ensures IsBitTrue(m, r) <==> if m == n then b else IsBitTrue(m, x)
    {
      WithBitAt(n, b, x, m);
    }
  }

  // The number that the `width` bits of x from position lo upwards form.
  function Field(x: nat, lo: nat, width: nat): nat {
    Rem(Quot(x, lo), width)
  }

  // get_n_bits: the field from bit lo up to bit hi.
  method GetNBits(hi: int, lo: int, x: nat) returns (num: int)
    ensures num == if 0 <= lo <= hi < 32 then Field(x, lo, hi - lo + 1) else 0
  {
    hide *;
    num := 0;
    if hi - lo < 0 || hi > 31 || lo < 0 {
      return 0;
    }
    var cpt := 0;
    NoField(x, lo);
    for i := lo to hi + 1
      invariant cpt == i - lo && num == Field(x, lo, cpt)
    {
      OneMoreBit(x, lo, cpt);
      if IsBitTrue(i, x) {
        num := num + Pow2(cpt);
      }
      cpt := cpt + 1;
    }
  }

  lemma NoField(x: nat, lo: nat)
    ensures Field(x, lo, 0) == 0
  {
  }

  // A field that is one bit wider.
  lemma OneMoreBit(x: nat, lo: nat, k: nat)
    requires lo + k < 32
    ensures Field(x, lo, k + 1) == Field(x, lo, k) + if IsBitTrue(lo + k, x) then Pow2(k) else 0
  {
    hide Quot, Rem, Pow2;
    BitOfQuotient(x, lo, k);
    AppendBit(Quot(x, lo), k);
  }

  lemma BitOfQuotient(x: nat, lo: nat, k: nat)
    ensures Quot(Quot(x, lo), k) == Quot(x, lo + k)
  {
    Pow2Add(lo, k);
    DivDiv(x, Pow2(lo), Pow2(k));
  }

  lemma AppendBit(y: nat, k: nat)
    ensures Rem(y, k + 1) == Rem(y, k) + if Quot(y, k) % 2 == 1 then Pow2(k) else 0
  {
    SplitMod(y, Pow2(k));
  }

  lemma {:induction false} Pow2Add(a: nat, b: nat)
    ensures Pow2(a + b) == Pow2(a) * Pow2(b)
  {
    if b > 0 {
      Pow2Add(a, b - 1);
      assert a + b - 1 == a + (b - 1);
      Regroup(Pow2(a), Pow2(b - 1));
    }
  }

  lemma Regroup(p: int, q: int)
    ensures 2 * (p * q) == p * (2 * q)
  {
  }

  lemma DivDiv(x: nat, a: nat, b: nat)
    requires a > 0 && b > 0
    ensures a * b > 0 && x / a / b == x / (a * b)
  {
    var q := x / a;
    var r, s := x % a, q % b;
    var e := q / b;
    Product(a, b);
    assert x == e * (a * b) + (s * a + r) by {
      Nest(x, a, b, e, s, r);
    }
    Below(s, a, b, r);
    DivisionUnique(x, a * b, e, s * a + r);
  }

  lemma Product(a: int, b: int)
    requires a > 0 && b > 0
    ensures a * b > 0
  {
  }

  lemma Nest(x: int, a: int, b: int, e: int, s: int, r: int)
    requires x == (e * b + s) * a + r
    ensures x == e * (a * b) + (s * a + r)
  {
  }

  lemma Below(s: int, a: int, b: int, r: int)
    requires 0 <= s < b && 0 <= r < a
    ensures 0 <= s * a + r < a * b
  {
    assert s * a <= (b - 1) * a;
    assert s * a >= 0;
  }

  // The remainder modulo 2d: one more bit.
  lemma SplitMod(y: nat, d: nat)
    requires d > 0
    ensures y % (2 * d) == y % d + if y / d % 2 == 1 then d else 0
  {
    var q := y / d;
    var h, b := q / 2, q % 2;
    assert y == h * (2 * d) + (b * d + y % d) by {
      Nest(y, d, 2, h, b, y % d);
    }
    DivisionUnique(y, 2 * d, h, b * d + y % d);
  }

  // ---------- changing one bit ----------

  // x in three parts: above bit n, bit n, below bit n.
  lemma Parts(n: nat, x: nat) returns (h: nat, b: nat, l: nat)
    ensures x == h * (2 * Pow2(n)) + (b * Pow2(n) + l) && b < 2 && l < Pow2(n) && b == x / Pow2(n) % 2
  {
    var d := Pow2(n);
    var q := x / d;
    h, b, l := q / 2, q % 2, x % d;
    Nest(x, d, 2, h, b, l);
  }

  lemma WithBitIsWord(n: nat, b: bool, x: nat)
    requires n < 32 && x < WORD
    ensures 0 <= WithBit(n, b, x) < WORD
  {
    var h, c, l := Parts(n, x);
    WordSplit(n);
    hide Pow2;
    Fits(h, c, Pow2(n), l, Pow2(31 - n));
  }

  lemma WordSplit(n: nat)
    requires n < 32
    ensures 2 * Pow2(n) * Pow2(31 - n) == WORD
  {
    Pow2At32();
    Pow2Add(n + 1, 31 - n);
  }

  // Both values of bit n fit below 2 * d * m if one does.
  lemma Fits(h: nat, c: nat, d: nat, l: nat, m: nat)
    requires c < 2 && l < d && h * (2 * d) + (c * d + l) < 2 * d * m
    ensures h * (2 * d) + (d + l) < 2 * d * m && h * (2 * d) + l >= 0
  {
    var e := 2 * d;
    FactorBelow(h, m, e);
    MulMonotone(h + 1, m, e);
    MulMonotone(0, h, e);
  }

  lemma FactorBelow(h: int, m: int, e: int)
    requires e > 0 && h * e < e * m
    ensures h < m
  {
    if h >= m {
      MulMonotone(m, h, e);
    }
  }

  lemma WithBitAt(n: nat, b: bool, x: nat, m: nat)
    requires n < 32 && m < 32 && WithBit(n, b, x) >= 0
    ensures IsBitTrue(m, WithBit(n, b, x)) <==> if m == n then b else IsBitTrue(m, x)
  {
    var r := WithBit(n, b, x);
    var h, c, l := Parts(n, x);
    var d := Pow2(n);
    var c' := if b then 1 else 0;
    assert r == h * (2 * d) + (c' * d + l);
    if m == n {
      HighPart(h, c', d, l);
    } else if m > n {
      SameAbove(h, c, c', n, l, m);
    } else {
      SameBelow(h, c, c', n, l, m);
    }
  }

  // The word above bit n stays.
  lemma WithBitAbove(n: nat, b: bool, x: nat, m: nat)
    requires n < m && WithBit(n, b, x) >= 0
    ensures Quot(WithBit(n, b, x), m) == Quot(x, m)
  {
    var h, c, l := Parts(n, x);
    var c' := if b then 1 else 0;
    SameAbove(h, c, c', n, l, m);
    assert WithBit(n, b, x) == h * (2 * Pow2(n)) + (c' * Pow2(n) + l);
  }

  lemma HighPart(h: nat, c: nat, d: nat, l: nat)
    requires c < 2 && l < d
    ensures (h * (2 * d) + (c * d + l)) / d % 2 == c
  {
    var x := h * (2 * d) + (c * d + l);
    assert x == (2 * h + c) * d + l;
    DivisionUnique(x, d, 2 * h + c, l);
  }

  // Bits above n only depend on the upper part.
  lemma SameAbove(h: nat, c: nat, c': nat, n: nat, l: nat, m: nat)
    requires c < 2 && c' < 2 && l < Pow2(n) && m > n
    ensures (h * (2 * Pow2(n)) + (c * Pow2(n) + l)) / Pow2(m) == (h * (2 * Pow2(n)) + (c' * Pow2(n) + l)) / Pow2(m)
  {
    UpperPart(h, c, n, l, m);
    UpperPart(h, c', n, l, m);
  }

  lemma UpperPart(h: nat, c: nat, n: nat, l: nat, m: nat)
    requires c < 2 && l < Pow2(n) && m > n
    ensures (h * (2 * Pow2(n)) + (c * Pow2(n) + l)) / Pow2(m) == h / Pow2(m - n - 1)
  {
    var x := h * (2 * Pow2(n)) + (c * Pow2(n) + l);
    Pow2Add(n + 1, m - n - 1);
    DivDiv(x, Pow2(n + 1), Pow2(m - n - 1));
    assert c * Pow2(n) + l < 2 * Pow2(n);
    DivisionUnique(x, Pow2(n + 1), h, c * Pow2(n) + l);
  }

  // Bits below n only depend on the lower part.
  lemma SameBelow(h: nat, c: nat, c': nat, n: nat, l: nat, m: nat)
    requires m < n
    ensures (h * (2 * Pow2(n)) + (c * Pow2(n) + l)) / Pow2(m) % 2 ==
      (h * (2 * Pow2(n)) + (c' * Pow2(n) + l)) / Pow2(m) % 2
  {
    LowerPart(h, c, n, l, m);
    LowerPart(h, c', n, l, m);
  }

  lemma LowerPart(h: nat, c: nat, n: nat, l: nat, m: nat)
    requires m < n
    ensures (h * (2 * Pow2(n)) + (c * Pow2(n) + l)) / Pow2(m) % 2 == l / Pow2(m) % 2
  {
    var e, g := Pow2(m), Pow2(n - m - 1);
    Pow2Add(m + 1, n - m - 1);
    assert Pow2(n) == 2 * e * g;
    var x := h * (2 * Pow2(n)) + (c * Pow2(n) + l);
    var k := (2 * h + c) * g;
    assert x == 2 * k * e + l by {
      Factor(h, c, e, g, l);
    }
    EvenPart(k, e, l);
  }

  lemma EvenPart(k: nat, e: nat, l: nat)
    requires e > 0
    ensures (2 * k * e + l) / e % 2 == l / e % 2
  {
    var q := l / e;
    assert 2 * k * e + l == (2 * k + q) * e + l % e;
    DivisionUnique(2 * k * e + l, e, 2 * k + q, l % e);
    EvenSum(k, q);
  }

  lemma EvenSum(k: int, q: int)
    ensures (2 * k + q) % 2 == q % 2
  {
  }

  lemma Factor(h: int, c: int, e: int, g: int, l: int)
    ensures h * (2 * (2 * e * g)) + (c * (2 * e * g) + l) == 2 * ((2 * h + c) * g) * e + l
  {
  }
}
