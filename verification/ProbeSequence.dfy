/**
 The order in which the hash table (kernel/hash.c) probes its slots, and why it reaches every
 slot: once the perturbation has been shifted away, the index follows x := 5 * x + 1, which
 has full period modulo a power of two.
 */
module ProbeSequence {
  import opened Powers

  // ---------- the unperturbed walk ----------

  // n turns of x := 5 * x + 1.
  ghost function Walk(x: int, n: nat): int {
    if n == 0 then x else 5 * Walk(x, n - 1) + 1
  }

  lemma {:induction false} WalkAdd(x: int, m: nat, n: nat)
    ensures Walk(x, m + n) == Walk(Walk(x, m), n)
  {
    if n > 0 {
      WalkAdd(x, m, n - 1);
      assert m + n - 1 == m + (n - 1);
    }
  }

  lemma {:induction false} WalkClosed(x: int, n: nat)
    ensures Walk(x, n) == x + Walk(0, n) * (4 * x + 1)
  {
    if n > 0 {
      WalkClosed(x, n - 1);
      Expand5(Walk(0, n - 1), x);
    }
  }

  lemma Expand5(g: int, x: int)
    ensures 5 * (x + g * (4 * x + 1)) + 1 == x + (5 * g + 1) * (4 * x + 1)
  {
  }

  // Walk(0, 2^k) is 2^k times an odd number.
  lemma {:induction false} WalkFromZero(k: nat) returns (o: int)
    ensures Walk(0, Pow2(k)) == Pow2(k) * (2 * o + 1)
  {
    if k == 0 {
      assert Walk(0, 1) == 5 * Walk(0, 0) + 1;
      o := 0;
    } else {
      var o' := WalkFromZero(k - 1);
      var p := Pow2(k - 1);
      var g := Walk(0, p);
      WalkAdd(0, p, p);
      WalkClosed(g, p);
      assert Pow2(k) == p + p;
      o := DoubleOdd(p, g, o');
    }
  }

  lemma DoubleOdd(p: int, g: int, o: int) returns (o2: int)
    requires g == p * (2 * o + 1)
    ensures g + g * (4 * g + 1) == 2 * p * (2 * o2 + 1)
  {
    o2 := o + g * (2 * o + 1);
    var d := 2 * o + 1;
    assert g + g * (4 * g + 1) == 2 * g * (2 * g + 1);
    assert 2 * g * (2 * g + 1) == 2 * p * (d * (2 * g + 1)) by {
      assert g * (2 * g + 1) == p * d * (2 * g + 1);
      assert p * d * (2 * g + 1) == p * (d * (2 * g + 1));
    }
    assert d * (2 * g + 1) == 2 * o2 + 1;
  }

  // 2^k turns move x by 2^k modulo 2^(k+1).
  lemma WalkHalfTurn(x: int, k: nat) returns (u: int)
    ensures Walk(x, Pow2(k)) == x + Pow2(k) + 2 * Pow2(k) * u
  {
    var o := WalkFromZero(k);
    WalkClosed(x, Pow2(k));
    u := OddTimesOdd(Pow2(k), o, x);
  }

  lemma OddTimesOdd(p: int, o: int, x: int) returns (u: int)
    ensures p * (2 * o + 1) * (4 * x + 1) == p + 2 * p * u
  {
    u := o * (4 * x + 1) + 2 * x;
    assert (2 * o + 1) * (4 * x + 1) == 2 * u + 1;
    assert p * (2 * o + 1) * (4 * x + 1) == p * ((2 * o + 1) * (4 * x + 1));
  }

  // Full period: from any x, fewer than 2^k turns reach any residue y modulo 2^k.
  lemma {:induction false} WalkCovers(x: int, y: int, k: nat) returns (n: nat, t: int)
    ensures n < Pow2(k) && Walk(x, n) == y + Pow2(k) * t
  {
    if k == 0 {
      n, t := 0, x - y;
    } else {
      var p := Pow2(k - 1);
      var n', t' := WalkCovers(x, y, k - 1);
      if t' % 2 == 0 {
        n, t := n', t' / 2;
        Halve(p, t');
      } else {
        var u := WalkHalfTurn(Walk(x, n'), k - 1);
        WalkAdd(x, n', p);
        n, t := n' + p, (t' + 1) / 2 + u;
        TurnFurther(p, t', u);
      }
    }
  }

  lemma TurnFurther(p: int, t: int, u: int)
    requires t % 2 != 0
    ensures p * t + p + 2 * p * u == 2 * p * ((t + 1) / 2 + u)
  {
    Halve(p, t + 1);
  }

  lemma Halve(p: int, t: int)
    requires t % 2 == 0
    ensures p * t == 2 * p * (t / 2)
  {
    var h := t / 2;
    assert t == 2 * h;
  }

  // ---------- the perturbed walk of hash_lookup ----------

  // perturb after i turns: the hash shifted right by five bits each turn.
  function Perturb(hash: nat, i: nat): nat {
    if i == 0 then hash else Perturb(hash, i - 1) / 32
  }

  // index after i turns; the variable is an unsigned 32-bit word and is not masked itself.
  function Index(hash: nat, size: nat, i: nat): nat
    requires size > 0
  {
    if i == 0 then hash % size
    else (5 * Index(hash, size, i - 1) + Perturb(hash, i - 1) + 1) % WORD
  }

  // The slot looked at in turn i.
  function Probe(hash: nat, size: nat, i: nat): (slot: nat)
    requires size > 0
    ensures slot < size
  {
    Index(hash, size, i) % size
  }

  // One turn of the loop in hash_lookup.
  lemma ProbeStart(hash: nat, size: nat)
    requires size > 0
    ensures Index(hash, size, 0) == hash % size == Probe(hash, size, 0) && Perturb(hash, 0) == hash
  {
    assert (hash % size) % size == hash % size;
  }

  lemma ProbeStep(hash: nat, size: nat, i: nat)
    requires size > 0
    ensures Index(hash, size, i + 1) == (5 * Index(hash, size, i) + Perturb(hash, i) + 1) % WORD
    ensures Probe(hash, size, i + 1) == Index(hash, size, i + 1) % size
    ensures Perturb(hash, i + 1) == Perturb(hash, i) / 32
  {
  }

  lemma PerturbVanishes(hash: nat, i: nat)
    requires hash < WORD && i >= 7
    ensures Perturb(hash, i) == 0
  {
    if i == 7 {
      var p1, p2, p3 := Perturb(hash, 1), Perturb(hash, 2), Perturb(hash, 3);
      assert p1 == Perturb(hash, 0) / 32 && p1 < 0x800_0000;
      assert p2 == p1 / 32 && p2 < 0x40_0000;
      assert p3 == p2 / 32 && p3 < 0x2_0000;
      var p4, p5, p6 := Perturb(hash, 4), Perturb(hash, 5), Perturb(hash, 6);
      assert p4 == p3 / 32 && p4 < 0x1000;
      assert p5 == p4 / 32 && p5 < 0x80;
      assert p6 == p5 / 32 && p6 < 4;
    } else {
      PerturbVanishes(hash, i - 1);
    }
  }

  // From turn 7 on the index is the unperturbed walk, up to multiples of the word size.
  lemma {:induction false} IndexIsWalk(hash: nat, size: nat, n: nat) returns (c: int)
    requires hash < WORD && size > 0
    ensures Index(hash, size, 7 + n) == Walk(Index(hash, size, 7), n) + WORD * c
  {
    if n == 0 {
      c := 0;
    } else {
      var c' := IndexIsWalk(hash, size, n - 1);
      PerturbVanishes(hash, 7 + (n - 1));
      var e := 5 * Index(hash, size, 7 + (n - 1)) + 1;
      assert Index(hash, size, 7 + n) == e % WORD;
      c := 5 * c' - e / WORD;
    }
  }

  lemma {:induction false} WordIsMultiple(k: nat) returns (m: nat)
    requires k <= 32
    ensures WORD == Pow2(k) * m
    decreases 32 - k
  {
    if k == 32 {
      Pow2At32();
      m := 1;
    } else {
      var m' := WordIsMultiple(k + 1);
      m := 2 * m';
      assert Pow2(k + 1) == 2 * Pow2(k);
    }
  }

  lemma ResidueOf(p: nat, size: nat, t: int, x: int)
    requires p < size && x == p + size * t
    ensures x % size == p
  {
    var q := x / size;
    assert x == size * q + x % size;
    assert (q - t) * size == p - x % size;
    SmallMultiple(q - t, size);
  }

  lemma Regroup(size: int, m: int, c: int, t: int)
    ensures size * t + size * m * c == size * (t + m * c)
  {
  }

  // Every slot of a table with 2^k slots is probed within 7 + 2^k turns, whatever the hash.
  lemma EverySlotProbed(hash: nat, k: nat, p: nat) returns (i: nat)
    requires hash < WORD && k <= 32 && p < Pow2(k)
    ensures i < 7 + Pow2(k) && Probe(hash, Pow2(k), i) == p
  {
    hide Walk, Index, Perturb, Pow2;
    var size := Pow2(k);
    var n, t := WalkCovers(Index(hash, size, 7), p, k);
    var c := IndexIsWalk(hash, size, n);
    var m := WordIsMultiple(k);
    Regroup(size, m, c, t);
    ResidueOf(p, size, t + m * c, Index(hash, size, 7 + n));
    i := 7 + n;
  }
}
