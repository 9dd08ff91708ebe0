/**
 What malloc and free do to the boundary tags (shared/malloc.c): taking, splitting, merging and
 carving chunks, and growing top. Each keeps the heap tiled and every tag truthful, and changes
 the blocks handed out by exactly one block.
 */
module TagMoves {
  import opened ChunkTags

  // ---------- the moves ----------

  // A chunk is relabelled: linked, unlinked, popped from or pushed on a fastbin.
  ghost function Relabel(t: Tags, p: int, u: Use): Tags {
    t.(own := t.own[p := u])
  }

  // set_inuse_bit_at_offset(p, size): the whole chunk is handed out.
  ghost function Exhaust(t: Tags, p: int): Tags {
    var n := End(t, p);
    t.(head := t.head[n := Head(Size(t, n), true)], own := t.own[p := Live])
  }

  // The first nb bytes are handed out, the rest stays free.
  ghost function Split(t: Tags, p: int, nb: int): Tags {
    var q, m := p + nb, Size(t, p) - nb;
    t.(head := t.head[p := Head(nb, true)][q := Head(m, true)],
       foot := t.foot[q + m := m],
       own := t.own[p := Live][q := Loose])
  }

  // The first nb bytes of top are handed out.
  ghost function SplitTop(t: Tags, nb: int): Tags {
    var q, m := t.top + nb, Size(t, t.top) - nb;
    t.(head := t.head[t.top := Head(nb, true)][q := Head(m, true)],
       own := t.own[t.top := Live][q := Top],
       top := q)
  }

  // More memory behind top.
  ghost function Extend(t: Tags, n: int): Tags {
    t.(head := t.head[t.top := Head(Size(t, t.top) + n, true)], brk := t.brk + n)
  }

  // The first memory: one top chunk.
  ghost function Found(t: Tags, n: int): Tags {
    t.(head := t.head[t.base := Head(n, true)], own := map[t.base := Top], top := t.base, brk := t.base + n)
  }

  // The chunks that do not start from s to below e.
  ghost function Outer(own: map<int, Use>, s: int, e: int): map<int, Use> {
    map q | q in own && !(s <= q < e) :: own[q]
  }

  // The chunks from s to below e become one free chunk; x is the chunk behind the one freed.
  ghost function Merge(t: Tags, s: int, x: int, e: int): Tags {
    t.(head := t.head[x := Head(Size(t, x), false)][e := Head(Size(t, e), false)][s := Head(e - s, true)],
       foot := t.foot[e := e - s],
       own := Outer(t.own, s, e)[s := Loose])
  }

  // The chunks from s on become top.
  ghost function MergeTop(t: Tags, s: int): Tags {
    t.(head := t.head[s := Head(t.brk - s, true)],
       own := Outer(t.own, s, t.brk)[s := Top],
       top := s)
  }

  // A block in use is cut in two.
  ghost function Carve(t: Tags, p: int, n: int): Tags {
    t.(head := t.head[p + n := Head(Size(t, p) - n, true)][p := Head(n, Pinuse(t, p))],
       own := t.own[p + n := Live])
  }

  // ---------- relabelling ----------

  lemma RelabelTiled(t: Tags, p: int, u: Use)
    requires Tiled(t) && p in t.own && p != t.top && u != Top && (Free(u) <==> IsFree(t, p))
    ensures Tiled(Relabel(t, p, u))
  {
    assert Placed(t, p);
    SameKindTiled(t, Relabel(t, p, u));
  }

  // The tags do not tell one kind of free chunk, or of chunk in use, from another.
  lemma SameKindTiled(t: Tags, u: Tags)
    requires Tiled(t) && u == t.(own := u.own) && u.own.Keys == t.own.Keys
    requires forall p | p in t.own :: (IsFree(u, p) <==> IsFree(t, p)) && (u.own[p] == Top <==> t.own[p] == Top)
    ensures Tiled(u)
  {
    SameSizes(t, u);
    forall a | a in u.own
      ensures Honest(u, a)
    {
      assert Honest(t, a);
    }
  }

  // Only the sizes matter for the tiling.
  lemma SameSizes(t: Tags, u: Tags)
    requires Tiles(t) && u.own.Keys == t.own.Keys && u.top == t.top && u.base == t.base && u.brk == t.brk
    requires forall p | p in t.own :: Size(u, p) == Size(t, p) && (u.own[p] == Top <==> t.own[p] == Top)
    ensures Tiles(u)
  {
    forall a | a in u.own
      ensures Placed(u, a)
    {
      assert Placed(t, a);
    }
    forall a, b | a in u.own && b in u.own
      ensures Apart(u, a, b)
    {
      assert Apart(t, a, b);
    }
  }

  lemma RelabelBlocks(t: Tags, p: int, u: Use)
    requires p in t.own
    ensures Blocks(Relabel(t, p, u)) == if u.Live? then Blocks(t)[p := Size(t, p)] else Blocks(t) - {p}
    ensures Loosened(Relabel(t, p, u)) == if u.Loose? then Loosened(t) + {p} else Loosened(t) - {p}
    ensures SpilledOnes(Relabel(t, p, u)) == if u.Spilled? then SpilledOnes(t) + {p} else SpilledOnes(t) - {p}
  {
  }

  // A free chunk is no block.
  lemma NoBlock(t: Tags, p: int)
    requires IsFree(t, p)
    ensures p !in SpilledOnes(t) && p !in Blocks(t)
    ensures SpilledOnes(t) - {p} == SpilledOnes(t) && Blocks(t) - {p} == Blocks(t)
  {
  }

  // ---------- exhausting ----------

  lemma ExhaustTiled(t: Tags, p: int)
    requires Tiled(t) && Is(t, p, Loose)
    ensures Tiled(Exhaust(t, p))
  {
    FreeAlone(t, p);
    var u := Exhaust(t, p);
    SameSizes(t, u);
    forall a | a in u.own
      ensures Honest(u, a)
    {
      assert Honest(t, a);
      EndsApart(t, a, p);
    }
  }

  // Different chunks end at different addresses.
  lemma EndsApart(t: Tags, a: int, p: int)
    requires Tiles(t) && a in t.own && p in t.own
    ensures a != p ==> End(t, a) != End(t, p)
    ensures p != a && p != End(t, a) && a < p ==> End(t, a) < p
    ensures a < End(t, a)
  {
    assert Placed(t, a) && Placed(t, p) && Apart(t, a, p) && Apart(t, p, a);
  }

  lemma ExhaustFrame(t: Tags, p: int)
    requires Tiled(t) && Is(t, p, Loose)
    ensures SameFiled(t, Exhaust(t, p)) && Blocks(Exhaust(t, p)) == Blocks(t)[p := Size(t, p)]
    ensures Loosened(Exhaust(t, p)) == Loosened(t) - {p} && SpilledOnes(Exhaust(t, p)) == SpilledOnes(t)
  {
  }

  // ---------- splitting ----------

  ghost predicate Splittable(t: Tags, p: int, nb: int) {
    p in t.own && nb >= MINSIZE && nb % ALIGN == 0 && Size(t, p) >= nb + MINSIZE
  }

  // u is t with chunk p cut in two behind nb bytes.
  ghost predicate IsCut(t: Tags, u: Tags, p: int, nb: int) {
    && Splittable(t, p, nb)
    && u.own.Keys == t.own.Keys + {p + nb} && u.base == t.base && u.brk == t.brk
    && u.top == (if p == t.top then p + nb else t.top)
    && (forall q | q in u.own :: u.own[q] == Top <==> q == u.top)
    && Size(u, p) == nb && Size(u, p + nb) == Size(t, p) - nb
    && (forall q | q in t.own && q != p :: Size(u, q) == Size(t, q))
  }

  // Cutting a chunk in two keeps the tiling.
  lemma CutTiles(t: Tags, u: Tags, p: int, nb: int)
    requires Tiles(t) && IsCut(t, u, p, nb)
    ensures Tiles(u)
  {
    NoChunkInside(t, p, p + nb);
    forall a | a in u.own
      ensures Placed(u, a)
    {
      CutPlaced(t, u, p, nb, a);
    }
    forall a, b | a in u.own && b in u.own
      ensures Apart(u, a, b)
    {
      CutApart(t, u, p, nb, a, b);
    }
  }

  lemma CutPlaced(t: Tags, u: Tags, p: int, nb: int, a: int)
    requires Tiles(t) && IsCut(t, u, p, nb) && p + nb !in t.own && a in u.own
    ensures Placed(u, a)
  {
    assert Placed(t, p) && (a in t.own ==> Placed(t, a));
  }

  lemma CutApart(t: Tags, u: Tags, p: int, nb: int, a: int, b: int)
    requires Tiles(t) && IsCut(t, u, p, nb) && p + nb !in t.own && a in u.own && b in u.own
    ensures Apart(u, a, b)
  {
    assert Placed(t, p);
    assert a in t.own ==> Apart(t, a, p) && Apart(t, p, a);
    assert b in t.own ==> Apart(t, p, b);
    assert a in t.own && b in t.own ==> Apart(t, a, b);
  }

  lemma NoChunkInside(t: Tags, p: int, q: int)
    requires Tiles(t) && p in t.own && p < q < End(t, p)
    ensures q !in t.own
  {
    assert q in t.own ==> Apart(t, p, q);
  }

  lemma SplitTiled(t: Tags, p: int, nb: int)
    requires Tiled(t) && Is(t, p, Loose) && Splittable(t, p, nb)
    ensures Tiled(Split(t, p, nb))
  {
    FreeAlone(t, p);
    NoChunkInside(t, p, p + nb);
    var u := Split(t, p, nb);
    assert u.own.Keys == t.own.Keys + {p + nb};
    forall q | q in u.own
      ensures u.own[q] == Top <==> q == u.top
    {
      assert q in t.own ==> Placed(t, q);
    }
    CutTiles(t, u, p, nb);
    forall a | a in u.own
      ensures Honest(u, a)
    {
      if a in t.own {
        assert Honest(t, a);
        EndsApart(t, a, p);
        assert Placed(t, a);
      }
    }
  }

  lemma SplitFrame(t: Tags, p: int, nb: int)
    requires Tiles(t) && Is(t, p, Loose) && Splittable(t, p, nb)
    ensures SameFiled(t, Split(t, p, nb)) && Blocks(Split(t, p, nb)) == Blocks(t)[p := nb]
    ensures Loosened(Split(t, p, nb)) == Loosened(t) - {p} + {p + nb} && SpilledOnes(Split(t, p, nb)) == SpilledOnes(t)
  {
    NoChunkInside(t, p, p + nb);
  }

  lemma SplitTopTiled(t: Tags, nb: int)
    requires Tiled(t) && Splittable(t, t.top, nb)
    ensures Tiled(SplitTop(t, nb))
  {
    NoChunkInside(t, t.top, t.top + nb);
    var u := SplitTop(t, nb);
    assert u.own.Keys == t.own.Keys + {t.top + nb};
    forall q | q in u.own
      ensures u.own[q] == Top <==> q == u.top
    {
      assert q in t.own ==> Placed(t, q);
    }
    CutTiles(t, u, t.top, nb);
    forall a | a in u.own
      ensures Honest(u, a)
    {
      if a in t.own {
        assert Honest(t, a);
        InsideHeap(t, a);
      }
    }
  }

  lemma SplitTopFrame(t: Tags, nb: int)
    requires Tiles(t) && Splittable(t, t.top, nb)
    ensures SameFiled(t, SplitTop(t, nb)) && Blocks(SplitTop(t, nb)) == Blocks(t)[t.top := nb]
    ensures Loosened(SplitTop(t, nb)) == Loosened(t) && SpilledOnes(SplitTop(t, nb)) == SpilledOnes(t)
  {
    NoChunkInside(t, t.top, t.top + nb);
    assert Placed(t, t.top);
  }

  lemma CarveTiled(t: Tags, p: int, n: int)
    requires Tiled(t) && Is(t, p, Live) && Splittable(t, p, n)
    ensures Tiled(Carve(t, p, n))
  {
    NoChunkInside(t, p, p + n);
    var u := Carve(t, p, n);
    assert u.own.Keys == t.own.Keys + {p + n};
    forall q | q in u.own
      ensures u.own[q] == Top <==> q == u.top
    {
      assert q in t.own ==> Placed(t, q);
      assert Placed(t, p);
    }
    CutTiles(t, u, p, n);
    forall a | a in u.own
      ensures Honest(u, a)
    {
      assert Honest(t, p);
      if a in t.own {
        assert Honest(t, a);
        EndsApart(t, a, p);
        assert Placed(t, a);
      }
    }
  }

  lemma CarveFrame(t: Tags, p: int, n: int)
    requires Tiles(t) && Is(t, p, Live) && Splittable(t, p, n)
    ensures SameFiled(t, Carve(t, p, n))
    ensures Blocks(Carve(t, p, n)) == Blocks(t)[p := n][p + n := Size(t, p) - n]
    ensures Loosened(Carve(t, p, n)) == Loosened(t) && SpilledOnes(Carve(t, p, n)) == SpilledOnes(t)
  {
    NoChunkInside(t, p, p + n);
  }

  // ---------- growing ----------

  lemma ExtendTiled(t: Tags, n: int)
    requires Tiled(t) && n >= 0 && n % ALIGN == 0
    ensures Tiled(Extend(t, n))
    ensures SameFiled(t, Extend(t, n)) && Blocks(Extend(t, n)) == Blocks(t)
  {
    var u := Extend(t, n);
    assert Placed(t, t.top);
    forall a | a in u.own
      ensures Placed(u, a) && Honest(u, a)
    {
      assert Placed(t, a) && Honest(t, a);
    }
    forall a, b | a in u.own && b in u.own
      ensures Apart(u, a, b)
    {
      InsideHeap(t, b);
      assert Apart(t, a, b);
    }
  }

  lemma FoundTiled(t: Tags, n: int)
    requires Bare(t) && n >= MINSIZE && n % ALIGN == 0
    ensures Tiled(Found(t, n))
    ensures SameFiled(t, Found(t, n)) && Blocks(Found(t, n)) == Blocks(t)
  {
    var u := Found(t, n);
    assert Placed(u, u.base) && Honest(u, u.base);
    assert forall a, b | a in u.own && b in u.own :: Apart(u, a, b);
  }

  // ---------- merging ----------

  // The chunks from s to below e may become one free chunk.
  ghost predicate Mergeable(t: Tags, s: int, x: int, e: int) {
    && s in t.own && x in t.own && e in t.own && s < x <= e && e != t.top
    && Pinuse(t, s) && !IsFree(t, e)
    && forall q | q in t.own && s <= q < e :: !Filed(t.own[q])
  }

  ghost predicate Boundary(t: Tags, e: int) {
    e == t.brk || e in t.own
  }

  // The range is at least one chunk long.
  lemma RangeSize(t: Tags, s: int, e: int)
    requires Tiles(t) && s in t.own && s < e && Boundary(t, e)
    ensures e - s >= MINSIZE && (e - s) % ALIGN == 0 && Placed(t, s)
  {
    assert Placed(t, s) && Placed(t, t.top);
    InsideHeap(t, s);
    if e in t.own {
      assert Apart(t, s, e) && Placed(t, e);
    } else {
      assert e == End(t, t.top);
    }
  }

  // A chunk outside the range lies before it or behind it.
  lemma Outside(t: Tags, s: int, e: int, q: int)
    requires Tiles(t) && s in t.own && s < e && Boundary(t, e) && q in t.own && !(s <= q < e)
    ensures if q < s then End(t, q) <= s else e <= q < t.brk
  {
    InsideHeap(t, q);
    assert Apart(t, q, s) && Placed(t, q);
  }

  // u is t with the chunks from s to below e joined.
  ghost predicate IsJoin(t: Tags, u: Tags, s: int, e: int) {
    && s in t.own && s < e && Boundary(t, e)
    && (forall q :: q in u.own <==> q == s || (q in t.own && !(s <= q < e)))
    && u.base == t.base && u.brk == t.brk && u.top == (if e == t.brk then s else t.top)
    && (forall q | q in u.own :: u.own[q] == Top <==> q == u.top)
    && Size(u, s) == e - s
    && (forall q | q in u.own && q != s :: Size(u, q) == Size(t, q))
  }

  // Joining neighbouring chunks keeps the tiling.
  lemma JoinTiles(t: Tags, u: Tags, s: int, e: int)
    requires Tiles(t) && IsJoin(t, u, s, e)
    ensures Tiles(u)
  {
    InsideHeap(t, t.base);
    InsideHeap(t, t.top);
    InsideHeap(t, s);
    if e in t.own {
      InsideHeap(t, e);
    }
    assert u.base in u.own && u.top in u.own;
    forall a | a in u.own
      ensures Placed(u, a)
    {
      JoinPlaced(t, u, s, e, a);
    }
    forall a, b | a in u.own && b in u.own
      ensures Apart(u, a, b)
    {
      JoinApart(t, u, s, e, a, b);
    }
  }

  lemma JoinPlaced(t: Tags, u: Tags, s: int, e: int, a: int)
    requires Tiles(t) && IsJoin(t, u, s, e) && a in u.own
    ensures Placed(u, a)
  {
    RangeSize(t, s, e);
    if e in t.own {
      InsideHeap(t, e);
    }
    if a != s {
      Outside(t, s, e, a);
      InsideHeap(t, a);
    }
  }

  lemma JoinApart(t: Tags, u: Tags, s: int, e: int, a: int, b: int)
    requires Tiles(t) && IsJoin(t, u, s, e) && a in u.own && b in u.own
    ensures Apart(u, a, b)
  {
    if a != s {
      Outside(t, s, e, a);
    }
    if b != s {
      Outside(t, s, e, b);
    }
    if a != s && b != s {
      assert Apart(t, a, b);
    }
  }

  lemma MergeTiled(t: Tags, s: int, x: int, e: int)
    requires Tiled(t) && Mergeable(t, s, x, e)
    ensures Tiled(Merge(t, s, x, e))
  {
    var u := Merge(t, s, x, e);
    InsideHeap(t, e);
    forall q | q in u.own
      ensures u.own[q] == Top <==> q == u.top
    {
      assert q in t.own ==> Placed(t, q);
      InsideHeap(t, s);
    }
    assert u.top in u.own by {
      InsideHeap(t, e);
    }
    JoinTiles(t, u, s, e);
    MergeTruthful(t, s, x, e);
  }

  lemma MergeTruthful(t: Tags, s: int, x: int, e: int)
    requires Tiled(t) && Mergeable(t, s, x, e) && Tiles(Merge(t, s, x, e)) && e < t.brk
    ensures Truthful(Merge(t, s, x, e))
  {
    var u := Merge(t, s, x, e);
    RangeSize(t, s, e);
    forall a | a in u.own
      ensures Honest(u, a)
    {
      if a != s {
        Outside(t, s, e, a);
        assert Honest(t, a) && Placed(t, a);
      }
    }
    InsideHeap(t, e);
    InsideHeap(t, t.base);
  }

  lemma MergeTopTiled(t: Tags, s: int)
    requires Tiled(t) && s in t.own && Pinuse(t, s)
    ensures Tiled(MergeTop(t, s))
  {
    var u := MergeTop(t, s);
    InsideHeap(t, s);
    forall q | q in t.own
      ensures q < t.brk && (t.own[q] == Top <==> q == t.top)
    {
      InsideHeap(t, q);
    }
    JoinTiles(t, u, s, t.brk);
    forall a | a in u.own
      ensures Honest(u, a)
    {
      if a != s {
        Outside(t, s, t.brk, a);
        assert Honest(t, a);
      }
    }
  }

  // Outside the range nothing is relabelled or resized.
  ghost predicate KeptOutside(t: Tags, u: Tags, s: int, e: int) {
    && s in u.own && (u.own[s].Loose? || u.own[s].Top?)
    && forall q | q != s ::
      (q in u.own <==> q in t.own && !(s <= q < e)) && (q in u.own ==> u.own[q] == t.own[q] && Size(u, q) == Size(t, q))
  }

  // In the range p is the only chunk in use, and no chunk is on a list.
  ghost predicate OnlyUsed(t: Tags, s: int, e: int, p: int) {
    s <= p < e && forall q | q in t.own && s <= q < e ::
      !Filed(t.own[q]) && (q != p ==> !t.own[q].Live? && !t.own[q].Spilled?)
  }

  // Merging takes the only block of the range back.
  lemma JoinBlocks(t: Tags, u: Tags, s: int, e: int, p: int)
    requires KeptOutside(t, u, s, e) && OnlyUsed(t, s, e, p)
    ensures Blocks(u) == Blocks(t) - {p}
  {
  }

  lemma JoinFiled(t: Tags, u: Tags, s: int, e: int, p: int)
    requires KeptOutside(t, u, s, e) && OnlyUsed(t, s, e, p)
    ensures SameFiled(t, u)
  {
  }

  lemma JoinUnfiled(t: Tags, u: Tags, s: int, e: int, p: int)
    requires KeptOutside(t, u, s, e) && OnlyUsed(t, s, e, p)
    ensures SpilledOnes(u) == SpilledOnes(t) - {p}
    ensures Loosened(u) == (set q | q in Loosened(t) && !(s <= q < e)) + if u.own[s].Loose? then {s} else {}
  {
    forall q
      ensures q in SpilledOnes(u) <==> q in SpilledOnes(t) && q != p
      ensures q != s ==> (q in Loosened(u) <==> q in Loosened(t) && !(s <= q < e))
    {
      assert q in u.own || q !in u.own;
      assert q in t.own || q !in t.own;
    }
  }

  lemma MergeFrame(t: Tags, s: int, x: int, e: int, p: int)
    requires Tiles(t) && Mergeable(t, s, x, e) && OnlyUsed(t, s, e, p)
    ensures SameFiled(t, Merge(t, s, x, e)) && Blocks(Merge(t, s, x, e)) == Blocks(t) - {p}
    ensures SpilledOnes(Merge(t, s, x, e)) == SpilledOnes(t) - {p}
    ensures Loosened(Merge(t, s, x, e)) == (set q | q in Loosened(t) && !(s <= q < e)) + {s}
  {
    hide *;
    var u := Merge(t, s, x, e);
    MergeKeeps(t, s, x, e);
    JoinBlocks(t, u, s, e, p);
    JoinFiled(t, u, s, e, p);
    JoinUnfiled(t, u, s, e, p);
  }

  lemma MergeKeeps(t: Tags, s: int, x: int, e: int)
    requires Tiles(t) && Mergeable(t, s, x, e)
    ensures KeptOutside(t, Merge(t, s, x, e), s, e) && Is(Merge(t, s, x, e), s, Loose)
  {
  }

  lemma MergeTopFrame(t: Tags, s: int, p: int)
    requires Tiles(t) && s in t.own && OnlyUsed(t, s, t.brk, p)
    ensures SameFiled(t, MergeTop(t, s)) && Blocks(MergeTop(t, s)) == Blocks(t) - {p}
    ensures SpilledOnes(MergeTop(t, s)) == SpilledOnes(t) - {p}
    ensures Loosened(MergeTop(t, s)) == set q | q in Loosened(t) && !(s <= q < t.brk)
  {
    var u := MergeTop(t, s);
    assert KeptOutside(t, u, s, t.brk) && Is(u, s, Top);
    hide *;
    JoinBlocks(t, u, s, t.brk, p);
    JoinFiled(t, u, s, t.brk, p);
    JoinUnfiled(t, u, s, t.brk, p);
  }

  // The chunks from s to below e are p and at most one on each side.
  lemma Neighbours(t: Tags, s: int, p: int, e: int)
    requires Tiles(t) && s in t.own && p in t.own && p != t.top
    requires s == p || End(t, s) == p
    requires e == End(t, p) || e == End(t, End(t, p))
    ensures s <= p < End(t, p) && End(t, p) in t.own && (e != End(t, p) ==> End(t, p) < e)
    ensures forall q | q in t.own && s <= q < e :: q == s || q == p || (q == End(t, p) && e != End(t, p))
  {
    var x := End(t, p);
    assert Placed(t, s) && Placed(t, p) && Placed(t, x);
    forall q | q in t.own && s <= q < e
      ensures q == s || q == p || (q == x && e != x)
    {
      assert Apart(t, s, q) && Apart(t, p, q) && Apart(t, x, q);
    }
  }

  // ---------- the owner of a block ----------

  // Whatever the owner writes into a block it holds, the memory from behind the size word up to
  // and including the prev_size word of the next chunk, the tags of the heap stay truthful.
  lemma PayloadKeepsTags(t: Tags, u: Tags, p: int)
    requires Tiled(t) && Is(t, p, Live) && u == t.(head := u.head, foot := u.foot)
    requires forall q | !(p < q < End(t, p)) :: HeadAt(u.head, q) == HeadAt(t.head, q)
    requires forall q | !(p < q <= End(t, p)) :: WordAt(u.foot, q) == WordAt(t.foot, q)
    ensures Tiled(u) && SameFiled(t, u) && Blocks(u) == Blocks(t)
  {
    forall q | q in t.own
      ensures HeadAt(u.head, q) == HeadAt(t.head, q) && HeadAt(u.head, End(t, q)) == HeadAt(t.head, End(t, q))
    {
      BetweenNone(t, p, q);
    }
    SameSizes(t, u);
    forall a | a in u.own
      ensures Honest(u, a)
    {
      assert Honest(t, a);
      EndsApart(t, a, p);
      BetweenNone(t, p, a);
    }
  }

  // No chunk starts or ends inside another.
  lemma BetweenNone(t: Tags, p: int, q: int)
    requires Tiles(t) && p in t.own && q in t.own
    ensures !(p < q < End(t, p)) && !(p < End(t, q) < End(t, p))
  {
    assert Placed(t, q) && Apart(t, p, q) && Apart(t, q, p);
  }
}
