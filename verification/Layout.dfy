/**
 What consolidation leads to (shared/malloc.c): once the fastbins are merged, where the chunks of
 the heap lie depends on the blocks handed out only, not on the order in which they were freed.
 */
module Layout {
  import opened ChunkTags
  import opened TagMoves
  import opened PriorityOrder
  import opened FreeLists
  import opened Arena

  // The fastbins are empty, and no chunk is between two lists.
  ghost predicate Consolidated(s: State) {
    Sound(s) && Settled(s.t) && !s.fast
  }

  // Every chunk is a block, free or top.
  lemma OnlyThree(s: State, p: int)
    requires Consolidated(s) && p in s.t.own
    ensures Tiled(s.t) && (p in Blocks(s.t) || IsFree(s.t, p) || p == s.t.top)
  {
    NotBare(s, p);
    assert Placed(s.t, p) && p !in SpilledOnes(s.t);
  }

  // The chunk at p, no block in either state, ends at the same address in both.
  lemma SameEnd(s: State, u: State, p: int)
    requires Consolidated(s) && Consolidated(u) && Blocks(s.t) == Blocks(u.t) && s.t.brk == u.t.brk
    requires p in s.t.own && p in u.t.own && p !in Blocks(s.t)
    ensures Tiled(s.t) && Tiled(u.t) && End(s.t, p) == End(u.t, p)
    ensures (p == s.t.top <==> p == u.t.top) && (IsFree(s.t, p) <==> IsFree(u.t, p))
  {
    hide Sound, Settled, Blocks;
    OnlyThree(s, p);
    OnlyThree(u, p);
    if IsFree(s.t, p) {
      BlockBehind(s, u, p);
    }
    if IsFree(u.t, p) {
      BlockBehind(u, s, p);
    }
    InsideHeap(s.t, p);
    InsideHeap(u.t, p);
  }

  // Behind a free chunk lies a block, which ends whatever is there in the other state.
  lemma BlockBehind(s: State, u: State, p: int)
    requires Consolidated(s) && Consolidated(u) && Blocks(s.t) == Blocks(u.t) && Tiled(s.t) && Tiled(u.t)
    requires IsFree(s.t, p) && p in u.t.own
    ensures End(s.t, p) >= End(u.t, p) && p != u.t.top && p != s.t.top
  {
    var e := End(s.t, p);
    FreeAlone(s.t, p);
    OnlyThree(s, e);
    KeyChunk(u.t, e);
    InsideHeap(u.t, e);
    if e < End(u.t, p) {
      NoChunkInside(u.t, p, e);
    }
  }

  lemma KeyChunk(t: Tags, p: int)
    requires p in Blocks(t)
    ensures p in t.own && Blocks(t)[p] == Size(t, p) && !IsFree(t, p)
  {
  }

  // From a chunk of both states on, every chunk of one is a chunk of the other.
  lemma {:induction false} AgreeFrom(s: State, u: State, p: int, q: int)
    requires Consolidated(s) && Consolidated(u) && Blocks(s.t) == Blocks(u.t) && s.t.brk == u.t.brk
    requires p in s.t.own && p in u.t.own && q in s.t.own && p <= q
    ensures q in u.t.own && Size(u.t, q) == Size(s.t, q) && (IsFree(s.t, q) <==> IsFree(u.t, q))
    decreases q - p
  {
    hide Sound, Settled, Blocks;
    OnlyThree(s, p);
    OnlyThree(u, p);
    InsideHeap(s.t, p);
    if p in Blocks(s.t) {
      KeyChunk(s.t, p);
      KeyChunk(u.t, p);
      TopNoBlock(s, p);
      TopNoBlock(u, p);
    } else {
      SameEnd(s, u, p);
    }
    if p < q {
      InsideHeap(s.t, q);
      InsideHeap(u.t, p);
      assert Apart(s.t, p, q);
      AgreeFrom(s, u, End(s.t, p), q);
    }
  }

  lemma TopNoBlock(s: State, p: int)
    requires Consolidated(s) && p in Blocks(s.t) && Tiled(s.t)
    ensures p != s.t.top
  {
    assert Placed(s.t, p);
  }

  // Two consolidated heaps with the same memory and the same blocks have the same chunks, of the
  // same sizes, and the same ones are free.
  lemma SameLayout(s: State, u: State, q: int)
    requires Consolidated(s) && Consolidated(u) && Blocks(s.t) == Blocks(u.t)
    requires s.t.base == u.t.base && s.t.brk == u.t.brk
    ensures q in s.t.own <==> q in u.t.own
    ensures q in s.t.own ==> Size(u.t, q) == Size(s.t, q) && (IsFree(s.t, q) <==> IsFree(u.t, q))
  {
    if q in s.t.own {
      Met(s, u, q);
    }
    if q in u.t.own {
      Met(u, s, q);
    }
  }

  lemma Met(s: State, u: State, q: int)
    requires Consolidated(s) && Consolidated(u) && Blocks(s.t) == Blocks(u.t)
    requires s.t.base == u.t.base && s.t.brk == u.t.brk && q in s.t.own
    ensures q in u.t.own && Size(u.t, q) == Size(s.t, q) && (IsFree(s.t, q) <==> IsFree(u.t, q))
  {
    NotBare(s, q);
    InsideHeap(s.t, q);
    assert Tiled(u.t);
    AgreeFrom(s, u, s.t.base, q);
  }
}
