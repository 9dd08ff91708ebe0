/**
 The boundary tags of the heap (shared/malloc.c): the size word of each chunk with its
 PREV_INUSE bit, and the prev_size word behind a free chunk. A chunk is named by its address.
 */
module ChunkTags {

  const MINSIZE := 16
  const ALIGN := 8

  // The size word: the size of the chunk and whether the chunk before it is in use.
  datatype Head = Head(size: int, pinuse: bool)

  // What a chunk is used for. A loose chunk is free but on no list, as between an unlink and
  // the assignments that follow it; a spilled one has left its fastbin but still counts as in use.
  datatype Use = Live | Fast(k: int) | Spilled | Bin(i: int) | Loose | Top

  predicate Free(u: Use) {
    u.Bin? || u.Loose?
  }

  // On one of the allocator's lists.
  predicate Filed(u: Use) {
    u.Bin? || u.Fast?
  }

  datatype Tags = Tags(
    head: map<int, Head>,
    foot: map<int, int>,     // prev_size of the chunk at this address
    own: map<int, Use>,      // the chunks of the heap
    top: int, base: int, brk: int)

  function HeadAt(head: map<int, Head>, p: int): Head {
    if p in head then head[p] else Head(0, false)
  }

  function WordAt(m: map<int, int>, p: int): int {
    if p in m then m[p] else 0
  }

  function Size(t: Tags, p: int): int {
    HeadAt(t.head, p).size
  }

  function End(t: Tags, p: int): int {
    p + Size(t, p)
  }

  predicate Pinuse(t: Tags, p: int) {
    HeadAt(t.head, p).pinuse
  }

  // A chunk of the heap that is used as u.
  predicate Is(t: Tags, p: int, u: Use) {
    p in t.own && t.own[p] == u
  }

  predicate IsFree(t: Tags, p: int) {
    p in t.own && Free(t.own[p])
  }

  // The same chunks are free.
  ghost predicate SameFree(t: Tags, u: Tags) {
    forall p :: IsFree(u, p) <==> IsFree(t, p)
  }

  lemma SameFreeSelf(t: Tags)
    ensures SameFree(t, t)
  {
  }

  lemma SameFreeOn(t: Tags, u: Tags, v: Tags)
    requires SameFree(t, u) && SameFree(u, v)
    ensures SameFree(t, v)
  {
  }

  // The blocks handed out: for each live chunk its size.
  ghost function Blocks(t: Tags): map<int, int> {
    map p | p in t.own && t.own[p].Live? :: Size(t, p)
  }

  // The chunks that are between two lists.
  ghost function Loosened(t: Tags): set<int> {
    set p | p in t.own && t.own[p].Loose?
  }

  ghost function SpilledOnes(t: Tags): set<int> {
    set p | p in t.own && t.own[p].Spilled?
  }

  // ---------- the invariant ----------

  // An aligned chunk of legal size; where it ends the next chunk starts, or top and the memory end.
  ghost predicate Placed(t: Tags, p: int) {
    && t.base <= p && p % ALIGN == 0 && Size(t, p) >= MINSIZE && Size(t, p) % ALIGN == 0
    && (Is(t, p, Top) <==> p == t.top)
    && if p == t.top then End(t, p) == t.brk else End(t, p) in t.own
  }

  predicate Apart(t: Tags, p: int, q: int) {
    p < q ==> End(t, p) <= q
  }

  // The chunks tile the range from base to brk; the last one is top.
  ghost predicate Tiles(t: Tags) {
    && t.base in t.own && t.top in t.own && t.base > 0
    && (forall p {:trigger Placed(t, p)} | p in t.own :: Placed(t, p))
    && (forall p, q {:trigger Apart(t, p, q)} | p in t.own && q in t.own :: Apart(t, p, q))
  }

  // The PREV_INUSE bit behind p tells whether p is in use; a free chunk also has a truthful
  // footer and a chunk in use, or the base, in front of it.
  ghost predicate Honest(t: Tags, p: int) {
    && (p != t.top ==> (Pinuse(t, End(t, p)) <==> !IsFree(t, p)))
    && (IsFree(t, p) ==> Pinuse(t, p) && WordAt(t.foot, End(t, p)) == Size(t, p))
  }

  // Every tag is truthful, no free chunk follows a free chunk, and none borders top.
  ghost predicate Truthful(t: Tags) {
    && Pinuse(t, t.base) && Pinuse(t, t.top)
    && forall p {:trigger Honest(t, p)} | p in t.own :: Honest(t, p)
  }

  ghost predicate Tiled(t: Tags) {
    Tiles(t) && Truthful(t)
  }

  // Before the first sbrk there is no chunk, and top is the header of the unsorted bin.
  const NO_TOP := -1

  ghost predicate Bare(t: Tags) {
    t.own == map[] && t.top == NO_TOP && NO_TOP !in t.head && t.brk == t.base && t.base > 0 && t.base % ALIGN == 0
  }

  ghost predicate Heap(t: Tags) {
    Bare(t) || Tiled(t)
  }

  // The chunks on lists are the same, with the same sizes.
  ghost predicate SameFiled(t: Tags, u: Tags) {
    && (forall p | p in t.own && Filed(t.own[p]) :: Is(u, p, t.own[p]) && Size(u, p) == Size(t, p))
    && (forall p | p in u.own && Filed(u.own[p]) :: Is(t, p, u.own[p]))
  }

  // ---------- the chunks from base to brk ----------

  // The sizes from chunk to chunk.
  ghost function Walk(t: Tags, p: int): seq<int>
    requires Tiles(t) && p in t.own
    decreases t.brk - p
  {
    if p == t.top then [p] else InsideHeap(t, p); [p] + Walk(t, End(t, p))
  }

  lemma BelowBreak(t: Tags, p: int)
    requires Tiles(t) && p in t.own
    ensures p < t.brk
    decreases t.own.Keys - (set q | q in t.own && q <= p)
  {
    assert Placed(t, p);
    if p != t.top {
      var n := End(t, p);
      assert n in t.own.Keys - (set q | q in t.own && q <= p);
      BelowBreak(t, n);
    }
  }

  lemma InsideHeap(t: Tags, p: int)
    requires Tiles(t) && p in t.own
    ensures Placed(t, p) && p <= t.top && End(t, p) <= t.brk
    ensures p != t.top ==> End(t, p) <= t.top
  {
    assert Placed(t, p) && Placed(t, t.top) && Apart(t, p, t.top) && Apart(t, t.top, p);
    BelowBreak(t, p);
  }

  // Walking from base by the size words meets every chunk, in the order of the addresses.
  lemma {:induction false} WalkMeets(t: Tags, p: int, q: int)
    requires Tiles(t) && p in t.own
    ensures q in Walk(t, p) <==> q in t.own && p <= q
    decreases t.brk - p
  {
    InsideHeap(t, p);
    if q in t.own {
      InsideHeap(t, q);
      assert Apart(t, p, q);
    }
    if p != t.top {
      WalkMeets(t, End(t, p), q);
    }
  }

  // Two chunks never overlap; in particular no two blocks handed out do.
  lemma Disjoint(t: Tags, p: int, q: int)
    requires Tiles(t) && p in t.own && q in t.own && p != q
    ensures End(t, p) <= q || End(t, q) <= p
  {
    assert Apart(t, p, q) && Apart(t, q, p);
  }

  // The chunk in front of p.
  lemma ChunkBefore(t: Tags, from: int, p: int) returns (s: int)
    requires Tiles(t) && from in t.own && p in t.own && from < p
    ensures s in t.own && End(t, s) == p && s != t.top && s < p
    decreases p - from
  {
    InsideHeap(t, from);
    InsideHeap(t, p);
    if End(t, from) == p {
      return from;
    }
    assert Apart(t, from, p);
    s := ChunkBefore(t, End(t, from), p);
  }

  // The chunk before a chunk whose PREV_INUSE bit is clear is free, and its footer leads to it.
  lemma FreeBefore(t: Tags, p: int) returns (s: int)
    requires Tiled(t) && p in t.own && !Pinuse(t, p)
    ensures IsFree(t, s) && End(t, s) == p && s == p - WordAt(t.foot, p) && Pinuse(t, s) && s < p
  {
    InsideHeap(t, p);
    s := ChunkBefore(t, t.base, p);
    assert Honest(t, s);
  }

  // A free chunk is followed by a chunk in use that is not top.
  lemma FreeAlone(t: Tags, p: int)
    requires Tiled(t) && IsFree(t, p)
    ensures p != t.top && End(t, p) in t.own && !IsFree(t, End(t, p)) && End(t, p) != t.top
    ensures Placed(t, p) && Honest(t, p)
  {
    assert Placed(t, p) && Honest(t, p) && Honest(t, End(t, p));
  }
}
