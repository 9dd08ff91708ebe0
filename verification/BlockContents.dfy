/**
 What the allocator leaves alone (shared/malloc.c): the memory of the blocks it has handed out.
 A size word lies 4 bytes behind the address of its chunk, the links fd and bk 8 and 12 bytes
 behind it, and the prev_size word at the address itself.
 */
module BlockContents {
  import opened ChunkTags
  import opened TagMoves
  import opened PriorityOrder
  import opened FreeLists
  import opened Arena
  import opened BinIndex

  // The memory that the allocator reads and writes.
  datatype Words = Words(head: map<int, Head>, foot: map<int, int>, fd: map<int, int>, bk: map<int, int>)

  function WordsOf(s: State): Words {
    Words(s.t.head, s.t.foot, s.l.fd, s.l.bk)
  }

  // The words of the block from q to e, from behind its size word up to and including the
  // prev_size word behind it.
  ghost predicate Untouched(w: Words, v: Words, q: int, e: int) {
    && (forall x | q < x < e :: HeadAt(v.head, x) == HeadAt(w.head, x))
    && (forall x | q < x <= e :: WordAt(v.foot, x) == WordAt(w.foot, x))
    && (forall x | q <= x < e :: WordAt(v.fd, x) == WordAt(w.fd, x) && WordAt(v.bk, x) == WordAt(w.bk, x))
  }

  // Every block of b still holds the words it held.
  ghost predicate Kept(w: Words, v: Words, b: map<int, int>) {
    forall q | q in b :: Untouched(w, v, q, q + b[q])
  }

  lemma KeptSame(w: Words, b: map<int, int>)
    ensures Kept(w, w, b)
  {
  }

  lemma KeptOn(w: Words, v: Words, u: Words, b: map<int, int>)
    requires Kept(w, v, b) && Kept(v, u, b)
    ensures Kept(w, u, b)
  {
    forall q | q in b
      ensures Untouched(w, u, q, q + b[q])
    {
      assert Untouched(w, v, q, q + b[q]) && Untouched(v, u, q, q + b[q]);
    }
  }

  lemma KeptNone(w: Words, v: Words)
    ensures Kept(w, v, map[])
  {
  }

  lemma KeptFewer(w: Words, v: Words, b: map<int, int>, p: int)
    requires Kept(w, v, b)
    ensures Kept(w, v, b - {p})
  {
  }

  // From blocks that were added on the way nothing is asked.
  lemma KeptWithin(w: Words, v: Words, u: Words, b: map<int, int>, c: map<int, int>)
    requires Kept(w, v, b) && Kept(v, u, c) && forall q | q in b :: q in c && c[q] == b[q]
    ensures Kept(w, u, b)
  {
    assert Kept(v, u, b);
    KeptOn(w, v, u, b);
  }

  // ---------- writes outside a block ----------

  // An address in or at the end of another chunk p is not inside block q.
  lemma Elsewhere(t: Tags, q: int, p: int, x: int)
    requires Tiles(t) && q in t.own && p in t.own && p != q && p <= x <= End(t, p)
    ensures !(q < x < End(t, q))
    ensures x < End(t, p) ==> !(q <= x < End(t, q))
    ensures p < x ==> !(q < x <= End(t, q))
  {
    Disjoint(t, p, q);
    assert Placed(t, q) && Placed(t, p);
  }

  lemma UnlinkKept(s: State, i: int, k: nat)
    requires Sound(s) && 0 < i < NBINS && k < |s.l.bins[i]|
    ensures Kept(WordsOf(s), WordsOf(Unlinked(s, i, k)), Blocks(s.t))
  {
    InBin(s.t, s.l, i, k);
    NotBare(s, s.l.bins[i][k]);
    var c := Round(Header(i), s.l.bins[i]);
    RoundNodes(s.t.own, s.l, i, k);
    RoundNodes(s.t.own, s.l, i, k + 2);
    forall q | q in Blocks(s.t)
      ensures Untouched(WordsOf(s), WordsOf(Unlinked(s, i, k)), q, End(s.t, q))
    {
      NodeElsewhere(s, q, c[k], i);
      NodeElsewhere(s, q, c[k + 2], i);
    }
  }

  // A node of a bin's ring is not inside a block.
  lemma NodeElsewhere(s: State, q: int, x: int, i: int)
    requires Sound(s) && Is(s.t, q, Live) && 0 < i && (x == Header(i) || Is1(s.t.own, x, Bin(i)))
    ensures !(q <= x < End(s.t, q))
  {
    NotBare(s, q);
    if x != Header(i) {
      Placement(s.t, x);
      Elsewhere(s.t, q, x, x);
    }
  }

  lemma Placement(t: Tags, p: int)
    requires Tiles(t) && p in t.own
    ensures p < End(t, p)
  {
    assert Placed(t, p);
  }

  lemma LinkKept(s: State, i: int, k: nat, p: int)
    requires Sound(s) && 0 < i < NBINS && k <= |s.l.bins[i]| && Is(s.t, p, Loose)
    ensures Kept(WordsOf(s), WordsOf(Linked(s, i, k, p)), Blocks(s.t))
  {
    NotBare(s, p);
    Placement(s.t, p);
    var c := Round(Header(i), s.l.bins[i]);
    RoundNodes(s.t.own, s.l, i, k);
    RoundNodes(s.t.own, s.l, i, k + 1);
    forall q | q in Blocks(s.t)
      ensures Untouched(WordsOf(s), WordsOf(Linked(s, i, k, p)), q, End(s.t, q))
    {
      NodeElsewhere(s, q, c[k], i);
      NodeElsewhere(s, q, c[k + 1], i);
      Elsewhere(s.t, q, p, p);
    }
  }

  lemma PushKept(s: State, k: int, p: int)
    requires Sound(s) && 0 <= k < 8 && Is(s.t, p, Live)
    ensures Kept(WordsOf(s), WordsOf(Pushed(s, k, p)), Blocks(s.t) - {p})
  {
    NotBare(s, p);
    Placement(s.t, p);
    forall q | q in Blocks(s.t) - {p}
      ensures Untouched(WordsOf(s), WordsOf(Pushed(s, k, p)), q, End(s.t, q))
    {
      Elsewhere(s.t, q, p, p);
    }
  }

  lemma ExhaustWords(s: State, p: int)
    requires Sound(s) && Is(s.t, p, Loose)
    ensures Kept(WordsOf(s), WordsOf(s.(t := Exhaust(s.t, p))), Blocks(s.t))
  {
    NotBare(s, p);
    Placement(s.t, p);
    forall q | q in Blocks(s.t)
      ensures Untouched(WordsOf(s), WordsOf(s.(t := Exhaust(s.t, p))), q, End(s.t, q))
    {
      Elsewhere(s.t, q, p, End(s.t, p));
    }
  }

  lemma SplitWords(s: State, p: int, nb: int)
    requires Sound(s) && Is(s.t, p, Loose) && Splittable(s.t, p, nb)
    ensures Kept(WordsOf(s), WordsOf(s.(t := Split(s.t, p, nb))), Blocks(s.t))
  {
    NotBare(s, p);
    forall q | q in Blocks(s.t)
      ensures Untouched(WordsOf(s), WordsOf(s.(t := Split(s.t, p, nb))), q, End(s.t, q))
    {
      Elsewhere(s.t, q, p, p);
      Elsewhere(s.t, q, p, p + nb);
      Elsewhere(s.t, q, p, End(s.t, p));
    }
  }

  lemma SplitTopWords(s: State, nb: int)
    requires Sound(s) && Splittable(s.t, s.t.top, nb)
    ensures Kept(WordsOf(s), WordsOf(s.(t := SplitTop(s.t, nb))), Blocks(s.t))
  {
    NotBare(s, s.t.top);
    assert Placed(s.t, s.t.top);
    forall q | q in Blocks(s.t)
      ensures Untouched(WordsOf(s), WordsOf(s.(t := SplitTop(s.t, nb))), q, End(s.t, q))
    {
      Elsewhere(s.t, q, s.t.top, s.t.top);
      Elsewhere(s.t, q, s.t.top, s.t.top + nb);
    }
  }

  lemma CarveWords(s: State, p: int, n: int)
    requires Sound(s) && Is(s.t, p, Live) && Splittable(s.t, p, n)
    ensures Kept(WordsOf(s), WordsOf(s.(t := Carve(s.t, p, n))), Blocks(s.t) - {p})
  {
    NotBare(s, p);
    forall q | q in Blocks(s.t) - {p}
      ensures Untouched(WordsOf(s), WordsOf(s.(t := Carve(s.t, p, n))), q, End(s.t, q))
    {
      Elsewhere(s.t, q, p, p);
      Elsewhere(s.t, q, p, p + n);
    }
  }

  lemma ExtendWords(s: State, n: int)
    requires Sound(s) && Tiled(s.t)
    ensures Kept(WordsOf(s), WordsOf(s.(t := Extend(s.t, n))), Blocks(s.t))
  {
    assert Placed(s.t, s.t.top);
    forall q | q in Blocks(s.t)
      ensures Untouched(WordsOf(s), WordsOf(s.(t := Extend(s.t, n))), q, End(s.t, q))
    {
      Elsewhere(s.t, q, s.t.top, s.t.top);
    }
  }

  // Before there is memory there are no blocks.
  lemma NoBlocks(s: State, v: Words)
    requires Bare(s.t)
    ensures Kept(WordsOf(s), v, Blocks(s.t))
  {
  }

  lemma MergeWords(s: State, a: int, p: int, e: int)
    requires Sound(s) && Tiled(s.t) && Joinable(s.t, a, p, e) && e in s.t.own
    ensures Kept(WordsOf(s), WordsOf(s.(t := Merge(s.t, a, End(s.t, p), e))), Blocks(s.t) - {p})
  {
    Placement(s.t, p);
    forall q | q in Blocks(s.t) - {p}
      ensures Untouched(WordsOf(s), WordsOf(s.(t := Merge(s.t, a, End(s.t, p), e))), q, End(s.t, q))
    {
      MergeElsewhere(s.t, a, p, e, q);
    }
  }

  lemma MergeElsewhere(t: Tags, a: int, p: int, e: int, q: int)
    requires Tiled(t) && Joinable(t, a, p, e) && Is(t, q, Live) && q != p
    ensures !(q < a < End(t, q)) && !(q < End(t, p) < End(t, q)) && !(q < e <= End(t, q))
  {
    Placement(t, a);
    Placement(t, p);
    Elsewhere(t, q, a, a);
    Elsewhere(t, q, p, End(t, p));
    if e != End(t, p) {
      Placement(t, End(t, p));
      Elsewhere(t, q, End(t, p), e);
    }
  }

  lemma MergeTopWords(s: State, a: int, p: int)
    requires Sound(s) && Opened(s.t, a, p)
    ensures Kept(WordsOf(s), WordsOf(s.(t := MergeTop(s.t, a))), Blocks(s.t) - {p})
  {
    Placement(s.t, a);
    forall q | q in Blocks(s.t) - {p}
      ensures Untouched(WordsOf(s), WordsOf(s.(t := MergeTop(s.t, a))), q, End(s.t, q))
    {
      Elsewhere(s.t, q, a, a);
    }
  }

  // ---------- where the words lie ----------

  datatype Field = PrevSize | SizeWord | Fd | Bk

  function Address(f: Field, p: int): int {
    match f
    case PrevSize => p
    case SizeWord => p + 4
    case Fd => p + 8
    case Bk => p + 12
  }

  // The allocator relies on this field of the chunk at p: on every size word, on prev_size
  // behind a free chunk, and on the links of chunks on lists.
  ghost predicate Relied(t: Tags, f: Field, p: int) {
    && p in t.own
    && match f
       case PrevSize => !Pinuse(t, p)
       case SizeWord => true
       case Fd => Filed(t.own[p])
       case Bk => t.own[p].Bin?
  }

  // Different fields that the allocator relies on lie in different words of memory.
  lemma FieldsApart(t: Tags, f: Field, p: int, g: Field, q: int)
    requires Tiled(t) && Relied(t, f, p) && Relied(t, g, q) && !(f == g && p == q)
    ensures Address(f, p) + 4 <= Address(g, q) || Address(g, q) + 4 <= Address(f, p)
  {
    assert Placed(t, p) && Placed(t, q);
    if p != q {
      Disjoint(t, p, q);
    }
  }

  // And none of them lies in the bytes that the owner of a block uses, from 8 bytes behind the
  // chunk's address up to the size word of the next chunk.
  lemma FieldsOutside(t: Tags, f: Field, p: int, q: int)
    requires Tiled(t) && Relied(t, f, p) && Is(t, q, Live)
    ensures Address(f, p) + 4 <= q + 8 || End(t, q) + 4 <= Address(f, p)
  {
    assert Placed(t, p) && Placed(t, q) && Honest(t, q);
    if p != q {
      Disjoint(t, p, q);
    }
  }
}
