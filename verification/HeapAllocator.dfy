/**
 The kernel's heap allocator (shared/malloc.c on the sbrk of kernel/mem.c): chunk headers, list
 links and the malloc_state, updated in place. A chunk is named by its address; the memory
 handed out starts eight bytes behind it.
 */
module HeapAllocator {
  import opened Powers
  import opened Alignments
  import opened BinIndex
  import opened ChunkTags
  import opened TagMoves
  import opened PriorityOrder
  import opened FreeLists
  import opened Arena
  import opened FitSearch
  import opened BlockContents

  const PAGE := 4096
  const HALF := 0x8000_0000                // addresses and sizes are positive as a long
  const MEM_OFFSET := 8                    // chunk2mem
  const MAX_FAST := 72
  const CONSOLIDATION_THRESHOLD := 0x20000
  const TRIM_THRESHOLD := 0x40000
  const UNSORTED := -1                     // unsorted_chunks, the header of bin 1

  const MAX_REQUEST := WORD - 2 * MINSIZE

  // request2size
  function RequestSize(req: nat): int {
    if req + 4 + 7 < MINSIZE then MINSIZE else (req + 4 + 7) / ALIGN * ALIGN
  }

  // A padded request is aligned, has room for the size word, and wastes little.
  lemma RequestSizeFits(req: nat)
    requires req < MAX_REQUEST
    ensures var nb := RequestSize(req); MINSIZE <= nb < WORD - MINSIZE && nb % ALIGN == 0 && nb >= req + 4
    ensures var nb := RequestSize(req); nb == MINSIZE || nb < req + 4 + ALIGN
  {
  }

  // The request that sYSMALLOc repeats is padded to the same size.
  lemma RetrySize(nb: int)
    requires MINSIZE <= nb && nb % ALIGN == 0
    ensures nb - 7 >= 0 && RequestSize(nb - 7) == nb
  {
  }

  // The bytes of a block that its owner may use: all but its size word, and the next chunk's
  // prev_size word besides.
  function Usable(size: int): int {
    size - 4
  }

  // The padding that mEMALIGn asks for leaves room for every alignment exactly if the sum does
  // not wrap around.
  lemma PaddingRoom(nb: nat, a: nat)
    requires MINSIZE <= nb < WORD - MINSIZE && a < WORD && (nb + a + MINSIZE) % WORD < MAX_REQUEST
    ensures RequestSize((nb + a + MINSIZE) % WORD) >= nb + a + MINSIZE <==> nb + a + MINSIZE < WORD
  {
    var sum := nb + a + MINSIZE;
    if sum >= WORD {
      assert sum % WORD == sum - WORD;
    }
  }

  // A request of 2^32 - 33 bytes with alignment 16 is padded to a request of 8 bytes.
  lemma PaddingWraps()
    ensures var nb := RequestSize(0xFFFF_FFDF); 0xFFFF_FFDF < MAX_REQUEST && (nb + 16 + MINSIZE) % WORD == 8
  {
  }

  // The fastbin, or the small bin, of exactly this size has a chunk.
  predicate HasFast(s: State, nb: int)
    requires Shape(s.l) && MINSIZE <= nb
  {
    nb <= MAX_FAST && s.l.fast[nb / 8 - 2] != 0
  }

  predicate HasSmall(s: State, nb: int)
    requires Shape(s.l) && MINSIZE <= nb
  {
    Small(nb) && s.l.bins[IndexOf(nb)] != []
  }

  // The oldest chunk of the small bin.
  function SmallLast(s: State, nb: int): int
    requires Shape(s.l) && MINSIZE <= nb && HasSmall(s, nb)
  {
    var b := s.l.bins[IndexOf(nb)];
    b[|b| - 1]
  }

  function PageUp(n: int): int {
    (n + (PAGE - 1)) / PAGE * PAGE
  }

  // A word of the usable bytes of the block at p.
  predicate InBlock(p: int, size: int, a: int) {
    a % 4 == 0 && p + MEM_OFFSET <= a && a + 4 <= p + MEM_OFFSET + Usable(size)
  }

  // The word at address a.
  function Content(w: Words, a: int): int {
    if a % 8 == 0 then WordAt(w.fd, a - 8) else WordAt(w.bk, a - 12)
  }

  // A word read as a size word.
  function AsHead(word: nat): Head {
    Head(word / 8 * 8, word % 2 == 1)
  }

  // What a program does: it asks for blocks, gives them back, and stores words in them.
  datatype Call =
    | Acquire(bytes: nat)
    | AcquireAligned(alignment: nat, bytes: nat)
    | Release(p: int)
    | Write(p: int, a: int, word: nat)

  // The block that the call changes.
  function Touched(c: Call): set<int> {
    if c.Release? || c.Write? then {c.p} else {}
  }

  class Allocator {
    const base: int                        // mem_heap
    const limit: int                       // mem_heap_end
    var head: map<int, Head>               // size fields
    var foot: map<int, int>                // prev_size fields
    var fd: map<int, int>
    var bk: map<int, int>
    var fast: seq<int>                     // fastbins
    var top: int
    var lastRemainder: int
    var marks: set<int>                    // binmap, as the set of its bits
    var any: bool                          // ANYCHUNKS_BIT
    var fastChunks: bool                   // FASTCHUNKS_BIT
    var initialised: bool                  // max_fast != 0
    var brk: int                           // curptr of sbrk
    ghost var own: map<int, Use>
    ghost var bins: seq<seq<int>>
    ghost var chains: seq<seq<int>>

    ghost function T(): Tags
      reads this`head, this`foot, this`own, this`top, this`brk
    {
      Tags(head, foot, own, top, base, brk)
    }

    ghost function L(): Lists
      reads this`fd, this`bk, this`bins, this`fast, this`chains
    {
      Lists(fd, bk, bins, fast, chains)
    }

    ghost function S(): State
      reads this`head, this`foot, this`own, this`top, this`brk, this`fd, this`bk, this`bins, this`fast, this`chains,
        this`marks, this`any, this`fastChunks
    {
      State(T(), L(), marks, any, fastChunks)
    }

    ghost function W(): Words
      reads this`head, this`foot, this`fd, this`bk
    {
      Words(head, foot, fd, bk)
    }

    // ---------- one chunk on or off a list ----------

    // unlink
    method UnlinkChunk(p: int, ghost i: int, ghost k: nat)
      requires Sound(S()) && 0 < i < NBINS && k < |bins[i]| && bins[i][k] == p
      modifies this`fd, this`bk, this`own, this`bins
      ensures S() == Unlinked(old(S()), i, k) && Sound(S())
      ensures Kept(old(W()), W(), old(Blocks(T())))
    {
      hide Sound, Filing, Heap, Header, Remove, Kept;
      SoundParts(S());
      UnlinkedSound(S(), i, k);
      UnlinkKept(S(), i, k);
      var fwd := WordAt(fd, p);
      var bck := WordAt(bk, p);
      bk := bk[fwd := bck];
      fd := fd[bck := fwd];
      bins, own := bins[i := Remove(bins[i], k)], own[p := Loose];
    }

    // Taking the last chunk of a bin off its list.
    method UnlinkLast(victim: int, bin: int, ghost i: int)
      requires Sound(S()) && 0 < i < NBINS && bins[i] != [] && bin == Header(i) && victim == bins[i][|bins[i]| - 1]
      modifies this`fd, this`bk, this`own, this`bins
      ensures S() == Unlinked(old(S()), i, |old(bins)[i]| - 1) && Sound(S())
      ensures Kept(old(W()), W(), old(Blocks(T())))
    {
      hide Sound, Filing, Heap, Header, Remove, Kept;
      SoundParts(S());
      ghost var k := |bins[i]| - 1;
      InBin(T(), L(), i, k);
      UnlinkedSound(S(), i, k);
      UnlinkKept(S(), i, k);
      var bck := WordAt(bk, victim);
      bk := bk[bin := bck];
      fd := fd[bck := bin];
      bins, own := bins[i := Remove(bins[i], k)], own[victim := Loose];
    }

    // The four assignments that put p between bck and fwd.
    method LinkChunk(p: int, bck: int, fwd: int, ghost i: int, ghost k: nat)
      requires Sound(S()) && 0 < i < NBINS && k <= |bins[i]| && Is(T(), p, Loose) && any
      requires bck == Round(Header(i), bins[i])[k] && fwd == Round(Header(i), bins[i])[k + 1]
      requires i == 1 || i in marks
      requires i == 1 || (Size(T(), p) >= 0 && i == IndexOf(Size(T(), p)))
      requires i >= NSMALLBINS ==> KeepsOrder(T(), bins[i], k, Size(T(), p))
      modifies this`fd, this`bk, this`own, this`bins
      ensures S() == Linked(old(S()), i, k, p) && Sound(S())
      ensures Kept(old(W()), W(), old(Blocks(T())))
    {
      hide Sound, Filing, Heap, Header, Insert, KeepsOrder, IndexOf, Kept;
      SoundParts(S());
      LinkedSound(S(), i, k, p);
      LinkKept(S(), i, k, p);
      bk := bk[p := bck];
      fd := fd[p := fwd];
      bk := bk[fwd := p];
      fd := fd[bck := p];
      bins, own := bins[i := Insert(bins[i], k, p)], own[p := Bin(i)];
    }

    // ---------- handing out chunks ----------

    // set_inuse_bit_at_offset(p, size)
    method HandOut(p: int)
      requires Sound(S()) && Is(T(), p, Loose)
      modifies this`head, this`own
      ensures T() == Exhaust(old(T()), p) && Sound(S())
      ensures Blocks(T()) == old(Blocks(T()))[p := old(Size(T(), p))]
      ensures Loosened(T()) == old(Loosened(T())) - {p} && SpilledOnes(T()) == old(SpilledOnes(T()))
      ensures Kept(old(W()), W(), old(Blocks(T())))
    {
      hide Sound, Filing, Heap, Header, Blocks, Loosened, SpilledOnes, Is, Splittable, Kept;
      ghost var u := ExhaustSound(S(), p);
      ExhaustWords(S(), p);
      var next := p + HeadAt(head, p).size;
      head := head[next := Head(HeadAt(head, next).size, true)];
      own := own[p := Live];
    }

    // The front of p is handed out; the rest is still on no list.
    method CutChunk(p: int, nb: int)
      requires Sound(S()) && Is(T(), p, Loose) && Splittable(T(), p, nb)
      modifies this`head, this`foot, this`own
      ensures T() == Split(old(T()), p, nb) && Sound(S()) && Is(T(), p + nb, Loose) && p + nb !in Blocks(T())
      ensures Blocks(T()) == old(Blocks(T()))[p := nb]
      ensures Loosened(T()) == old(Loosened(T())) - {p} + {p + nb} && SpilledOnes(T()) == old(SpilledOnes(T()))
      ensures Kept(old(W()), W(), old(Blocks(T())))
    {
      hide Sound, Blocks, Loosened, SpilledOnes, Is, Splittable, Kept;
      ghost var u := SplitSound(S(), p, nb);
      SplitWords(S(), p, nb);
      var size := HeadAt(head, p).size;
      var remainder := p + nb;
      head := head[p := Head(nb, true)];
      head := head[remainder := Head(size - nb, true)];
      foot := foot[remainder + (size - nb) := size - nb];
      own := own[p := Live][remainder := Loose];
    }

    // The front of p is handed out and the rest becomes the only unsorted chunk.
    method SplitChunk(p: int, nb: int)
      requires Sound(S()) && Is(T(), p, Loose) && Splittable(T(), p, nb) && |bins| == NBINS && bins[1] == [] && any
      modifies this`head, this`foot, this`fd, this`bk, this`own, this`bins
      ensures T() == Relabel(Split(old(T()), p, nb), p + nb, Bin(1)) && Sound(S())
      ensures L() == Link(old(L()), 1, 0, p + nb)
      ensures Blocks(T()) == old(Blocks(T()))[p := nb]
      ensures Loosened(T()) == old(Loosened(T())) - {p, p + nb} && SpilledOnes(T()) == old(SpilledOnes(T()))
      ensures Kept(old(W()), W(), old(Blocks(T())))
    {
      hide Sound, Blocks, Loosened, SpilledOnes, Splittable, Split, Link, Relabel, KeepsOrder, IndexOf, Kept;
      SoundParts(S());
      hide Heap, Filing;
      NoBlock(T(), p);
      ghost var w, b := W(), Blocks(T());
      CutChunk(p, nb);
      ghost var v := W();
      RelabelBlocks(T(), p + nb, Bin(1));
      NoBlock(T(), p + nb);
      LinkChunk(p + nb, UNSORTED, UNSORTED, 1, 0);
      KeptWithin(w, v, W(), b, b[p := nb]);
    }

    // The front of top is handed out.
    method SplitTopChunk(nb: int) returns (p: int)
      requires Sound(S()) && Splittable(T(), top, nb)
      modifies this`head, this`own, this`top
      ensures p == old(top) && T() == SplitTop(old(T()), nb) && Sound(S())
      ensures Blocks(T()) == old(Blocks(T()))[p := nb]
      ensures Loosened(T()) == old(Loosened(T())) && SpilledOnes(T()) == old(SpilledOnes(T()))
      ensures Kept(old(W()), W(), old(Blocks(T())))
    {
      hide Sound, Filing, Heap, Header, Blocks, Loosened, SpilledOnes, Is, Splittable, Kept;
      ghost var u := SplitTopSound(S(), nb);
      SplitTopWords(S(), nb);
      p := top;
      var size := HeadAt(head, p).size;
      top := p + nb;
      head := head[p := Head(nb, true)];
      head := head[top := Head(size - nb, true)];
      own := own[p := Live][top := Top];
    }

    // ---------- coalescing ----------

    // Links of the chunks just spilled from a fastbin, which malloc_consolidate still follows.
    twostate predicate KeepsSpilledLinks()
      reads this
    {
      forall q | q in SpilledOnes(T()) :: WordAt(fd, q) == old(WordAt(fd, q))
    }

    // Consolidate backward: the free chunk in front of p is taken off its list.
    method OpenBackward(p: int) returns (s: int)
      requires Sound(S()) && p in own && (own[p].Live? || own[p].Spilled?) && Loosened(T()) == {}
      modifies this`fd, this`bk, this`own, this`bins
      ensures Sound(S()) && Opened(T(), s, p)
      ensures s == old(MergeStart(T(), p)) && MergeEnd(T(), p) == old(MergeEnd(T(), p))
      ensures Blocks(T()) == old(Blocks(T())) && SpilledOnes(T()) == old(SpilledOnes(T()))
      ensures KeepsSpilledLinks()
      ensures Kept(old(W()), W(), old(Blocks(T())))
    {
      hide Sound, Opened, Blocks, Loosened, SpilledOnes, Kept, MergeEnd;
      s := p;
      if !HeadAt(head, p).pinuse {
        var prevsize := WordAt(foot, p);
        s := p - prevsize;
        ghost var s', i, k := OpenBack(S(), p);
        UnlinkKeepsSpilled(i, k);
        UnlinkChunk(s, i, k);
      } else {
        SoundParts(S());
        OpenedAlone(T(), p);
        KeptSame(W(), Blocks(T()));
      }
    }

    lemma UnlinkKeepsSpilled(i: int, k: nat)
      requires Sound(S()) && 0 < i < NBINS && k < |bins[i]|
      ensures forall q | q in SpilledOnes(T()) :: WordAt(Unlinked(S(), i, k).l.fd, q) == WordAt(fd, q)
    {
      forall q | q in SpilledOnes(T())
        ensures WordAt(Unlinked(S(), i, k).l.fd, q) == WordAt(fd, q)
      {
        UnlinkKeepsLinks(S(), i, k, q);
      }
    }

    // Consolidate forward: the chunk behind p is taken off its list if it is free.
    method OpenForward(s: int, p: int) returns (e: int)
      requires Sound(S()) && Opened(T(), s, p) && End(T(), p) != top
      modifies this`fd, this`bk, this`own, this`bins
      ensures Sound(S()) && Tiled(T()) && Joinable(T(), s, p, e) && e in own && !IsFree(T(), e) && e != top
      ensures e == End(T(), p) || (e in head && !Pinuse(T(), e))
      ensures e == old(MergeEnd(T(), p))
      ensures Blocks(T()) == old(Blocks(T())) && SpilledOnes(T()) == old(SpilledOnes(T()))
      ensures forall q | q in Loosened(T()) :: s <= q < e
      ensures KeepsSpilledLinks()
      ensures Kept(old(W()), W(), old(Blocks(T())))
    {
      var next := p + HeadAt(head, p).size;
      var nextsize := HeadAt(head, next).size;
      hide Sound, Blocks, Loosened, SpilledOnes, Joinable, IsFree, Kept, MergeEnd;
      assert Tiled(T());
      hide Tiled, Opened;
      if !HeadAt(head, next + nextsize).pinuse {
        ghost var i, k := FrontFree(S(), s, p);
        UnlinkKeepsSpilled(i, k);
        UnlinkChunk(next, i, k);
        e := next + nextsize;
      } else {
        FrontInUse(T(), s, p);
        KeptSame(W(), Blocks(T()));
        e := next;
      }
    }

    // The most recent unsorted chunk.
    ghost predicate FirstUnsorted(s: int)
      reads this`head, this`foot, this`own, this`top, this`brk, this`bins
    {
      |bins| == NBINS && bins[1] != [] && bins[1][0] == s && Is(T(), s, Bin(1))
    }

    // The chunks from s to below e become one unsorted chunk.
    method MergeChunks(s: int, p: int, e: int)
      requires Sound(S()) && Tiled(T()) && Joinable(T(), s, p, e) && e in own && !IsFree(T(), e) && e != top && any
      requires e == End(T(), p) || (e in head && !Pinuse(T(), e))
      requires forall q | q in Loosened(T()) :: s <= q < e
      modifies this`head, this`foot, this`fd, this`bk, this`own, this`bins
      ensures Sound(S()) && Loosened(T()) == {} && FirstUnsorted(s) && Size(T(), s) == e - s
      ensures Blocks(T()) == old(Blocks(T())) - {p} && SpilledOnes(T()) == old(SpilledOnes(T())) - {p}
      ensures KeepsSpilledLinks()
      ensures Kept(old(W()), W(), old(Blocks(T())) - {p})
    {
      hide Sound, Blocks, Loosened, SpilledOnes, Tiled, Joinable, SameFiled, IsFree, Relabel, Link, FirstUnsorted, Kept;
      ghost var w, b := W(), Blocks(T()) - {p};
      MergeTags(s, p, e);
      ghost var v := W();
      LinkUnsorted(s);
      KeptOn(w, v, W(), b);
    }

    // The tags of the merged chunk are written; it is still on no list.
    method MergeTags(s: int, p: int, e: int)
      requires Sound(S()) && Tiled(T()) && Joinable(T(), s, p, e) && e in own && !IsFree(T(), e) && e != top
      requires e == End(T(), p) || (e in head && !Pinuse(T(), e))
      requires forall q | q in Loosened(T()) :: s <= q < e
      modifies this`head, this`foot, this`own
      ensures Sound(S()) && Is(T(), s, Loose) && Loosened(T()) == {s} && Size(T(), s) == e - s
      ensures Blocks(T()) == old(Blocks(T())) - {p} && SpilledOnes(T()) == old(SpilledOnes(T())) - {p}
      ensures Kept(old(W()), W(), old(Blocks(T())) - {p})
    {
      hide Sound, Blocks, Loosened, SpilledOnes, Tiled, Joinable, IsFree, Is, Kept, Outer;
      var next := p + HeadAt(head, p).size;
      ghost var u := MergedState(S(), s, p, e);
      head := head[next := Head(HeadAt(head, next).size, false)];
      head := head[s := Head(e - s, true)];
      foot := foot[e := e - s];
      own := Outer(own, s, e)[s := Loose];
    }

    // The state with the merged chunk.
    lemma MergedState(st: State, s: int, p: int, e: int) returns (u: Tags)
      requires Sound(st) && Tiled(st.t) && Joinable(st.t, s, p, e) && e in st.t.own && !IsFree(st.t, e) && e != st.t.top
      requires e == End(st.t, p) || (e in st.t.head && !Pinuse(st.t, e))
      requires forall q | q in Loosened(st.t) :: s <= q < e
      ensures var t, x := st.t, End(st.t, p);
        u == t.(head := t.head[x := Head(Size(t, x), false)][s := Head(e - s, true)], foot := t.foot[e := e - s],
                own := Outer(t.own, s, e)[s := Loose])
      ensures Sound(st.(t := u)) && Is(u, s, Loose) && Loosened(u) == {s} && Size(u, s) == e - s
      ensures Blocks(u) == Blocks(st.t) - {p} && SpilledOnes(u) == SpilledOnes(st.t) - {p}
      ensures Kept(WordsOf(st), WordsOf(st.(t := u)), Blocks(st.t) - {p})
    {
      hide Sound, Blocks, Loosened, SpilledOnes, Tiled, Joinable, SameFiled, IsFree, Merge, Kept, Outer;
      u := JoinLow(st.t, s, p, e);
      RetaggedSound(st, u);
      MergeWrites(st.t, s, End(st.t, p), e);
      MergeWords(st, s, p, e);
    }

    // Placing a loose chunk in front of the unsorted list.
    method LinkUnsorted(s: int)
      requires Sound(S()) && Is(T(), s, Loose) && any
      modifies this`fd, this`bk, this`own, this`bins
      ensures Sound(S()) && T() == Relabel(old(T()), s, Bin(1)) && L() == Link(old(L()), 1, 0, s)
      ensures Blocks(T()) == old(Blocks(T())) && SpilledOnes(T()) == old(SpilledOnes(T()))
      ensures Loosened(T()) == old(Loosened(T())) - {s} && FirstUnsorted(s)
      ensures KeepsSpilledLinks()
      ensures Kept(old(W()), W(), old(Blocks(T())))
    {
      SoundParts(S());
      hide Sound, Filing, Heap, Blocks, Loosened, SpilledOnes, Link, IndexOf, KeepsOrder, Kept;
      AtHeader(T(), L(), 1);
      RelabelBlocks(T(), s, Bin(1));
      NoBlock(T(), s);
      LinkKeepsSpilled(s);
      LinkChunk(s, UNSORTED, WordAt(fd, UNSORTED), 1, 0);
    }

    lemma LinkKeepsSpilled(s: int)
      requires Sound(S()) && Is(T(), s, Loose)
      ensures forall q | q in SpilledOnes(T()) :: WordAt(Link(L(), 1, 0, s).fd, q) == WordAt(fd, q)
    {
      forall q | q in SpilledOnes(T())
        ensures WordAt(Link(L(), 1, 0, s).fd, q) == WordAt(fd, q)
      {
        LinkKeepsLinks(S(), 1, 0, s, q);
      }
    }

    // The coalescing that free and malloc_consolidate share: p and its free neighbours become one
    // unsorted chunk, or part of top.
    method Coalesce(p: int) returns (size: int, ghost s: int)
      requires Sound(S()) && p in own && (own[p].Live? || own[p].Spilled?) && Loosened(T()) == {} && any
      modifies this`head, this`foot, this`fd, this`bk, this`own, this`bins, this`top
      ensures Sound(S()) && Loosened(T()) == {}
      ensures Blocks(T()) == old(Blocks(T())) - {p} && SpilledOnes(T()) == old(SpilledOnes(T())) - {p}
      ensures s == old(MergeStart(T(), p)) && s + size == old(MergeEnd(T(), p)) && Size(T(), s) == size
      ensures if old(End(T(), p) == top) then top == s else top == old(top) && FirstUnsorted(s)
      ensures KeepsSpilledLinks()
      ensures Kept(old(W()), W(), old(Blocks(T())) - {p})
    {
      hide Sound, Opened, Blocks, Loosened, SpilledOnes, Tiled, Joinable, IsFree, FirstUnsorted, Kept;
      ghost var w, b := W(), Blocks(T());
      var start := OpenBackward(p);
      ghost var v := W();
      KeptFewer(w, v, b, p);
      s := start;
      var next := p + HeadAt(head, p).size;
      if next != top {
        var e := OpenForward(start, p);
        ghost var u := W();
        KeptFewer(v, u, b, p);
        KeptOn(w, v, u, b - {p});
        size := e - start;
        MergeChunks(start, p, e);
        KeptOn(w, u, W(), b - {p});
      } else {
        size := next - start + HeadAt(head, next).size;
        MergeIntoTop(start, p);
        KeptOn(w, v, W(), b - {p});
      }
    }

    lemma BreakAtTop(t: Tags, s: int, p: int)
      requires Opened(t, s, p)
      ensures t.brk == End(t, t.top)
    {
      InsideHeap(t, t.top);
    }

    // The chunks from s on become top.
    method MergeIntoTop(s: int, p: int)
      requires Sound(S()) && Opened(T(), s, p) && End(T(), p) == top
      modifies this`head, this`own, this`top
      ensures Sound(S()) && Loosened(T()) == {}
      ensures Blocks(T()) == old(Blocks(T())) - {p} && SpilledOnes(T()) == old(SpilledOnes(T())) - {p}
      ensures top == s && HeadAt(head, top).size == old(top - s + Size(T(), top))
      ensures Kept(old(W()), W(), old(Blocks(T())) - {p})
    {
      hide Sound, Opened, Blocks, Loosened, SpilledOnes, Kept;
      ghost var u := TopOpened(S(), s, p);
      MergeTopWords(S(), s, p);
      BreakAtTop(T(), s, p);
      head := head[s := Head(top - s + HeadAt(head, top).size, true)];
      own := Outer(own, s, brk)[s := Top];
      top := s;
    }

    // ---------- malloc_consolidate ----------

    // Fastbin k is emptied; its chunks are now only known through their links.
    method SpillFastbin(k: nat)
      requires Sound(S()) && k < NFASTBINS
      modifies this`fast, this`own, this`chains
      ensures S() == Cleared(old(S()), k) && Sound(S())
    {
      hide Sound, SpillAll;
      SoundParts(S());
      hide Filing, Heap;
      ClearedSound(S(), k);
      own := SpillAll(own, chains[k]);
      fast := fast[k := 0];
      chains := chains[k := []];
    }

    // The chunks still to be merged, from p on.
    ghost predicate Rest(p: int, rest: seq<int>)
      reads this`head, this`foot, this`own, this`top, this`brk, this`fd
    {
      Chain(fd, p, rest) && NoDup(rest) && SpilledOnes(T()) == set q | q in rest
    }

    lemma SpilledRest(s: State, k: nat)
      requires Sound(s) && k < NFASTBINS && SpilledOnes(s.t) == {} && S() == Cleared(s, k)
      ensures Rest(s.l.fast[k], s.l.chains[k])
      ensures Blocks(T()) == Blocks(s.t) && Loosened(T()) == Loosened(s.t)
    {
      ClearedKinds(s, k);
      assert Chain(s.l.fd, s.l.fast[k], s.l.chains[k]);
      assert NoDup(s.l.chains[k]);
    }

    lemma RestStep(p: int, rest: seq<int>)
      requires Rest(p, rest) && p != 0
      ensures rest != [] && p == rest[0] && p in own && own[p].Spilled? && p !in Blocks(T())
      ensures Chain(fd, WordAt(fd, p), rest[1..]) && NoDup(rest[1..])
      ensures (set q | q in rest[1..]) == (set q | q in rest) - {p}
    {
      assert p in SpilledOnes(T());
      RemoveExactly(rest, 0);
      assert Remove(rest, 0) == rest[1..];
    }

    // One chunk of a spilled chain is merged.
    method MergeSpilled(p: int, ghost rest: seq<int>) returns (nextp: int)
      requires Sound(S()) && Loosened(T()) == {} && Rest(p, rest) && p != 0 && any
      modifies this`head, this`foot, this`fd, this`bk, this`own, this`bins, this`top
      ensures Sound(S()) && Loosened(T()) == {} && rest != [] && Rest(nextp, rest[1..])
      ensures Blocks(T()) == old(Blocks(T()))
      ensures Kept(old(W()), W(), old(Blocks(T())))
    {
      hide Sound, Blocks, Loosened, Kept;
      RestStep(p, rest);
      nextp := WordAt(fd, p);
      ghost var before := fd;
      hide SpilledOnes, Rest;
      var size, s := Coalesce(p);
      ChainFrame(before, fd, nextp, rest[1..]);
      assert old(Blocks(T())) - {p} == old(Blocks(T()));
      FoldRest(nextp, rest[1..]);
    }

    lemma FoldRest(p: int, rest: seq<int>)
      requires Chain(fd, p, rest) && NoDup(rest) && SpilledOnes(T()) == set q | q in rest
      ensures Rest(p, rest)
    {
    }

    // The chunks of fastbin k are merged with their free neighbours.
    method EmptyFastbin(k: nat)
      requires Sound(S()) && Settled(T()) && k < NFASTBINS && any
      modifies this`head, this`foot, this`fd, this`bk, this`own, this`bins, this`top, this`fast, this`chains
      ensures Sound(S()) && Settled(T()) && Blocks(T()) == old(Blocks(T()))
      ensures Kept(old(W()), W(), old(Blocks(T())))
      ensures |old(chains)| == NFASTBINS && chains == old(chains)[k := []]
    {
      ghost var s := S();
      assert Shape(s.l);
      hide Sound, Blocks, Loosened, SpilledOnes, Rest, Chain, Kept;
      var p := fast[k];
      ghost var rest := chains[k];
      SpillFastbin(k);
      SpilledRest(s, k);
      ghost var w, b := W(), Blocks(T());
      KeptSame(w, b);
      while p != 0
        invariant Sound(S()) && Loosened(T()) == {} && Rest(p, rest) && any
        invariant Blocks(T()) == Blocks(s.t) && chains == s.l.chains[k := []] && Kept(w, W(), b)
        decreases |rest|
      {
        ghost var v := W();
        p := MergeSpilled(p, rest);
        KeptOn(w, v, W(), b);
        rest := rest[1..];
      }
      NothingLeft(rest);
    }

    lemma NothingLeft(rest: seq<int>)
      requires Rest(0, rest)
      ensures rest == [] && SpilledOnes(T()) == {}
    {
    }

    // malloc_consolidate of an allocator in use; the flag FASTCHUNKS is not read in between.
    method ConsolidateFastbins()
      requires Sound(S()) && Settled(T()) && any
      modifies this`head, this`foot, this`fd, this`bk, this`own, this`bins, this`top, this`fast, this`chains,
        this`fastChunks
      ensures Sound(S()) && Settled(T()) && Blocks(T()) == old(Blocks(T())) && !fastChunks
      ensures Kept(old(W()), W(), old(Blocks(T())))
    {
      ghost var blocks := Blocks(T());
      SoundParts(S());
      hide Sound, Settled, Blocks, Filing, Heap, Kept;
      ghost var w := W();
      KeptSame(w, blocks);
      var k := 0;
      while k < 8
        invariant 0 <= k <= 8 && Sound(S()) && Settled(T()) && any && |chains| == NFASTBINS
        invariant Blocks(T()) == blocks && forall j | 0 <= j < k :: chains[j] == []
        invariant Kept(w, W(), blocks)
      {
        ghost var v := W();
        EmptyFastbin(k);
        KeptOn(w, v, W(), blocks);
        k := k + 1;
      }
      NoneAboveMaxFast(S());
      fastChunks := false;
      Unflagged(S());
    }

    lemma Unflagged(s: State)
      requires Sound(s.(fast := true)) || Sound(s.(fast := false))
      requires !s.fast && Shape(s.l) && forall k | 0 <= k < NFASTBINS :: s.l.chains[k] == []
      ensures Sound(s)
    {
    }

    // ---------- initialisation ----------

    ghost predicate Ground()
      reads this
    {
      0 < base <= brk <= limit < HALF && base % PAGE == 0
    }

    ghost predicate Valid()
      reads this
    {
      Ground() && if initialised then Sound(S()) && Settled(T()) else Zeroed(S())
    }

    constructor (base: int, limit: int)
      requires 0 < base <= limit < HALF && base % PAGE == 0
      ensures Valid() && Blocks(T()) == map[] && this.base == base && this.limit == limit
    {
      this.base, this.limit, brk := base, limit, base;
      head, foot, fd, bk, fast := map[], map[], map[], map[], Zeroes(NFASTBINS);
      top, lastRemainder, marks, any, fastChunks, initialised := 0, 0, {}, false, false, false;
      own, bins, chains := map[], EmptyLists(NBINS), EmptyLists(NFASTBINS);
      new;
      hide *;
      Start();
    }

    lemma Start()
      requires 0 < base <= limit < HALF && base % PAGE == 0 && brk == base && head == map[] && own == map[]
      requires marks == {}
      requires !any && !fastChunks && !initialised
      requires fast == Zeroes(NFASTBINS) && bins == EmptyLists(NBINS) && chains == EmptyLists(NFASTBINS)
      ensures Valid() && Blocks(T()) == map[]
    {
      hide Sound, Settled, Blocks, Zeroed, EmptyLists, Zeroes;
      ZeroState(S());
    }

    method LinkHeaders()
      modifies this`fd, this`bk
      ensures forall i | 0 < i < NBINS :: Looped(fd, bk, i)
    {
      for i := 1 to NBINS
        invariant forall j | 0 < j < i :: Looped(fd, bk, j)
      {
        ghost var fd0, bk0 := fd, bk;
        fd, bk := fd[Header(i) := Header(i)], bk[Header(i) := Header(i)];
        forall j | 0 < j <= i
          ensures Looped(fd, bk, j)
        {
          assert j < i ==> Looped(fd0, bk0, j);
        }
      }
    }

    // malloc_init_state
    method InitState()
      requires Ground() && Zeroed(S())
      modifies this
      ensures Ground() && initialised && Sound(S()) && Settled(T()) && Bare(T()) && !any && !fastChunks
      ensures Blocks(T()) == map[] && brk == base && lastRemainder == old(lastRemainder)
    {
      hide Sound, Settled, Blocks, Looped, Zeroed, Bare;
      ghost var s := S();
      LinkHeaders();
      InitialSound(s, fd, bk);
      initialised, top := true, NO_TOP;
      assert S() == Initial(s, fd, bk);
    }

    // ---------- sbrk ----------

    method Sbrk(diff: int) returns (s: int)
      requires Ground() && -HALF <= diff < HALF
      modifies this`brk
      ensures Ground()
      ensures 0 <= diff && old(brk) + diff <= limit ==> s == old(brk) && brk == old(brk) + diff
      ensures diff < 0 || old(brk) + diff > limit ==> s == -1 && brk == old(brk)
    {
      s := brk;
      var c := s + diff;
      if c < brk || c > limit {
        return -1;
      }
      brk := c;
    }

    // sYSTRIm: this sbrk takes nothing back, so nothing is released and top need not be adjusted.
    method TrimTop() returns (released: int)
      requires Ground() && Sound(S()) && Tiled(T())
      modifies this`brk
      ensures released == 0 && brk == old(brk)
    {
      TopBelowBreak(T());
      hide Sound, Tiled;
      var topSize := HeadAt(head, top).size;
      var extra := ((topSize - MINSIZE + (PAGE - 1)) / PAGE - 1) * PAGE;
      released := 0;
      if extra > 0 {
        var current := Sbrk(0);
        if current == top + topSize {
          var _ := Sbrk(-extra);
          var now := Sbrk(0);
          released := current - now;
        }
      }
    }

    lemma TopBelowBreak(t: Tags)
      requires Tiled(t)
      ensures MINSIZE <= Size(t, t.top) <= t.brk
    {
      InsideHeap(t, t.top);
    }

    // ---------- free ----------

    method PushFast(p: int, size: int)
      requires Sound(S()) && Is(T(), p, Live) && size == Size(T(), p) && size <= MAX_FAST
      modifies this`fd, this`fast, this`own, this`chains, this`any, this`fastChunks
      ensures Sound(S()) && Blocks(T()) == old(Blocks(T())) - {p} && 0 <= size / 8 - 2 < 8
      ensures S() == Pushed(old(S()), size / 8 - 2, p)
      ensures Loosened(T()) == old(Loosened(T())) && SpilledOnes(T()) == old(SpilledOnes(T()))
      ensures Kept(old(W()), W(), old(Blocks(T())) - {p})
    {
      hide Sound, Blocks, Loosened, SpilledOnes, Is, Relabel, Pushed, Kept;
      var k := size / 8 - 2;
      PushedState(S(), p, k);
      ghost var s := S();
      any, fastChunks := true, true;
      fd := fd[p := fast[k]];
      fast := fast[k := p];
      own, chains := own[p := Fast(k)], chains[k := [p] + chains[k]];
      assert S() == Pushed(s, k, p);
    }

    // The state with p as the head of its fastbin.
    lemma PushedState(s: State, p: int, k: int)
      requires Sound(s) && Is(s.t, p, Live) && Size(s.t, p) <= MAX_FAST && k == Size(s.t, p) / 8 - 2
      ensures Shape(s.l) && 0 <= k < 8 && Sound(Pushed(s, k, p)) && Blocks(Pushed(s, k, p).t) == Blocks(s.t) - {p}
      ensures var t, l := s.t, s.l;
        Pushed(s, k, p) == State(
          Tags(t.head, t.foot, t.own[p := Fast(k)], t.top, t.base, t.brk),
          Lists(l.fd[p := l.fast[k]], l.bk, l.bins, l.fast[k := p], l.chains[k := [p] + l.chains[k]]),
          s.marks, true, true)
      ensures Loosened(Pushed(s, k, p).t) == Loosened(s.t) && SpilledOnes(Pushed(s, k, p).t) == SpilledOnes(s.t)
      ensures Kept(WordsOf(s), WordsOf(Pushed(s, k, p)), Blocks(s.t) - {p})
    {
      hide Sound, Blocks, Loosened, SpilledOnes, Filing, Heap, Push, Relabel, Pushed, Kept;
      SoundParts(s);
      FastSize(s, p);
      PushedSound(s, k, p);
      PushKept(s, k, p);
      RelabelBlocks(s.t, p, Fast(k));
      PushedFields(s, k, p);
    }

    lemma FastSize(s: State, p: int)
      requires Sound(s) && Is(s.t, p, Live) && Size(s.t, p) <= MAX_FAST
      ensures var k := Size(s.t, p) / 8 - 2; 0 <= k < 8 && Size(s.t, p) == 8 * (k + 2)
      ensures Loosened(s.t) - {p} == Loosened(s.t) && SpilledOnes(s.t) - {p} == SpilledOnes(s.t)
    {
      NotBare(s, p);
      assert Placed(s.t, p);
    }

    // fREe: exactly the block given back is no longer handed out.
    method Free(mem: int)
      requires Valid() && (mem == 0 || mem - MEM_OFFSET in Blocks(T()))
      modifies this
      ensures Valid()
      ensures Blocks(T()) == if mem == 0 then old(Blocks(T())) else old(Blocks(T())) - {mem - MEM_OFFSET}
      ensures mem != 0 && old(Size(T(), mem - MEM_OFFSET)) <= MAX_FAST ==>
        var k := old(Size(T(), mem - MEM_OFFSET)) / 8 - 2;
        0 <= k < 8 && S() == Pushed(old(S()), k, mem - MEM_OFFSET)
      ensures mem != 0 && old(Size(T(), mem - MEM_OFFSET)) > MAX_FAST ==>
        var p := mem - MEM_OFFSET; Merged(old(S()), p, old(MergeStart(T(), p)), old(MergeEnd(T(), p)))
      ensures lastRemainder == old(lastRemainder)
      ensures Kept(old(W()), W(), if mem == 0 then old(Blocks(T())) else old(Blocks(T())) - {mem - MEM_OFFSET})
    {
      if mem == 0 {
        KeptSame(W(), Blocks(T()));
        return;
      }
      var p := mem - MEM_OFFSET;
      assert Is(T(), p, Live);
      LiveInitialised(p);
      var size := HeadAt(head, p).size;
      hide Sound, Settled, Blocks, Kept, Pushed, Merged;
      Settles(T());
      if size <= MAX_FAST {
        PushFast(p, size);
        Unsettles(T());
      } else {
        FreeBig(p);
      }
    }

    lemma Unsettles(t: Tags)
      requires Loosened(t) == {} && SpilledOnes(t) == {}
      ensures Settled(t)
    {
    }

    // The state after the block at p has been freed in state s and merged with its free neighbours
    // to the range from start to end. The freeing of a large range empties the fastbins; otherwise
    // they stay, and the range is top or the most recent unsorted chunk.
    ghost predicate Merged(s: State, p: int, start: int, end: int)
      reads this
    {
      && any && marks == s.marks && |fast| == NFASTBINS
      && (if end - start >= CONSOLIDATION_THRESHOLD then !fastChunks && forall k | 0 <= k < 8 :: fast[k] == 0
          else fastChunks == s.fast && fast == s.l.fast && chains == s.l.chains)
      && (end - start < CONSOLIDATION_THRESHOLD || !s.fast ==>
            && Size(T(), start) == end - start
            && if End(s.t, p) == s.t.top then top == start else top == s.t.top && FirstUnsorted(start))
    }

    // A block too large for the fastbins is merged with its free neighbours.
    method FreeBig(p: int)
      requires Ground() && initialised && Sound(S()) && Settled(T()) && Is(T(), p, Live)
      modifies this
      ensures Ground() && initialised && Sound(S()) && Settled(T())
      ensures Blocks(T()) == old(Blocks(T())) - {p} && Kept(old(W()), W(), old(Blocks(T())) - {p})
      ensures Merged(old(S()), p, old(MergeStart(T(), p)), old(MergeEnd(T(), p))) && lastRemainder == old(lastRemainder)
    {
      hide Sound, Filing, Heap, Blocks, Loosened, SpilledOnes, Kept, MergeStart, MergeEnd, Merged, FirstUnsorted;
      AnySound(S());
      FastShape(S());
      any := true;
      ghost var w, b, u := W(), Blocks(T()) - {p}, S();
      var size, s := Coalesce(p);
      NotLive(u.t, p);
      if size >= CONSOLIDATION_THRESHOLD {
        ghost var v := W();
        FreeLarge(s);
        KeptOn(w, v, W(), b);
      }
      MergedNow(u, p, s, s + size);
    }

    lemma FastShape(s: State)
      requires Sound(s)
      ensures |s.l.fast| == NFASTBINS
    {
    }

    lemma MergedNow(s: State, p: int, start: int, end: int)
      requires any && marks == s.marks && |fast| == NFASTBINS
      requires end - start >= CONSOLIDATION_THRESHOLD ==> !fastChunks && forall k | 0 <= k < 8 :: fast[k] == 0
      requires end - start < CONSOLIDATION_THRESHOLD ==>
        fastChunks == s.fast && fast == s.l.fast && chains == s.l.chains
      requires end - start < CONSOLIDATION_THRESHOLD || !s.fast ==> Size(T(), start) == end - start
      requires end - start < CONSOLIDATION_THRESHOLD || !s.fast ==>
        if End(s.t, p) == s.t.top then top == start else top == s.t.top && FirstUnsorted(start)
      ensures forall a :: Merged(s.(any := a), p, start, end)
    {
    }

    lemma NotLive(t: Tags, p: int)
      requires Is(t, p, Live)
      ensures SpilledOnes(t) - {p} == SpilledOnes(t)
    {
    }

    // After a large chunk has been freed: consolidate, and try to trim.
    method FreeLarge(ghost s: int)
      requires Ground() && initialised && Sound(S()) && Settled(T()) && any
      modifies this
      ensures Ground() && initialised && Sound(S()) && Settled(T()) && Blocks(T()) == old(Blocks(T()))
      ensures any && marks == old(marks) && lastRemainder == old(lastRemainder)
      ensures !fastChunks && |fast| == NFASTBINS && forall k | 0 <= k < 8 :: fast[k] == 0
      ensures !old(fastChunks) ==> top == old(top) && Size(T(), s) == old(Size(T(), s))
      ensures !old(fastChunks) && old(FirstUnsorted(s)) ==> FirstUnsorted(s)
      ensures Kept(old(W()), W(), old(Blocks(T())))
    {
      hide Sound, Blocks, Settled, Kept;
      KeptSame(W(), Blocks(T()));
      if fastChunks {
        ConsolidateFastbins();
      }
      FastEmpty(S());
      if HeadAt(head, top).size >= TRIM_THRESHOLD {
        HasTop(S());
        var released := TrimTop();
      }
    }

    lemma FastEmpty(s: State)
      requires Sound(s) && !s.fast
      ensures Shape(s.l) && forall k | 0 <= k < 8 :: s.l.fast[k] == 0
    {
      forall k | 0 <= k < 8
        ensures s.l.fast[k] == 0
      {
        NoFast(s, k);
      }
    }

    lemma HasTop(s: State)
      requires Sound(s) && Size(s.t, s.t.top) > 0
      ensures Tiled(s.t)
    {
    }

    // ---------- sorting the unsorted chunks into bins ----------

    // The size word as one number.
    function Word(p: int): int
      reads this`head
    {
      HeadAt(head, p).size + if HeadAt(head, p).pinuse then 1 else 0
    }

    // Chunks of a bin have a set PREV_INUSE bit in their size word.
    lemma WordInBin(i: int, k: nat)
      requires Sound(S()) && 0 < i < NBINS && k < |bins[i]|
      ensures Word(bins[i][k]) == Size(T(), bins[i][k]) + 1
    {
      InBin(T(), L(), i, k);
      NotBare(S(), bins[i][k]);
      assert Honest(T(), bins[i][k]);
    }

    // At the end if no chunk of the bin is smaller, else in front of all that are not larger.
    ghost predicate LargePlace(b: seq<int>, k: nat, size: int)
      reads this`head, this`foot, this`own, this`top, this`brk
    {
      if b == [] || size <= Size(T(), b[|b| - 1]) then k == |b|
      else k < |b| && Size(T(), b[k]) <= size && (k > 0 ==> Size(T(), b[k - 1]) > size)
    }

    // The place of a large chunk in its bin. A chunk as small as the smallest goes to the end.
    method FindPlace(bin: int, size: int, ghost i: int) returns (bck: int, fwd: int, ghost k: nat)
      requires Sound(S()) && NSMALLBINS <= i < NBINS && bin == Header(i)
      ensures k <= |bins[i]| && KeepsOrder(T(), bins[i], k, size)
      ensures bck == Round(bin, bins[i])[k] && fwd == Round(bin, bins[i])[k + 1]
      ensures LargePlace(bins[i], k, size)
    {
      hide Sound, Heap, Filing, KeepsOrder;
      SoundParts(S());
      ghost var n := |bins[i]|;
      AtHeader(T(), L(), i);
      bck, fwd, k := bin, WordAt(fd, bin), 0;
      if fwd == bck {
        EmptyOrder(S(), i, size);
      } else {
        EmptyRound(bin, bins[i], fwd);
        WordInBin(i, n - 1);
        if size < Word(WordAt(bk, bck)) {
          OrderAt(S(), i, n, size);
          fwd, bck, k := bck, WordAt(bk, bck), n;
        } else {
          fwd, k := WalkDown(fwd, size, i);
          InBin(T(), L(), i, k);
          bck := WordAt(bk, fwd);
          OrderAt(S(), i, k, size);
        }
      }
    }

    // From the first chunk to the first that is not larger.
    method WalkDown(first: int, size: int, ghost i: int) returns (fwd: int, ghost k: nat)
      requires Sound(S()) && NSMALLBINS <= i < NBINS && bins[i] != [] && first == bins[i][0]
      requires size > Size(T(), bins[i][|bins[i]| - 1])
      ensures k < |bins[i]| && fwd == bins[i][k] && Size(T(), fwd) <= size
      ensures (k > 0 ==> Size(T(), bins[i][k - 1]) > size)
    {
      hide Sound, Heap, Filing;
      SoundParts(S());
      fwd, k := first, 0;
      WordInBin(i, 0);
      while size + 1 < Word(fwd)
        invariant k < |bins[i]| && fwd == bins[i][k] && Word(fwd) == Size(T(), fwd) + 1
        invariant k > 0 ==> Size(T(), bins[i][k - 1]) > size
        decreases |bins[i]| - k
      {
        InBin(T(), L(), i, k);
        fwd, k := WordAt(fd, fwd), k + 1;
        WordInBin(i, k);
      }
    }

    lemma EmptyOrder(s: State, i: int, size: int)
      requires Sound(s) && NSMALLBINS <= i < NBINS && WordAt(s.l.fd, Header(i)) == Header(i)
      ensures s.l.bins[i] == [] && KeepsOrder(s.t, s.l.bins[i], 0, size)
    {
      AtHeader(s.t, s.l, i);
      if s.l.bins[i] != [] {
        InBin(s.t, s.l, i, 0);
      }
    }

    // In a sorted bin it suffices to look at the neighbours.
    lemma OrderAt(s: State, i: int, k: nat, size: int)
      requires Sound(s) && NSMALLBINS <= i < NBINS && k <= |s.l.bins[i]|
      requires k > 0 ==> Size(s.t, s.l.bins[i][k - 1]) >= size
      requires k < |s.l.bins[i]| ==> Size(s.t, s.l.bins[i][k]) <= size
      ensures KeepsOrder(s.t, s.l.bins[i], k, size)
    {
      assert Descending(s.t, s.l.bins[i]);
    }

    lemma EmptyRound(h: int, s: seq<int>, x: int)
      requires x == Round(h, s)[1] && x != h
      ensures s != [] && x == s[0] && Round(h, s)[|s|] == s[|s| - 1]
    {
    }

    // Placing a loose chunk in the bin of its size.
    method PlaceChunk(victim: int, size: nat) returns (ghost i: int, ghost k: nat)
      requires Sound(S()) && Is(T(), victim, Loose) && size == Size(T(), victim) && any
      modifies this`fd, this`bk, this`own, this`bins, this`marks
      ensures Sound(S()) && i == IndexOf(size) && 2 <= i < NBINS && k <= |old(bins)[i]|
      ensures if Small(size) then k == 0 else old(LargePlace(bins[i], k, size))
      ensures T() == Relabel(old(T()), victim, Bin(i)) && bins == old(bins)[i := Insert(old(bins)[i], k, victim)]
      ensures Kept(old(W()), W(), old(Blocks(T())))
    {
      hide Sound, Heap, Filing, KeepsOrder, LargePlace, Kept;
      SoundParts(S());
      LooseSize(S(), victim);
      var victimIndex := IndexOf(size);
      var bin := Header(victimIndex);
      i, k := victimIndex, 0;
      var bck, fwd := bin, WordAt(fd, bin);
      if Small(size) {
        AtHeader(T(), L(), i);
      } else {
        bck, fwd, k := FindPlace(bin, size, i);
      }
      MarkSound(S(), i);
      marks := marks + {victimIndex};
      LinkChunk(victim, bck, fwd, i, k);
    }

    lemma LooseSize(s: State, p: int)
      requires Sound(s) && Is(s.t, p, Loose)
      ensures Size(s.t, p) >= MINSIZE && Size(s.t, p) % ALIGN == 0 && p > 0 && p % ALIGN == 0
      ensures 2 <= IndexOf(Size(s.t, p)) < NBINS && (Small(Size(s.t, p)) <==> IndexOf(Size(s.t, p)) < NSMALLBINS)
    {
      NotBare(s, p);
      assert Placed(s.t, p);
      IndexRange(Size(s.t, p));
    }

    lemma MarkSound(s: State, i: int)
      requires Sound(s) && 2 <= i < NBINS
      ensures Sound(s.(marks := s.marks + {i}))
    {
    }

    // ---------- granting a chunk ----------

    // The block at p has just been handed out for a request padded to nb bytes; blocks were
    // those handed out before.
    ghost predicate Handed(blocks: map<int, int>, p: int, nb: int)
      reads this`head, this`foot, this`own, this`top, this`brk, this`fd, this`bk, this`bins, this`fast, this`chains,
        this`marks, this`any, this`fastChunks
    {
      && Sound(S()) && Settled(T()) && p > 0 && p % ALIGN == 0 && p !in blocks
      && Blocks(T()) == blocks[p := Size(T(), p)] && nb <= Size(T(), p) < nb + MINSIZE
    }

    // p has been taken off its list and is the only chunk between two lists.
    ghost predicate Detached(blocks: map<int, int>, p: int)
      reads this`head, this`foot, this`own, this`top, this`brk, this`fd, this`bk, this`bins, this`fast, this`chains,
        this`marks, this`any, this`fastChunks
    {
      && Sound(S()) && Is(T(), p, Loose) && Loosened(T()) == {p} && SpilledOnes(T()) == {}
      && p !in blocks && Blocks(T()) == blocks
      && p > 0 && p % ALIGN == 0 && Size(T(), p) >= MINSIZE && Size(T(), p) % ALIGN == 0
    }

    predicate Padded(nb: int) {
      MINSIZE <= nb < WORD && nb % ALIGN == 0
    }

    method DetachLast(victim: int, bin: int, ghost i: int)
      requires Sound(S()) && Settled(T()) && 0 < i < NBINS && bins[i] != [] && bin == Header(i)
      requires victim == bins[i][|bins[i]| - 1]
      modifies this`fd, this`bk, this`own, this`bins
      ensures Blocks(T()) == old(Blocks(T())) && Detached(Blocks(T()), victim)
      ensures T() == Relabel(old(T()), victim, Loose) && Shape(L()) && SameFree(old(T()), T())
      ensures bins == old(bins)[i := old(bins)[i][..|old(bins)[i]| - 1]]
      ensures Kept(old(W()), W(), old(Blocks(T())))
    {
      hide Sound, Settled, Blocks, Loosened, SpilledOnes, Filing, Heap, Kept;
      SoundParts(S());
      InBin(T(), L(), i, |bins[i]| - 1);
      ghost var p, u := UnlinkedBlocks(S(), i, |bins[i]| - 1);
      RemoveLast(bins[i]);
      UnlinkLast(victim, bin, i);
      SoundParts(S());
    }

    // The whole chunk is handed out.
    method GrantWhole(p: int, nb: int)
      requires Detached(Blocks(T()), p) && 0 < nb <= Size(T(), p) < nb + MINSIZE
      modifies this`head, this`own
      ensures Handed(old(Blocks(T())), p, nb) && Size(T(), p) == old(Size(T(), p)) && T() == Exhaust(old(T()), p)
      ensures Taken(T(), p, nb) == old(Size(T(), p)) && End(T(), p) != top && !IsFree(T(), p + nb)
      ensures Kept(old(W()), W(), old(Blocks(T())))
    {
      hide Sound, Blocks, Loosened, SpilledOnes, Exhaust, Taken, Tiled, Kept;
      ExhaustKept(T(), p, 0);
      NotBare(S(), p);
      ExhaustTaken(T(), p, nb);
      HandOut(p);
    }

    // Its first nb bytes are handed out.
    method GrantFront(p: int, nb: int)
      requires Detached(Blocks(T()), p) && Splittable(T(), p, nb) && |bins| == NBINS && bins[1] == [] && any
      modifies this`head, this`foot, this`fd, this`bk, this`own, this`bins
      ensures Handed(old(Blocks(T())), p, nb) && Size(T(), p) == nb && IsFree(T(), p + nb)
      ensures T() == Relabel(Split(old(T()), p, nb), p + nb, Bin(1)) && |bins| == NBINS && bins[1] == [p + nb]
      ensures Taken(T(), p, nb) == old(Size(T(), p)) && End(T(), p) != top
      ensures Kept(old(W()), W(), old(Blocks(T())))
    {
      hide Sound, Blocks, Loosened, SpilledOnes, Splittable, Split, Taken, Tiled, Kept;
      NotBare(S(), p);
      SplitTaken(T(), p, nb);
      SplitChunk(p, nb);
    }

    // ---------- the unsorted chunks ----------

    // The block is a free chunk of exactly this size.
    ghost predicate ExactFit(p: int, nb: int)
      reads this`head, this`foot, this`own, this`top, this`brk
    {
      Size(T(), p) == nb == Taken(T(), p, nb) && End(T(), p) != top && !IsFree(T(), p + nb)
    }

    // The rest of a chunk split for a request is the only unsorted chunk, and the last remainder
    // if the request is small; otherwise the last remainder is still rem.
    ghost predicate Remembers(rem: int, p: int, nb: int)
      reads this`head, this`foot, this`own, this`top, this`brk, this`bins, this`lastRemainder
    {
      && lastRemainder == (if Small(nb) && IsFree(T(), p + nb) then p + nb else rem)
      && (IsFree(T(), p + nb) ==> |bins| == NBINS && bins[1] == [p + nb])
    }

    // The block is what the unsorted chunks of state s offer, if they offer any.
    ghost predicate Preferred(s: State, rem: int, p: int, nb: int)
      requires Shape(s.l)
      reads this`head, this`foot, this`own, this`top, this`brk, this`bins, this`lastRemainder
    {
      var q := Choice(s.t, s.l.bins[1], rem, nb);
      q != 0 ==> p == q && if Size(s.t, q) == nb then ExactFit(p, nb) else Continued(rem, p, nb)
    }

    // The block was cut from rem, the last remainder before, which was the only unsorted chunk.
    ghost predicate Continued(rem: int, p: int, nb: int)
      reads this`head, this`foot, this`own, this`top, this`brk, this`bins, this`lastRemainder
    {
      && Small(nb) && p == rem && lastRemainder == p + nb && Size(T(), p) == nb
      && IsFree(T(), p + nb) && Size(T(), p + nb) > MINSIZE && |bins| == NBINS && bins[1] == [p + nb]
    }

    // The last remainder is used: the request is small, and the chunk the only unsorted one and large enough.
    ghost predicate Continues(nb: int)
      reads this`head, this`foot, this`own, this`top, this`brk, this`bins, this`lastRemainder
    {
      Small(nb) && |bins| == NBINS && bins[1] == [lastRemainder] && Size(T(), lastRemainder) > nb + MINSIZE
    }

    // One unsorted chunk is handed out or put into its bin.
    method UnsortedTurn(victim: int, nb: int) returns (p: int)
      requires Sound(S()) && Settled(T()) && any && Padded(nb) && |bins| == NBINS && bins[1] != []
      requires victim == bins[1][|bins[1]| - 1]
      modifies this`head, this`foot, this`fd, this`bk, this`own, this`bins, this`marks, this`lastRemainder
      ensures p == if old(Continues(nb) || Size(T(), victim) == nb) then victim else 0
      ensures p == 0 ==> Sound(S()) && Settled(T()) && Blocks(T()) == old(Blocks(T())) && |bins| == NBINS
      ensures p == 0 ==> bins[1] == old(bins)[1][..|old(bins)[1]| - 1] && lastRemainder == old(lastRemainder)
      ensures p == 0 ==> head == old(head) && SameFree(old(T()), T())
      ensures p == 0 && Small(nb) && old(bins)[IndexOf(nb)] == [] ==> bins[IndexOf(nb)] == []
      ensures p != 0 ==> Handed(old(Blocks(T())), p, nb)
      ensures p != 0 ==> if old(Continues(nb)) then Continued(old(lastRemainder), p, nb) else ExactFit(p, nb)
      ensures p != 0 ==> Remembers(old(lastRemainder), p, nb)
      ensures Kept(old(W()), W(), old(Blocks(T())))
    {
      hide Sound, Settled, Blocks, Detached, IndexOf, Relabel, Handed, SameFree, Kept, Continues, Continued, ExactFit,
        Remembers;
      TurnContinues(victim, nb);
      IndexRange(nb);
      var bck := WordAt(bk, victim);
      var size := HeadAt(head, victim).size;
      ghost var w, b, t := W(), Blocks(T()), T();
      DetachLast(victim, UNSORTED, 1);
      ghost var v, u, rem := W(), T(), lastRemainder;
      DetachedSize(victim);
      p := 0;
      if Small(nb) && bck == UNSORTED && victim == lastRemainder && size > nb + MINSIZE {
        lastRemainder := victim + nb;
        GrantFront(victim, nb);
        FrontContinued(rem, victim, nb);
        p := victim;
      } else if size == nb {
        GrantWhole(victim, nb);
        WholeFits(rem, victim, nb);
        p := victim;
      } else {
        PlaceUnsorted(victim, size, nb);
        SameFreeOn(t, u, T());
      }
      KeptOn(w, v, W(), b);
    }

    // The tests of the source for using the last remainder.
    lemma TurnContinues(victim: int, nb: int)
      requires Sound(S()) && |bins| == NBINS && bins[1] != [] && victim == bins[1][|bins[1]| - 1]
      ensures Continues(nb) <==>
        Small(nb) && WordAt(bk, victim) == UNSORTED && victim == lastRemainder && Size(T(), victim) > nb + MINSIZE
      ensures WordAt(bk, victim) == UNSORTED ==> bins[1] == [victim]
    {
      AloneInBin(S(), 1);
    }

    lemma FrontContinued(rem: int, p: int, nb: int)
      requires Small(nb) && p == rem && lastRemainder == p + nb && Size(T(), p) == nb && IsFree(T(), p + nb)
      requires Size(T(), p + nb) > MINSIZE && |bins| == NBINS && bins[1] == [p + nb]
      ensures Continued(rem, p, nb) && Remembers(rem, p, nb)
    {
    }

    lemma WholeFits(rem: int, p: int, nb: int)
      requires Size(T(), p) == nb == Taken(T(), p, nb) && End(T(), p) != top && !IsFree(T(), p + nb)
      requires lastRemainder == rem
      ensures ExactFit(p, nb) && Remembers(rem, p, nb)
    {
    }

    lemma DetachedSize(p: int)
      requires Detached(Blocks(T()), p)
      ensures p > 0 && Size(T(), p) >= MINSIZE && Size(T(), p) % ALIGN == 0 && p in own
    {
    }

    // The traversed chunk goes into the bin of its size, which is not that of a small request.
    method PlaceUnsorted(victim: int, size: nat, nb: int)
      requires Detached(Blocks(T()), victim)
      requires size == Size(T(), victim) && size != nb && Padded(nb) && any && |bins| == NBINS
      modifies this`fd, this`bk, this`own, this`bins, this`marks
      ensures Sound(S()) && Settled(T()) && Blocks(T()) == old(Blocks(T())) && |bins| == NBINS
      ensures bins[1] == old(bins)[1] && SameFree(old(T()), T())
      ensures Small(nb) && old(bins)[IndexOf(nb)] == [] ==> bins[IndexOf(nb)] == []
      ensures Kept(old(W()), W(), old(Blocks(T())))
    {
      hide Sound, Settled, Blocks, Loosened, SpilledOnes, IndexOf, Insert, Kept;
      LinkedBlocks(T(), victim);
      IndexRange(nb);
      var i, k := PlaceChunk(victim, size);
      if Small(nb) && IndexOf(nb) == i {
        SmallBinExact(nb, size);
      }
    }

    // The loop over the unsorted chunks.
    method UseUnsorted(nb: int) returns (p: int)
      requires Sound(S()) && Settled(T()) && any && Padded(nb) && (Small(nb) ==> bins[IndexOf(nb)] == [])
      modifies this`head, this`foot, this`fd, this`bk, this`own, this`bins, this`marks, this`lastRemainder
      ensures old(Shape(L())) && p == old(Choice(T(), bins[1], lastRemainder, nb))
      ensures p == 0 ==>
        Sound(S()) && Settled(T()) && Blocks(T()) == old(Blocks(T())) && |bins| == NBINS && bins[1] == []
      ensures p == 0 ==> lastRemainder == old(lastRemainder) && (Small(nb) ==> bins[IndexOf(nb)] == [])
      ensures p == 0 ==> head == old(head) && SameFree(old(T()), T())
      ensures p != 0 ==> Handed(old(Blocks(T())), p, nb) && Remembers(old(lastRemainder), p, nb)
      ensures p != 0 ==> if old(Size(T(), p)) == nb then ExactFit(p, nb) else Continued(old(lastRemainder), p, nb)
      ensures Kept(old(W()), W(), old(Blocks(T())))
    {
      hide Sound, Settled, Blocks, IndexOf, Filing, Heap, Handed, Continued, ExactFit, Remembers, SameFree, Choice,
        Kept, PassedOver, Continues, Reusable;
      SoundParts(S());
      IndexRange(nb);
      ghost var w, blocks, t, b := W(), Blocks(T()), T(), bins[1];
      KeptSame(w, blocks);
      AtHeader(T(), L(), 1);
      var victim := WordAt(bk, UNSORTED);
      p := 0;
      SameFreeSelf(t);
      PassedNone(t, b, lastRemainder, nb);
      while victim != UNSORTED
        invariant Sound(S()) && Settled(T()) && Blocks(T()) == blocks && |bins| == NBINS
        invariant victim == Round(UNSORTED, bins[1])[|bins[1]|]
        invariant victim == UNSORTED <==> bins[1] == []
        invariant Small(nb) ==> bins[IndexOf(nb)] == []
        invariant bins[1] <= b && lastRemainder == old(lastRemainder) && head == t.head && SameFree(t, T())
        invariant PassedOver(t, b, |bins[1]|, lastRemainder, nb)
        invariant Kept(w, W(), blocks)
        decreases |bins[1]|
      {
        ghost var v, u, n := W(), T(), |bins[1]| - 1;
        LastPositive(S(), 1);
        StopsAt(t, b, n, nb);
        p := UnsortedTurn(victim, nb);
        KeptOn(w, v, W(), blocks);
        if p != 0 {
          return;
        }
        SameFreeOn(t, u, T());
        SoundParts(S());
        AtHeader(T(), L(), 1);
        victim := WordAt(bk, UNSORTED);
      }
      NoneChosen(t, b, lastRemainder, nb);
      p := 0;
    }

    // The turn at position n of the unsorted chunks b hands out the chunk there if it is the choice,
    // and passes over it otherwise.
    lemma StopsAt(t: Tags, b: seq<int>, n: nat, nb: int)
      requires n < |b| && |bins| == NBINS && bins[1] == b[..n + 1] && head == t.head
      requires PassedOver(t, b, n + 1, lastRemainder, nb)
      ensures if Continues(nb) || Size(t, b[n]) == nb then Choice(t, b, lastRemainder, nb) == b[n]
        else PassedOver(t, b, n, lastRemainder, nb)
      ensures Continues(nb) ==> Size(t, b[n]) != nb
    {
      if Size(t, b[n]) == nb {
        ChoiceExact(t, b, lastRemainder, n, nb);
      } else if Continues(nb) {
        ChoiceInexact(t, b, lastRemainder, nb);
      }
    }

    // ---------- searching the bins ----------

    // The free chunk that the block at p was taken from is a smallest one that fits.
    ghost predicate FromBest(p: int, nb: int)
      reads this`head, this`foot, this`own, this`top, this`brk
    {
      BestFit(T(), nb, Taken(T(), p, nb), p + nb) && End(T(), p) != top
    }

    // The chunk p, chosen by best fit, is handed out: as a whole if less than a minimal chunk
    // would remain.
    method GrantPart(p: int, nb: int)
      requires Detached(Blocks(T()), p) && nb <= Size(T(), p) && Padded(nb) && |bins| == NBINS && bins[1] == [] && any
      requires BestFit(T(), nb, Size(T(), p), p + nb)
      modifies this`head, this`foot, this`fd, this`bk, this`own, this`bins, this`lastRemainder
      ensures Handed(old(Blocks(T())), p, nb) && Taken(T(), p, nb) == old(Size(T(), p)) && FromBest(p, nb)
      ensures Remembers(old(lastRemainder), p, nb)
      ensures Kept(old(W()), W(), old(Blocks(T())))
    {
      hide Sound, Blocks, Handed, BestFit, Loosened, SpilledOnes, FreeKept, Exhaust, Split, Taken, Kept;
      var size := HeadAt(head, p).size;
      ghost var t := T();
      if size - nb < MINSIZE {
        ExhaustKept(t, p, p + nb);
        GrantWhole(p, nb);
        StillBest(t, T(), nb, size, p + nb);
      } else {
        SplitKept(t, p, nb);
        if Small(nb) {
          lastRemainder := p + nb;
        }
        GrantFront(p, nb);
        StillBest(t, T(), nb, size, p + nb);
      }
    }

    // The chunk at position k of bin i is taken off its list.
    method Detach(victim: int, ghost i: int, ghost k: nat)
      requires Sound(S()) && Settled(T()) && 0 < i < NBINS && k < |bins[i]| && victim == bins[i][k]
      modifies this`fd, this`bk, this`own, this`bins
      ensures Blocks(T()) == old(Blocks(T())) && Detached(Blocks(T()), victim)
      ensures T() == Relabel(old(T()), victim, Loose) && Shape(L()) && bins == old(bins)[i := Remove(old(bins)[i], k)]
      ensures Kept(old(W()), W(), old(Blocks(T())))
    {
      hide Sound, Settled, Blocks, Loosened, SpilledOnes, Filing, Heap, Remove, Kept;
      SoundParts(S());
      ghost var p, u := UnlinkedBlocks(S(), i, k);
      UnlinkChunk(victim, i, k);
      SoundParts(S());
    }

    // The scan of the request's own bin, from the smallest chunk up.
    method FindInBin(idx: int, nb: int) returns (victim: int, ghost k: nat)
      requires Sound(S()) && 2 <= idx < NBINS && |bins| == NBINS
      ensures var b := bins[idx]; victim == 0 ==> forall m | 0 <= m < |b| :: Size(T(), b[m]) < nb
      ensures var b := bins[idx]; victim != 0 ==> k < |b| && victim == b[k] && Size(T(), victim) >= nb
      ensures var b := bins[idx]; victim != 0 ==> forall m | k < m < |b| :: Size(T(), b[m]) < nb
    {
      hide Sound, Filing, Heap;
      SoundParts(S());
      var bin := Header(idx);
      ghost var b := bins[idx];
      AtHeader(T(), L(), idx);
      NoHeaders(S(), idx);
      victim, k := WordAt(bk, bin), |b|;
      while victim != bin
        invariant k <= |b| && victim == Round(bin, b)[k]
        invariant forall m | k <= m < |b| :: Size(T(), b[m]) < nb
        decreases k
      {
        InBin(T(), L(), idx, k - 1);
        k := k - 1;
        if HeadAt(head, victim).size >= nb {
          return;
        }
        victim := WordAt(bk, victim);
      }
      if k > 0 {
        RoundChunk(bin, b, k);
      }
      victim := 0;
    }

    lemma NoHeaders(s: State, i: int)
      requires Sound(s) && 0 < i < NBINS
      ensures Header(i) !in s.l.bins[i]
    {
      NotHeader(s.t.own, s.l, i);
    }

    lemma RoundChunk(h: int, s: seq<int>, k: nat)
      requires 0 < k <= |s|
      ensures Round(h, s)[k] in s
    {
      assert Round(h, s)[k] == s[k - 1];
    }

    // The chunk at position k is the last of bin b that fits.
    ghost predicate LastFit(t: Tags, b: seq<int>, k: int, nb: int) {
      0 <= k < |b| && Size(t, b[k]) >= nb && forall m | k < m < |b| :: Size(t, b[m]) < nb
    }

    // A large request is served from its own bin if a chunk there fits.
    method ScanBin(nb: int) returns (p: int)
      requires Sound(S()) && Settled(T()) && any && Padded(nb) && !Small(nb) && |bins| == NBINS && bins[1] == []
      modifies this`head, this`foot, this`fd, this`bk, this`own, this`bins, this`lastRemainder
      ensures p == 0 ==>
        S() == old(S()) && lastRemainder == old(lastRemainder) && NoneFits(T(), bins, 2, IndexOf(nb) + 1, nb)
      ensures p != 0 ==> Handed(old(Blocks(T())), p, nb) && Taken(T(), p, nb) == old(Size(T(), p)) && FromBest(p, nb)
      ensures p != 0 ==> Remembers(old(lastRemainder), p, nb)
      ensures p != 0 ==> old(Shape(L())) && 2 <= IndexOf(nb) < NBINS
      ensures p != 0 ==> exists k :: LastFit(old(T()), old(bins)[IndexOf(nb)], k, nb) && p == old(bins)[IndexOf(nb)][k]
      ensures Kept(old(W()), W(), old(Blocks(T())))
    {
      hide Sound, Settled, Filing, Heap, IndexOf, NoneFits, Blocks, Detached, Handed, BestFit, Taken, FromBest,
        Remove, Remembers, Kept;
      SoundParts(S());
      IndexRange(nb);
      var j := IndexOf(nb);
      LowerBinsTooSmall(T(), L(), nb);
      var victim, k := FindInBin(j, nb);
      p := 0;
      ghost var w, b := W(), Blocks(T());
      KeptSame(w, b);
      if victim != 0 {
        assert LastFit(T(), bins[j], k, nb);
        Settles(T());
        LeastFit(S(), nb, j, k);
        LeastFitOff(S(), nb, j, k);
        Detach(victim, j, k);
        ghost var v := W();
        GrantPart(victim, nb);
        KeptOn(w, v, W(), b);
        p := victim;
      } else {
        BinTooSmall(S(), j, nb);
      }
    }

    lemma Settles(t: Tags)
      requires Settled(t)
      ensures Loosened(t) == {} && SpilledOnes(t) == {}
    {
    }

    // Best fit is still best when the chunk is off its list.
    lemma LeastFitOff(s: State, nb: int, j: int, k: nat)
      requires Sound(s) && 0 < j < NBINS && k < |s.l.bins[j]|
      requires BestFit(s.t, nb, Size(s.t, s.l.bins[j][k]), s.l.bins[j][k] + nb)
      ensures var p := s.l.bins[j][k]; BestFit(Relabel(s.t, p, Loose), nb, Size(s.t, p), p + nb) && p > 0
    {
      InBin(s.t, s.l, j, k);
      var p := s.l.bins[j][k];
      UnlinkedKept(s.t, p, Loose, p + nb);
      StillBest(s.t, Relabel(s.t, p, Loose), nb, Size(s.t, p), p + nb);
    }

    // ---------- the binmap ----------

    // No bit of the block is set from position idx on.
    predicate NoBits(idx: int, block: int)
      reads this`marks
    {
      forall j | idx <= j < 32 * (block + 1) :: j !in marks
    }

    // Bins whose bit is clear are empty.
    lemma ClearMeansEmpty(s: State, lo: int, hi: int, nb: int)
      requires Sound(s) && 2 <= lo <= hi && NoneFits(s.t, s.l.bins, 2, lo, nb)
      requires forall j | lo <= j < hi :: j !in s.marks
      ensures NoneFits(s.t, s.l.bins, 2, hi, nb)
    {
      forall i | lo <= i < hi && i < NBINS
        ensures s.l.bins[i] == []
      {
        assert i !in s.marks;
      }
    }

    lemma Unmark(s: State, i: int, nb: int)
      requires Sound(s) && 2 <= i < NBINS && s.l.bins[i] == [] && NoneFits(s.t, s.l.bins, 2, i, nb)
      ensures Sound(s.(marks := s.marks - {i})) && NoneFits(s.t, s.l.bins, 2, i + 1, nb)
    {
    }

    // From the bin of position idx on, the first non-empty bin, found with the binmap. Bits of
    // bins that turn out to be empty are cleared.
    method FindMarked(start: int, nb: int) returns (victim: int, j: int)
      requires Sound(S()) && |bins| == NBINS && 2 < start <= NBINS && NoneFits(T(), bins, 2, start, nb)
      modifies this`marks
      ensures Sound(S())
      ensures victim == 0 ==> NoneFits(T(), bins, 2, NBINS, nb)
      ensures victim != 0 ==> start <= j < NBINS && bins[j] != [] && victim == bins[j][|bins[j]| - 1]
      ensures victim != 0 ==> NoneFits(T(), bins, 2, j, nb)
    {
      hide Sound, Filing, Heap, NoneFits;
      var idx := start;
      var block := idx / 32;
      while true
        invariant Sound(S()) && |bins| == NBINS && start <= idx <= NBINS && NoneFits(T(), bins, 2, idx, nb)
        invariant 0 <= block <= 3 && 32 * block <= idx <= 32 * (block + 1)
        decreases NBINS - idx
      {
        MarksBelow(S());
        if NoBits(idx, block) {
          idx, block := NextBlock(idx, block, nb);
          if block >= 3 {
            return 0, 0;
          }
        }
        idx := NextBit(idx, block, nb);
        SoundParts(S());
        AtHeader(T(), L(), idx);
        victim := WordAt(bk, Header(idx));
        if victim != Header(idx) {
          j := idx;
          LastPositive(S(), idx);
          return;
        }
        Unmark(S(), idx, nb);
        marks := marks - {idx};
        idx := idx + 1;
      }
    }

    lemma MarksBelow(s: State)
      requires Sound(s)
      ensures forall i | i in s.marks :: i < NBINS
    {
    }

    lemma LastPositive(s: State, i: int)
      requires Sound(s) && 0 < i < NBINS && s.l.bins[i] != []
      ensures s.l.bins[i][|s.l.bins[i]| - 1] > 0
    {
      InBin(s.t, s.l, i, |s.l.bins[i]| - 1);
    }

    // Skip the rest of the block and all blocks without a set bit.
    method NextBlock(idx0: int, block0: int, nb: int) returns (idx: int, block: int)
      requires Sound(S()) && |bins| == NBINS && 2 < idx0 <= NBINS && NoneFits(T(), bins, 2, idx0, nb)
      requires NoBits(idx0, block0)
      requires 0 <= block0 && 32 * block0 <= idx0 <= 32 * (block0 + 1)
      ensures block < 3 ==> idx0 <= idx && idx == 32 * block && NoneFits(T(), bins, 2, idx, nb) && !NoBits(idx, block)
      ensures block >= 3 ==> NoneFits(T(), bins, 2, NBINS, nb)
    {
      hide Sound, NoneFits;
      block := block0 + 1;
      ClearMeansEmpty(S(), idx0, 32 * block, nb);
      while block < 3 && NoBits(32 * block, block)
        invariant block0 < block && |bins| == NBINS && NoneFits(T(), bins, 2, 32 * block, nb)
        invariant (block <= 3 || block == block0 + 1)
      {
        ClearMeansEmpty(S(), 32 * block, 32 * (block + 1), nb);
        block := block + 1;
      }
      idx := 32 * block;
      if block >= 3 {
        FewerBins(T(), bins, 32 * block, nb);
      }
    }

    lemma FewerBins(t: Tags, bins: seq<seq<int>>, hi: int, nb: int)
      requires |bins| == NBINS && NoneFits(t, bins, 2, hi, nb) && hi >= NBINS
      ensures NoneFits(t, bins, 2, NBINS, nb)
    {
    }

    // Advance to the bin with the next set bit.
    method NextBit(idx0: int, block: int, nb: int) returns (idx: int)
      requires Sound(S()) && |bins| == NBINS && 2 < idx0 && NoneFits(T(), bins, 2, idx0, nb) && !NoBits(idx0, block)
      requires 0 <= block < 3
      requires 32 * block <= idx0
      ensures idx0 <= idx < 32 * (block + 1) && NoneFits(T(), bins, 2, idx, nb)
    {
      hide Sound, NoneFits;
      idx := idx0;
      while idx !in marks
        invariant idx0 <= idx < 32 * (block + 1) && forall j | idx0 <= j < idx :: j !in marks
        invariant exists j :: idx <= j < 32 * (block + 1) && j in marks
        decreases 32 * (block + 1) - idx
      {
        idx := idx + 1;
      }
      ClearMeansEmpty(S(), idx0, idx, nb);
    }

    // The search of the larger bins.
    method ScanMap(nb: int) returns (p: int)
      requires Sound(S()) && Settled(T()) && any && Padded(nb) && |bins| == NBINS && bins[1] == []
      requires NoneFits(T(), bins, 2, IndexOf(nb) + 1, nb)
      modifies this`head, this`foot, this`fd, this`bk, this`own, this`bins, this`marks, this`lastRemainder
      ensures p == 0 ==>
        Sound(S()) && T() == old(T()) && NoFit(T(), nb) && Settled(T()) && lastRemainder == old(lastRemainder)
      ensures p != 0 ==> Handed(old(Blocks(T())), p, nb) && Taken(T(), p, nb) == old(Size(T(), p)) && FromBest(p, nb)
      ensures p != 0 ==> Remembers(old(lastRemainder), p, nb)
      ensures p != 0 ==> exists j | IndexOf(nb) < j < NBINS ::
        old(bins)[j] != [] && p == old(bins)[j][|old(bins)[j]| - 1] && old(NoneFits(T(), bins, 2, j, nb))
      ensures Kept(old(W()), W(), old(Blocks(T())))
    {
      hide Sound, Settled, IndexOf, NoneFits, Blocks, Detached, Handed, BestFit, Taken, FromBest, NoFit, Filing,
        Heap, Remembers, Kept;
      IndexRange(nb);
      var victim, j := FindMarked(IndexOf(nb) + 1, nb);
      SoundParts(S());
      Settles(T());
      p := 0;
      ghost var w, b := W(), Blocks(T());
      KeptSame(w, b);
      if victim != 0 {
        ghost var k := |bins[j]| - 1;
        LeastFit(S(), nb, j, k);
        LeastFitOff(S(), nb, j, k);
        LargerBin(S(), j, k, nb);
        DetachLast(victim, Header(j), j);
        ghost var v := W();
        GrantPart(victim, nb);
        KeptOn(w, v, W(), b);
        p := victim;
      } else {
        NothingFits(S(), nb);
      }
    }

    // Every chunk of a bin above that of the request is big enough to use.
    lemma LargerBin(s: State, j: int, k: nat, nb: nat)
      requires Sound(s) && IndexOf(nb) < j < NBINS && 2 <= j && k < |s.l.bins[j]|
      ensures Size(s.t, s.l.bins[j][k]) >= nb
    {
      InBin(s.t, s.l, j, k);
      InPlace(s, s.l.bins[j][k]);
      HigherBinFits(nb, Size(s.t, s.l.bins[j][k]));
    }

    // ---------- malloc ----------

    // The block was cut from top, as no free chunk could hold the request.
    ghost predicate FromTop(p: int, nb: int)
      reads this`head, this`foot, this`own, this`top, this`brk
    {
      Size(T(), p) == nb && End(T(), p) == top && NoFit(T(), nb) && !IsFree(T(), top)
    }

    // What the search hands out; rem was the last remainder before.
    ghost predicate Searched(rem: int, p: int, nb: int)
      reads this`head, this`foot, this`own, this`top, this`brk, this`bins, this`lastRemainder
    {
      && Remembers(rem, p, nb)
      && if End(T(), p) == top then FromTop(p, nb) else Continued(rem, p, nb) || FromBest(p, nb)
    }

    // The fastbins are those of state s.
    ghost predicate FastKept(s: State)
      reads this`fast, this`chains, this`fastChunks
    {
      fast == s.l.fast && chains == s.l.chains && fastChunks == s.fast
    }

    // The head of the fastbin has been handed out, and nothing else has changed.
    ghost predicate FromFast(s: State, p: int, nb: int)
      requires Shape(s.l) && MINSIZE <= nb && HasFast(s, nb)
      reads this
    {
      var k := nb / 8 - 2;
      p == s.l.fast[k] && Size(T(), p) == nb && s.l.chains[k] != [] && S() == Popped(s, k)
    }

    // The oldest chunk of the small bin has been handed out; the other chunks stay on their lists.
    ghost predicate FromSmall(s: State, p: int, nb: int)
      requires Shape(s.l) && MINSIZE <= nb && HasSmall(s, nb)
      reads this
    {
      var i, b := IndexOf(nb), s.l.bins[IndexOf(nb)];
      p == SmallLast(s, nb) && ExactFit(p, nb) && bins == s.l.bins[i := b[..|b| - 1]] && FastKept(s)
    }

    // What malloc hands out in state s with last remainder rem: the head of the fastbin, else the
    // oldest chunk of the small bin, else what the search finds. The fastbins are merged for a
    // large request, and for a small one only if top is too small for it.
    ghost predicate Served(s: State, rem: int, p: int, nb: int)
      reads this
    {
      && Padded(nb) && Shape(s.l)
      && if HasFast(s, nb) then FromFast(s, p, nb) && lastRemainder == rem
         else if HasSmall(s, nb) then FromSmall(s, p, nb) && lastRemainder == rem
         else SearchedFor(s, rem, p, nb)
    }

    // The search has been made in state s.
    ghost predicate SearchedFor(s: State, rem: int, p: int, nb: int)
      requires Shape(s.l)
      reads this
    {
      && Searched(rem, p, nb)
      && if Small(nb) then Preferred(s, rem, p, nb) && (Size(s.t, s.t.top) >= nb + MINSIZE ==> FastKept(s))
         else !fastChunks
    }

    // No memory is left: nothing free fits, and what top lacks exceeds the rest of the heap.
    ghost predicate Exhausted(nb: int)
      reads this`head, this`foot, this`own, this`top, this`brk, this`fastChunks
    {
      NoFit(T(), nb) && !fastChunks && brk + PageUp(nb + MINSIZE - Size(T(), top)) > limit
    }

    // A fastbin of exactly this size.
    method TakeFast(nb: int) returns (p: int)
      requires Sound(S()) && Settled(T()) && Padded(nb) && nb <= MAX_FAST
      modifies this`fast, this`own, this`chains
      ensures old(Shape(L())) && p == old(fast)[nb / 8 - 2] && (p == 0 ==> S() == old(S()))
      ensures p != 0 ==> Handed(old(Blocks(T())), p, nb) && Size(T(), p) == nb
      ensures p != 0 ==> old(chains)[nb / 8 - 2] != [] && S() == Popped(old(S()), nb / 8 - 2)
    {
      hide Sound, Settled, Filing, Heap, Blocks, Pop;
      SoundParts(S());
      ghost var s := S();
      var k := nb / 8 - 2;
      p := fast[k];
      FastHead(S(), k);
      if p != 0 {
        PoppedSound(S(), k);
        PoppedBlocks(S(), k);
        PoppedFields(S(), k);
        fast := fast[k := WordAt(fd, p)];
        own, chains := own[p := Live], chains[k := chains[k][1..]];
        assert S() == Popped(s, k);
      }
    }

    lemma PoppedFields(s: State, k: int)
      requires Shape(s.l) && 0 <= k < NFASTBINS && s.l.chains[k] != []
      ensures Pop(s.l, k) ==
        s.l.(fast := s.l.fast[k := WordAt(s.l.fd, s.l.fast[k])], chains := s.l.chains[k := s.l.chains[k][1..]])
    {
    }

    lemma FastHead(s: State, k: int)
      requires Sound(s) && 0 <= k < 8
      ensures s.l.fast[k] == 0 <==> s.l.chains[k] == []
      ensures s.l.chains[k] != [] ==> s.l.fast[k] == s.l.chains[k][0]
    {
      assert Chain(s.l.fd, s.l.fast[k], s.l.chains[k]);
    }

    lemma PoppedBlocks(s: State, k: int)
      requires Sound(s) && Settled(s.t) && 0 <= k < 8 && s.l.chains[k] != []
      ensures var p, u := s.l.chains[k][0], Popped(s, k).t;
        p !in Blocks(s.t) && Settled(u) && Blocks(u) == Blocks(s.t)[p := Size(s.t, p)]
      ensures var p := s.l.chains[k][0]; p > 0 && p % ALIGN == 0 && Size(s.t, p) == 8 * (k + 2)
    {
      var p := s.l.chains[k][0];
      assert p in s.l.chains[k] && Is1(s.t.own, p, Fast(k));
      assert RightPlace(s.t, p);
      NotBare(s, p);
      assert Placed(s.t, p);
      RelabelBlocks(s.t, p, Live);
      assert p !in Loosened(s.t) && p !in SpilledOnes(s.t);
    }

    // A small bin of exactly this size.
    method TakeSmall(nb: int) returns (p: int)
      requires Sound(S()) && Settled(T()) && Padded(nb) && Small(nb) && any
      modifies this`head, this`fd, this`bk, this`own, this`bins
      ensures p == 0 ==> S() == old(S()) && |bins| == NBINS && bins[IndexOf(nb)] == []
      ensures p != 0 ==> Handed(old(Blocks(T())), p, nb) && ExactFit(p, nb)
      ensures p != 0 ==> var i, b := IndexOf(nb), old(bins)[IndexOf(nb)];
        old(Shape(L())) && b != [] && p == b[|b| - 1] && bins == old(bins)[i := b[..|b| - 1]]
      ensures Kept(old(W()), W(), old(Blocks(T())))
    {
      hide Sound, Settled, Filing, Heap, Blocks, Detached, Handed, Taken, Kept;
      SoundParts(S());
      var idx := IndexOf(nb);
      var bin := Header(idx);
      AtHeader(T(), L(), idx);
      var victim := WordAt(bk, bin);
      p := 0;
      ghost var w, b := W(), Blocks(T());
      KeptSame(w, b);
      if victim != bin {
        LastPositive(S(), idx);
        SmallExact(S(), idx, nb);
        DetachLast(victim, bin, idx);
        ghost var v := W();
        GrantWhole(victim, nb);
        KeptOn(w, v, W(), b);
        p := victim;
      }
    }

    lemma SmallExact(s: State, i: int, nb: nat)
      requires Sound(s) && Padded(nb) && Small(nb) && i == IndexOf(nb) && 2 <= i < NBINS && s.l.bins[i] != []
      ensures Size(s.t, s.l.bins[i][|s.l.bins[i]| - 1]) == nb
    {
      var p := s.l.bins[i][|s.l.bins[i]| - 1];
      InBin(s.t, s.l, i, |s.l.bins[i]| - 1);
      InPlace(s, p);
      SmallBinExact(nb, Size(s.t, p));
    }

    // Unsorted chunks, the request's bin, larger bins.
    method SearchBins(nb: int) returns (p: int)
      requires Sound(S()) && Settled(T()) && any && Padded(nb) && (Small(nb) ==> bins[IndexOf(nb)] == [])
      modifies this`head, this`foot, this`fd, this`bk, this`own, this`bins, this`marks, this`lastRemainder
      ensures p == 0 ==> Sound(S()) && Settled(T()) && Blocks(T()) == old(Blocks(T())) && NoFit(T(), nb)
      ensures p == 0 ==> lastRemainder == old(lastRemainder) && head == old(head) && SameFree(old(T()), T())
      ensures p != 0 ==> Handed(old(Blocks(T())), p, nb) && End(T(), p) != top && Searched(old(lastRemainder), p, nb)
      ensures old(Shape(L())) && Preferred(old(S()), old(lastRemainder), p, nb)
      ensures Kept(old(W()), W(), old(Blocks(T())))
    {
      hide Sound, Settled, Filing, Heap, Blocks, Handed, IndexOf, NoneFits, NoFit, BestFit, Taken, Kept, Choice,
        SameFree, Remembers, Continued, ExactFit;
      ghost var w, b := W(), Blocks(T());
      p := UseUnsorted(nb);
      if p != 0 {
        UnsortedSearched(old(lastRemainder), p, nb, old(Blocks(T())));
        return;
      }
      ghost var v := W();
      if !Small(nb) {
        p := ScanBin(nb);
        KeptOn(w, v, W(), b);
      } else {
        SmallBinEmpty(S(), nb);
      }
      if p == 0 {
        ghost var u := W();
        p := ScanMap(nb);
        KeptOn(w, u, W(), b);
      }
    }

    // An exact fit is a best fit, and no free chunk is top.
    lemma UnsortedSearched(rem: int, p: int, nb: int, blocks: map<int, int>)
      requires Handed(blocks, p, nb) && (Continued(rem, p, nb) || ExactFit(p, nb)) && Remembers(rem, p, nb)
      ensures End(T(), p) != top && Searched(rem, p, nb)
    {
      hide Filing, Marked, Flagged, Shape, Apart, Honest;
      if Continued(rem, p, nb) {
        NotBare(S(), p + nb);
        assert Placed(T(), top);
      }
    }

    // The front of top is handed out if top stays large enough.
    method TakeTop(nb: int) returns (p: int)
      requires Sound(S()) && Settled(T()) && Padded(nb) && NoFit(T(), nb) && Size(T(), top) >= nb + MINSIZE
      modifies this`head, this`own, this`top
      ensures p == old(top) && Handed(old(Blocks(T())), p, nb) && FromTop(p, nb)
      ensures Kept(old(W()), W(), old(Blocks(T())))
    {
      hide Sound, Loosened, SpilledOnes, Blocks, NoFit, Splittable, Kept;
      TopSplits(S(), nb);
      p := SplitTopChunk(nb);
    }

    lemma TopSplits(s: State, nb: int)
      requires Sound(s) && Padded(nb) && Size(s.t, s.t.top) >= nb + MINSIZE && NoFit(s.t, nb)
      ensures Splittable(s.t, s.t.top, nb) && s.t.top !in Blocks(s.t) && s.t.top > 0 && s.t.top % ALIGN == 0
      ensures var u := SplitTop(s.t, nb);
        NoFit(u, nb) && Size(u, s.t.top) == nb && u.top == s.t.top + nb && !IsFree(u, u.top)
    {
      HasTop(s);
      assert Placed(s.t, s.t.top);
      SplitTopKept(s.t, nb);
      var u := SplitTop(s.t, nb);
      assert FreeKept(s.t, u, u.top) && Is(u, u.top, Top);
    }

    // The part of sYSMALLOc that asks sbrk for memory. The break only moves here, so new memory
    // is always contiguous with top, and the first memory is aligned.
    method Grow(nb: int) returns (p: int)
      requires Ground() && Sound(S()) && Settled(T()) && Padded(nb) && nb + MINSIZE < WORD && NoFit(T(), nb)
      requires !fastChunks
      requires Size(T(), top) < nb + MINSIZE
      modifies this`head, this`own, this`top, this`brk
      ensures Ground()
      ensures p == 0 <==> old(brk + PageUp(nb + MINSIZE - Size(T(), top))) > limit
      ensures Kept(old(W()), W(), old(Blocks(T())))
      ensures p == 0 ==> S() == old(S())
      ensures p != 0 ==> Handed(old(Blocks(T())), p, nb) && FromTop(p, nb)
      ensures p != 0 ==> p == if old(top) == NO_TOP then base else old(top)
      ensures p != 0 ==> brk == old(brk + PageUp(nb + MINSIZE - Size(T(), top)))
    {
      hide Sound, Settled, Blocks, NoFit, Handed, FromTop, Kept;
      TopSize(S());
      ghost var s, blocks, w := S(), Blocks(T()), W();
      KeptSame(w, blocks);
      var oldSize := HeadAt(head, top).size;
      var oldEnd := top + oldSize;
      var size := PageUp(nb + MINSIZE - oldSize) % WORD;
      PageUpFits(nb + MINSIZE - oldSize);
      var b := -1;
      if 0 < size < HALF {
        b := Sbrk(size);
      }
      p := 0;
      if b != -1 {
        if b == oldEnd {
          GrowTop(nb, size, s);
        } else {
          FoundTop(nb, size, b, s);
        }
        ghost var v := W();
        p := TakeTop(nb);
        KeptOn(w, v, W(), blocks);
        HandedPositive(blocks, p, nb);
      }
    }

    // The break has moved by size from state s, and top ends at the old break: top grows.
    method GrowTop(nb: int, size: int, ghost s: State)
      requires Sound(s) && Settled(s.t) && Tiled(s.t) && NoFit(s.t, nb) && S() == s.(t := s.t.(brk := s.t.brk + size))
      requires size == PageUp(nb + MINSIZE - Size(s.t, s.t.top)) && size % ALIGN == 0
      requires size >= nb + MINSIZE - Size(s.t, s.t.top) && size >= 0
      modifies this`head
      ensures T() == Extend(s.t, size) && Sound(S()) && Settled(T()) && NoFit(T(), nb) && Blocks(T()) == Blocks(s.t)
      ensures Size(T(), top) >= nb + MINSIZE && s.t.top != NO_TOP && Kept(WordsOf(s), W(), Blocks(s.t))
    {
      hide Sound, Settled, Blocks, NoFit, Tiled, Kept;
      GrownTop(s, size, nb);
      ExtendWords(s, size);
      head := head[top := Head(size + HeadAt(head, top).size, true)];
    }

    // The break has moved by size from state s, in which there was no memory.
    method FoundTop(nb: int, size: int, b: int, ghost s: State)
      requires Ground() && Sound(s) && Bare(s.t) && size % ALIGN == 0 && size >= nb + MINSIZE && nb >= 0 && b == base
      requires S() == s.(t := s.t.(brk := s.t.brk + size))
      modifies this`head, this`own, this`top, this`brk
      ensures Ground() && T() == Found(s.t, size) && Sound(S()) && Settled(T()) && NoFit(T(), nb)
      ensures Blocks(T()) == Blocks(s.t)
      ensures Size(T(), top) >= nb + MINSIZE && s.t.top == NO_TOP && Kept(WordsOf(s), W(), Blocks(s.t))
    {
      hide Sound, Settled, Blocks, NoFit, Kept;
      FirstTop(s, size, nb);
      NoBlocks(s, WordsOf(s.(t := Found(s.t, size))));
      var end := Sbrk(0);
      top := b;
      head := head[top := Head(end - b, true)];
      own := map[top := Top];
    }

    lemma TopSize(s: State)
      requires Sound(s)
      ensures 0 <= Size(s.t, s.t.top) && Size(s.t, s.t.top) % ALIGN == 0
      ensures s.t.brk == End(s.t, s.t.top) <==> Tiled(s.t)
      ensures !Tiled(s.t) ==> Bare(s.t)
    {
      if Tiled(s.t) {
        assert Placed(s.t, s.t.top);
      }
    }

    // Only a size that does not fit in a positive long is cut off, and it exceeds the heap.
    lemma PageUpFits(n: int)
      requires 0 < n < WORD
      ensures n <= PageUp(n) < n + PAGE && PageUp(n) % ALIGN == 0 && PageUp(n) <= WORD
      ensures PageUp(n) % WORD == if PageUp(n) == WORD then 0 else PageUp(n)
    {
    }

    lemma GrownTop(s: State, n: int, nb: int)
      requires Sound(s) && Settled(s.t) && Tiled(s.t) && n == PageUp(nb + MINSIZE - Size(s.t, s.t.top))
      requires NoFit(s.t, nb)
      requires n % ALIGN == 0 && n >= nb + MINSIZE - Size(s.t, s.t.top) && n >= 0
      ensures var u := Extend(s.t, n); Sound(s.(t := u)) && Settled(u) && Blocks(u) == Blocks(s.t) && NoFit(u, nb)
      ensures Size(Extend(s.t, n), s.t.top) >= nb + MINSIZE && s.t.top != NO_TOP
    {
      var u := ExtendSound(s, n);
      assert Placed(s.t, s.t.top);
      assert FreeKept(s.t, u, s.t.top);
    }

    lemma FirstTop(s: State, n: int, nb: int)
      requires Sound(s) && Bare(s.t) && n % ALIGN == 0 && n >= nb + MINSIZE && nb >= 0
      ensures var u := Found(s.t, n); Sound(s.(t := u)) && Settled(u) && Blocks(u) == Blocks(s.t) && NoFit(u, nb)
      ensures Size(Found(s.t, n), s.t.base) >= nb + MINSIZE && s.t.top == NO_TOP
    {
      var u := FoundSound(s, n);
    }

    // sYSMALLOc
    method SysMalloc(nb: int) returns (mem: int)
      requires Ground() && initialised && Sound(S()) && Settled(T()) && Padded(nb) && nb + MINSIZE < WORD
      requires NoFit(T(), nb)
      requires (fastChunks ==> Small(nb)) && Size(T(), top) < nb + MINSIZE
      modifies this
      ensures Ground() && initialised
      ensures Kept(old(W()), W(), old(Blocks(T())))
      ensures mem == 0 ==> Sound(S()) && Settled(T()) && Blocks(T()) == old(Blocks(T())) && Exhausted(nb)
      ensures mem == 0 ==> lastRemainder == old(lastRemainder)
      ensures mem != 0 ==>
        Handed(old(Blocks(T())), mem - MEM_OFFSET, nb) && Searched(old(lastRemainder), mem - MEM_OFFSET, nb)
      ensures !old(fastChunks) ==> !fastChunks && (mem != 0 ==> FromTop(mem - MEM_OFFSET, nb))
      decreases if fastChunks then 1 else 0, 0
    {
      hide Sound, Settled, Blocks, NoFit, Handed, Searched, Served, Kept;
      if fastChunks {
        FastMeansAny(S());
        ghost var w, b := W(), Blocks(T());
        ConsolidateFastbins();
        RetrySize(nb);
        ghost var s, v := S(), W();
        mem := Malloc(nb - 7);
        KeptOn(w, v, W(), b);
        if mem != 0 {
          RetrySearched(s, old(lastRemainder), mem - MEM_OFFSET, nb);
        }
      } else {
        var p := Grow(nb);
        mem := 0;
        if p != 0 {
          HandedPositive(old(Blocks(T())), p, nb);
          mem := p + MEM_OFFSET;
          TopSearched(old(lastRemainder), p, nb);
        }
      }
    }

    lemma TopSearched(rem: int, p: int, nb: int)
      requires FromTop(p, nb) && lastRemainder == rem
      ensures Searched(rem, p, nb)
    {
      hide NoFit;
    }

    // After the consolidation no fastbin serves the request.
    lemma RetrySearched(s: State, rem: int, p: int, nb: int)
      requires Sound(s) && !s.fast && Served(s, rem, p, nb)
      ensures Searched(rem, p, nb)
    {
      hide Sound, Filing, Heap, Taken, Popped, Choice, FastKept, Preferred;
      if nb <= MAX_FAST {
        NoFast(s, nb / 8 - 2);
      }
    }

    lemma NoFast(s: State, k: int)
      requires Sound(s) && !s.fast && 0 <= k < 8
      ensures s.l.fast[k] == 0
    {
      FastHead(s, k);
    }

    lemma FastMeansAny(s: State)
      requires Sound(s) && s.fast
      ensures s.any
    {
    }

    // use_top: top serves the request if it is large enough.
    method UseTop(nb: int) returns (mem: int)
      requires Ground() && initialised && Sound(S()) && Settled(T()) && Padded(nb) && nb + MINSIZE < WORD
      requires NoFit(T(), nb)
      requires fastChunks ==> Small(nb)
      modifies this
      ensures Ground() && initialised
      ensures Kept(old(W()), W(), old(Blocks(T())))
      ensures mem == 0 ==> Sound(S()) && Settled(T()) && Blocks(T()) == old(Blocks(T())) && Exhausted(nb)
      ensures mem == 0 ==> lastRemainder == old(lastRemainder)
      ensures mem != 0 ==>
        Handed(old(Blocks(T())), mem - MEM_OFFSET, nb) && Searched(old(lastRemainder), mem - MEM_OFFSET, nb)
      ensures !old(fastChunks) ==> !fastChunks && (mem != 0 ==> FromTop(mem - MEM_OFFSET, nb))
      ensures old(Size(T(), top)) >= nb + MINSIZE ==>
        mem == old(top) + MEM_OFFSET && brk == old(brk) && FromTop(mem - MEM_OFFSET, nb) && FastKept(old(S()))
      decreases if fastChunks then 1 else 0, 1
    {
      hide Sound, Settled, Blocks, NoFit, Handed, Exhausted, Searched, FromTop, Kept;
      if HeadAt(head, top).size >= nb + MINSIZE {
        var p := TakeTop(nb);
        HandedPositive(old(Blocks(T())), p, nb);
        mem := p + MEM_OFFSET;
        TopSearched(old(lastRemainder), p, nb);
      } else {
        mem := SysMalloc(nb);
      }
    }

    lemma HandedPositive(blocks: map<int, int>, p: int, nb: int)
      requires Handed(blocks, p, nb)
      ensures p > 0 && Sound(S()) && Settled(T())
    {
    }

    // mALLOc: a null result leaves the blocks as they were; any other adds exactly one block,
    // which is new, aligned, large enough and less than MINSIZE too large. A large request is
    // served from a smallest free chunk that fits, and from top only if none fits.
    method Malloc(bytes: nat) returns (mem: int)
      requires Valid() && bytes < WORD
      modifies this
      ensures Valid()
      ensures Kept(old(W()), W(), old(Blocks(T())))
      ensures bytes >= MAX_REQUEST ==> mem == 0 && S() == old(S()) && initialised == old(initialised)
      ensures mem == 0 ==> Blocks(T()) == old(Blocks(T())) && (bytes >= MAX_REQUEST || Exhausted(RequestSize(bytes)))
      ensures mem == 0 ==> lastRemainder == old(lastRemainder)
      ensures mem == 0 && bytes < MAX_REQUEST && Small(RequestSize(bytes)) ==> old(NoFit(T(), RequestSize(bytes)))
      ensures bytes < MAX_REQUEST ==> initialised
      ensures mem != 0 ==> Handed(old(Blocks(T())), mem - MEM_OFFSET, RequestSize(bytes))
      ensures mem != 0 ==> Served(old(S()), old(lastRemainder), mem - MEM_OFFSET, RequestSize(bytes))
      ensures var p, nb := mem - MEM_OFFSET, RequestSize(bytes);
        mem != 0 && !Small(nb) && End(T(), p) != top ==> FromBest(p, nb)
      ensures var p, nb := mem - MEM_OFFSET, RequestSize(bytes);
        mem != 0 && nb > MAX_FAST && End(T(), p) == top ==> FromTop(p, nb)
      ensures var p, nb := mem - MEM_OFFSET, RequestSize(bytes);
        mem != 0 && !old(Shape(L()) && HasFast(S(), nb)) ==> Remembers(old(lastRemainder), p, nb)
      ensures var rem, nb := old(lastRemainder), RequestSize(bytes);
        bytes < MAX_REQUEST && old(Continuing(S(), lastRemainder, nb)) ==>
          mem == rem + MEM_OFFSET && Continued(rem, rem, nb)
      decreases if fastChunks then 1 else 0, 2
    {
      hide Sound, Settled, Blocks, Handed, Served, Exhausted, FromBest, FromTop, Zeroed, RequestSize, Kept, NoFit,
        Remembers, HasFast, Continuing, Continued;
      if bytes >= MAX_REQUEST {
        KeptSame(W(), Blocks(T()));
        return 0;
      }
      RequestSizeFits(bytes);
      var nb := RequestSize(bytes);
      ghost var continuing := Continuing(S(), lastRemainder, nb);
      if continuing {
        RemainderFits(nb);
      }
      if !any {
        mem := FirstMalloc(nb);
      } else {
        AnyInitialised();
        mem := SearchMalloc(nb);
      }
      if mem != 0 {
        HandedPositive(old(Blocks(T())), mem - MEM_OFFSET, nb);
        LargeRequest(old(S()), old(lastRemainder), mem - MEM_OFFSET, nb);
        if continuing {
          ContinuedFrom(old(S()), old(lastRemainder), mem - MEM_OFFSET, nb);
        }
      }
    }

    // A small request that no list serves exactly, and that chunk r exceeds by more than a
    // minimal chunk.
    ghost predicate Cuttable(s: State, r: int, nb: int) {
      && Shape(s.l) && MINSIZE <= nb && Small(nb) && !HasFast(s, nb) && !HasSmall(s, nb)
      && Size(s.t, r) > nb + MINSIZE
    }

    // Such a request while the last remainder is the only unsorted chunk.
    ghost predicate Continuing(s: State, rem: int, nb: int) {
      Cuttable(s, rem, nb) && s.l.bins[1] == [rem]
    }

    // It can be served from the last remainder.
    lemma RemainderFits(nb: int)
      requires Valid() && Continuing(S(), lastRemainder, nb)
      ensures lastRemainder > 0 && Small(nb) && !NoFit(T(), nb)
    {
      hide Sound, Filing, Heap;
      if initialised {
        SoundParts(S());
        InBin(T(), L(), 1, 0);
        assert IsFree(T(), lastRemainder);
      }
    }

    // It is cut from the front of the last remainder, and the rest is the next last remainder.
    lemma ContinuedFrom(s: State, rem: int, p: int, nb: int)
      requires Served(s, rem, p, nb) && Continuing(s, rem, nb) && rem != 0
      ensures p == rem && Continued(rem, p, nb)
    {
      hide Searched, Continued, Choice;
      ChoiceInexact(s.t, s.l.bins[1], rem, nb);
    }

    // A request above the fastbins is served from top only if nothing fits, and a large one from
    // a smallest free chunk otherwise.
    lemma LargeRequest(s: State, rem: int, p: int, nb: int)
      requires Served(s, rem, p, nb)
      ensures !Small(nb) && End(T(), p) != top ==> FromBest(p, nb)
      ensures nb > MAX_FAST && End(T(), p) == top ==> FromTop(p, nb)
      ensures Shape(s.l) && MINSIZE <= nb && (!HasFast(s, nb) ==> Remembers(rem, p, nb))
    {
      hide BestFit, NoFit, Taken, Popped, Choice, FastKept;
    }

    lemma AnyInitialised()
      requires Valid() && any
      ensures initialised
    {
    }

    lemma ZeroedClean(s: State)
      requires Zeroed(s)
      ensures !s.any && !s.fast && Blocks(s.t) == map[] && Settled(s.t) && s.t.own == map[] && s.t.head == map[]
    {
    }

    // No frees yet: the search is bypassed, and top serves the request.
    method FirstMalloc(nb: int) returns (mem: int)
      requires Valid() && Padded(nb) && nb + MINSIZE < WORD && !any
      modifies this
      ensures Ground() && initialised
      ensures Kept(old(W()), W(), old(Blocks(T())))
      ensures mem == 0 ==> Sound(S()) && Settled(T()) && Blocks(T()) == old(Blocks(T())) && Exhausted(nb)
      ensures mem == 0 ==> lastRemainder == old(lastRemainder) && old(NoFit(T(), nb))
      ensures mem != 0 ==> Handed(old(Blocks(T())), mem - MEM_OFFSET, nb) && FromTop(mem - MEM_OFFSET, nb)
      ensures mem != 0 ==> Served(old(S()), old(lastRemainder), mem - MEM_OFFSET, nb)
      decreases if fastChunks then 1 else 0, 2, 0
    {
      hide Sound, Settled, Blocks, NoFit, Handed, Exhausted, Searched, FromTop, Served, Zeroed, Kept,
        HasFast, HasSmall, Choice;
      ghost var s := S();
      NothingListed(nb);
      ghost var w, b := W(), Blocks(T());
      KeptSame(w, b);
      if !initialised {
        ZeroedClean(S());
        NothingOwned(T(), nb);
        InitState();
        KeptNone(w, W());
      }
      Settles(T());
      NothingFree(S(), nb);
      NotFast(S());
      ghost var v := W();
      mem := UseTop(nb);
      KeptOn(w, v, W(), b);
      if mem != 0 {
        SearchServed(s, old(lastRemainder), mem - MEM_OFFSET, nb);
      }
    }

    lemma NothingOwned(t: Tags, nb: int)
      requires t.own == map[] && t.head == map[]
      ensures NoFit(t, nb) && Size(t, t.top) == 0
    {
    }

    lemma NotFast(s: State)
      requires Sound(s) && !s.any
      ensures !s.fast
    {
    }

    // Without any frees all lists are empty.
    lemma NothingListed(nb: int)
      requires Valid() && !any && Padded(nb)
      ensures Shape(L()) && !HasFast(S(), nb) && !HasSmall(S(), nb)
      ensures Choice(T(), bins[1], lastRemainder, nb) == 0
    {
      if initialised && nb <= MAX_FAST {
        NotFast(S());
        NoFast(S(), nb / 8 - 2);
      }
    }

    lemma SearchServed(s: State, rem: int, p: int, nb: int)
      requires Padded(nb) && Shape(s.l) && !HasFast(s, nb) && !HasSmall(s, nb) && SearchedFor(s, rem, p, nb)
      ensures Served(s, rem, p, nb)
    {
      hide SearchedFor;
    }

    lemma FastServed(s: State, rem: int, p: int, nb: int)
      requires Padded(nb) && nb <= MAX_FAST && Shape(s.l) && p != 0 && p == s.l.fast[nb / 8 - 2] && Size(T(), p) == nb
      requires s.l.chains[nb / 8 - 2] != [] && S() == Popped(s, nb / 8 - 2) && lastRemainder == rem
      ensures Served(s, rem, p, nb)
    {
      hide SearchedFor, FromSmall, Popped;
    }

    lemma SmallServed(s: State, rem: int, p: int, nb: int)
      requires Padded(nb) && Small(nb) && Shape(s.l) && !HasFast(s, nb) && HasSmall(s, nb) && p == SmallLast(s, nb)
      requires ExactFit(p, nb) && FastKept(s) && lastRemainder == rem
      requires var i, b := IndexOf(nb), s.l.bins[IndexOf(nb)]; bins == s.l.bins[i := b[..|b| - 1]]
      ensures Served(s, rem, p, nb)
    {
      hide SearchedFor, FromFast;
    }

    // The head of the fastbin, or the oldest chunk of the small bin, of exactly this size.
    method TakeListed(nb: int) returns (p: int)
      requires Sound(S()) && Settled(T()) && Padded(nb) && any
      modifies this`head, this`fd, this`bk, this`own, this`bins, this`fast, this`chains
      ensures Kept(old(W()), W(), old(Blocks(T())))
      ensures p == 0 ==> S() == old(S()) && Shape(L()) && !HasFast(S(), nb) && !HasSmall(S(), nb)
      ensures p != 0 ==> p > 0 && Sound(S()) && Settled(T()) && Handed(old(Blocks(T())), p, nb)
      ensures p != 0 ==> Served(old(S()), old(lastRemainder), p, nb)
    {
      hide Sound, Settled, Blocks, Handed, Served, ExactFit, IndexOf, Filing, Heap, Kept;
      ghost var s, rem, blocks := S(), lastRemainder, Blocks(T());
      KeptSame(W(), blocks);
      SoundParts(S());
      IndexRange(nb);
      p := 0;
      if nb <= MAX_FAST {
        p := TakeFast(nb);
        if p != 0 {
          HandedPositive(blocks, p, nb);
          FastServed(s, rem, p, nb);
          return;
        }
      }
      if Small(nb) {
        p := TakeSmall(nb);
        if p != 0 {
          HandedPositive(blocks, p, nb);
          SmallServed(s, rem, p, nb);
        }
      }
    }

    // Fastbin, small bin or consolidation, then the search, then top.
    method SearchMalloc(nb: int) returns (mem: int)
      requires Ground() && initialised && Sound(S()) && Settled(T()) && Padded(nb) && nb + MINSIZE < WORD && any
      modifies this
      ensures Ground() && initialised
      ensures Kept(old(W()), W(), old(Blocks(T())))
      ensures mem == 0 ==> Sound(S()) && Settled(T()) && Blocks(T()) == old(Blocks(T())) && Exhausted(nb)
      ensures mem == 0 ==> lastRemainder == old(lastRemainder) && (Small(nb) ==> old(NoFit(T(), nb)))
      ensures mem != 0 ==> Handed(old(Blocks(T())), mem - MEM_OFFSET, nb)
      ensures mem != 0 ==> Served(old(S()), old(lastRemainder), mem - MEM_OFFSET, nb)
      decreases if fastChunks then 1 else 0, 2, 1
    {
      hide Sound, Settled, Blocks, NoFit, Handed, Served, Exhausted, Searched, IndexOf, HasFast, Kept, FastKept,
        Preferred;
      ghost var s, rem, w, blocks := S(), lastRemainder, W(), Blocks(T());
      var p := TakeListed(nb);
      if p != 0 {
        return p + MEM_OFFSET;
      }
      IndexRange(nb);
      if !Small(nb) && fastChunks {
        ConsolidateFastbins();
      }
      ghost var v := W();
      mem := SearchOrTop(nb);
      KeptOn(w, v, W(), blocks);
      if mem != 0 {
        SearchServed(s, rem, mem - MEM_OFFSET, nb);
      }
    }

    // The search, then top.
    method SearchOrTop(nb: int) returns (mem: int)
      requires Ground() && initialised && Sound(S()) && Settled(T()) && Padded(nb) && nb + MINSIZE < WORD && any
      requires if Small(nb) then |bins| == NBINS && IndexOf(nb) < NBINS && bins[IndexOf(nb)] == [] else !fastChunks
      modifies this
      ensures Ground() && initialised
      ensures Kept(old(W()), W(), old(Blocks(T())))
      ensures mem == 0 ==> Sound(S()) && Settled(T()) && Blocks(T()) == old(Blocks(T())) && Exhausted(nb)
      ensures mem == 0 ==> lastRemainder == old(lastRemainder) && old(NoFit(T(), nb))
      ensures mem != 0 ==> Handed(old(Blocks(T())), mem - MEM_OFFSET, nb)
      ensures mem != 0 ==> old(Shape(L())) && SearchedFor(old(S()), old(lastRemainder), mem - MEM_OFFSET, nb)
      decreases if fastChunks then 1 else 0, 2, 0
    {
      hide Sound, Settled, Blocks, NoFit, Handed, Exhausted, Searched, IndexOf, Kept, SameFree;
      ghost var w, b := W(), Blocks(T());
      var p := SearchBins(nb);
      if p != 0 {
        HandedPositive(old(Blocks(T())), p, nb);
        mem := p + MEM_OFFSET;
      } else {
        ghost var v := W();
        SameNoFit(old(T()), T(), nb);
        mem := UseTop(nb);
        KeptOn(w, v, W(), b);
      }
    }

    lemma SameNoFit(t: Tags, u: Tags, nb: int)
      requires NoFit(u, nb) && SameFree(t, u) && u.head == t.head
      ensures NoFit(t, nb)
    {
    }

    // A small request that no fastbin served in state s has left, in state u, a free rest behind
    // its block at p.
    ghost predicate LeavesRest(s: State, u: State, p: int, nb: int) {
      Shape(s.l) && MINSIZE <= nb && Small(nb) && !HasFast(s, nb) && IsFree(u.t, p + nb)
    }

    // Two requests in a row: if the first leaves such a rest, then a second small request that no
    // list serves exactly and that the rest exceeds by more than a minimal chunk gets the block
    // right behind the first.
    method MallocTwice(bytes: nat, more: nat) returns (first: int, second: int, ghost mid: State)
      requires Valid() && bytes < MAX_REQUEST && more < MAX_REQUEST
      modifies this
      ensures Valid()
      ensures var nb, n, p := RequestSize(bytes), RequestSize(more), first - MEM_OFFSET;
        first != 0 && LeavesRest(old(S()), mid, p, nb) && Cuttable(mid, p + nb, n) ==>
          second == first + nb && Continued(p + nb, p + nb, n)
    {
      hide Valid, Handed, Served, Exhausted, FromBest, FromTop, RequestSize, Kept, NoFit, HasFast, Remembers, Continued,
        Continuing, Cuttable, LeavesRest, Shape;
      ghost var s, rem := S(), lastRemainder;
      first := Malloc(bytes);
      RestContinues(s, rem, first - MEM_OFFSET, RequestSize(bytes), RequestSize(more));
      mid := S();
      second := Malloc(more);
    }

    lemma RestContinues(s: State, rem: int, p: int, nb: int, n: int)
      ensures LeavesRest(s, S(), p, nb) ==> Shape(s.l) && MINSIZE <= nb && !HasFast(s, nb)
      ensures LeavesRest(s, S(), p, nb) && Remembers(rem, p, nb) && Cuttable(S(), p + nb, n) ==>
        lastRemainder == p + nb && Continuing(S(), p + nb, n)
    {
    }

    // ---------- memalign ----------

    lemma HandedBlock(blocks: map<int, int>, p: int, nb: int)
      requires Handed(blocks, p, nb)
      ensures p !in blocks && Is(T(), p, Live) && Blocks(T()) == blocks[p := Size(T(), p)]
      ensures p > 0 && p % ALIGN == 0 && nb <= Size(T(), p) < nb + MINSIZE
    {
      KeyOut(T(), p);
    }

    // A block in use is cut in two blocks.
    method CarveBlock(p: int, n: int)
      requires Valid() && initialised && Is(T(), p, Live) && Splittable(T(), p, n)
      modifies this`head, this`own
      ensures Valid() && T() == Carve(old(T()), p, n)
      ensures Blocks(T()) == old(Blocks(T()))[p := n][p + n := old(Size(T(), p)) - n] && p + n !in old(Blocks(T()))
      ensures Kept(old(W()), W(), old(Blocks(T())) - {p})
    {
      hide Sound, Blocks, Loosened, SpilledOnes, Splittable, Kept;
      CarveSound(S(), p, n);
      CarveWords(S(), p, n);
      var size := HeadAt(head, p).size;
      head := head[p + n := Head(size - n, true)];
      head := head[p := Head(n, HeadAt(head, p).pinuse)];
      own := own[p + n := Live];
    }

    lemma CarveSound(s: State, p: int, n: int)
      requires Sound(s) && Is(s.t, p, Live) && Splittable(s.t, p, n)
      ensures var u := Carve(s.t, p, n);
        Sound(s.(t := u)) && Loosened(u) == Loosened(s.t) && SpilledOnes(u) == SpilledOnes(s.t)
      ensures Blocks(Carve(s.t, p, n)) == Blocks(s.t)[p := n][p + n := Size(s.t, p) - n] && p + n !in Blocks(s.t)
      ensures n > 0
    {
      NotBare(s, p);
      CarveTiled(s.t, p, n);
      CarveFrame(s.t, p, n);
      RetaggedSound(s, Carve(s.t, p, n));
      NoChunkInside(s.t, p, p + n);
    }

    lemma Without(blocks: map<int, int>, p: int, n: int)
      requires p !in blocks
      ensures blocks[p := n] - {p} == blocks
    {
    }

    // Giving back the leading piece of n bytes of a block; the rest stays handed out.
    method GiveBackLead(p: int, n: int, ghost blocks: map<int, int>) returns (newp: int)
      requires Valid() && p !in blocks && Is(T(), p, Live) && Blocks(T()) == blocks[p := Size(T(), p)]
      requires Splittable(T(), p, n)
      modifies this
      ensures newp == p + n && Valid() && initialised && newp !in blocks && Is(T(), newp, Live)
      ensures Blocks(T()) == blocks[newp := Size(T(), newp)] && Size(T(), newp) == old(Size(T(), p)) - n
      ensures Kept(old(W()), W(), blocks)
    {
      hide Sound, Settled, Blocks, Splittable, Kept;
      LiveInitialised(p);
      newp := p + n;
      ghost var size := Size(T(), p);
      ghost var w := W();
      CarveBlock(p, n);
      ghost var v := W();
      Without(blocks, p, size);
      KeyIn(T(), p);
      ghost var c := Blocks(T()) - {p};
      Free(p + MEM_OFFSET);
      KeptWithin(w, v, W(), blocks, c);
      assert Blocks(T()) == blocks[newp := size - n];
      KeyOut(T(), newp);
    }

    // Giving back what is behind the first nb bytes of a block.
    method GiveBackRest(p: int, nb: int, ghost blocks: map<int, int>)
      requires Valid() && p !in blocks && Is(T(), p, Live) && Blocks(T()) == blocks[p := Size(T(), p)]
      requires Splittable(T(), p, nb)
      modifies this
      ensures Valid() && Is(T(), p, Live) && Size(T(), p) == nb && Blocks(T()) == blocks[p := nb]
      ensures Kept(old(W()), W(), blocks)
    {
      hide Sound, Settled, Blocks, Kept;
      LiveInitialised(p);
      KeyIn(T(), p);
      ghost var w, size := W(), Size(T(), p);
      CarveBlock(p, nb);
      ghost var v := W();
      Without(blocks, p, size);
      KeyIn(T(), p + nb);
      ghost var c := Blocks(T()) - {p + nb};
      Free(p + nb + MEM_OFFSET);
      KeptWithin(w, v, W(), blocks, c);
      assert Blocks(T()) == blocks[p := nb];
      KeyOut(T(), p);
    }

    lemma LiveInitialised(p: int)
      requires Valid() && Is(T(), p, Live)
      ensures initialised && p > 0
    {
      if initialised {
        NotBare(S(), p);
      }
    }

    lemma KeyIn(t: Tags, p: int)
      requires Is(t, p, Live)
      ensures p in Blocks(t) && Blocks(t)[p] == Size(t, p)
    {
    }

    lemma KeyOut(t: Tags, p: int)
      requires p in Blocks(t)
      ensures Is(t, p, Live) && Blocks(t)[p] == Size(t, p)
    {
    }

    // The bytes that mEMALIGn asks malloc for.
    function AlignedRequest(alignment: nat, bytes: nat): nat {
      if alignment <= ALIGN then bytes else RequestSize(bytes) + Alignment(alignment) + MINSIZE
    }

    // mEMALIGn, provided the padded request does not wrap around.
    method Memalign(alignment: nat, bytes: nat) returns (mem: int)
      requires Valid() && bytes < WORD && alignment <= HALF
      requires alignment > ALIGN && bytes < MAX_REQUEST ==> RequestSize(bytes) + Alignment(alignment) + MINSIZE < WORD
      modifies this
      ensures Valid()
      ensures Kept(old(W()), W(), old(Blocks(T())))
      ensures bytes >= MAX_REQUEST ==> mem == 0
      ensures mem == 0 ==> Blocks(T()) == old(Blocks(T()))
      ensures var req := AlignedRequest(alignment, bytes);
        mem == 0 ==> bytes >= MAX_REQUEST || req >= MAX_REQUEST || Exhausted(RequestSize(req))
      ensures mem != 0 ==> Aligned(mem, if alignment <= ALIGN then ALIGN else Alignment(alignment))
      ensures mem != 0 ==> NewBlock(old(Blocks(T())), mem - MEM_OFFSET, RequestSize(bytes))
    {
      hide Sound, Settled, Blocks, RequestSize, DoubledTo, Exhausted, Served, Handed, FromTop, FromBest, Zeroed, Kept;
      if alignment <= ALIGN {
        mem := Malloc(bytes);
        if mem != 0 {
          HandedBlock(old(Blocks(T())), mem - MEM_OFFSET, RequestSize(bytes));
        }
        return;
      }
      var a := RoundAlignment(alignment);
      AlignmentMultiple(MINSIZE, alignment);
      if bytes >= MAX_REQUEST {
        KeptSame(W(), Blocks(T()));
        return 0;
      }
      RequestSizeFits(bytes);
      mem := TakeAligned(RequestSize(bytes), a);
    }

    // The block at p is the only new one, holds nb bytes and at most a minimal chunk more.
    ghost predicate NewBlock(blocks: map<int, int>, p: int, nb: int)
      reads this`head, this`foot, this`own, this`top, this`brk
    {
      && p !in blocks && Is(T(), p, Live) && Blocks(T()) == blocks[p := Size(T(), p)]
      && nb <= Size(T(), p) <= nb + MINSIZE
    }

    // A block large enough to hold an aligned one, and what is around the aligned one given back.
    method TakeAligned(nb: int, a: nat) returns (mem: int)
      requires Valid() && Padded(nb) && a >= MINSIZE && a % ALIGN == 0 && nb + a + MINSIZE < WORD
      modifies this
      ensures Valid()
      ensures Kept(old(W()), W(), old(Blocks(T())))
      ensures mem == 0 ==> Blocks(T()) == old(Blocks(T()))
      ensures var req := nb + a + MINSIZE; mem == 0 ==> req >= MAX_REQUEST || Exhausted(RequestSize(req))
      ensures mem != 0 ==> Aligned(mem, a) && NewBlock(old(Blocks(T())), mem - MEM_OFFSET, nb)
    {
      hide Sound, Settled, Blocks, RequestSize, Exhausted, Served, Handed, FromTop, FromBest, Zeroed, Kept, Aligned;
      ghost var w, blocks := W(), Blocks(T());
      var m := Malloc(nb + a + MINSIZE);
      if m == 0 {
        return 0;
      }
      RequestSizeFits(nb + a + MINSIZE);
      HandedBlock(blocks, m - MEM_OFFSET, RequestSize(nb + a + MINSIZE));
      ghost var v := W();
      var p := AlignWithin(m, nb, a, blocks);
      KeptOn(w, v, W(), blocks);
      ghost var u := W();
      TrimBlock(p, nb, blocks);
      KeptOn(w, u, W(), blocks);
      LiveInitialised(p);
      mem := p + MEM_OFFSET;
    }

    // The aligned spot inside the chunk; what is in front of it is given back.
    method AlignWithin(m: int, nb: int, a: nat, ghost blocks: map<int, int>) returns (p: int)
      requires Valid() && m - MEM_OFFSET !in blocks && Is(T(), m - MEM_OFFSET, Live) && m > MEM_OFFSET && m % ALIGN == 0
      requires Blocks(T()) == blocks[m - MEM_OFFSET := Size(T(), m - MEM_OFFSET)]
      requires nb >= MINSIZE && a >= MINSIZE && a % ALIGN == 0 && Size(T(), m - MEM_OFFSET) >= nb + a + MINSIZE
      modifies this
      ensures Valid() && p !in blocks && Is(T(), p, Live) && Blocks(T()) == blocks[p := Size(T(), p)]
      ensures Aligned(p + MEM_OFFSET, a) && Size(T(), p) >= nb
      ensures Kept(old(W()), W(), blocks)
    {
      hide Sound, Settled, Blocks, Splittable, Aligned, Kept;
      KeptSame(W(), blocks);
      p := m - MEM_OFFSET;
      if !Aligned(m, a) {
        var spot := AlignedSpot(m, a);
        CanCarve(T(), p, spot - p);
        p := GiveBackLead(p, spot - p, blocks);
      }
    }

    lemma CanCarve(t: Tags, p: int, n: int)
      requires p in t.own && n >= MINSIZE && n % ALIGN == 0 && Size(t, p) >= n + MINSIZE
      ensures Splittable(t, p, n)
    {
    }

    // Spare room at the end is given back.
    method TrimBlock(p: int, nb: int, ghost blocks: map<int, int>)
      requires Valid() && p !in blocks && Is(T(), p, Live) && Blocks(T()) == blocks[p := Size(T(), p)]
      requires Padded(nb) && Size(T(), p) >= nb
      modifies this
      ensures Valid() && Is(T(), p, Live) && Blocks(T()) == blocks[p := Size(T(), p)]
      ensures nb <= Size(T(), p) <= nb + MINSIZE
      ensures Kept(old(W()), W(), blocks)
    {
      hide Sound, Settled, Blocks, Splittable, Kept;
      KeptSame(W(), blocks);
      if HeadAt(head, p).size > nb + MINSIZE {
        CanCarve(T(), p, nb);
        GiveBackRest(p, nb, blocks);
      }
    }

    // ---------- what the user of a block sees ----------

    // The bytes of different blocks are different, and lie in the heap.
    lemma BlocksApart(p: int, q: int)
      requires Valid() && p in Blocks(T()) && q in Blocks(T()) && p != q
      ensures base + MEM_OFFSET <= p + MEM_OFFSET < p + MEM_OFFSET + Usable(Blocks(T())[p]) <= brk
      ensures
        || p + MEM_OFFSET + Usable(Blocks(T())[p]) <= q + MEM_OFFSET
        || q + MEM_OFFSET + Usable(Blocks(T())[q]) <= p + MEM_OFFSET
    {
      assert Is(T(), p, Live) && Is(T(), q, Live);
      LiveInitialised(p);
      LiveInTop(S(), p);
      LiveInTop(S(), q);
      Disjoint(T(), p, q);
    }

    lemma LiveInTop(s: State, p: int)
      requires Sound(s) && Is(s.t, p, Live)
      ensures Tiled(s.t) && s.t.base <= p && Size(s.t, p) >= MINSIZE && End(s.t, p) + MINSIZE <= s.t.brk
    {
      NotBare(s, p);
      InsideHeap(s.t, p);
      InsideHeap(s.t, s.t.top);
    }

    // Whatever the owner writes into its block, from behind the size word up to and including the
    // next chunk's prev_size word, the allocator's state stays sound.
    static lemma OwnerWrites(s: State, u: State, p: int)
      requires Sound(s) && Is(s.t, p, Live)
      requires u == s.(t := s.t.(head := u.t.head, foot := u.t.foot), l := s.l.(fd := u.l.fd, bk := u.l.bk))
      requires forall q | !(p < q < End(s.t, p)) :: HeadAt(u.t.head, q) == HeadAt(s.t.head, q)
      requires forall q | !(p < q <= End(s.t, p)) :: WordAt(u.t.foot, q) == WordAt(s.t.foot, q)
      requires forall q | !(p <= q < End(s.t, p)) ::
        WordAt(u.l.fd, q) == WordAt(s.l.fd, q) && WordAt(u.l.bk, q) == WordAt(s.l.bk, q)
      ensures Sound(u) && Blocks(u.t) == Blocks(s.t)
    {
      NotBare(s, p);
      PayloadKeepsTags(s.t, u.t, p);
      RetaggedSound(s, u.t);
      LinksSound(s.(t := u.t), u, p);
    }

    // Links inside a block in use are links of no list.
    static lemma LinksSound(s: State, u: State, p: int)
      requires Sound(s) && Tiled(s.t) && Is(s.t, p, Live) && u == s.(l := s.l.(fd := u.l.fd, bk := u.l.bk))
      requires forall q | !(p <= q < End(s.t, p)) ::
        WordAt(u.l.fd, q) == WordAt(s.l.fd, q) && WordAt(u.l.bk, q) == WordAt(s.l.bk, q)
      ensures Sound(u)
    {
      forall q | q in s.t.own && Filed(s.t.own[q])
        ensures !(p <= q < End(s.t, p))
      {
        BetweenNone(s.t, p, q);
      }
      InsideHeap(s.t, p);
      forall i {:trigger u.l.bins[i]} | 0 < i < NBINS
        ensures Ring(u.l.fd, u.l.bk, Header(i), u.l.bins[i])
      {
        RingFrame(s.l.fd, s.l.bk, u.l.fd, u.l.bk, Header(i), s.l.bins[i]);
      }
      forall k {:trigger u.l.chains[k]} | 0 <= k < NFASTBINS
        ensures Chain(u.l.fd, u.l.fast[k], u.l.chains[k])
      {
        ChainFrame(s.l.fd, u.l.fd, s.l.fast[k], s.l.chains[k]);
      }
    }

    // The owner of block p stores a word at address a of its usable bytes. The word that the
    // allocator calls prev_size of a chunk at a is also fd of a chunk 8 bytes before; a size word
    // is also bk of a chunk 8 bytes before that of the size word.
    method Store(p: int, a: int, word: nat)
      requires Valid() && p in Blocks(T()) && word < WORD && InBlock(p, Blocks(T())[p], a)
      modifies this`head, this`foot, this`fd, this`bk
      ensures Valid() && Blocks(T()) == old(Blocks(T())) && Content(W(), a) == word
      ensures Kept(old(W()), W(), old(Blocks(T())) - {p})
    {
      KeyOut(T(), p);
      LiveInitialised(p);
      StoredSound(S(), p, a, word);
      ghost var s := S();
      hide Sound, Settled, Blocks, Kept, InBlock, Content, Is, AsHead;
      if a % 8 == 0 {
        foot := foot[a := word];
        fd := fd[a - 8 := word];
      } else {
        head := head[a - 4 := AsHead(word)];
        bk := bk[a - 12 := word];
      }
      assert S() == Stored(s, a, word);
      hide Stored;
    }

    // The state with the word stored.
    static ghost function Stored(s: State, a: int, word: nat): State {
      if a % 8 == 0 then s.(t := s.t.(foot := s.t.foot[a := word]), l := s.l.(fd := s.l.fd[a - 8 := word]))
      else s.(t := s.t.(head := s.t.head[a - 4 := AsHead(word)]),
              l := s.l.(bk := s.l.bk[a - 12 := word]))
    }

    static lemma StoredSound(s: State, p: int, a: int, word: nat)
      requires Sound(s) && Settled(s.t) && Is(s.t, p, Live) && InBlock(p, Size(s.t, p), a)
      ensures var u := Stored(s, a, word);
        && Sound(u) && Settled(u.t) && Blocks(u.t) == Blocks(s.t) && Content(WordsOf(u), a) == word
        && Kept(WordsOf(s), WordsOf(u), Blocks(s.t) - {p})
    {
      BlockAligned(s, p);
      WordPlaces(p, Size(s.t, p), a);
      var u := Stored(s, a, word);
      hide Sound, Settled, Blocks, Kept, InBlock;
      OwnerWrites(s, u, p);
      StoreSettled(s.t, u.t);
      OnlyInside(s, u, p);
    }

    static lemma BlockAligned(s: State, p: int)
      requires Sound(s) && Is(s.t, p, Live)
      ensures p % ALIGN == 0 && Size(s.t, p) % ALIGN == 0 && Size(s.t, p) >= MINSIZE
    {
      NotBare(s, p);
      assert Placed(s.t, p);
    }

    static lemma StoreSettled(t: Tags, u: Tags)
      requires Settled(t) && u.own == t.own
      ensures Settled(u)
    {
    }

    // What changes in one block only is in no other.
    static lemma OnlyInside(s: State, u: State, p: int)
      requires Sound(s) && Is(s.t, p, Live)
      requires forall q | !(p < q < End(s.t, p)) :: HeadAt(u.t.head, q) == HeadAt(s.t.head, q)
      requires forall q | !(p < q <= End(s.t, p)) :: WordAt(u.t.foot, q) == WordAt(s.t.foot, q)
      requires forall q | !(p <= q < End(s.t, p)) ::
        WordAt(u.l.fd, q) == WordAt(s.l.fd, q) && WordAt(u.l.bk, q) == WordAt(s.l.bk, q)
      ensures Kept(WordsOf(s), WordsOf(u), Blocks(s.t) - {p})
    {
      NotBare(s, p);
      forall q | q in Blocks(s.t) - {p}
        ensures Untouched(WordsOf(s), WordsOf(u), q, End(s.t, q))
      {
        Disjoint(s.t, p, q);
      }
    }

    // The owner reads it back.
    method Fetch(p: int, a: int) returns (word: int)
      requires Valid() && p in Blocks(T()) && InBlock(p, Blocks(T())[p], a)
      ensures word == Content(W(), a)
    {
      word := if a % 8 == 0 then WordAt(fd, a - 8) else WordAt(bk, a - 12);
    }

    // ---------- whole runs ----------

    // One call, or one store by the owner of a block; live are the blocks handed out. A call that
    // the allocator's rules forbid, and a padded request that wraps around, is left out.
    method Act(c: Call, live: map<int, int>) returns (live': map<int, int>)
      requires Valid() && live == Blocks(T())
      modifies this
      ensures Valid() && live' == Blocks(T())
      ensures Follows(c, live, live')
      ensures Kept(old(W()), W(), live - Touched(c))
    {
      hide Sound, Settled, Kept, Blocks, Served, FromTop, FromBest, Exhausted, Handed, RequestSize, Alignment;
      ghost var w := W();
      KeptSame(w, live - Touched(c));
      live' := live;
      assert live - {} == live;
      match c
      case Acquire(bytes) =>
        if bytes < WORD {
          var mem := Malloc(bytes);
          if mem != 0 {
            HandedBlock(live, mem - MEM_OFFSET, RequestSize(bytes));
            live' := live[mem - MEM_OFFSET := HeadAt(head, mem - MEM_OFFSET).size];
            assert live' - {mem - MEM_OFFSET} == live;
          }
        }
      case Release(p) =>
        if p in live {
          KeyOut(T(), p);
          LiveInitialised(p);
          Free(p + MEM_OFFSET);
          live' := live - {p};
        } else {
          assert live - {p} == live;
        }
      case AcquireAligned(alignment, bytes) =>
        if bytes < WORD && alignment <= HALF && AlignedRequest(alignment, bytes) < WORD {
          var mem := Memalign(alignment, bytes);
          if mem != 0 {
            live' := live[mem - MEM_OFFSET := HeadAt(head, mem - MEM_OFFSET).size];
            assert live' - {mem - MEM_OFFSET} == live;
          }
        }
      case Write(p, a, word) =>
        if p in live && word < WORD && InBlock(p, live[p], a) {
          Store(p, a, word);
        }
    }

    // Every sequence of calls and stores keeps the allocator valid, and the blocks that are
    // neither freed nor written into keep what they hold.
    method Run(calls: seq<Call>, live: map<int, int>) returns (live': map<int, int>)
      requires Valid() && live == Blocks(T())
      modifies this
      ensures Valid() && live' == Blocks(T()) && Within(Spared(live, calls), live')
      ensures Kept(old(W()), W(), Spared(live, calls))
    {
      hide *;
      live' := live;
      ghost var w, spared := W(), Spared(live, calls);
      KeptSame(w, spared);
      SparedWithin(live, calls);
      for i := 0 to |calls|
        invariant Valid() && live' == Blocks(T())
        invariant Within(spared, live') && Kept(w, W(), spared)
      {
        ghost var v, before := W(), live';
        live' := Act(calls[i], live');
        SparedStep(live, calls, i, before, live');
        KeptOnward(w, v, W(), spared, before - Touched(calls[i]));
      }
    }

    // What the owner of a block has stored in it is still there after any calls and stores that
    // neither free the block nor write into it.
    method StoreThenRun(p: int, a: int, word: nat, calls: seq<Call>, live: map<int, int>) returns (v: int)
      requires Valid() && live == Blocks(T()) && p in live && word < WORD && InBlock(p, live[p], a)
      requires forall c | c in calls :: p !in Touched(c)
      modifies this
      ensures Valid() && p in Blocks(T()) && v == word
    {
      KeyOut(T(), p);
      LiveInitialised(p);
      BlockAligned(S(), p);
      hide Sound, Settled, Kept, Blocks, Content;
      Store(p, a, word);
      ghost var w := W();
      var live' := Run(calls, live);
      ContentKept(w, W(), live, calls, p, a);
      v := Fetch(p, a);
    }
  }

  // The blocks that no call touches.
  ghost function Spared(live: map<int, int>, calls: seq<Call>): map<int, int> {
    map p | p in live && (forall c | c in calls :: p !in Touched(c)) :: live[p]
  }

  ghost predicate Within(b: map<int, int>, live: map<int, int>) {
    forall p | p in b :: p in live && live[p] == b[p]
  }

  lemma SparedWithin(live: map<int, int>, calls: seq<Call>)
    ensures Within(Spared(live, calls), live)
  {
  }

  lemma SparedStep(live: map<int, int>, calls: seq<Call>, i: nat, before: map<int, int>, after: map<int, int>)
    requires i < |calls| && Within(Spared(live, calls), before) && Follows(calls[i], before, after)
    ensures Within(Spared(live, calls), before - Touched(calls[i])) && Within(Spared(live, calls), after)
  {
    assert calls[i] in calls;
    if calls[i].Acquire? || calls[i].AcquireAligned? {
      if after != before {
        var q :| q !in before && q in after && after - {q} == before;
        assert forall p | p in before :: p in after - {q} && after[p] == before[p];
      }
    }
  }

  lemma KeptOnward(w: Words, v: Words, u: Words, b: map<int, int>, c: map<int, int>)
    requires Kept(w, v, b) && Kept(v, u, c) && Within(b, c)
    ensures Kept(w, u, b)
  {
    KeptWithin(w, v, u, b, c);
  }

  lemma ContentKept(w: Words, v: Words, live: map<int, int>, calls: seq<Call>, p: int, a: int)
    requires Kept(w, v, Spared(live, calls)) && p in live && (forall c | c in calls :: p !in Touched(c))
    requires p % ALIGN == 0 && live[p] % ALIGN == 0 && InBlock(p, live[p], a)
    ensures Content(v, a) == Content(w, a)
  {
    var n := live[p];
    WordPlaces(p, n, a);
    assert p in Spared(live, calls) && Spared(live, calls)[p] == n;
    assert Untouched(w, v, p, p + n);
    hide Kept, Spared, InBlock;
  }

  // Which fields of which chunks the word at a would be.
  lemma WordPlaces(p: int, size: int, a: int)
    requires p % ALIGN == 0 && size % ALIGN == 0 && InBlock(p, size, a)
    ensures if a % 8 == 0 then p < a <= p + size && p <= a - 8 < p + size
      else p < a - 4 < p + size && p <= a - 12 < p + size
  {
    if a % 8 != 0 {
      assert a != p + 8;
    }
  }

  // What one call does to the blocks handed out.
  ghost predicate Follows(c: Call, live: map<int, int>, live': map<int, int>) {
    match c
    case Acquire(_) => live' == live || exists p | p !in live :: p in live' && live' - {p} == live
    case AcquireAligned(_, _) => live' == live || exists p | p !in live :: p in live' && live' - {p} == live
    case Release(p) => live' == live - {p}
    case Write(_, _, _) => live' == live
  }
}
