/**
 The state of the allocator as a whole (shared/malloc.c): tags, lists, binmap and flags. The
 invariant is that of the check routines; the lemmas carry it over every change of one list.
 */
module Arena {
  import opened BinIndex
  import opened ChunkTags
  import opened TagMoves
  import opened PriorityOrder
  import opened FreeLists

  // A clear binmap bit means an empty bin; the trailing word of the map stays zero.
  ghost predicate Marked(bins: seq<seq<int>>, marks: set<int>)
    requires |bins| == NBINS
  {
    && (forall i | 2 <= i < NBINS && bins[i] != [] :: i in marks)
    && (forall i | i in marks :: 2 <= i < NBINS)
  }

  // ANYCHUNKS and FASTCHUNKS: a clear flag means empty lists.
  ghost predicate Flagged(l: Lists, any: bool, fast: bool)
    requires Shape(l)
  {
    && (fast ==> any)
    && (!fast ==> forall k | 0 <= k < NFASTBINS :: l.chains[k] == [])
    && (!any ==> forall i | 0 <= i < NBINS :: l.bins[i] == [])
  }

  datatype State = State(t: Tags, l: Lists, marks: set<int>, any: bool, fast: bool)

  // What do_check_malloc_state checks.
  ghost predicate Sound(s: State) {
    Shape(s.l) && Heap(s.t) && Filing(s.t, s.l) && Marked(s.l.bins, s.marks) && Flagged(s.l, s.any, s.fast)
  }

  lemma SoundParts(s: State)
    requires Sound(s)
    ensures Shape(s.l) && Filing(s.t, s.l) && Heap(s.t)
  {
  }

  // No chunk is between two lists.
  ghost predicate Settled(t: Tags) {
    Loosened(t) == {} && SpilledOnes(t) == {}
  }

  // ---------- one list changes ----------

  // A chunk of this size keeps bin i sorted at position k.
  ghost predicate KeepsOrder(t: Tags, s: seq<int>, k: nat, size: int)
    requires k <= |s|
  {
    && (forall j | 0 <= j < k :: Size(t, s[j]) >= size)
    && (forall j | k <= j < |s| :: Size(t, s[j]) <= size)
  }

  lemma LinkFiling(t: Tags, l: Lists, i: int, k: nat, p: int)
    requires Filing(t, l) && 0 < i < NBINS && k <= |l.bins[i]| && p > 0
    requires p in t.own && !Filed(t.own[p]) && Size(t, p) >= 0
    requires i == 1 || (i == IndexOf(Size(t, p)) && (i >= NSMALLBINS ==> KeepsOrder(t, l.bins[i], k, Size(t, p))))
    ensures Filing(Relabel(t, p, Bin(i)), Link(l, i, k, p))
  {
    LinkLinking(t.own, l, i, k, p);
    LinkSorted(t, l, i, k, p);
    Replaced(t, p, Bin(i));
  }

  // Only the place of p is new.
  lemma Replaced(t: Tags, p: int, u: Use)
    requires forall q {:trigger RightPlace(t, q)} :: RightPlace(t, q)
    requires RightPlace(Relabel(t, p, u), p)
    ensures forall q {:trigger RightPlace(Relabel(t, p, u), q)} :: RightPlace(Relabel(t, p, u), q)
  {
    forall q {:trigger RightPlace(Relabel(t, p, u), q)}
      ensures RightPlace(Relabel(t, p, u), q)
    {
      assert RightPlace(t, q);
    }
  }

  lemma LinkSorted(t: Tags, l: Lists, i: int, k: nat, p: int)
    requires Shape(l) && BinsSorted(t, l) && 0 < i < NBINS && k <= |l.bins[i]|
    requires i >= NSMALLBINS ==> KeepsOrder(t, l.bins[i], k, Size(t, p))
    ensures BinsSorted(Relabel(t, p, Bin(i)), Link(l, i, k, p))
  {
    var l', u := Link(l, i, k, p), Relabel(t, p, Bin(i));
    InsertIndices(l.bins[i], k, p);
    forall j {:trigger l'.bins[j]} | NSMALLBINS <= j < NBINS
      ensures Descending(u, l'.bins[j])
    {
      assert Descending(t, l.bins[j]);
    }
  }

  lemma UnlinkFiling(t: Tags, l: Lists, i: int, k: nat, u: Use)
    requires Filing(t, l) && 0 < i < NBINS && k < |l.bins[i]| && !Filed(u)
    ensures Filing(Relabel(t, l.bins[i][k], u), Unlink(l, i, k))
  {
    UnlinkLinking(t.own, l, i, k, u);
    UnlinkSorted(t, l, i, k, u);
    Replaced(t, l.bins[i][k], u);
  }

  lemma UnlinkSorted(t: Tags, l: Lists, i: int, k: nat, u: Use)
    requires Shape(l) && BinsSorted(t, l) && 0 < i < NBINS && k < |l.bins[i]|
    ensures BinsSorted(Relabel(t, l.bins[i][k], u), Unlink(l, i, k))
  {
    var l' := Unlink(l, i, k);
    RemoveIndices(l.bins[i], k);
    forall j {:trigger l'.bins[j]} | NSMALLBINS <= j < NBINS
      ensures Descending(Relabel(t, l.bins[i][k], u), l'.bins[j])
    {
      assert Descending(t, l.bins[j]);
    }
  }

  lemma PushFiling(t: Tags, l: Lists, k: int, p: int)
    requires Filing(t, l) && 0 <= k < 8 && p > 0 && p in t.own && !Filed(t.own[p]) && Size(t, p) == 8 * (k + 2)
    ensures Filing(Relabel(t, p, Fast(k)), Push(l, k, p))
  {
    PushLinking(t.own, l, k, p);
    Replaced(t, p, Fast(k));
    SameBinsSorted(t, Relabel(t, p, Fast(k)), l, Push(l, k, p));
  }

  lemma SameBinsSorted(t: Tags, u: Tags, l: Lists, l': Lists)
    requires Shape(l) && Shape(l') && BinsSorted(t, l) && u.head == t.head && l'.bins == l.bins
    ensures BinsSorted(u, l')
  {
    forall j {:trigger l'.bins[j]} | NSMALLBINS <= j < NBINS
      ensures Descending(u, l'.bins[j])
    {
      assert Descending(t, l.bins[j]);
    }
  }

  lemma PopFiling(t: Tags, l: Lists, k: int, u: Use)
    requires Filing(t, l) && 0 <= k < NFASTBINS && l.chains[k] != [] && !Filed(u)
    ensures Filing(Relabel(t, l.chains[k][0], u), Pop(l, k))
  {
    PopLinking(t.own, l, k, u);
    Replaced(t, l.chains[k][0], u);
    SameBinsSorted(t, Relabel(t, l.chains[k][0], u), l, Pop(l, k));
  }

  lemma ClearFiling(t: Tags, l: Lists, k: int)
    requires Filing(t, l) && 0 <= k < NFASTBINS
    ensures Filing(t.(own := SpillAll(t.own, l.chains[k])), Clear(l, k))
  {
    var u := t.(own := SpillAll(t.own, l.chains[k]));
    ClearLinking(t.own, l, k);
    SameBinsSorted(t, u, l, Clear(l, k));
    forall q {:trigger RightPlace(u, q)}
      ensures RightPlace(u, q)
    {
      assert RightPlace(t, q);
    }
  }

  // ---------- the whole state ----------

  ghost function Unlinked(s: State, i: int, k: nat): State
    requires Shape(s.l) && 0 < i < NBINS && k < |s.l.bins[i]|
  {
    s.(t := Relabel(s.t, s.l.bins[i][k], Loose), l := Unlink(s.l, i, k))
  }

  ghost function Linked(s: State, i: int, k: nat, p: int): State
    requires Shape(s.l) && 0 < i < NBINS && k <= |s.l.bins[i]|
  {
    s.(t := Relabel(s.t, p, Bin(i)), l := Link(s.l, i, k, p))
  }

  // The head of fastbin k is handed out.
  ghost function Popped(s: State, k: int): State
    requires Shape(s.l) && 0 <= k < NFASTBINS && s.l.chains[k] != []
  {
    s.(t := Relabel(s.t, s.l.chains[k][0], Live), l := Pop(s.l, k))
  }

  ghost function Pushed(s: State, k: int, p: int): State
    requires Shape(s.l) && 0 <= k < NFASTBINS
  {
    s.(t := Relabel(s.t, p, Fast(k)), l := Push(s.l, k, p), any := true, fast := true)
  }

  lemma PushedFields(s: State, k: int, p: int)
    requires Shape(s.l) && 0 <= k < NFASTBINS
    ensures Relabel(s.t, p, Fast(k)) == Tags(s.t.head, s.t.foot, s.t.own[p := Fast(k)], s.t.top, s.t.base, s.t.brk)
    ensures Pushed(s, k, p) == State(
      Relabel(s.t, p, Fast(k)),
      Lists(s.l.fd[p := s.l.fast[k]], s.l.bk, s.l.bins, s.l.fast[k := p], s.l.chains[k := [p] + s.l.chains[k]]),
      s.marks, true, true)
  {
  }

  // Fastbin k is cleared, its chunks are still to be merged.
  ghost function Cleared(s: State, k: int): State
    requires Shape(s.l) && 0 <= k < NFASTBINS
  {
    s.(t := s.t.(own := SpillAll(s.t.own, s.l.chains[k])), l := Clear(s.l, k))
  }

  lemma NotBare(s: State, p: int)
    requires Sound(s) && p in s.t.own
    ensures Tiled(s.t) && p > 0
  {
    InsideHeap(s.t, p);
  }

  lemma UnlinkedSound(s: State, i: int, k: nat)
    requires Sound(s) && 0 < i < NBINS && k < |s.l.bins[i]|
    ensures Sound(Unlinked(s, i, k))
  {
    InBin(s.t, s.l, i, k);
    UnlinkFiling(s.t, s.l, i, k, Loose);
    NotBare(s, s.l.bins[i][k]);
    assert Placed(s.t, s.l.bins[i][k]);
    RelabelTiled(s.t, s.l.bins[i][k], Loose);
  }

  lemma LinkedSound(s: State, i: int, k: nat, p: int)
    requires Sound(s) && 0 < i < NBINS && k <= |s.l.bins[i]| && Is(s.t, p, Loose) && s.any
    requires i == 1 || i in s.marks
    requires i == 1 || (Size(s.t, p) >= 0 && i == IndexOf(Size(s.t, p)))
    requires i >= NSMALLBINS ==> KeepsOrder(s.t, s.l.bins[i], k, Size(s.t, p))
    ensures Sound(Linked(s, i, k, p))
  {
    NotBare(s, p);
    assert Placed(s.t, p);
    LinkFiling(s.t, s.l, i, k, p);
    RelabelTiled(s.t, p, Bin(i));
  }

  lemma PoppedSound(s: State, k: int)
    requires Sound(s) && 0 <= k < NFASTBINS && s.l.chains[k] != []
    ensures Sound(Popped(s, k))
  {
    var p := s.l.chains[k][0];
    assert p in s.l.chains[k];
    NotBare(s, p);
    PopFiling(s.t, s.l, k, Live);
    assert Placed(s.t, p);
    RelabelTiled(s.t, p, Live);
  }

  lemma PushedSound(s: State, k: int, p: int)
    requires Sound(s) && 0 <= k < 8 && Is(s.t, p, Live) && Size(s.t, p) == 8 * (k + 2)
    ensures Sound(Pushed(s, k, p))
  {
    NotBare(s, p);
    PushFiling(s.t, s.l, k, p);
    assert Placed(s.t, p);
    RelabelTiled(s.t, p, Fast(k));
  }

  lemma ClearedSound(s: State, k: int)
    requires Sound(s) && 0 <= k < NFASTBINS
    ensures Sound(Cleared(s, k))
  {
    var u := Cleared(s, k);
    ClearFiling(s.t, s.l, k);
    ClearedKinds(s, k);
    hide BinsListed, ChainsListed, Tiles, Truthful, BinsSorted, Ringed, Chained, RightPlace;
    if Tiled(s.t) {
      SameKindTiled(s.t, u.t);
    } else {
      assert u.t == s.t;
    }
  }

  lemma ClearedKinds(s: State, k: int)
    requires Sound(s) && 0 <= k < NFASTBINS
    ensures forall p | p in s.t.own ::
      (IsFree(Cleared(s, k).t, p) <==> IsFree(s.t, p)) && (Cleared(s, k).t.own[p] == Top <==> s.t.own[p] == Top)
    ensures Blocks(Cleared(s, k).t) == Blocks(s.t) && Loosened(Cleared(s, k).t) == Loosened(s.t)
    ensures SpilledOnes(Cleared(s, k).t) == SpilledOnes(s.t) + set p | p in s.l.chains[k]
  {
    var c := s.l.chains[k];
    assert forall p | p in c :: Is1(s.t.own, p, Fast(k));
  }

  lemma RetaggedSound(s: State, u: Tags)
    requires Sound(s) && SameFiled(s.t, u) && Tiled(u)
    ensures Sound(s.(t := u))
  {
    FilingFrame(s.t, u, s.l);
  }

  // A loose chunk is handed out as a whole.
  lemma ExhaustSound(s: State, p: int) returns (u: Tags)
    requires Sound(s) && Is(s.t, p, Loose)
    ensures u == Exhaust(s.t, p) && Sound(s.(t := u))
    ensures Blocks(u) == Blocks(s.t)[p := Size(s.t, p)]
    ensures Loosened(u) == Loosened(s.t) - {p} && SpilledOnes(u) == SpilledOnes(s.t)
  {
    u := Exhaust(s.t, p);
    NotBare(s, p);
    ExhaustTiled(s.t, p);
    ExhaustFrame(s.t, p);
    hide *;
    RetaggedSound(s, u);
  }

  // The front of a loose chunk is handed out, the rest stays loose.
  lemma SplitSound(s: State, p: int, nb: int) returns (u: Tags)
    requires Sound(s) && Is(s.t, p, Loose) && Splittable(s.t, p, nb)
    ensures u == Split(s.t, p, nb) && Sound(s.(t := u)) && Is(u, p + nb, Loose) && p + nb !in Blocks(u)
    ensures Blocks(u) == Blocks(s.t)[p := nb]
    ensures Loosened(u) == Loosened(s.t) - {p} + {p + nb} && SpilledOnes(u) == SpilledOnes(s.t)
  {
    u := Split(s.t, p, nb);
    NotBare(s, p);
    SplitTiled(s.t, p, nb);
    SplitFrame(s.t, p, nb);
    RetaggedSound(s, u);
  }

  lemma SplitTopSound(s: State, nb: int) returns (u: Tags)
    requires Sound(s) && Splittable(s.t, s.t.top, nb)
    ensures u == SplitTop(s.t, nb) && Sound(s.(t := u))
    ensures Blocks(u) == Blocks(s.t)[s.t.top := nb]
    ensures Loosened(u) == Loosened(s.t) && SpilledOnes(u) == SpilledOnes(s.t)
  {
    u := SplitTop(s.t, nb);
    NotBare(s, s.t.top);
    SplitTopTiled(s.t, nb);
    SplitTopFrame(s.t, nb);
    hide *;
    RetaggedSound(s, u);
  }

  // Fastbins past max_fast are empty.
  lemma NoneAboveMaxFast(s: State)
    requires Sound(s)
    ensures Shape(s.l) && forall k | 8 <= k < NFASTBINS :: s.l.chains[k] == []
  {
    forall k | 8 <= k < NFASTBINS
      ensures s.l.chains[k] == []
    {
      if s.l.chains[k] != [] {
        BelowMaxFast(s, k);
      }
    }
  }

  lemma BelowMaxFast(s: State, k: nat)
    requires Sound(s) && k < NFASTBINS && s.l.chains[k] != []
    ensures k < 8
  {
    var p := s.l.chains[k][0];
    assert p in s.l.chains[k] && Is1(s.t.own, p, Fast(k));
    assert RightPlace(s.t, p);
  }

  // More memory behind top, or the first memory.
  lemma ExtendSound(s: State, n: int) returns (u: Tags)
    requires Sound(s) && Tiled(s.t) && n >= 0 && n % ALIGN == 0
    ensures u == Extend(s.t, n) && Sound(s.(t := u)) && Tiled(u) && Blocks(u) == Blocks(s.t)
    ensures Loosened(u) == Loosened(s.t) && SpilledOnes(u) == SpilledOnes(s.t)
    ensures Size(u, u.top) == Size(s.t, s.t.top) + n
  {
    u := Extend(s.t, n);
    ExtendTiled(s.t, n);
    RetaggedSound(s, u);
  }

  lemma FoundSound(s: State, n: int) returns (u: Tags)
    requires Sound(s) && Bare(s.t) && n >= MINSIZE && n % ALIGN == 0
    ensures u == Found(s.t, n) && Sound(s.(t := u)) && Tiled(u) && Blocks(u) == Blocks(s.t)
    ensures Loosened(u) == {} && SpilledOnes(u) == {} && Size(u, u.top) == n
  {
    u := Found(s.t, n);
    FoundTiled(s.t, n);
    RetaggedSound(s, u);
  }

  // ---------- coalescing ----------

  // The chunk p in use, joined by loose neighbours, is to be merged; e is the chunk behind.
  ghost predicate Joinable(t: Tags, s: int, p: int, e: int) {
    && s in t.own && p in t.own && p != t.top && (t.own[p].Live? || t.own[p].Spilled?) && Pinuse(t, s)
    && (s == p || (End(t, s) == p && Is(t, s, Loose)))
    && (e == End(t, p) || (e == End(t, End(t, p)) && Is(t, End(t, p), Loose)))
  }

  // p is in use and its free neighbour in front, if any, is off its list: s is where they start.
  ghost predicate Opened(t: Tags, s: int, p: int) {
    && Tiled(t) && s in t.own && p in t.own && p != t.top && (t.own[p].Live? || t.own[p].Spilled?) && Pinuse(t, s)
    && (s == p || (End(t, s) == p && Is(t, s, Loose)))
    && Loosened(t) == if s == p then {} else {s}
  }

  // Where the chunk starts, and where it ends, that p becomes when it is freed.
  function MergeStart(t: Tags, p: int): int {
    if Pinuse(t, p) then p else p - WordAt(t.foot, p)
  }

  function MergeEnd(t: Tags, p: int): int {
    var e := End(t, p);
    if e == t.top || IsFree(t, e) then End(t, e) else e
  }

  // It is p with the free chunk in front of it and the free chunk, or top, behind it.
  lemma MergedRange(s: State, p: int)
    requires Sound(s) && p in s.t.own && p != s.t.top && !IsFree(s.t, p)
    ensures var q := MergeStart(s.t, p); q == p || (IsFree(s.t, q) && End(s.t, q) == p)
    ensures forall q | IsFree(s.t, q) && End(s.t, q) == p :: MergeStart(s.t, p) == q
    ensures var e := MergeEnd(s.t, p); e == End(s.t, p) || e == End(s.t, End(s.t, p))
    ensures IsFree(s.t, End(s.t, p)) || End(s.t, p) == s.t.top <==> MergeEnd(s.t, p) == End(s.t, End(s.t, p))
  {
    NotBare(s, p);
    if !Pinuse(s.t, p) {
      var q := FreeBefore(s.t, p);
    }
    forall q | IsFree(s.t, q) && End(s.t, q) == p
      ensures MergeStart(s.t, p) == q
    {
      FreeAlone(s.t, q);
    }
    assert Placed(s.t, p) && Placed(s.t, s.t.top);
    assert End(s.t, p) in s.t.own && Placed(s.t, End(s.t, p));
  }

  lemma OpenedAlone(t: Tags, p: int)
    requires Tiled(t) && p in t.own && (t.own[p].Live? || t.own[p].Spilled?) && Pinuse(t, p) && Loosened(t) == {}
    ensures Opened(t, p, p)
  {
    assert Placed(t, p);
  }

  // The free chunk in front of p, found through its footer.
  lemma OpenBack(st: State, p: int) returns (s: int, i: int, k: nat)
    requires Sound(st) && p in st.t.own && (st.t.own[p].Live? || st.t.own[p].Spilled?)
    requires !Pinuse(st.t, p) && Loosened(st.t) == {}
    ensures s == p - WordAt(st.t.foot, p) && 0 < i < NBINS && k < |st.l.bins[i]| && st.l.bins[i][k] == s
    ensures Opened(Relabel(st.t, s, Loose), s, p)
    ensures Blocks(Relabel(st.t, s, Loose)) == Blocks(st.t)
    ensures SpilledOnes(Relabel(st.t, s, Loose)) == SpilledOnes(st.t)
    ensures MergeEnd(Relabel(st.t, s, Loose), p) == MergeEnd(st.t, p)
  {
    NotBare(st, p);
    s := FreeBefore(st.t, p);
    assert s !in Loosened(st.t);
    i, k := WhichBin(st.t, st.l, s);
    assert Placed(st.t, s) && Placed(st.t, p);
    RelabelTiled(st.t, s, Loose);
    RelabelBlocks(st.t, s, Loose);
    NoBlock(st.t, s);
  }

  // The chunk behind p is in use.
  lemma FrontInUse(t: Tags, s: int, p: int)
    requires Opened(t, s, p) && End(t, p) != t.top && Pinuse(t, End(t, End(t, p)))
    ensures var e := End(t, p); Joinable(t, s, p, e) && e in t.own && !IsFree(t, e) && e == MergeEnd(t, p)
    ensures forall q | q in Loosened(t) :: s <= q < End(t, p)
  {
    var e := End(t, p);
    assert Placed(t, p) && Placed(t, e) && Honest(t, e);
    assert Placed(t, s);
  }

  // The chunk behind p is free.
  lemma FrontFree(st: State, s: int, p: int) returns (i: int, k: nat)
    requires Sound(st) && Opened(st.t, s, p) && End(st.t, p) != st.t.top && !Pinuse(st.t, End(st.t, End(st.t, p)))
    ensures 0 < i < NBINS && k < |st.l.bins[i]| && st.l.bins[i][k] == End(st.t, p)
    ensures var x, u := End(st.t, p), Relabel(st.t, End(st.t, p), Loose);
      && Tiled(u) && Joinable(u, s, p, End(st.t, x)) && End(st.t, x) in u.own
      && !IsFree(u, End(st.t, x)) && End(st.t, x) != u.top
    ensures End(st.t, End(st.t, p)) in st.t.head && MergeEnd(st.t, p) == End(st.t, End(st.t, p))
    ensures Blocks(Relabel(st.t, End(st.t, p), Loose)) == Blocks(st.t)
    ensures SpilledOnes(Relabel(st.t, End(st.t, p), Loose)) == SpilledOnes(st.t)
    ensures forall q | q in Loosened(Relabel(st.t, End(st.t, p), Loose)) :: s <= q < End(st.t, End(st.t, p))
  {
    var t := st.t;
    var x := End(t, p);
    assert Placed(t, p) && Placed(t, x) && Honest(t, x) && Placed(t, s);
    FreeAlone(t, x);
    assert Placed(t, End(t, x));
    assert x !in Loosened(t);
    i, k := WhichBin(t, st.l, x);
    RelabelTiled(t, x, Loose);
    RelabelBlocks(t, x, Loose);
    NoBlock(t, x);
  }

  // Links of chunks that are in no bin survive.
  lemma UnlinkKeepsLinks(s: State, i: int, k: nat, q: int)
    requires Sound(s) && 0 < i < NBINS && k < |s.l.bins[i]| && q in s.t.own && !s.t.own[q].Bin?
    ensures WordAt(Unlinked(s, i, k).l.fd, q) == WordAt(s.l.fd, q)
  {
    InBin(s.t, s.l, i, k);
    RoundNodes(s.t.own, s.l, i, k);
    NotBare(s, q);
  }

  lemma LinkKeepsLinks(s: State, i: int, k: nat, p: int, q: int)
    requires Sound(s) && 0 < i < NBINS && k <= |s.l.bins[i]| && q in s.t.own && !s.t.own[q].Bin? && q != p
    ensures WordAt(Linked(s, i, k, p).l.fd, q) == WordAt(s.l.fd, q)
  {
    RoundNodes(s.t.own, s.l, i, k);
    NotBare(s, q);
  }

  lemma AnySound(s: State)
    requires Sound(s)
    ensures Sound(s.(any := true))
  {
  }

  lemma JoinLow(t: Tags, s: int, p: int, e: int) returns (u: Tags)
    requires Tiled(t) && Joinable(t, s, p, e) && e in t.own && !IsFree(t, e) && e != t.top
    ensures u == Merge(t, s, End(t, p), e) && Tiled(u) && SameFiled(t, u) && Is(u, s, Loose)
    ensures Blocks(u) == Blocks(t) - {p} && SpilledOnes(u) == SpilledOnes(t) - {p}
    ensures Loosened(u) == (set q | q in Loosened(t) && !(s <= q < e)) + {s}
  {
    u := Merge(t, s, End(t, p), e);
    Neighbours(t, s, p, e);
    assert Mergeable(t, s, End(t, p), e) && OnlyUsed(t, s, e, p);
    MergeTiled(t, s, End(t, p), e);
    MergeFrame(t, s, End(t, p), e, p);
  }

  lemma JoinTop(t: Tags, s: int, p: int) returns (u: Tags)
    requires Tiled(t) && Joinable(t, s, p, t.top) && t.top == End(t, p)
    ensures u == MergeTop(t, s) && Tiled(u) && SameFiled(t, u)
    ensures Blocks(u) == Blocks(t) - {p} && SpilledOnes(u) == SpilledOnes(t) - {p}
    ensures Loosened(u) == set q | q in Loosened(t) && q < s
  {
    u := MergeTop(t, s);
    Neighbours(t, s, p, t.top);
    InsideHeap(t, p);
    forall q | q in t.own
      ensures q <= t.top && (q == t.top ==> t.own[q] == Top) && q < t.brk
    {
      InsideHeap(t, q);
    }
    assert OnlyUsed(t, s, t.brk, p);
    MergeTopTiled(t, s);
    MergeTopFrame(t, s, p);
  }

  // The chunk behind p is top.
  lemma TopOpened(st: State, s: int, p: int) returns (u: Tags)
    requires Sound(st) && Opened(st.t, s, p) && End(st.t, p) == st.t.top
    ensures u == MergeTop(st.t, s) && Sound(st.(t := u)) && st.t.brk == End(st.t, st.t.top) && Loosened(u) == {}
    ensures Blocks(u) == Blocks(st.t) - {p} && SpilledOnes(u) == SpilledOnes(st.t) - {p}
  {
    InsideHeap(st.t, st.t.top);
    u := JoinTop(st.t, s, p);
    RetaggedSound(st, u);
  }

  // The PREV_INUSE bit of a chunk behind a free one is clear already.
  lemma MergeWrites(t: Tags, s: int, x: int, e: int)
    requires e == x || (e in t.head && !Pinuse(t, e))
    ensures Merge(t, s, x, e) == t.(head := t.head[x := Head(Size(t, x), false)][s := Head(e - s, true)],
       foot := t.foot[e := e - s],
       own := Outer(t.own, s, e)[s := Loose])
  {
    if e != x {
      var m := t.head[x := Head(Size(t, x), false)];
      assert m[e := Head(Size(t, e), false)] == m;
    }
  }

  // ---------- reading the lists ----------

  // The chunk at position k of bin i, and its neighbours in the ring.
  lemma InBin(t: Tags, l: Lists, i: int, k: nat)
    requires Filing(t, l) && 0 < i < NBINS && k < |l.bins[i]|
    ensures var p, c := l.bins[i][k], Round(Header(i), l.bins[i]);
      && Is(t, p, Bin(i)) && p > 0 && WordAt(l.fd, p) == c[k + 2] && WordAt(l.bk, p) == c[k]
      && WordAt(l.fd, c[k]) == p && WordAt(l.bk, c[k + 2]) == p
  {
    var c := Round(Header(i), l.bins[i]);
    assert LinkedAt(l.fd, l.bk, c, k) && LinkedAt(l.fd, l.bk, c, k + 1);
    assert l.bins[i][k] in l.bins[i];
  }

  // The header of bin i links to the first and the last chunk, or to itself.
  lemma AtHeader(t: Tags, l: Lists, i: int)
    requires Filing(t, l) && 0 < i < NBINS
    ensures WordAt(l.fd, Header(i)) == Round(Header(i), l.bins[i])[1]
    ensures WordAt(l.bk, Header(i)) == Round(Header(i), l.bins[i])[|l.bins[i]|]
    ensures WordAt(l.bk, Header(i)) == Header(i) <==> l.bins[i] == []
  {
    var c := Round(Header(i), l.bins[i]);
    assert LinkedAt(l.fd, l.bk, c, 0) && LinkedAt(l.fd, l.bk, c, |l.bins[i]|);
    if l.bins[i] != [] {
      assert l.bins[i][|l.bins[i]| - 1] in l.bins[i];
    }
  }

  // A binned chunk is in the bin of its label.
  lemma WhichBin(t: Tags, l: Lists, p: int) returns (i: int, k: nat)
    requires Filing(t, l) && p in t.own && t.own[p].Bin?
    ensures 0 < i < NBINS && t.own[p] == Bin(i) && k < |l.bins[i]| && l.bins[i][k] == p
  {
    i := t.own[p].i;
    k := PositionIn(l.bins[i], p);
  }

  // ---------- best fit ----------

  // No chunk of bins lo to below hi can hold nb bytes.
  ghost predicate NoneFits(t: Tags, bins: seq<seq<int>>, lo: int, hi: int, nb: int)
    requires |bins| == NBINS
  {
    forall i, p | lo <= i < hi && 0 <= i < NBINS && p in bins[i] :: Size(t, p) < nb
  }

  // Chunks in bins below that of the request are too small.
  lemma LowerBinsTooSmall(t: Tags, l: Lists, nb: nat)
    requires Filing(t, l) && nb >= MINSIZE
    ensures NoneFits(t, l.bins, 2, IndexOf(nb), nb)
  {
    forall i, p | 2 <= i < IndexOf(nb) && 0 <= i < NBINS && p in l.bins[i]
      ensures Size(t, p) < nb
    {
      assert Is1(t.own, p, Bin(i)) && RightPlace(t, p);
      if Size(t, p) >= nb {
        HigherBinFits(nb, Size(t, p));
      }
    }
  }

  // ---------- initialisation ----------

  // malloc_state is all zeroes before the first call: every bin and every fastbin is empty.
  ghost predicate Zeroed(s: State) {
    && s.t.own == map[] && s.t.head == map[] && s.t.brk == s.t.base && s.t.base > 0 && s.t.base % ALIGN == 0
    && s.marks == {} && !s.any && !s.fast && Shape(s.l)
    && (forall i | 0 <= i < NBINS :: s.l.bins[i] == [])
    && (forall k | 0 <= k < NFASTBINS :: s.l.chains[k] == [] && s.l.fast[k] == 0)
  }

  function EmptyLists(n: nat): (s: seq<seq<int>>)
    ensures |s| == n && forall i | 0 <= i < n :: s[i] == []
  {
    seq(n, _ => [])
  }

  function Zeroes(n: nat): (s: seq<int>)
    ensures |s| == n && forall i | 0 <= i < n :: s[i] == 0
  {
    seq(n, _ => 0)
  }

  lemma ZeroState(s: State)
    requires s.t.own == map[] && s.t.head == map[] && s.t.brk == s.t.base && s.t.base > 0 && s.t.base % ALIGN == 0
    requires s.marks == {} && !s.any && !s.fast
    requires s.l.bins == EmptyLists(NBINS) && s.l.chains == EmptyLists(NFASTBINS) && s.l.fast == Zeroes(NFASTBINS)
    ensures Zeroed(s) && Blocks(s.t) == map[]
  {
  }

  // After malloc_init_state, with the links of the bin headers.
  ghost function Initial(s: State, fd: map<int, int>, bk: map<int, int>): State {
    s.(t := s.t.(top := NO_TOP), l := s.l.(fd := fd, bk := bk))
  }

  lemma InitialSound(s: State, fd: map<int, int>, bk: map<int, int>)
    requires Zeroed(s) && forall i | 0 < i < NBINS :: Looped(fd, bk, i)
    ensures Sound(Initial(s, fd, bk)) && Settled(s.t) && Settled(Initial(s, fd, bk).t) && Bare(Initial(s, fd, bk).t)
    ensures Blocks(s.t) == map[] && Blocks(Initial(s, fd, bk).t) == map[] && !s.any && !s.fast && s.t.brk == s.t.base
  {
    var u := Initial(s, fd, bk);
    forall i {:trigger u.l.bins[i]} | 0 < i < NBINS
      ensures Ring(fd, bk, Header(i), u.l.bins[i])
    {
      assert Looped(fd, bk, i);
      assert LinkedAt(fd, bk, Round(Header(i), u.l.bins[i]), 0);
    }
    assert forall p {:trigger RightPlace(u.t, p)} :: RightPlace(u.t, p);
  }
}
