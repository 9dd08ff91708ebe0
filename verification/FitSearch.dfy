/**
 Best fit (shared/malloc.c): what makes the chunk that malloc picks a smallest free chunk that
 can hold the request.
 */
module FitSearch {
  import opened BinIndex
  import opened ChunkTags
  import opened TagMoves
  import opened PriorityOrder
  import opened FreeLists
  import opened Arena

  // Every free chunk but r that can hold nb bytes has at least c bytes.
  ghost predicate BestFit(t: Tags, nb: int, c: int, r: int) {
    forall q | IsFree(t, q) && q != r :: Size(t, q) >= nb ==> Size(t, q) >= c
  }

  // No free chunk can hold nb bytes.
  ghost predicate NoFit(t: Tags, nb: int) {
    forall q | IsFree(t, q) :: Size(t, q) < nb
  }

  // The size of the chunk that the block at p was taken from: what was split off is free behind it.
  function Taken(t: Tags, p: int, nb: int): int {
    if IsFree(t, p + nb) then nb + Size(t, p + nb) else Size(t, p)
  }

  // Among the unsorted chunks b, that at position k is the oldest of exactly this size.
  ghost predicate OldestExact(t: Tags, b: seq<int>, k: int, nb: int) {
    0 <= k < |b| && Size(t, b[k]) == nb && forall m | k < m < |b| :: Size(t, b[m]) != nb
  }

  // The last remainder serves a small request if it is the newest unsorted chunk and leaves more
  // than a minimal chunk.
  predicate Reusable(t: Tags, b: seq<int>, rem: int, nb: int) {
    Small(nb) && b != [] && b[0] == rem && Size(t, rem) > nb + MINSIZE
  }

  // The unsorted chunk that serves a request: the oldest of exactly its size, else the last
  // remainder; 0 if there is none.
  ghost function Choice(t: Tags, b: seq<int>, rem: int, nb: int): int {
    if k :| OldestExact(t, b, k, nb) then b[k] else if Reusable(t, b, rem, nb) then rem else 0
  }

  lemma ChoiceExact(t: Tags, b: seq<int>, rem: int, k: int, nb: int)
    requires OldestExact(t, b, k, nb)
    ensures Choice(t, b, rem, nb) == b[k]
  {
    forall j | OldestExact(t, b, j, nb)
      ensures j == k
    {
    }
  }

  // No unsorted chunk has exactly the size.
  lemma ChoiceInexact(t: Tags, b: seq<int>, rem: int, nb: int)
    requires forall k | 0 <= k < |b| :: Size(t, b[k]) != nb
    ensures Choice(t, b, rem, nb) == if Reusable(t, b, rem, nb) then rem else 0
  {
  }

  // From position n on no unsorted chunk serves the request.
  ghost predicate PassedOver(t: Tags, b: seq<int>, n: nat, rem: int, nb: int) {
    n <= |b| && (forall m | n <= m < |b| :: Size(t, b[m]) != nb) && (n == 0 ==> Choice(t, b, rem, nb) == 0)
  }

  lemma PassedNone(t: Tags, b: seq<int>, rem: int, nb: int)
    ensures PassedOver(t, b, |b|, rem, nb)
  {
  }

  lemma NoneChosen(t: Tags, b: seq<int>, rem: int, nb: int)
    requires PassedOver(t, b, 0, rem, nb)
    ensures Choice(t, b, rem, nb) == 0
  {
  }

  // Except for r no chunk has become free.
  ghost predicate FreeKept(t: Tags, u: Tags, r: int) {
    forall q | IsFree(u, q) && q != r :: IsFree(t, q) && Size(u, q) == Size(t, q)
  }

  lemma StillBest(t: Tags, u: Tags, nb: int, c: int, r: int)
    requires BestFit(t, nb, c, r) && FreeKept(t, u, r)
    ensures BestFit(u, nb, c, r)
  {
  }

  // The chunk at position k of bin j fits, and neither the lower bins nor the rest of this bin
  // hold one that fits: then no free chunk fits better.
  lemma LeastFit(s: State, nb: int, j: int, k: nat)
    requires Sound(s) && Loosened(s.t) == {} && s.l.bins[1] == [] && 2 <= j < NBINS && k < |s.l.bins[j]|
    requires NoneFits(s.t, s.l.bins, 2, j, nb)
    requires forall m | k < m < |s.l.bins[j]| :: Size(s.t, s.l.bins[j][m]) < nb
    ensures forall r {:trigger BestFit(s.t, nb, Size(s.t, s.l.bins[j][k]), r)} ::
      BestFit(s.t, nb, Size(s.t, s.l.bins[j][k]), r)
  {
    hide Sound, Filing, Heap;
    SoundParts(s);
    forall q | IsFree(s.t, q) && Size(s.t, q) >= nb
      ensures Size(s.t, q) >= Size(s.t, s.l.bins[j][k])
    {
      FitsNoBetter(s, nb, j, k, q);
    }
  }

  lemma FitsNoBetter(s: State, nb: int, j: int, k: nat, q: int)
    requires Sound(s) && Loosened(s.t) == {} && s.l.bins[1] == [] && 2 <= j < NBINS && k < |s.l.bins[j]|
    requires NoneFits(s.t, s.l.bins, 2, j, nb)
    requires forall m | k < m < |s.l.bins[j]| :: Size(s.t, s.l.bins[j][m]) < nb
    requires IsFree(s.t, q) && Size(s.t, q) >= nb
    ensures Size(s.t, q) >= Size(s.t, s.l.bins[j][k])
  {
    hide Sound, Loosened, Filing, Heap;
    SoundParts(s);
    NotLoose(s.t, q);
    var i, m := WhichBin(s.t, s.l, q);
    var p := s.l.bins[j][k];
    InBin(s.t, s.l, j, k);
    InPlace(s, p);
    InPlace(s, q);
    if i > j {
      HigherBinFits(Size(s.t, p), Size(s.t, q));
    } else if i == j && m < k {
      SameBin(s, j, m, k);
    }
  }

  lemma NotLoose(t: Tags, q: int)
    requires IsFree(t, q) && Loosened(t) == {}
    ensures t.own[q].Bin?
  {
    assert q !in Loosened(t);
  }

  lemma InPlace(s: State, p: int)
    requires Sound(s) && p in s.t.own && s.t.own[p].Bin?
    ensures Size(s.t, p) >= MINSIZE && Size(s.t, p) % ALIGN == 0 && p % ALIGN == 0 && p > 0 && 0 < s.t.own[p].i < NBINS
    ensures s.t.own[p].i == 1 || s.t.own[p].i == IndexOf(Size(s.t, p)) >= 2
  {
    NotBare(s, p);
    assert Placed(s.t, p);
    assert RightPlace(s.t, p);
    IndexRange(Size(s.t, p));
  }

  // In one bin, an earlier chunk is never smaller.
  lemma SameBin(s: State, j: int, m: nat, k: nat)
    requires Sound(s) && 2 <= j < NBINS && m < k < |s.l.bins[j]|
    ensures Size(s.t, s.l.bins[j][m]) >= Size(s.t, s.l.bins[j][k])
  {
    InBin(s.t, s.l, j, m);
    InBin(s.t, s.l, j, k);
    if j >= NSMALLBINS {
      assert Descending(s.t, s.l.bins[j]);
    } else {
      InPlace(s, s.l.bins[j][m]);
      InPlace(s, s.l.bins[j][k]);
      IndexRange(Size(s.t, s.l.bins[j][m]));
      SmallBinExact(Size(s.t, s.l.bins[j][m]), Size(s.t, s.l.bins[j][k]));
    }
  }

  // All bins have been searched.
  lemma NothingFits(s: State, nb: int)
    requires Sound(s) && Loosened(s.t) == {} && s.l.bins[1] == [] && NoneFits(s.t, s.l.bins, 2, NBINS, nb)
    ensures NoFit(s.t, nb)
  {
    hide Sound, Loosened, Filing, Heap;
    SoundParts(s);
    forall q | IsFree(s.t, q)
      ensures Size(s.t, q) < nb
    {
      NotLoose(s.t, q);
      var i, m := WhichBin(s.t, s.l, q);
    }
  }

  // Without any chunk in a bin nothing is free.
  lemma NothingFree(s: State, nb: int)
    requires Sound(s) && Loosened(s.t) == {} && !s.any
    ensures NoFit(s.t, nb)
  {
    forall q | IsFree(s.t, q)
      ensures false
    {
      NotLoose(s.t, q);
    }
  }

  // The exact small bin is empty, so nothing up to it fits.
  lemma SmallBinEmpty(s: State, nb: int)
    requires Sound(s) && MINSIZE <= nb && Small(nb) && nb % ALIGN == 0 && s.l.bins[IndexOf(nb)] == []
    ensures NoneFits(s.t, s.l.bins, 2, IndexOf(nb) + 1, nb)
  {
    LowerBinsTooSmall(s.t, s.l, nb);
  }

  // No chunk of this bin fits.
  lemma BinTooSmall(s: State, j: int, nb: int)
    requires Sound(s) && 2 <= j < NBINS && NoneFits(s.t, s.l.bins, 2, j, nb)
    requires forall m | 0 <= m < |s.l.bins[j]| :: Size(s.t, s.l.bins[j][m]) < nb
    ensures NoneFits(s.t, s.l.bins, 2, j + 1, nb)
  {
  }

  // Taking a chunk off its list: it is no block, and the blocks stay.
  lemma UnlinkedBlocks(s: State, i: int, k: nat) returns (p: int, u: Tags)
    requires Sound(s) && Settled(s.t) && 0 < i < NBINS && k < |s.l.bins[i]|
    ensures p == s.l.bins[i][k] && u == Unlinked(s, i, k).t && Is(u, p, Loose) && p !in Blocks(u)
    ensures Blocks(u) == Blocks(s.t)
    ensures Loosened(u) == {p} && SpilledOnes(u) == {}
    ensures p > 0 && p % ALIGN == 0 && Size(u, p) >= MINSIZE && Size(u, p) % ALIGN == 0 && Size(u, p) == Size(s.t, p)
  {
    p := s.l.bins[i][k];
    u := Unlinked(s, i, k).t;
    hide Sound, Filing, Heap;
    SoundParts(s);
    InBin(s.t, s.l, i, k);
    InPlace(s, p);
    RelabelBlocks(s.t, p, Loose);
    NoBlock(s.t, p);
  }

  // Putting it into a bin: as before.
  lemma LinkedBlocks(t: Tags, p: int)
    requires Is(t, p, Loose) && Loosened(t) == {p} && SpilledOnes(t) == {}
    ensures forall i :: Blocks(Relabel(t, p, Bin(i))) == Blocks(t) && Settled(Relabel(t, p, Bin(i)))
  {
    forall i
      ensures Blocks(Relabel(t, p, Bin(i))) == Blocks(t) && Settled(Relabel(t, p, Bin(i)))
    {
      RelabelBlocks(t, p, Bin(i));
      NoBlock(t, p);
    }
  }

  // The last chunk of a bin follows the header only if it is alone.
  lemma AloneInBin(s: State, i: int)
    requires Sound(s) && 0 < i < NBINS && s.l.bins[i] != []
    ensures var b := s.l.bins[i]; WordAt(s.l.bk, b[|b| - 1]) == Header(i) <==> |b| == 1
  {
    var b := s.l.bins[i];
    InBin(s.t, s.l, i, |b| - 1);
    if |b| > 1 {
      InBin(s.t, s.l, i, |b| - 2);
    }
  }

  // ---------- what handing out leaves free ----------

  lemma ExhaustKept(t: Tags, p: int, r: int)
    requires Is(t, p, Loose)
    ensures FreeKept(t, Exhaust(t, p), r) && Size(Exhaust(t, p), p) == Size(t, p)
  {
  }

  // A chunk handed out as a whole is followed by a chunk in use that is not top.
  lemma ExhaustTaken(t: Tags, p: int, nb: int)
    requires Tiled(t) && Is(t, p, Loose) && 0 < nb <= Size(t, p)
    ensures var u := Exhaust(t, p); Taken(u, p, nb) == Size(t, p) && End(u, p) != u.top && !IsFree(u, p + nb)
  {
    FreeAlone(t, p);
    if nb < Size(t, p) {
      NoChunkInside(t, p, p + nb);
    }
  }

  lemma SplitKept(t: Tags, p: int, nb: int)
    requires Is(t, p, Loose) && Splittable(t, p, nb)
    ensures var u := Relabel(Split(t, p, nb), p + nb, Bin(1)); FreeKept(t, u, p + nb)
  {
  }

  // A chunk that is split leaves its rest behind the block.
  lemma SplitTaken(t: Tags, p: int, nb: int)
    requires Tiled(t) && Is(t, p, Loose) && Splittable(t, p, nb)
    ensures var u := Relabel(Split(t, p, nb), p + nb, Bin(1));
      Size(u, p) == nb && IsFree(u, p + nb) && Taken(u, p, nb) == Size(t, p) && End(u, p) != u.top
  {
    NoChunkInside(t, p, p + nb);
  }

  // Taking a chunk off its list does not change what is free.
  lemma UnlinkedKept(t: Tags, p: int, u: Use, r: int)
    requires IsFree(t, p) && Free(u)
    ensures FreeKept(t, Relabel(t, p, u), r) && FreeKept(Relabel(t, p, u), t, r)
  {
  }

  lemma SplitTopKept(t: Tags, nb: int)
    requires Tiled(t) && Splittable(t, t.top, nb)
    ensures forall r {:trigger FreeKept(t, SplitTop(t, nb), r)} :: FreeKept(t, SplitTop(t, nb), r)
  {
    NoChunkInside(t, t.top, t.top + nb);
    assert Placed(t, t.top);
  }
}
