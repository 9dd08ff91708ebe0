/**
 The lists of free chunks (shared/malloc.c): the doubly linked ring of each bin, whose header
 takes part like a chunk, and the singly linked chain of each fastbin.
 */
module FreeLists {
  import opened BinIndex
  import opened ChunkTags
  import opened PriorityOrder

  const NFASTBINS := 10

  // The links, with the lists they stand for.
  datatype Lists = Lists(
    fd: map<int, int>, bk: map<int, int>,
    bins: seq<seq<int>>,     // the chunks of each bin, from first to last
    fast: seq<int>,          // fastbins
    chains: seq<seq<int>>)   // the chunks of each fastbin

  // bin_at(i); chunks have positive addresses.
  function Header(i: int): int {
    -i
  }

  // ---------- rings ----------

  // Once around: the header, the chunks, and the header again.
  function Round(h: int, s: seq<int>): seq<int> {
    [h] + s + [h]
  }

  predicate LinkedAt(fd: map<int, int>, bk: map<int, int>, c: seq<int>, k: nat)
    requires k + 1 < |c|
  {
    WordAt(fd, c[k]) == c[k + 1] && WordAt(bk, c[k + 1]) == c[k]
  }

  ghost predicate Ring(fd: map<int, int>, bk: map<int, int>, h: int, s: seq<int>) {
    var c := Round(h, s);
    forall k {:trigger LinkedAt(fd, bk, c, k)} | 0 <= k <= |s| :: LinkedAt(fd, bk, c, k)
  }

  // An empty bin: its header is linked to itself.
  predicate Looped(fd: map<int, int>, bk: map<int, int>, i: int) {
    WordAt(fd, Header(i)) == Header(i) && WordAt(bk, Header(i)) == Header(i)
  }

  lemma RoundInsert(h: int, s: seq<int>, k: nat, p: int)
    requires k <= |s|
    ensures Round(h, Insert(s, k, p)) == Insert(Round(h, s), k + 1, p)
  {
    InsertIndices(s, k, p);
    InsertIndices(Round(h, s), k + 1, p);
  }

  lemma RoundRemove(h: int, s: seq<int>, k: nat)
    requires k < |s|
    ensures Round(h, Remove(s, k)) == Remove(Round(h, s), k + 1)
  {
    RemoveIndices(s, k);
    RemoveIndices(Round(h, s), k + 1);
  }

  lemma RingInsert(fd: map<int, int>, bk: map<int, int>, h: int, s: seq<int>, k: nat, p: int)
    requires Ring(fd, bk, h, s) && NoDup(s) && h !in s && p !in s && p != h && k <= |s|
    ensures var a, b := Round(h, s)[k], Round(h, s)[k + 1];
      Ring(fd[p := b][a := p], bk[p := a][b := p], h, Insert(s, k, p))
  {
    var c := Round(h, s);
    var a, b := c[k], c[k + 1];
    var fd', bk' := fd[p := b][a := p], bk[p := a][b := p];
    var s' := Insert(s, k, p);
    var c' := Round(h, s');
    RoundInsert(h, s, k, p);
    InsertIndices(c, k + 1, p);
    forall j {:trigger LinkedAt(fd', bk', c', j)} | 0 <= j <= |s'|
      ensures LinkedAt(fd', bk', c', j)
    {
      RingInsertAt(fd, bk, h, s, k, p, j);
    }
  }

  lemma RingInsertAt(fd: map<int, int>, bk: map<int, int>, h: int, s: seq<int>, k: nat, p: int, j: nat)
    requires Ring(fd, bk, h, s) && NoDup(s) && h !in s && p !in s && p != h && k <= |s| && j <= |s| + 1
    ensures var a, b := Round(h, s)[k], Round(h, s)[k + 1];
      LinkedAt(fd[p := b][a := p], bk[p := a][b := p], Round(h, Insert(s, k, p)), j)
  {
    var c := Round(h, s);
    RoundInsert(h, s, k, p);
    InsertIndices(c, k + 1, p);
    if j < k {
      assert LinkedAt(fd, bk, c, j);
    } else if j > k + 1 {
      assert LinkedAt(fd, bk, c, j - 1);
    }
  }

  lemma RingRemove(fd: map<int, int>, bk: map<int, int>, h: int, s: seq<int>, k: nat)
    requires Ring(fd, bk, h, s) && NoDup(s) && h !in s && k < |s|
    ensures var p := s[k];
      Ring(fd[WordAt(bk, p) := WordAt(fd, p)], bk[WordAt(fd, p) := WordAt(bk, p)], h, Remove(s, k))
  {
    var c := Round(h, s);
    assert LinkedAt(fd, bk, c, k) && LinkedAt(fd, bk, c, k + 1);
    var s', fd', bk' := Remove(s, k), fd[c[k] := c[k + 2]], bk[c[k + 2] := c[k]];
    var c' := Round(h, s');
    forall j {:trigger LinkedAt(fd', bk', c', j)} | 0 <= j <= |s'|
      ensures LinkedAt(fd', bk', c', j)
    {
      RingRemoveAt(fd, bk, h, s, k, j);
    }
  }

  lemma RingRemoveAt(fd: map<int, int>, bk: map<int, int>, h: int, s: seq<int>, k: nat, j: nat)
    requires Ring(fd, bk, h, s) && NoDup(s) && h !in s && k < |s| && j < |s|
    ensures var c := Round(h, s); LinkedAt(fd[c[k] := c[k + 2]], bk[c[k + 2] := c[k]], Round(h, Remove(s, k)), j)
  {
    var c := Round(h, s);
    RoundRemove(h, s, k);
    RemoveIndices(c, k + 1);
    if j < k {
      assert LinkedAt(fd, bk, c, j);
    } else if j > k {
      assert LinkedAt(fd, bk, c, j + 1);
    }
  }

  lemma RingFrame(fd: map<int, int>, bk: map<int, int>, fd': map<int, int>, bk': map<int, int>, h: int, s: seq<int>)
    requires Ring(fd, bk, h, s)
    requires forall p | p == h || p in s :: WordAt(fd', p) == WordAt(fd, p) && WordAt(bk', p) == WordAt(bk, p)
    ensures Ring(fd', bk', h, s)
  {
    var c := Round(h, s);
    forall k | 0 <= k <= |s|
      ensures LinkedAt(fd', bk', c, k)
    {
      assert LinkedAt(fd, bk, c, k);
    }
  }

  // ---------- chains ----------

  ghost predicate Chain(fd: map<int, int>, x: int, s: seq<int>)
    decreases |s|
  {
    if s == [] then x == 0 else x == s[0] && x != 0 && Chain(fd, WordAt(fd, x), s[1..])
  }

  lemma {:induction false} ChainFrame(fd: map<int, int>, fd': map<int, int>, x: int, s: seq<int>)
    requires Chain(fd, x, s) && forall p | p in s :: WordAt(fd', p) == WordAt(fd, p)
    ensures Chain(fd', x, s)
    decreases |s|
  {
    if s != [] {
      ChainFrame(fd, fd', WordAt(fd, x), s[1..]);
    }
  }

  // ---------- all lists ----------

  predicate Shape(l: Lists) {
    |l.bins| == NBINS && l.bins[0] == [] && |l.fast| == NFASTBINS && |l.chains| == NFASTBINS
  }

  // A chunk is in bin i exactly if it is marked so, and once.
  ghost predicate BinsListed(own: map<int, Use>, bins: seq<seq<int>>) {
    && |bins| == NBINS
    && (forall i, p | 0 <= i < NBINS && p in bins[i] :: Is1(own, p, Bin(i)))
    && (forall p | p in own && own[p].Bin? :: 0 < own[p].i < NBINS && p in bins[own[p].i])
    && (forall i | 0 <= i < NBINS :: NoDup(bins[i]))
  }

  ghost predicate ChainsListed(own: map<int, Use>, chains: seq<seq<int>>) {
    && |chains| == NFASTBINS
    && (forall k, p | 0 <= k < NFASTBINS && p in chains[k] :: Is1(own, p, Fast(k)))
    && (forall p | p in own && own[p].Fast? :: 0 <= own[p].k < NFASTBINS && p in chains[own[p].k])
    && (forall k | 0 <= k < NFASTBINS :: NoDup(chains[k]))
  }

  predicate Is1(own: map<int, Use>, p: int, u: Use) {
    p in own && own[p] == u && p > 0
  }

  ghost predicate Ringed(l: Lists)
    requires Shape(l)
  {
    forall i {:trigger l.bins[i]} | 0 < i < NBINS :: Ring(l.fd, l.bk, Header(i), l.bins[i])
  }

  ghost predicate Chained(l: Lists)
    requires Shape(l)
  {
    forall k {:trigger l.chains[k]} | 0 <= k < NFASTBINS :: Chain(l.fd, l.fast[k], l.chains[k])
  }

  ghost predicate Linking(own: map<int, Use>, l: Lists) {
    Shape(l) && BinsListed(own, l.bins) && ChainsListed(own, l.chains) && Ringed(l) && Chained(l)
  }

  // ---------- linking and unlinking ----------

  // p goes between the k-th chunk of bin i and the one before it.
  ghost function Link(l: Lists, i: int, k: nat, p: int): Lists
    requires Shape(l) && 0 < i < NBINS && k <= |l.bins[i]|
  {
    var c := Round(Header(i), l.bins[i]);
    l.(fd := l.fd[p := c[k + 1]][c[k] := p], bk := l.bk[p := c[k]][c[k + 1] := p],
       bins := l.bins[i := Insert(l.bins[i], k, p)])
  }

  ghost function Unlink(l: Lists, i: int, k: nat): Lists
    requires Shape(l) && 0 < i < NBINS && k < |l.bins[i]|
  {
    var p := l.bins[i][k];
    l.(fd := l.fd[WordAt(l.bk, p) := WordAt(l.fd, p)], bk := l.bk[WordAt(l.fd, p) := WordAt(l.bk, p)],
       bins := l.bins[i := Remove(l.bins[i], k)])
  }

  // The nodes around position k of a ring belong to that ring.
  lemma RoundNodes(own: map<int, Use>, l: Lists, i: int, k: nat)
    requires BinsListed(own, l.bins) && 0 < i < NBINS && k <= |l.bins[i]| + 1
    ensures var x := Round(Header(i), l.bins[i])[k]; x == Header(i) || Is1(own, x, Bin(i))
  {
    var s := l.bins[i];
    if 0 < k <= |s| {
      assert s[k - 1] in s;
    }
  }

  // Links of other rings and of the chains survive if only nodes of ring i, or p, change.
  lemma OthersKept(own: map<int, Use>, l: Lists, l': Lists, i: int, p: int)
    requires Linking(own, l) && 0 < i < NBINS && Shape(l') && p > 0 && (p in own ==> !own[p].Fast?)
    requires p in own && own[p].Bin? ==> own[p] == Bin(i)
    requires l'.bins == l.bins[i := l'.bins[i]] && l'.fast == l.fast && l'.chains == l.chains
    requires forall x | x != p && x != Header(i) && !Is1(own, x, Bin(i)) ::
      WordAt(l'.fd, x) == WordAt(l.fd, x) && WordAt(l'.bk, x) == WordAt(l.bk, x)
    ensures forall j | 0 < j < NBINS && j != i :: Ring(l'.fd, l'.bk, Header(j), l'.bins[j])
    ensures Chained(l')
  {
    forall j | 0 < j < NBINS && j != i
      ensures Ring(l'.fd, l'.bk, Header(j), l'.bins[j])
    {
      RingFrame(l.fd, l.bk, l'.fd, l'.bk, Header(j), l.bins[j]);
    }
    forall k {:trigger l'.chains[k]} | 0 <= k < NFASTBINS
      ensures Chain(l'.fd, l'.fast[k], l'.chains[k])
    {
      ChainFrame(l.fd, l'.fd, l.fast[k], l.chains[k]);
    }
  }

  lemma NotHeader(own: map<int, Use>, l: Lists, i: int)
    requires BinsListed(own, l.bins) && 0 < i < NBINS
    ensures Header(i) !in l.bins[i]
  {
  }

  lemma LinkLinking(own: map<int, Use>, l: Lists, i: int, k: nat, p: int)
    requires Linking(own, l) && 0 < i < NBINS && k <= |l.bins[i]| && p > 0
    requires p in own ==> !Filed(own[p])
    ensures Linking(own[p := Bin(i)], Link(l, i, k, p))
  {
    var l' := Link(l, i, k, p);
    RoundNodes(own, l, i, k);
    RoundNodes(own, l, i, k + 1);
    NotHeader(own, l, i);
    assert p !in l.bins[i];
    RingInsert(l.fd, l.bk, Header(i), l.bins[i], k, p);
    OthersKept(own, l, l', i, p);
    LinkListed(own, l.bins, i, k, p);
    assert ChainsListed(own[p := Bin(i)], l'.chains);
  }

  lemma LinkListed(own: map<int, Use>, bins: seq<seq<int>>, i: int, k: nat, p: int)
    requires BinsListed(own, bins) && 0 < i < NBINS && k <= |bins[i]| && p > 0
    requires p in own ==> !own[p].Bin?
    ensures BinsListed(own[p := Bin(i)], bins[i := Insert(bins[i], k, p)])
  {
    InsertMembers(bins[i], k, p);
    assert p !in bins[i];
    InsertIndices(bins[i], k, p);
  }

  lemma UnlinkLinking(own: map<int, Use>, l: Lists, i: int, k: nat, u: Use)
    requires Linking(own, l) && 0 < i < NBINS && k < |l.bins[i]| && !Filed(u)
    ensures Linking(own[l.bins[i][k] := u], Unlink(l, i, k))
  {
    var p := l.bins[i][k];
    var l' := Unlink(l, i, k);
    var c := Round(Header(i), l.bins[i]);
    assert LinkedAt(l.fd, l.bk, c, k) && LinkedAt(l.fd, l.bk, c, k + 1);
    RoundNodes(own, l, i, k);
    RoundNodes(own, l, i, k + 2);
    NotHeader(own, l, i);
    assert p in l.bins[i] && Is1(own, p, Bin(i));
    RingRemove(l.fd, l.bk, Header(i), l.bins[i], k);
    OthersKept(own, l, l', i, p);
    UnlinkListed(own, l.bins, i, k, u);
    assert ChainsListed(own[p := u], l'.chains);
  }

  lemma UnlinkListed(own: map<int, Use>, bins: seq<seq<int>>, i: int, k: nat, u: Use)
    requires BinsListed(own, bins) && 0 < i < NBINS && k < |bins[i]| && !u.Bin?
    ensures BinsListed(own[bins[i][k] := u], bins[i := Remove(bins[i], k)])
  {
    assert bins[i][k] in bins[i];
    RemoveExactly(bins[i], k);
  }

  lemma RemoveExactly(s: seq<int>, k: nat)
    requires NoDup(s) && k < |s|
    ensures NoDup(Remove(s, k))
    ensures forall q :: q in Remove(s, k) <==> q in s && q != s[k]
  {
    RemoveIndices(s, k);
    var r := Remove(s, k);
    forall q | q in s && q != s[k]
      ensures q in r
    {
      var j :| 0 <= j < |s| && s[j] == q;
      assert r[if j < k then j else j - 1] == q;
    }
  }

  // The position of a chunk in its bin.
  lemma PositionIn(s: seq<int>, p: int) returns (k: nat)
    requires p in s
    ensures k < |s| && s[k] == p
  {
    k :| k < |s| && s[k] == p;
  }

  // ---------- fastbins ----------

  // p becomes the head of fastbin k.
  ghost function Push(l: Lists, k: int, p: int): Lists
    requires Shape(l) && 0 <= k < NFASTBINS
  {
    l.(fd := l.fd[p := l.fast[k]], fast := l.fast[k := p], chains := l.chains[k := [p] + l.chains[k]])
  }

  // The head of fastbin k is taken.
  ghost function Pop(l: Lists, k: int): Lists
    requires Shape(l) && 0 <= k < NFASTBINS && l.chains[k] != []
  {
    l.(fast := l.fast[k := WordAt(l.fd, l.fast[k])], chains := l.chains[k := l.chains[k][1..]])
  }

  // Fastbin k is cleared; its chunks keep their links.
  ghost function Clear(l: Lists, k: int): Lists
    requires Shape(l) && 0 <= k < NFASTBINS
  {
    l.(fast := l.fast[k := 0], chains := l.chains[k := []])
  }

  ghost function SpillAll(own: map<int, Use>, s: seq<int>): map<int, Use> {
    map p | p in own :: if p in s then Spilled else own[p]
  }

  lemma PushLinking(own: map<int, Use>, l: Lists, k: int, p: int)
    requires Linking(own, l) && 0 <= k < NFASTBINS && p > 0 && p in own && !Filed(own[p])
    ensures Linking(own[p := Fast(k)], Push(l, k, p))
  {
    var l' := Push(l, k, p);
    forall j | 0 < j < NBINS
      ensures Ring(l'.fd, l'.bk, Header(j), l'.bins[j])
    {
      RingFrame(l.fd, l.bk, l'.fd, l'.bk, Header(j), l.bins[j]);
    }
    forall j {:trigger l'.chains[j]} | 0 <= j < NFASTBINS
      ensures Chain(l'.fd, l'.fast[j], l'.chains[j])
    {
      assert p !in l.chains[j];
      ChainFrame(l.fd, l'.fd, l.fast[j], l.chains[j]);
      assert j == k ==> l'.chains[j][1..] == l.chains[j];
    }
    PushListed(own, l.chains, k, p);
  }

  lemma PushListed(own: map<int, Use>, chains: seq<seq<int>>, k: int, p: int)
    requires ChainsListed(own, chains) && 0 <= k < NFASTBINS && p > 0 && p in own && !Filed(own[p])
    ensures ChainsListed(own[p := Fast(k)], chains[k := [p] + chains[k]])
  {
    var r := [p] + chains[k];
    assert p !in chains[k];
    assert forall q :: q in r <==> q == p || q in chains[k];
  }

  lemma PopLinking(own: map<int, Use>, l: Lists, k: int, u: Use)
    requires Linking(own, l) && 0 <= k < NFASTBINS && l.chains[k] != [] && !Filed(u)
    ensures Linking(own[l.chains[k][0] := u], Pop(l, k))
  {
    var s, p, l' := l.chains[k], l.chains[k][0], Pop(l, k);
    assert p in s && Is1(own, p, Fast(k));
    forall j {:trigger l'.chains[j]} | 0 <= j < NFASTBINS
      ensures Chain(l'.fd, l'.fast[j], l'.chains[j])
    {
      assert Chain(l.fd, l.fast[j], l.chains[j]);
    }
    assert forall q :: q in s[1..] <==> q in s && q != p by {
      RemoveExactly(s, 0);
      assert Remove(s, 0) == s[1..];
    }
    assert BinsListed(own[p := u], l'.bins);
  }

  lemma ClearLinking(own: map<int, Use>, l: Lists, k: int)
    requires Linking(own, l) && 0 <= k < NFASTBINS
    ensures Linking(SpillAll(own, l.chains[k]), Clear(l, k))
  {
    var own', l' := SpillAll(own, l.chains[k]), Clear(l, k);
    forall j {:trigger l'.chains[j]} | 0 <= j < NFASTBINS
      ensures Chain(l'.fd, l'.fast[j], l'.chains[j])
    {
      assert Chain(l.fd, l.fast[j], l.chains[j]);
    }
    assert BinsListed(own', l'.bins);
    assert ChainsListed(own', l'.chains);
  }

  // ---------- lists and tags ----------

  // Each listed chunk is where its size puts it: fastbins hold one size each, and so on.
  ghost predicate RightPlace(t: Tags, p: int) {
    p in t.own ==>
      match t.own[p]
      case Bin(i) => Size(t, p) >= 0 && (i == 1 || i == IndexOf(Size(t, p)))
      case Fast(k) => k < 8 && Size(t, p) == 8 * (k + 2)
      case _ => true
  }

  // The sizes do not ascend from the first chunk to the last.
  ghost predicate Descending(t: Tags, s: seq<int>) {
    forall i, j | 0 <= i < j < |s| :: Size(t, s[i]) >= Size(t, s[j])
  }

  ghost predicate BinsSorted(t: Tags, l: Lists)
    requires Shape(l)
  {
    forall i {:trigger l.bins[i]} | NSMALLBINS <= i < NBINS :: Descending(t, l.bins[i])
  }

  ghost predicate Filing(t: Tags, l: Lists) {
    Linking(t.own, l) && BinsSorted(t, l) && forall p {:trigger RightPlace(t, p)} :: RightPlace(t, p)
  }

  // What happens to the other chunks does not matter to the lists.
  lemma FilingFrame(t: Tags, u: Tags, l: Lists)
    requires Filing(t, l) && SameFiled(t, u)
    ensures Filing(u, l)
  {
    assert BinsListed(u.own, l.bins) && ChainsListed(u.own, l.chains);
    forall p
      ensures RightPlace(u, p)
    {
      assert RightPlace(t, p);
    }
    forall i {:trigger l.bins[i]} | NSMALLBINS <= i < NBINS
      ensures Descending(u, l.bins[i])
    {
      assert Descending(t, l.bins[i]);
      assert forall p | p in l.bins[i] :: Is1(t.own, p, Bin(i)) && Size(u, p) == Size(t, p);
    }
  }
}
