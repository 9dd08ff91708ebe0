/**
 The recursive destruction of a process and the zombies below it (the MORT and ZOMBIE cases of
 definir_etat_processus), half done: which slots are freed, whose father link is cut and who
 has been taken off its father's list. When it is done the table is the one of Bury.
 */
module ProcessGraves {
  import opened ProcessLists
  import opened ProcessModel
  import opened ProcessInvariants

  // Slot i when the slots in d are freed, the father links in e are cut and the processes in
  // r are off their fathers' lists.
  ghost function CutProc(p: Proc, i: int, d: set<int>, e: set<int>, r: set<int>): Proc {
    if i in d then FREE
    else p.(father := if i in e then -1 else p.father, children := Without(p.children, r))
  }

  ghost predicate IsCut(k: Kernel, procs: seq<Proc>, d: set<int>, e: set<int>, r: set<int>)
    requires Shape(k)
  {
    |procs| == NBPROC && forall i | 0 <= i < NBPROC :: procs[i] == CutProc(k.procs[i], i, d, e, r)
  }

  ghost function ChildrenOf(k: Kernel, d: set<int>): set<int>
    requires Shape(k)
  {
    set q | 0 <= q < NBPROC && k.procs[q].father in d
  }

  // q is freed with one of the zombies among some children.
  ghost predicate InBranch(k: Kernel, kids: seq<int>, q: int)
    requires Shape(k) && InTable(NBPROC, kids) && Slot(q)
  {
    exists n | 0 <= n < |kids| :: k.procs[kids[n]].status == Zombie && Doomed(k, kids[n], q)
  }

  ghost function Branches(k: Kernel, kids: seq<int>): set<int>
    requires Shape(k) && InTable(NBPROC, kids)
  {
    set q | 0 <= q < NBPROC && InBranch(k, kids, q)
  }

  // Freed slots of different children of one father are different.
  lemma {:induction false} BranchesApart(k: Kernel, p: int, b: int, c: int, q: int)
    requires Shape(k) && Fathers(k) && Slot(p) && Slot(b) && Slot(c) && Slot(q) && b != c
    requires k.procs[b].father == p && k.procs[c].father == p
    requires Doomed(k, b, q)
    ensures !Doomed(k, c, q)
    decreases k.procs[q].birth
  {
    if Doomed(k, c, q) {
      if q == b {
        DoomedYounger(k, c, p);
      } else if q == c {
        DoomedYounger(k, b, p);
      } else {
        BranchesApart(k, p, b, c, k.procs[q].father);
      }
    }
  }

  // Below a process, what is freed is freed with one of its zombie children.
  lemma {:induction false} DoomedBelow(k: Kernel, p: int, q: int)
    requires Shape(k) && Family(k) && Slot(p) && Slot(q) && q != p && Doomed(k, p, q)
    ensures InBranch(k, k.procs[p].children, q)
    decreases k.procs[q].birth
  {
    var kids := k.procs[p].children;
    var f := k.procs[q].father;
    if f == p {
      assert q in kids;
      var n :| 0 <= n < |kids| && kids[n] == q;
      assert Doomed(k, kids[n], q);
    } else {
      DoomedBelow(k, p, f);
      var n :| 0 <= n < |kids| && k.procs[kids[n]].status == Zombie && Doomed(k, kids[n], f);
      assert Doomed(k, kids[n], q);
    }
  }

  lemma BranchIsDoomed(k: Kernel, p: int, q: int)
    requires Shape(k) && Family(k) && Slot(p) && Slot(q) && InBranch(k, k.procs[p].children, q)
    ensures Doomed(k, p, q)
  {
    var kids := k.procs[p].children;
    var n :| 0 <= n < |kids| && k.procs[kids[n]].status == Zombie && Doomed(k, kids[n], q);
    assert kids[n] in kids;
    DoomedFurther(k, p, kids[n], q);
  }

  lemma {:induction false} DoomedFurther(k: Kernel, p: int, c: int, q: int)
    requires Shape(k) && Fathers(k) && Slot(p) && Slot(c) && Slot(q) && k.procs[c].father == p
    requires k.procs[c].status == Zombie && Doomed(k, c, q)
    ensures Doomed(k, p, q)
    decreases k.procs[q].birth
  {
    if q != c {
      DoomedFurther(k, p, c, k.procs[q].father);
    }
  }

  lemma DoomedSplit(k: Kernel, p: int)
    requires Shape(k) && Family(k) && Slot(p)
    ensures DoomedSet(k, p) == {p} + Branches(k, k.procs[p].children)
    ensures p !in Branches(k, k.procs[p].children)
  {
    hide InBranch, Doomed, Family;
    var kids := k.procs[p].children;
    forall q | 0 <= q < NBPROC && q != p
      ensures Doomed(k, p, q) <==> InBranch(k, kids, q)
    {
      if Doomed(k, p, q) {
        DoomedBelow(k, p, q);
      }
      if InBranch(k, kids, q) {
        BranchIsDoomed(k, p, q);
      }
    }
    NotOwnBranch(k, p);
    assert Doomed(k, p, p) by { DoomedSelf(k, p); }
    BranchSlots(k, k.procs[p].children);
  }

  lemma DoomedSelf(k: Kernel, p: int)
    requires Shape(k) && Slot(p)
    ensures Doomed(k, p, p)
  {
  }

  lemma BranchSlots(k: Kernel, kids: seq<int>)
    requires Shape(k) && InTable(NBPROC, kids)
    ensures forall q | q in Branches(k, kids) :: Slot(q)
  {
  }

  lemma NotOwnBranch(k: Kernel, p: int)
    requires Shape(k) && Family(k) && Slot(p)
    ensures p !in Branches(k, k.procs[p].children)
  {
    var kids := k.procs[p].children;
    forall n | 0 <= n < |kids| && Doomed(k, kids[n], p)
      ensures false
    {
      assert kids[n] in kids;
      DoomedYounger(k, kids[n], p);
    }
  }

  lemma BranchesGrow(k: Kernel, kids: seq<int>, c: int)
    requires Shape(k) && InTable(NBPROC, kids) && Slot(c)
    ensures Branches(k, kids + [c]) ==
      Branches(k, kids) + (if k.procs[c].status == Zombie then DoomedSet(k, c) else {})
  {
    hide Doomed;
    var all := kids + [c];
    assert all[|kids|] == c;
    assert forall n | 0 <= n < |kids| :: all[n] == kids[n];
    forall q | q in Branches(k, all)
      ensures q in Branches(k, kids) || (k.procs[c].status == Zombie && q in DoomedSet(k, c))
    {
      var n :| 0 <= n < |all| && k.procs[all[n]].status == Zombie && Doomed(k, all[n], q);
      if n < |kids| {
        assert Doomed(k, kids[n], q);
      }
    }
    forall q | q in Branches(k, kids)
      ensures q in Branches(k, all)
    {
      var n :| 0 <= n < |kids| && k.procs[kids[n]].status == Zombie && Doomed(k, kids[n], q);
      assert Doomed(k, all[n], q);
    }
    forall q | k.procs[c].status == Zombie && q in DoomedSet(k, c)
      ensures q in Branches(k, all)
    {
      assert Doomed(k, all[|kids|], q);
    }
  }

  // A later child of p frees none of the slots its elder siblings have freed.
  lemma NextBranchApart(k: Kernel, p: int, n: nat)
    requires Shape(k) && Family(k) && Slot(p) && n < |k.procs[p].children|
    ensures DoomedSet(k, k.procs[p].children[n]) !! Branches(k, k.procs[p].children[..n])
  {
    hide Doomed;
    var kids := k.procs[p].children;
    assert kids[n] in kids;
    forall q, m | 0 <= m < n && 0 <= q < NBPROC && Doomed(k, kids[m], q)
      ensures !Doomed(k, kids[n], q)
    {
      assert kids[m] in kids;
      BranchesApart(k, p, kids[m], kids[n], q);
    }
  }

  ghost function Members(s: seq<int>): set<int> {
    set c | c in s
  }

  lemma ChildrenOfUnion(k: Kernel, a: set<int>, b: set<int>)
    requires Shape(k)
    ensures ChildrenOf(k, a + b) == ChildrenOf(k, a) + ChildrenOf(k, b)
  {
  }

  lemma ChildrenListed(k: Kernel, p: int)
    requires Shape(k) && Children(k) && Slot(p)
    ensures ChildrenOf(k, {p}) == Members(k.procs[p].children)
  {
    var kids := k.procs[p].children;
    forall c | c in kids
      ensures Slot(c)
    {
      var n :| 0 <= n < |kids| && kids[n] == c;
    }
  }

  // ---------- half done below p ----------

  // Nothing in r is a child of a slot that dies with p.
  ghost predicate Apart(k: Kernel, p: int, r: set<int>)
    requires Shape(k)
  {
    forall q | q in r :: Slot(q) && k.procs[q].father !in DoomedSet(k, p)
  }

  // No process is younger than the count of births says.
  ghost predicate Young(k: Kernel)
    requires Shape(k)
  {
    forall i | 0 <= i < NBPROC :: k.procs[i].birth <= k.born
  }

  // The slots freed after the first n children of p, when d were freed before.
  ghost function Freed(k: Kernel, p: int, n: nat, d: set<int>): set<int>
    requires Shape(k) && Slot(p) && n <= |k.procs[p].children|
  {
    d + Branches(k, k.procs[p].children[..n])
  }

  ghost function Zombies(k: Kernel, c: int): set<int>
    requires Shape(k) && Slot(c)
  {
    if k.procs[c].status == Zombie then DoomedSet(k, c) else {}
  }

  lemma FreedNext(k: Kernel, p: int, n: nat, d: set<int>)
    requires Shape(k) && Slot(p) && n < |k.procs[p].children|
    ensures Freed(k, p, n + 1, d) == Freed(k, p, n, d) + Zombies(k, k.procs[p].children[n])
  {
    hide Branches, DoomedSet;
    var kids := k.procs[p].children;
    assert kids[..n + 1] == kids[..n] + [kids[n]];
    BranchesGrow(k, kids[..n], kids[n]);
  }

  lemma DoomedSubset(k: Kernel, p: int, n: nat)
    requires Shape(k) && Family(k) && Slot(p) && n < |k.procs[p].children|
    requires k.procs[k.procs[p].children[n]].status == Zombie
    ensures DoomedSet(k, k.procs[p].children[n]) <= DoomedSet(k, p)
    ensures p !in DoomedSet(k, k.procs[p].children[n])
  {
    hide Doomed;
    var c := k.procs[p].children[n];
    assert c in k.procs[p].children;
    forall q | 0 <= q < NBPROC && Doomed(k, c, q)
      ensures Doomed(k, p, q) && q != p
    {
      DoomedFurther(k, p, c, q);
      DoomedYounger(k, c, q);
    }
  }

  // A child is still there when its turn comes.
  lemma ChildNotFreed(k: Kernel, p: int, n: nat, d: set<int>)
    requires Shape(k) && Family(k) && Slot(p) && n < |k.procs[p].children| && Apart(k, p, d)
    ensures k.procs[p].children[n] !in Freed(k, p, n, d)
  {
    hide Doomed;
    var kids := k.procs[p].children;
    var c := kids[n];
    assert c in kids && p in DoomedSet(k, p) by { DoomedSelf(k, p); }
    if c in Branches(k, kids[..n]) {
      var m :| 0 <= m < n && Doomed(k, kids[..n][m], c);
      assert kids[m] in kids && kids[m] != c;
      BranchesApart(k, p, kids[m], c, c);
      DoomedSelf(k, c);
    }
  }

  // What earlier siblings freed does not concern the branch of the next child.
  lemma BranchApart(k: Kernel, p: int, n: nat, d: set<int>)
    requires Shape(k) && Family(k) && Slot(p) && n < |k.procs[p].children| && Apart(k, p, d)
    requires k.procs[k.procs[p].children[n]].status == Zombie && DoomedSet(k, p) !! d
    ensures var c := k.procs[p].children[n];
      Apart(k, c, Freed(k, p, n, d)) && DoomedSet(k, c) !! Freed(k, p, n, d)
  {
    var kids := k.procs[p].children;
    var c := kids[n];
    DoomedSubset(k, p, n);
    NextBranchApart(k, p, n);
    hide Doomed;
    forall q | q in Branches(k, kids[..n])
      ensures Slot(q) && k.procs[q].father !in DoomedSet(k, c)
    {
      var m :| 0 <= m < n && k.procs[kids[..n][m]].status == Zombie && Doomed(k, kids[..n][m], q);
      assert kids[m] in kids;
      DoomedFacts(k, kids[m]);
      if q != kids[m] {
        var f := k.procs[q].father;
        assert f in DoomedSet(k, kids[m]);
        assert InBranch(k, kids[..n], f);
      }
    }
  }

  // ---------- single strokes ----------

  lemma CutFather(k: Kernel, procs: seq<Proc>, d: set<int>, e: set<int>, r: set<int>, c: int)
    requires Shape(k) && IsCut(k, procs, d, e, r) && Slot(c) && c !in d
    ensures IsCut(k, procs[c := procs[c].(father := -1)], d, e + {c}, r)
  {
    hide Without;
  }

  lemma CutFree(k: Kernel, procs: seq<Proc>, d: set<int>, e: set<int>, r: set<int>, p: int)
    requires Shape(k) && IsCut(k, procs, d, e, r) && Slot(p)
    ensures IsCut(k, procs[p := FREE], d + {p}, e, r)
  {
    hide Without;
  }

  lemma CutList(k: Kernel, procs: seq<Proc>, d: set<int>, e: set<int>, r: set<int>, p: int)
    requires Shape(k) && Children(k) && IsCut(k, procs, d, e, r) && Slot(p)
    requires Slot(k.procs[p].father) && k.procs[p].father !in d
    ensures var f := k.procs[p].father;
      IsCut(k, procs[f := procs[f].(children := Without(procs[f].children, {p}))], d, e, r + {p})
  {
    hide Without;
    var f := k.procs[p].father;
    WithoutMore(k.procs[f].children, r, p);
    forall i | 0 <= i < NBPROC && i != f
      ensures Without(k.procs[i].children, r) == Without(k.procs[i].children, r + {p})
    {
      assert p !in k.procs[i].children;
      WithoutAgree(k.procs[i].children, r, r + {p});
    }
  }

  // ---------- the finished table ----------

  lemma WithoutCons(x: int, s: seq<int>, d: set<int>)
    ensures Without([x] + s, d) == (if x in d then [] else [x]) + Without(s, d)
  {
    assert ([x] + s)[1..] == s;
  }

  lemma {:induction false} WithoutMore(s: seq<int>, d: set<int>, x: int)
    ensures Without(Without(s, d), {x}) == Without(s, d + {x})
  {
    hide Without;
    if s == [] {
      WithoutNothing(s, d);
      WithoutNothing(s, {x});
      WithoutNothing(s, d + {x});
    } else {
      var h, t := s[0], s[1..];
      assert s == [h] + t;
      WithoutMore(t, d, x);
      WithoutCons(h, t, d);
      WithoutCons(h, t, d + {x});
      WithoutCons(h, Without(t, d), {x});
      if h in d {
        assert [] + Without(t, d) == Without(t, d);
      }
    }
  }

  lemma {:induction false} WithoutAgree(s: seq<int>, d: set<int>, e: set<int>)
    requires forall n | 0 <= n < |s| :: s[n] in d <==> s[n] in e
    ensures Without(s, d) == Without(s, e)
  {
    if s != [] {
      WithoutAgree(s[1..], d, e);
    }
  }

  // With the links of all children of freed slots cut, and the freed slots off the lists of
  // the living, the destruction is complete.
  lemma CutIsBury(k: Kernel, procs: seq<Proc>, d: set<int>, r: set<int>)
    requires Shape(k) && Family(k) && IsCut(k, procs, d, ChildrenOf(k, d), r)
    requires r <= d
    requires forall q | q in d && q !in r && Slot(q) :: k.procs[q].father in d || k.procs[q].father == -1
    ensures procs == Bury(k, d).procs
  {
    BuriedAt(k, d);
    hide Bury, Without;
    forall i | 0 <= i < NBPROC
      ensures procs[i] == BuriedProc(k.procs[i], i, d)
    {
      var kids := k.procs[i].children;
      if i !in d {
        forall n | 0 <= n < |kids|
          ensures kids[n] in d <==> kids[n] in r
        {
          assert kids[n] in kids;
        }
        WithoutAgree(kids, d, r);
      }
    }
  }

  // ---------- before the first and after the last child ----------

  // The father links cut after the first n children of p, when e were cut before.
  ghost function Severed(k: Kernel, p: int, n: nat, e: set<int>): set<int>
    requires Shape(k) && Slot(p) && n <= |k.procs[p].children|
  {
    var kids := k.procs[p].children[..n];
    e + Members(kids) + ChildrenOf(k, Branches(k, kids))
  }

  lemma SeveredNext(k: Kernel, p: int, n: nat, e: set<int>)
    requires Shape(k) && Slot(p) && n < |k.procs[p].children|
    ensures var c := k.procs[p].children[n];
      Severed(k, p, n + 1, e) == Severed(k, p, n, e) + {c} + ChildrenOf(k, Zombies(k, c))
  {
    var kids := k.procs[p].children;
    assert kids[..n + 1] == kids[..n] + [kids[n]];
    BranchesGrow(k, kids[..n], kids[n]);
    ChildrenOfUnion(k, Branches(k, kids[..n]), Zombies(k, kids[n]));
    hide Branches, ChildrenOf, DoomedSet;
    assert Members(kids[..n + 1]) == Members(kids[..n]) + {kids[n]};
  }

  lemma KidsAsBefore(k: Kernel, procs: seq<Proc>, d: set<int>, e: set<int>, r: set<int>, p: int)
    requires Shape(k) && Family(k) && Slot(p) && IsCut(k, procs, d, e, r) && p !in d && Apart(k, p, r)
    ensures procs[p].children == k.procs[p].children
  {
    hide DoomedSet;
    var kids := k.procs[p].children;
    assert p in DoomedSet(k, p) by { DoomedFacts(k, p); }
    forall n | 0 <= n < |kids|
      ensures kids[n] !in r
    {
      assert kids[n] in kids;
    }
    WithoutNothing(kids, r);
  }

  lemma NothingYet(k: Kernel, p: int, d: set<int>, e: set<int>)
    requires Shape(k) && Slot(p)
    ensures Freed(k, p, 0, d) == d && Severed(k, p, 0, e) == e
  {
    assert Branches(k, []) == {};
    assert ChildrenOf(k, {}) == {};
  }

  lemma AllFreed(k: Kernel, p: int, d: set<int>, e: set<int>)
    requires Shape(k) && Family(k) && Slot(p)
    ensures var n := |k.procs[p].children|;
      && Freed(k, p, n, d) + {p} == d + DoomedSet(k, p)
      && Severed(k, p, n, e) == e + ChildrenOf(k, DoomedSet(k, p))
      && (p in Severed(k, p, n, e) <==> p in e)
  {
    var kids := k.procs[p].children;
    assert kids[..|kids|] == kids;
    DoomedSplit(k, p);
    DoomedFacts(k, p);
    ChildrenListed(k, p);
    ChildrenOfUnion(k, {p}, Branches(k, kids));
    hide DoomedSet, Branches;
  }

  // ---------- the zombies below a process that becomes one itself ----------

  ghost function ZombieKids(k: Kernel, p: int, n: nat): set<int>
    requires Shape(k) && Slot(p) && n <= |k.procs[p].children|
  {
    set c | c in k.procs[p].children[..n] && Slot(c) && k.procs[c].status == Zombie
  }

  lemma StartsUncut(k: Kernel, p: int)
    requires Shape(k) && Slot(p)
    ensures IsCut(k, k.procs, {}, {}, {})
    ensures Freed(k, p, 0, {}) == {} && ChildrenOf(k, {}) == {} && ZombieKids(k, p, 0) == {}
  {
    NothingYet(k, p, {}, {});
    forall i | 0 <= i < NBPROC
      ensures Without(k.procs[i].children, {}) == k.procs[i].children
    {
      WithoutNothing(k.procs[i].children, {});
    }
    hide Without;
  }

  lemma NextZombieKid(k: Kernel, p: int, n: nat)
    requires Shape(k) && Slot(p) && n < |k.procs[p].children|
    ensures var c := k.procs[p].children[n];
      ZombieKids(k, p, n + 1) == ZombieKids(k, p, n) + (if k.procs[c].status == Zombie then {c} else {})
  {
    var kids := k.procs[p].children;
    assert kids[..n + 1] == kids[..n] + [kids[n]];
  }

  // The elder zombie siblings, already off the list of p, are no children of the next branch;
  // the next child has its father still.
  lemma KidsApart(k: Kernel, p: int, n: nat)
    requires Shape(k) && Family(k) && Slot(p) && n < |k.procs[p].children|
    requires k.procs[k.procs[p].children[n]].status == Zombie
    ensures var c := k.procs[p].children[n];
      && Apart(k, c, ZombieKids(k, p, n)) && k.procs[c].father == p
      && p !in Freed(k, p, n, {}) && c !in ChildrenOf(k, Freed(k, p, n, {}))
  {
    DoomedSubset(k, p, n);
    var kids := k.procs[p].children;
    assert kids[n] in kids && forall m | 0 <= m < n :: kids[m] in kids;
    hide Doomed;
    forall m | 0 <= m < n && k.procs[kids[..n][m]].status == Zombie && Doomed(k, kids[..n][m], p)
      ensures false
    {
      DoomedYounger(k, kids[m], p);
    }
    assert !InBranch(k, kids[..n], p);
  }

  lemma EndsCut(k: Kernel, procs: seq<Proc>, p: int)
    requires Shape(k) && Family(k) && Slot(p)
    requires var n := |k.procs[p].children|;
      IsCut(k, procs, Freed(k, p, n, {}), ChildrenOf(k, Freed(k, p, n, {})), ZombieKids(k, p, n))
    ensures procs == Bury(k, DoomedSet(k, p) - {p}).procs
  {
    var n, d := |k.procs[p].children|, DoomedSet(k, p) - {p};
    AllZombieKids(k, p);
    hide DoomedSet, Bury, IsCut, Family, Freed, ZombieKids, ChildrenOf;
    CutIsBury(k, procs, d, ZombieKids(k, p, n));
  }

  lemma AllZombieKids(k: Kernel, p: int)
    requires Shape(k) && Family(k) && Slot(p)
    ensures var n, d := |k.procs[p].children|, DoomedSet(k, p) - {p};
      && Freed(k, p, n, {}) == d && ZombieKids(k, p, n) <= d
      && forall q | q in d && q !in ZombieKids(k, p, n) && Slot(q) ::
        k.procs[q].father in d || k.procs[q].father == -1
  {
    var kids := k.procs[p].children;
    assert kids[..|kids|] == kids;
    DoomedSplit(k, p);
    DoomedFacts(k, p);
    hide DoomedSet, Doomed, Branches;
    assert Freed(k, p, |kids|, {}) == Branches(k, kids);
    forall c | c in ZombieKids(k, p, |kids|)
      ensures c in Branches(k, kids)
    {
      ZombieKidFreed(k, p, c);
    }
    assert forall q | 0 <= q < NBPROC && k.procs[q].father == p :: q in kids;
  }

  lemma ZombieKidFreed(k: Kernel, p: int, c: int)
    requires Shape(k) && Slot(p) && c in k.procs[p].children && Slot(c) && k.procs[c].status == Zombie
    ensures c in Branches(k, k.procs[p].children)
  {
    var kids := k.procs[p].children;
    var n :| 0 <= n < |kids| && kids[n] == c;
    assert Doomed(k, kids[n], c);
  }

  // ---------- what one turn of each loop needs ----------

  lemma ChildTurn(k: Kernel, procs: seq<Proc>, p: int, n: nat, d: set<int>, e: set<int>, r: set<int>)
    requires Shape(k) && Family(k) && Slot(p) && n < |k.procs[p].children| && Apart(k, p, d)
    requires IsCut(k, procs, Freed(k, p, n, d), Severed(k, p, n, e), r)
    ensures var c := k.procs[p].children[n];
      && |procs| == NBPROC && Slot(c) && procs[c].status == k.procs[c].status
      && IsCut(k, procs[c := procs[c].(father := -1)], Freed(k, p, n, d), Severed(k, p, n, e) + {c}, r)
  {
    ChildNotFreed(k, p, n, d);
    hide Freed, Severed, Family, Apart, Without;
    CutFather(k, procs, Freed(k, p, n, d), Severed(k, p, n, e), r, k.procs[p].children[n]);
  }

  lemma ZombieTurn(k: Kernel, p: int, n: nat, d: set<int>, e: set<int>, r: set<int>)
    requires Shape(k) && Family(k) && Young(k) && Slot(p) && n < |k.procs[p].children|
    requires Apart(k, p, d) && Apart(k, p, r) && DoomedSet(k, p) !! d
    requires k.procs[k.procs[p].children[n]].status == Zombie
    ensures var c, d1, e1 := k.procs[p].children[n], Freed(k, p, n, d), Severed(k, p, n, e);
      && Slot(c) && DoomedSet(k, c) !! d1 && Apart(k, c, d1) && Apart(k, c, r) && k.procs[c].father !in d1
      && k.procs[p].birth < k.procs[c].birth <= k.born
      && Freed(k, p, n + 1, d) == d1 + DoomedSet(k, c)
      && Severed(k, p, n + 1, e) == e1 + {c} + ChildrenOf(k, DoomedSet(k, c))
  {
    var kids := k.procs[p].children;
    assert kids[n] in kids;
    FreedNext(k, p, n, d);
    SeveredNext(k, p, n, e);
    BranchApart(k, p, n, d);
    DoomedSubset(k, p, n);
    NotYetFreed(k, p, n, d);
    hide DoomedSet, Freed, Severed;
  }

  // p itself is freed last.
  lemma NotYetFreed(k: Kernel, p: int, n: nat, d: set<int>)
    requires Shape(k) && Family(k) && Slot(p) && n <= |k.procs[p].children| && DoomedSet(k, p) !! d
    ensures p !in Freed(k, p, n, d)
  {
    var kids := k.procs[p].children;
    DoomedFacts(k, p);
    forall m | 0 <= m < n && Doomed(k, kids[..n][m], p)
      ensures false
    {
      assert kids[m] in kids;
      DoomedYounger(k, kids[m], p);
    }
    hide Doomed, DoomedSet;
    assert !InBranch(k, kids[..n], p);
  }

  lemma LivingTurn(k: Kernel, p: int, n: nat, d: set<int>, e: set<int>)
    requires Shape(k) && Slot(p) && n < |k.procs[p].children|
    requires k.procs[k.procs[p].children[n]].status != Zombie
    ensures var c, d1, e1 := k.procs[p].children[n], Freed(k, p, n, d), Severed(k, p, n, e);
      Freed(k, p, n + 1, d) == d1 && Severed(k, p, n + 1, e) == e1 + {c}
  {
    FreedNext(k, p, n, d);
    SeveredNext(k, p, n, e);
    hide Freed, Severed;
    assert ChildrenOf(k, {}) == {};
  }

  lemma DoomedApart(k: Kernel, p: int)
    requires Shape(k) && Family(k) && Slot(p)
    ensures DoomedSet(k, p) !! {} && Apart(k, p, {}) && p !in {}
  {
  }

  lemma EndsCutAll(k: Kernel, procs: seq<Proc>, p: int)
    requires Shape(k) && Family(k) && Slot(p)
    requires IsCut(k, procs, {} + DoomedSet(k, p), {} + ChildrenOf(k, DoomedSet(k, p)),
                   if p !in {} && k.procs[p].father != -1 then {} + {p} else {})
    ensures procs == Bury(k, DoomedSet(k, p)).procs
  {
    var d := DoomedSet(k, p);
    DoomedFacts(k, p);
    hide DoomedSet, Bury, IsCut;
    assert {} + d == d && {} + ChildrenOf(k, d) == ChildrenOf(k, d) && {} + {p} == {p};
    CutIsBury(k, procs, d, if k.procs[p].father != -1 then {p} else {});
  }

  lemma ZombieKidTurn(k: Kernel, procs: seq<Proc>, p: int, n: nat)
    requires Shape(k) && Family(k) && Young(k) && Slot(p) && n < |k.procs[p].children|
    requires IsCut(k, procs, Freed(k, p, n, {}), ChildrenOf(k, Freed(k, p, n, {})), ZombieKids(k, p, n))
    ensures var c, d1, r1 := k.procs[p].children[n], Freed(k, p, n, {}), ZombieKids(k, p, n);
      && |procs| == NBPROC && Slot(c) && procs[c].status == k.procs[c].status
      && (procs[c].status != Zombie ==> Freed(k, p, n + 1, {}) == d1 && ZombieKids(k, p, n + 1) == r1)
      && (procs[c].status == Zombie ==>
            && DoomedSet(k, c) !! d1 && Apart(k, c, d1) && Apart(k, c, r1) && k.procs[c].father !in d1
            && c !in ChildrenOf(k, d1) && k.procs[c].father != -1
            && Freed(k, p, n + 1, {}) == d1 + DoomedSet(k, c) && ZombieKids(k, p, n + 1) == r1 + {c}
            && ChildrenOf(k, Freed(k, p, n + 1, {})) == ChildrenOf(k, d1) + ChildrenOf(k, DoomedSet(k, c)))
  {
    var kids := k.procs[p].children;
    assert kids[n] in kids;
    DoomedApart(k, p);
    ChildNotFreed(k, p, n, {});
    FreedNext(k, p, n, {});
    NextZombieKid(k, p, n);
    hide Freed, ZombieKids, Doomed, DoomedSet, Without, ChildrenOf, Apart;
    var c := kids[n];
    if k.procs[c].status == Zombie {
      BranchApart(k, p, n, {});
      ChildrenOfUnion(k, Freed(k, p, n, {}), DoomedSet(k, c));
      KidsApart(k, p, n);
    } else {
      assert Freed(k, p, n, {}) + {} == Freed(k, p, n, {});
      assert ZombieKids(k, p, n) + {} == ZombieKids(k, p, n);
    }
  }

  // ---------- terminaison_processus, stage by stage ----------

  lemma {:induction false} DoomedKept(k: Kernel, k': Kernel, p: int, q: int)
    requires Shape(k) && Shape(k') && Slot(q)
    requires forall i | 0 <= i < NBPROC ::
      && k'.procs[i].father == k.procs[i].father && k'.procs[i].birth == k.procs[i].birth
      && (k'.procs[i].status == Zombie <==> k.procs[i].status == Zombie)
    ensures Doomed(k', p, q) <==> Doomed(k, p, q)
    decreases k.procs[q].birth
  {
    var f := k.procs[q].father;
    if q != p && k.procs[q].status == Zombie && Slot(f) && k.procs[f].birth < k.procs[q].birth {
      DoomedKept(k, k', p, f);
    }
  }

  lemma DoomedSetKept(k: Kernel, k1: Kernel, p: int)
    requires Shape(k) && Slot(p) && Shape(k1) && (k1 == Ended(k, p) || k1 == FatherWoken(Ended(k, p), p))
    ensures DoomedSet(Unlist(k1, p), p) == DoomedSet(k, p)
  {
    hide Doomed, Enqueue, Without;
    forall q | 0 <= q < NBPROC
      ensures Doomed(Unlist(k1, p), p, q) <==> Doomed(k, p, q)
    {
      DoomedKept(k, Unlist(k1, p), p, q);
    }
  }

  // The table is ready for the destruction: p is off the lists, its father may be awake.
  lemma Prepared(k: Kernel, p: int, k1: Kernel)
    requires Terminable(k, p) && Shape(k1) && (k1 == Ended(k, p) || k1 == FatherWoken(Ended(k, p), p))
    ensures Queues(k1) && Family(Unlist(k1, p)) && Young(Unlist(k1, p))
  {
    hide Ascending, Waits, LogTrue, Without, Enqueue, ListsAll, Children, Fathers;
    FatherWokenQueues(Ended(k, p), p);
    FamilyKept(k, Unlist(k1, p));
  }

  function Buried(k: Kernel, p: int): (k': Kernel)
    requires Shape(k) && Slot(p)
    ensures Shape(k')
  {
    Put(k, p, k.procs[p].(status := Zombie))
  }

  lemma TerminatedStages(k: Kernel, p: int)
    requires Terminable(k, p)
    ensures var k0 := Ended(k, p);
      && k0.procs == k.procs
      && (!Slot(k.procs[p].father) ==>
            && Queues(k0) && Family(Unlist(k0, p)) && Young(Unlist(k0, p))
            && Terminated(k, p) == Bury(Unlist(k0, p), DoomedSet(Unlist(k0, p), p)))
      && (Slot(k.procs[p].father) ==>
            var k1 := FatherWoken(k0, p);
            && Queues(k1) && Family(Unlist(k1, p)) && Young(Unlist(k1, p))
            && Terminated(k, p) == Buried(Bury(Unlist(k1, p), DoomedSet(Unlist(k1, p), p) - {p}), p))
  {
    var k0 := Ended(k, p);
    Prepared(k, p, k0);
    Prepared(k, p, FatherWoken(k0, p));
    DoomedSetKept(k, k0, p);
    DoomedSetKept(k, FatherWoken(k0, p), p);
    hide Queues, Family, Young, Slots, Waits, Records, LogTrue, Bury, DoomedSet, Unlist, Shape, MakeReady;
  }
}
