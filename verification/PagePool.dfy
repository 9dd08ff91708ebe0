/**
 The pool of physical pages (kernel/phy_mem_allocator.c): a list of free pages, and for each
 allocation an owner with the list of its addresses. Lists are in the order of shared/queue.h;
 a field that the code leaves uninitialised may hold any value.
 */
module PagePool {
  import opened PriorityOrder

  const PAGE_SIZE := 0x1000
  const BASE_VIRTUAL := 0x4000_0000

  datatype Permission = READ | WRITE
  datatype FreePage = FreePage(adr: int, prio: int)
  datatype Address = Address(phys: int, virt: int, perm: Permission, prio: int)
  datatype Owner = Owner(pid: int, perm: Permission, adresses: seq<Address>, prio: int)

  // ---------- the pages of a state ----------

  function FreeAdrs(free: seq<FreePage>): (s: seq<int>)
    ensures |s| == |free| && forall i | 0 <= i < |s| :: s[i] == free[i].adr
  {
    seq(|free|, i requires 0 <= i < |free| => free[i].adr)
  }

  function Frames(adresses: seq<Address>): (s: seq<int>)
    ensures |s| == |adresses| && forall i | 0 <= i < |s| :: s[i] == adresses[i].phys
  {
    seq(|adresses|, i requires 0 <= i < |adresses| => adresses[i].phys)
  }

  function Virtuals(adresses: seq<Address>): (s: seq<int>)
    ensures |s| == |adresses| && forall i | 0 <= i < |s| :: s[i] == adresses[i].virt
  {
    seq(|adresses|, i requires 0 <= i < |adresses| => adresses[i].virt)
  }

  // All pages that have an owner.
  function Owned(owners: seq<Owner>): multiset<int> {
    if owners == [] then multiset{} else multiset(Frames(owners[0].adresses)) + Owned(owners[1..])
  }

  // Every page of the state, as often as it occurs.
  function AllPages(free: seq<FreePage>, owners: seq<Owner>): multiset<int> {
    multiset(FreeAdrs(free)) + Owned(owners)
  }

  // Each page is in exactly one place, and none is lost.
  ghost predicate Conserved(free: seq<FreePage>, owners: seq<Owner>, pages: set<int>) {
    AllPages(free, owners) == multiset(pages)
  }

  // queue_for_each: the first owner with this pid.
  function Find(owners: seq<Owner>, pid: int): (i: int)
    ensures -1 <= i < |owners|
    ensures i == -1 <==> forall j | 0 <= j < |owners| :: owners[j].pid != pid
    ensures i >= 0 ==> owners[i].pid == pid && forall j | 0 <= j < i :: owners[j].pid != pid
  {
    if owners == [] then -1
    else if owners[0].pid == pid then 0
    else
      var i := Find(owners[1..], pid);
      if i == -1 then -1 else i + 1
  }

  // ---------- lists as multisets ----------

  lemma InsertMultiset(s: seq<int>, k: nat, x: int)
    requires k <= |s|
    ensures multiset(Insert(s, k, x)) == multiset(s) + multiset{x}
  {
    assert s == s[..k] + s[k..];
  }

  lemma FreeInsert(free: seq<FreePage>, k: nat, p: FreePage)
    requires k <= |free|
    ensures multiset(FreeAdrs(Insert(free, k, p))) == multiset(FreeAdrs(free)) + multiset{p.adr}
  {
    InsertIndices(free, k, p);
    InsertIndices(FreeAdrs(free), k, p.adr);
    assert FreeAdrs(Insert(free, k, p)) == Insert(FreeAdrs(free), k, p.adr);
    InsertMultiset(FreeAdrs(free), k, p.adr);
  }

  lemma FreeLast(free: seq<FreePage>)
    requires free != []
    ensures multiset(FreeAdrs(free)) == multiset(FreeAdrs(free[..|free| - 1])) + multiset{free[|free| - 1].adr}
  {
    assert FreeAdrs(free) == FreeAdrs(free[..|free| - 1]) + [free[|free| - 1].adr];
  }

  lemma FramesInsert(a: seq<Address>, k: nat, x: Address)
    requires k <= |a|
    ensures multiset(Frames(Insert(a, k, x))) == multiset(Frames(a)) + multiset{x.phys}
    ensures multiset(Virtuals(Insert(a, k, x))) == multiset(Virtuals(a)) + multiset{x.virt}
  {
    InsertIndices(a, k, x);
    InsertIndices(Frames(a), k, x.phys);
    InsertIndices(Virtuals(a), k, x.virt);
    assert Frames(Insert(a, k, x)) == Insert(Frames(a), k, x.phys);
    assert Virtuals(Insert(a, k, x)) == Insert(Virtuals(a), k, x.virt);
    InsertMultiset(Frames(a), k, x.phys);
    InsertMultiset(Virtuals(a), k, x.virt);
  }

  lemma FramesLast(a: seq<Address>)
    requires a != []
    ensures multiset(Frames(a)) == multiset(Frames(a[..|a| - 1])) + multiset{a[|a| - 1].phys}
  {
    assert Frames(a) == Frames(a[..|a| - 1]) + [a[|a| - 1].phys];
  }

  lemma {:induction false} OwnedSplit(owners: seq<Owner>, k: nat)
    requires k < |owners|
    ensures Owned(owners) == Owned(Remove(owners, k)) + multiset(Frames(owners[k].adresses))
  {
    var o := owners[0];
    assert owners == [o] + owners[1..];
    if k == 0 {
      assert Remove(owners, 0) == owners[1..];
    } else {
      OwnedSplit(owners[1..], k - 1);
      var r := Remove(owners[1..], k - 1);
      assert owners[1..][k - 1] == owners[k] && Remove(owners, k) == [o] + r;
      hide *;
      OwnedCons(o, r);
      OwnedCons(o, owners[1..]);
    }
  }

  lemma OwnedCons(o: Owner, owners: seq<Owner>)
    ensures Owned([o] + owners) == multiset(Frames(o.adresses)) + Owned(owners)
  {
    assert ([o] + owners)[1..] == owners;
  }

  lemma OwnedInsert(owners: seq<Owner>, k: nat, o: Owner)
    requires k <= |owners|
    ensures Owned(Insert(owners, k, o)) == Owned(owners) + multiset(Frames(o.adresses))
  {
    OwnedSplit(Insert(owners, k, o), k);
    RemoveUndoesInsert(owners, k, o);
  }

  // ---------- what conservation means ----------

  // No two owners share a page, and no owner has a free page.
  lemma OnePlace(free: seq<FreePage>, owners: seq<Owner>, pages: set<int>, i: nat, a: int)
    requires Conserved(free, owners, pages) && i < |owners| && a in Frames(owners[i].adresses)
    ensures a in pages && a !in FreeAdrs(free)
    ensures forall j | 0 <= j < |owners| && j != i :: a !in Frames(owners[j].adresses)
    ensures multiset(Frames(owners[i].adresses))[a] == 1
  {
    OwnedSplit(owners, i);
    assert a in multiset(Frames(owners[i].adresses));
    assert multiset(pages)[a] <= 1;
    assert a !in multiset(FreeAdrs(free));
    assert Owned(Remove(owners, i))[a] == 0;
    forall j | 0 <= j < |owners| && j != i
      ensures a !in Frames(owners[j].adresses)
    {
      OthersWithout(owners, i, j, a);
    }
  }

  lemma OthersWithout(owners: seq<Owner>, i: nat, j: nat, a: int)
    requires i < |owners| && j < |owners| && i != j && Owned(Remove(owners, i))[a] == 0
    ensures a !in Frames(owners[j].adresses)
  {
    var r := Remove(owners, i);
    RemoveIndices(owners, i);
    var k := if j < i then j else j - 1;
    assert r[k] == owners[j];
    OwnedSplit(r, k);
    assert multiset(Frames(owners[j].adresses))[a] == 0;
  }

  // ---------- the operations ----------

  function Bag(free: seq<FreePage>): multiset<int> {
    multiset(FreeAdrs(free))
  }

  function VirtualRange(n: nat): (s: seq<int>)
    ensures |s| == n
  {
    seq(n, i => BASE_VIRTUAL + i * PAGE_SIZE)
  }

  lemma VirtualRangeMore(n: nat)
    ensures VirtualRange(n + 1) == VirtualRange(n) + [BASE_VIRTUAL + n * PAGE_SIZE]
  {
  }

  // The owner at index i is gone and its pages are free.
  ghost predicate GivenBack(free: seq<FreePage>, owners: seq<Owner>, free': seq<FreePage>, owners': seq<Owner>, i: nat)
    requires i < |owners|
  {
    owners' == Remove(owners, i) && Bag(free') == Bag(free) + multiset(Frames(owners[i].adresses))
  }

  // o holds n pages, mapped one behind the other, that were free in `before`.
  ghost predicate Holds(o: Owner, pid: int, n: nat, perm: Permission, before: multiset<int>, free: seq<FreePage>) {
    && o.pid == pid && o.perm == perm && |o.adresses| == n
    && multiset(Virtuals(o.adresses)) == multiset(VirtualRange(n))
    && (forall i | 0 <= i < n :: o.adresses[i].perm == perm)
    && before == Bag(free) + multiset(Frames(o.adresses))
  }

  // The request took every free page, yet owner i, an older one of the pid, lost its own pages.
  ghost predicate Traded(free: seq<FreePage>, owners: seq<Owner>, free': seq<FreePage>, owners': seq<Owner>, k: nat,
      pid: int, perm: Permission, i: nat)
    requires i < k <= |owners|
  {
    && |owners'| == |owners| && Holds(owners'[k - 1], pid, |free|, perm, Bag(free), [])
    && owners' == Remove(Insert(owners, k, owners'[k - 1]), i)
    && Bag(free') == multiset(Frames(owners[i].adresses))
  }

  lemma GivenBackConserves(free: seq<FreePage>, owners: seq<Owner>, free': seq<FreePage>, owners': seq<Owner>, i: nat)
    requires i < |owners| && GivenBack(free, owners, free', owners', i)
    ensures AllPages(free', owners') == AllPages(free, owners)
  {
    OwnedSplit(owners, i);
  }

  lemma HoldsConserves(o: Owner, pid: int, n: nat, perm: Permission, owners: seq<Owner>, k: nat,
      before: seq<FreePage>, free: seq<FreePage>)
    requires k <= |owners| && Holds(o, pid, n, perm, Bag(before), free)
    ensures AllPages(free, Insert(owners, k, o)) == AllPages(before, owners)
  {
    OwnedInsert(owners, k, o);
  }

  // One more page for o.
  lemma HoldsMore(o: Owner, pid: int, n: nat, perm: Permission, before: multiset<int>, free: seq<FreePage>, j: nat,
      ad: Address)
    requires Holds(o, pid, n, perm, before, free) && free != [] && j <= n
    requires ad.phys == free[|free| - 1].adr && ad.virt == BASE_VIRTUAL + n * PAGE_SIZE && ad.perm == perm
    ensures Holds(o.(adresses := Insert(o.adresses, j, ad)), pid, n + 1, perm, before, free[..|free| - 1])
  {
    FreeLast(free);
    FramesInsert(o.adresses, j, ad);
    VirtualRangeMore(n);
    InsertIndices(o.adresses, j, ad);
  }

  // Taking back what was just granted restores the state, if no older owner has the pid; the
  // first owner of the new list is then the new one.
  lemma NewOwnerFound(owners: seq<Owner>, k: nat, o: Owner, pid: int)
    requires k <= |owners| && o.pid == pid
    ensures 0 <= Find(Insert(owners, k, o), pid) <= k
    ensures Find(Insert(owners, k, o), pid) == k <==> forall j | 0 <= j < k :: owners[j].pid != pid
    ensures Remove(Insert(owners, k, o), k) == owners
  {
    InsertIndices(owners, k, o);
    var r := Insert(owners, k, o);
    RemoveUndoesInsert(owners, k, o);
    assert forall j | 0 <= j < k :: r[j] == owners[j];
    assert r[k].pid == pid;
  }

  // Where queue_add puts a new owner; its priority is not initialised.
  function OwnerPlace(owners: seq<Owner>, prio: int): (k: nat)
    ensures k <= |owners|
  {
    InsertAt(OwnerPrios(owners), prio)
  }

  // An older owner of the pid is found before the new one.
  predicate OlderFirst(owners: seq<Owner>, pid: int, prio: int) {
    Find(owners[..OwnerPlace(owners, prio)], pid) != -1
  }

  // Only an owner list without the pid is safe whatever the uninitialised priority is.
  lemma SafeIfFirst(owners: seq<Owner>, pid: int)
    ensures (forall prio :: !OlderFirst(owners, pid, prio)) <==> Find(owners, pid) == -1
  {
    if Find(owners, pid) != -1 {
      var top := AboveAll(OwnerPrios(owners));
      assert OwnerPlace(owners, top) == |owners| && owners[..|owners|] == owners;
      assert OlderFirst(owners, pid, top);
    } else {
      forall prio
        ensures !OlderFirst(owners, pid, prio)
      {
        assert forall j | 0 <= j < OwnerPlace(owners, prio) :: owners[..OwnerPlace(owners, prio)][j] == owners[j];
      }
    }
  }

  lemma AboveAll(prios: seq<int>) returns (p: int)
    ensures forall x | x in prios :: x < p
    ensures InsertAt(prios, p) == |prios|
  {
    p := 0;
    for i := 0 to |prios|
      invariant forall j | 0 <= j < i :: prios[j] < p
    {
      if prios[i] >= p {
        p := prios[i] + 1;
      }
    }
  }

  lemma DistinctSet(s: seq<int>)
    requires forall i, j | 0 <= i < j < |s| :: s[i] != s[j]
    ensures multiset(s) == multiset(set a | a in s)
  {
    forall a
      ensures multiset(s)[a] == multiset(set x | x in s)[a]
    {
      CountOnce(s, a);
    }
  }

  lemma {:induction false} CountOnce(s: seq<int>, a: int)
    requires forall i, j | 0 <= i < j < |s| :: s[i] != s[j]
    ensures multiset(s)[a] == if a in s then 1 else 0
  {
    if s != [] {
      var n := |s| - 1;
      CountOnce(s[..n], a);
      assert s == s[..n] + [s[n]];
    }
  }

  class Pool {
    var free: seq<FreePage>      // pages_vides
    var owners: seq<Owner>       // pages_allouees
    ghost const pages: set<int>

    ghost predicate Valid()
      reads this
    {
      Conserved(free, owners, pages)
    }

    // create_list_pages_vides, with the distinct pages that memalign returned.
    constructor (adrs: seq<int>)
      requires |adrs| == 1000 && forall i, j | 0 <= i < j < 1000 :: adrs[i] != adrs[j]
      ensures Valid() && owners == [] && Bag(free) == multiset(adrs) == multiset(pages)
    {
      pages := set a | a in adrs;
      var f: seq<FreePage> := [];
      for i := 0 to 1000
        invariant Bag(f) == multiset(adrs[..i])
      {
        var page := FreePage(adrs[i], 0);
        var k := InsertAt(FreePrios(f), page.prio);
        FreeInsert(f, k, page);
        f := Insert(f, k, page);
        assert adrs[..i + 1] == adrs[..i] + [adrs[i]];
      }
      free, owners := f, [];
      new;
      assert adrs[..1000] == adrs;
      DistinctSet(adrs);
    }

    // queue_add to the free list; the priority of a page given back is not initialised.
    method AddFree(adr: int)
      modifies this`free
      ensures Bag(free) == Bag(old(free)) + multiset{adr}
    {
      var prio: int := *;
      var k := InsertAt(FreePrios(free), prio);
      FreeInsert(free, k, FreePage(adr, prio));
      free := Insert(free, k, FreePage(adr, prio));
    }

    // desalloue_pages_process: the first owner with this pid gives all its pages back.
    method Release(pid: int)
      requires Valid()
      modifies this
      ensures Valid()
      ensures Find(old(owners), pid) == -1 ==> free == old(free) && owners == old(owners)
      ensures Find(old(owners), pid) != -1 ==> GivenBack(old(free), old(owners), free, owners, Find(old(owners), pid))
    {
      hide Find, Frames, FreeAdrs, Owned, Remove;
      var i := Find(owners, pid);
      if i == -1 {
        return;
      }
      ghost var f0, o0 := free, owners;
      var list := owners[i].adresses;
      while list != []
        invariant owners == o0 && Bag(free) + multiset(Frames(list)) == Bag(f0) + multiset(Frames(o0[i].adresses))
        decreases |list|
      {
        FramesLast(list);
        var ad := list[|list| - 1];
        list := list[..|list| - 1];
        AddFree(ad.phys);
      }
      assert Frames(list) == [];
      owners := Remove(owners, i);
      GivenBackConserves(f0, o0, free, owners, i);
    }

    // alloue_pages_process; memory tells whether the owner could be allocated, and prio is what
    // its uninitialised priority happens to be. If the pool runs out, the first owner with this
    // pid gives its pages back: the new one exactly if no older one is in front of it.
    method Allocate(pid: int, n: nat, perm: Permission, memory: bool, prio: int)
      requires Valid()
      modifies this
      ensures Valid()
      ensures !memory ==> free == old(free) && owners == old(owners)
      ensures var k := OwnerPlace(old(owners), prio);
        memory && n <= |old(free)| ==>
          k < |owners| && owners == Insert(old(owners), k, owners[k]) && owners[k].prio == prio &&
          Holds(owners[k], pid, n, perm, Bag(old(free)), free)
      ensures memory && n > |old(free)| && !OlderFirst(old(owners), pid, prio) ==>
        owners == old(owners) && Bag(free) == Bag(old(free))
      ensures var k := OwnerPlace(old(owners), prio);
        memory && n > |old(free)| && OlderFirst(old(owners), pid, prio) ==>
          Traded(old(free), old(owners), free, owners, k, pid, perm, Find(old(owners)[..k], pid))
      ensures memory && n > |old(free)| > 0 ==>
        (Bag(free) == Bag(old(free)) <==> !OlderFirst(old(owners), pid, prio))
    {
      if !memory {
        return;
      }
      ghost var f0, o0 := free, owners;
      var at := InsertAt(OwnerPrios(owners), prio);
      ghost var k := at;
      owners := Insert(owners, at, Owner(pid, perm, [], prio));
      NothingHeld(pid, perm, prio, f0);
      hide Holds, Find, Owned, Bag, Insert;
      for i := 0 to n
        invariant k < |owners| && owners == Insert(o0, k, owners[k]) && at == k && owners[k].prio == prio
        invariant Holds(owners[k], pid, i, perm, Bag(f0), free) && |free| == |f0| - i && |owners[k].adresses| == i
      {
        if free == [] {
          GiveUp(pid, k, f0, o0, i, perm);
          return;
        }
        var page := free[|free| - 1];
        var adPrio: int := *;
        var ad := Address(page.adr, BASE_VIRTUAL + i * PAGE_SIZE, perm, adPrio);
        var j := InsertAt(AddressPrios(owners[at].adresses), adPrio);
        HoldsMore(owners[at], pid, i, perm, Bag(f0), free, j, ad);
        free := free[..|free| - 1];
        GrownOwner(o0, k, owners[at], owners[at].(adresses := Insert(owners[at].adresses, j, ad)), owners);
        owners := owners[at := owners[at].(adresses := Insert(owners[at].adresses, j, ad))];
      }
      HoldsConserves(owners[k], pid, n, perm, o0, k, f0, free);
    }

    // The pool is empty: desalloue_pages_process is called for the pid.
    method GiveUp(pid: int, ghost k: nat, ghost f0: seq<FreePage>, ghost o0: seq<Owner>, ghost i: nat,
        ghost perm: Permission)
      requires Conserved(f0, o0, pages) && k <= |o0| && k < |owners| && owners == Insert(o0, k, owners[k])
      requires free == [] && i == |f0| && Holds(owners[k], pid, i, perm, Bag(f0), free)
      modifies this
      ensures Valid()
      ensures Find(o0[..k], pid) == -1 ==> owners == o0 && Bag(free) == Bag(f0)
      ensures Find(o0[..k], pid) != -1 ==> Traded(f0, o0, free, owners, k, pid, perm, Find(o0[..k], pid))
      ensures f0 != [] ==> (Bag(free) == Bag(f0) <==> Find(o0[..k], pid) == -1)
    {
      ghost var o := owners[k];
      HoldsConserves(o, pid, i, perm, o0, k, f0, free);
      NewOwnerFound(o0, k, o, pid);
      assert FreeAdrs(free) == [];
      if Find(o0[..k], pid) != -1 {
        OlderFound(o0, k, o, pid);
        NewerKept(o0, k, o, Find(o0[..k], pid));
        OlderElsewhere(f0, o0, pages, Find(o0[..k], pid));
      } else {
        assert forall j | 0 <= j < k :: o0[..k][j] == o0[j];
      }
      hide Find, Insert, Remove, Owned;
      Release(pid);
    }
  }

  function FreePrios(free: seq<FreePage>): seq<int> {
    seq(|free|, i requires 0 <= i < |free| => free[i].prio)
  }

  function OwnerPrios(owners: seq<Owner>): seq<int> {
    seq(|owners|, i requires 0 <= i < |owners| => owners[i].prio)
  }

  function AddressPrios(adresses: seq<Address>): seq<int> {
    seq(|adresses|, i requires 0 <= i < |adresses| => adresses[i].prio)
  }

  lemma NothingHeld(pid: int, perm: Permission, prio: int, free: seq<FreePage>)
    ensures Holds(Owner(pid, perm, [], prio), pid, 0, perm, Bag(free), free)
  {
  }

  lemma GrownOwner(o0: seq<Owner>, k: nat, o: Owner, o': Owner, owners: seq<Owner>)
    requires k <= |o0| && owners == Insert(o0, k, o)
    ensures k < |owners| && owners[k] == o && owners[k := o'] == Insert(o0, k, o')
  {
  }

  lemma NewerKept(owners: seq<Owner>, k: nat, o: Owner, i: nat)
    requires i < k <= |owners|
    ensures |Remove(Insert(owners, k, o), i)| == |owners| && Remove(Insert(owners, k, o), i)[k - 1] == o
  {
    InsertIndices(owners, k, o);
    RemoveIndices(Insert(owners, k, o), i);
  }

  // The pages of an owner are other pages than the free ones.
  lemma OlderElsewhere(free: seq<FreePage>, owners: seq<Owner>, pages: set<int>, i: nat)
    requires Conserved(free, owners, pages) && i < |owners|
    ensures free != [] ==> Bag(free) != multiset(Frames(owners[i].adresses))
  {
    if free != [] && Bag(free) == multiset(Frames(owners[i].adresses)) {
      var a := FreeAdrs(free)[0];
      assert a in Bag(free);
      assert a in multiset(Frames(owners[i].adresses));
      OnePlace(free, owners, pages, i, a);
      assert false;
    }
  }

  // An older owner in front of the new one is found first.
  lemma OlderFound(owners: seq<Owner>, k: nat, o: Owner, pid: int)
    requires k <= |owners| && Find(owners[..k], pid) != -1
    ensures Find(Insert(owners, k, o), pid) == Find(owners[..k], pid)
    ensures Insert(owners, k, o)[Find(owners[..k], pid)] == owners[Find(owners[..k], pid)]
  {
    InsertIndices(owners, k, o);
    var i := Find(owners[..k], pid);
    var r := Insert(owners, k, o);
    assert forall j | 0 <= j < k :: r[j] == owners[..k][j];
    var i' := Find(r, pid);
    assert r[i].pid == pid;
    assert i' <= i;
    assert r[i'] == owners[..k][i'];
  }

  // A run from the start: process 7 gets one page, then asks for all 1000. That exhausts the
  // pool, and if the second owner comes behind the first, the first loses its page while the
  // second keeps the other 999.
  method ExhaustByOwner(adrs: seq<int>, first: int, second: int) returns (pool: Pool)
    requires |adrs| == 1000 && forall i, j | 0 <= i < j < 1000 :: adrs[i] != adrs[j]
    ensures pool.Valid() && fresh(pool) && |pool.owners| == 1
    ensures |pool.free| == if second > first then 1 else 999
    ensures |pool.owners[0].adresses| == if second > first then 999 else 1
  {
    pool := new Pool(adrs);
    SameBagSize(pool.free, adrs);
    ghost var all := pool.free;
    pool.Allocate(7, 1, READ, true, first);
    ghost var f0, o0 := pool.free, pool.owners;
    assert o0 == [o0[0]] && o0[0].pid == 7;
    HeldSize(o0[0], 7, 1, READ, all, f0);
    pool.Allocate(7, 1000, READ, true, second);
    assert OwnerPlace(o0, second) == if second > first then 1 else 0;
    if second > first {
      assert o0[..1] == o0;
      SameBagSize(pool.free, Frames(o0[0].adresses));
    } else {
      SameBagSize(pool.free, FreeAdrs(f0));
    }
  }

  lemma HeldSize(o: Owner, pid: int, n: nat, perm: Permission, before: seq<FreePage>, free: seq<FreePage>)
    requires Holds(o, pid, n, perm, Bag(before), free)
    ensures |before| == |free| + n
  {
    assert |Bag(before)| == |before| && |Bag(free)| == |free| && |multiset(Frames(o.adresses))| == n;
  }

  lemma SameBagSize(free: seq<FreePage>, adrs: seq<int>)
    requires Bag(free) == multiset(adrs)
    ensures |free| == |adrs|
  {
    assert |multiset(FreeAdrs(free))| == |FreeAdrs(free)| && |multiset(adrs)| == |adrs|;
  }
}
