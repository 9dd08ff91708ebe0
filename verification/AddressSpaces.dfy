/**
 The page directory of a process (kernel/page.c): created with the kernel's entries, then filled
 by put_address_reel. Its walk is the map of what has been put.
 */
module AddressSpaces {
  import opened Powers
  import opened WordBits
  import opened Paging

  // The latest mapping of a page.
  datatype Mapping = Mapping(frame: nat, write: bool)

  // Where an address must lead.
  ghost function Promised(mapped: map<nat, Mapping>, v: nat): Access {
    var n := PageNumber(v);
    if n in mapped then Reach(mapped[n].frame + Offset(v), mapped[n].write, true) else Fault
  }

  // Every address behind the kernel's part leads where it was put.
  ghost predicate Refines(mem: Memory, pd: nat, mapped: map<nat, Mapping>) {
    forall v {:trigger Walk(mem, pd, v)} | 0 <= v < WORD && Dir(v) >= KERNEL_ENTRIES ::
      Walk(mem, pd, v) == Promised(mapped, v)
  }

  ghost predicate SameWalk(mem: Memory, mem': Memory, pd: nat) {
    forall v {:trigger Walk(mem', pd, v)} | 0 <= v < WORD :: Walk(mem', pd, v) == Walk(mem, pd, v)
  }

  ghost predicate SameKernelWalk(mem: Memory, mem': Memory, pd: nat) {
    forall v {:trigger Walk(mem', pd, v)} | 0 <= v < WORD && Dir(v) < KERNEL_ENTRIES ::
      Walk(mem', pd, v) == Walk(mem, pd, v)
  }

  // The page with these indices leads to the mapped frame; all others as before.
  ghost predicate Redirected(mem: Memory, mem': Memory, pd: nat, i: nat, k: nat, m: Mapping) {
    forall w {:trigger Walk(mem', pd, w)} | 0 <= w < WORD ::
      Walk(mem', pd, w) ==
      if Dir(w) == i && Tab(w) == k then Reach(m.frame + Offset(w), m.write, true) else Walk(mem, pd, w)
  }

  // Only entry i of the directory and the page of its table have been written.
  ghost predicate OnlyTable(mem: Memory, mem': Memory, pd: nat, i: nat) {
    forall a: nat | a != Entry(pd, i) && !InPage(TableOf(mem', pd, i), a) :: Load(mem', a) == Load(mem, a)
  }

  class AddressSpace {
    const pd: nat
    var mem: Memory
    ghost var mapped: map<nat, Mapping>

    ghost predicate Valid()
      reads this
    {
      WellMapped(mem, pd) && Refines(mem, pd, mapped)
    }

    // create_page_directory on the page that memalign returned.
    constructor (mem0: Memory, page: nat, pgdir: nat)
      requires page % PAGE == 0 && 0 < page <= WORD - PAGE && pgdir % PAGE == 0 && pgdir != page
      requires forall i {:trigger UsesTable(mem0, pgdir, i)} | 0 <= i < KERNEL_ENTRIES && UsesTable(mem0, pgdir, i) ::
        TableOf(mem0, pgdir, i) != page
      ensures Valid() && pd == page && mapped == map[] && SameOutside(mem0, mem, page)
      ensures forall v | 0 <= v < WORD && Dir(v) < KERNEL_ENTRIES :: Walk(mem, pd, v) == Walk(mem0, pgdir, v)
    {
      var m: Memory := mem0;
      hide IsBitTrue;
      for i := 0 to KERNEL_ENTRIES
        invariant SameOutside(mem0, m, page)
        invariant forall j | 0 <= j < i :: DirEntry(m, page, j) == DirEntry(mem0, pgdir, j)
      {
        EntryInPage(pgdir, i, page);
        ghost var before: Memory := m;
        m := m[Entry(page, i) := Load(m, Entry(pgdir, i))];
        EntryInPage(page, i, page);
        StillEntries(before, m, page, i);
      }
      ghost var half: Memory := m;
      for i := KERNEL_ENTRIES to ENTRIES
        invariant SameOutside(mem0, m, page)
        invariant forall j | 0 <= j < KERNEL_ENTRIES :: DirEntry(m, page, j) == DirEntry(half, page, j)
        invariant forall j | KERNEL_ENTRIES <= j < i :: DirEntry(m, page, j) == 0
      {
        ghost var before: Memory := m;
        m := m[Entry(page, i) := 0];
        EntryInPage(page, i, page);
        StillEntries(before, m, page, i);
      }
      pd, mem, mapped := page, m, map[];
      NewDirectory(mem0, m, page, pgdir);
    }

    // Filling the page table at `page` with zeroes.
    method ClearPage(page: nat)
      requires page % PAGE == 0
      modifies this`mem
      ensures SameOutside(old(mem), mem, page) && Zeroed(mem, page)
    {
      for i := 0 to ENTRIES
        invariant SameOutside(old(mem), mem, page)
        invariant forall j | 0 <= j < i :: Load(mem, Entry(page, j)) == 0
      {
        EntryInPage(page, i, page);
        mem := mem[Entry(page, i) := 0];
      }
    }

    // create_page_table for directory entry i; page is what memalign returned, 0 if it failed.
    method CreatePageTable(i: nat, page: nat) returns (r: int)
      requires WellMapped(mem, pd) && KERNEL_ENTRIES <= i < ENTRIES && !Present(DirEntry(mem, pd, i))
      requires page == 0 || FreshPage(mem, pd, page)
      modifies this`mem
      ensures r == if page == 0 then -1 else 0
      ensures r == -1 ==> mem == old(mem)
      ensures r == 0 ==> WellMapped(mem, pd) && UsesTable(mem, pd, i) && SameWalk(old(mem), mem, pd)
      ensures r == 0 ==> TableOf(mem, pd, i) == page && OnlyTable(old(mem), mem, pd, i)
    {
      hide IsBitTrue, FreshPage, WellMapped;
      if page == 0 {
        return -1;
      }
      FreshAligned(mem, pd, page);
      ClearPage(page);
      PageFilledWell(old(mem), mem, pd, page);
      FilledSame(old(mem), mem, pd, page, i);
      ghost var cleared := mem;
      NoFlags(page);
      FlagSet(2, Frame(page));
      var e := WithBit(2, true, Frame(page));
      FlagSet(0, e);
      e := SetBit(0, true, e);
      FreshEntry(mem, pd, i, page, e);
      DirWrittenWell(mem, pd, i, e);
      WellAligned(mem, pd);
      mem := mem[Entry(pd, i) := e];
      SameThrough(old(mem), cleared, mem, pd, i, e);
      return 0;
    }

    // put_address_reel: the page of v leads to the frame of `phys`; nothing else changes.
    method PutAddressReel(phys: Word, v: Word, write: bool, page: nat) returns (r: int)
      requires Valid() && Dir(v) > 63
      requires page == 0 || FreshPage(mem, pd, page)
      modifies this
      ensures Valid() && SameKernelWalk(old(mem), mem, pd)
      ensures r == if !Present(old(DirEntry(mem, pd, Dir(v)))) && page == 0 then -1 else 0
      ensures r == -1 ==> mem == old(mem) && mapped == old(mapped)
      ensures r == 0 ==> mapped == old(mapped)[PageNumber(v) := Mapping(Frame(phys), write)]
      ensures r == 0 ==> OnlyTable(old(mem), mem, pd, Dir(v))
      ensures var i := Dir(v);
        r == 0 ==> TableOf(mem, pd, i) == if Present(old(DirEntry(mem, pd, i))) then old(TableOf(mem, pd, i)) else page
    {
      hide IsBitTrue, FreshPage, WellMapped;
      IndexFields(v);
      var i := GetNBits(31, 22, v);
      r := 0;
      if !Present(DirEntry(mem, pd, i)) {
        r := CreatePageTable(i, page);
        if r != 0 {
          return;
        }
      } else {
        InUse(mem, pd, i);
      }
      ghost var m1 := mem;
      UpdateDirectory(i, write);
      ghost var m2 := mem;
      var k := GetNBits(21, 12, v);
      WriteTable(i, k, phys, write);
      mapped := mapped[PageNumber(v) := Mapping(Frame(phys), write)];
      PutRefines(old(mem), m1, m2, mem, pd, old(mapped), v, phys, write);
    }

    // The two or-assignments to the directory entry.
    method UpdateDirectory(i: nat, write: bool)
      requires WellMapped(mem, pd) && KERNEL_ENTRIES <= i < ENTRIES && UsesTable(mem, pd, i)
      modifies this`mem
      ensures WellMapped(mem, pd) && UsesTable(mem, pd, i) && SameWalk(old(mem), mem, pd)
      ensures TableOf(mem, pd, i) == old(TableOf(mem, pd, i)) && OnlyTable(old(mem), mem, pd, i)
      ensures User(DirEntry(mem, pd, i)) && (write ==> Writable(DirEntry(mem, pd, i)))
    {
      hide IsBitTrue, FreshPage, WellMapped;
      var e := DirEntry(mem, pd, i);
      if write {
        FlagSet(1, e);
        e := WithBit(1, true, e);
      }
      FlagSet(2, e);
      e := WithBit(2, true, e);
      KeptEntry(mem, pd, i, e);
      DirWrittenWell(mem, pd, i, e);
      forall w | 0 <= w < WORD
        ensures Walk(PutDir(mem, pd, i, e), pd, w) == Walk(mem, pd, w)
      {
        DirWrittenWalk(mem, pd, i, e, w);
      }
      WrittenEntry(mem, pd, i, e);
      mem := mem[Entry(pd, i) := e];
    }

    // The table entry: frame, user, present, and writable if asked for.
    method WriteTable(i: nat, k: nat, phys: Word, write: bool)
      requires WellMapped(mem, pd) && KERNEL_ENTRIES <= i < ENTRIES && UsesTable(mem, pd, i) && k < ENTRIES
      requires User(DirEntry(mem, pd, i)) && (write ==> Writable(DirEntry(mem, pd, i)))
      modifies this`mem
      ensures WellMapped(mem, pd)
      ensures Redirected(old(mem), mem, pd, i, k, Mapping(Frame(phys), write))
      ensures TableOf(mem, pd, i) == old(TableOf(mem, pd, i)) && OnlyTable(old(mem), mem, pd, i)
    {
      hide IsBitTrue, FreshPage, WellMapped;
      var table := Frame(DirEntry(mem, pd, i));
      NoFlags(phys);
      FlagSet(2, Frame(phys));
      var e := WithBit(2, true, Frame(phys));
      if write {
        FlagSet(1, e);
        e := WithBit(1, true, e);
      }
      FlagSet(0, e);
      e := WithBit(0, true, e);
      TabWrittenWell(mem, pd, i, k, e);
      TabWritten(mem, pd, i, k, e, i);
      NoFlags(DirEntry(mem, pd, i));
      EntryInPage(table, k, table);
      forall w | 0 <= w < WORD
        ensures Walk(PutTab(mem, pd, i, k, e), pd, w) ==
          if Dir(w) == i && Tab(w) == k then Reach(Frame(phys) + Offset(w), write, true) else Walk(mem, pd, w)
      {
        TabWrittenWalk(mem, pd, i, k, e, w);
      }
      mem := mem[Entry(table, k) := e];
    }
  }

  // ---------- the steps on values ----------

  lemma StillEntries(m: Memory, m': Memory, page: nat, i: nat)
    requires page % PAGE == 0 && i < ENTRIES && forall a | a != Entry(page, i) :: Load(m', a) == Load(m, a)
    ensures forall j | 0 <= j < ENTRIES && j != i :: DirEntry(m', page, j) == DirEntry(m, page, j)
  {
  }

  lemma WellAligned(mem: Memory, pd: nat)
    requires WellMapped(mem, pd)
    ensures pd % PAGE == 0
  {
  }

  lemma FreshAligned(mem: Memory, pd: nat, page: nat)
    requires FreshPage(mem, pd, page)
    ensures page % PAGE == 0 && Frame(page) == page && 0 < page < WORD && page != pd
  {
    var q := page / PAGE;
    assert page == PAGE * q;
  }

  lemma InUse(mem: Memory, pd: nat, i: nat)
    requires WellMapped(mem, pd) && KERNEL_ENTRIES <= i < ENTRIES && Present(DirEntry(mem, pd, i))
    ensures UsesTable(mem, pd, i)
  {
    WellParts(mem, pd, i, i);
  }

  lemma FilledSame(mem: Memory, mem': Memory, pd: nat, page: nat, i: nat)
    requires WellMapped(mem, pd) && FreshPage(mem, pd, page) && SameOutside(mem, mem', page) && i < ENTRIES
    ensures SameWalk(mem, mem', pd) && DirEntry(mem', pd, i) == DirEntry(mem, pd, i)
  {
    hide IsBitTrue, FreshPage, Walk, SameOutside;
    WellAligned(mem, pd);
    PageFilled(mem, mem', pd, page, i);
    forall v | 0 <= v < WORD
      ensures Walk(mem', pd, v) == Walk(mem, pd, v)
    {
      PageFilledWalk(mem, mem', pd, page, v);
    }
  }

  lemma FreshEntry(mem: Memory, pd: nat, i: nat, page: nat, e: Word)
    requires FreshPage(mem, pd, page) && Zeroed(mem, page) && !Present(DirEntry(mem, pd, i))
    requires Present(e) && User(e) && !Large(e) && Frame(e) == page
    ensures GoodEntry(mem, pd, i, e)
  {
    hide IsBitTrue;
  }

  lemma SameThrough(m0: Memory, m1: Memory, m2: Memory, pd: nat, i: nat, e: Word)
    requires SameWalk(m0, m1, pd) && WellMapped(m1, pd) && KERNEL_ENTRIES <= i < ENTRIES && GoodEntry(m1, pd, i, e)
    requires m2 == PutDir(m1, pd, i, e)
    ensures SameWalk(m0, m2, pd) && UsesTable(m2, pd, i)
  {
    hide IsBitTrue, FreshPage, Walk, GoodEntry, WellMapped;
    DirWritten(m1, pd, i, e, i);
    GoodUses(m1, pd, i, e);
    forall v | 0 <= v < WORD
      ensures Walk(m2, pd, v) == Walk(m0, pd, v)
    {
      DirWrittenWalk(m1, pd, i, e, v);
      assert Walk(m1, pd, v) == Walk(m0, pd, v);
    }
  }

  lemma GoodUses(mem: Memory, pd: nat, i: nat, e: Word)
    requires GoodEntry(mem, pd, i, e)
    ensures Present(e) && !Large(e)
  {
  }

  // The entry with more flags is a good entry again.
  lemma KeptEntry(mem: Memory, pd: nat, i: nat, e: Word)
    requires WellMapped(mem, pd) && KERNEL_ENTRIES <= i < ENTRIES && UsesTable(mem, pd, i)
    requires Frame(e) == TableOf(mem, pd, i) && Present(e) && !Large(e) && User(e)
    requires Writable(DirEntry(mem, pd, i)) ==> Writable(e)
    ensures GoodEntry(mem, pd, i, e)
  {
    hide IsBitTrue;
    WellParts(mem, pd, i, i);
  }

  lemma WrittenEntry(mem: Memory, pd: nat, i: nat, e: Word)
    requires WellMapped(mem, pd) && KERNEL_ENTRIES <= i < ENTRIES && Present(e) && !Large(e)
    ensures DirEntry(PutDir(mem, pd, i, e), pd, i) == e && UsesTable(PutDir(mem, pd, i, e), pd, i)
  {
    hide IsBitTrue, WellMapped;
    DirWritten(mem, pd, i, e, i);
  }

  // After all steps the directory maps what it mapped before, except for the page of v.
  lemma PutRefines(m0: Memory, m1: Memory, m2: Memory, m3: Memory, pd: nat, mapped: map<nat, Mapping>, v: Word,
      phys: Word, write: bool)
    requires Refines(m0, pd, mapped) && SameWalk(m0, m1, pd) && SameWalk(m1, m2, pd) && Dir(v) >= KERNEL_ENTRIES
    requires Redirected(m2, m3, pd, Dir(v), Tab(v), Mapping(Frame(phys), write))
    ensures Refines(m3, pd, mapped[PageNumber(v) := Mapping(Frame(phys), write)]) && SameKernelWalk(m0, m3, pd)
  {
    hide Walk, Dir, Tab, PageNumber, Frame;
    forall w | 0 <= w < WORD
      ensures Dir(w) >= KERNEL_ENTRIES ==>
        Walk(m3, pd, w) == Promised(mapped[PageNumber(v) := Mapping(Frame(phys), write)], w)
      ensures Dir(w) < KERNEL_ENTRIES ==> Walk(m3, pd, w) == Walk(m0, pd, w)
    {
      SamePage(v, w);
      assert Walk(m2, pd, w) == Walk(m1, pd, w) == Walk(m0, pd, w);
    }
  }

  // A directory with the kernel's entries and no others.
  lemma NewDirectory(mem0: Memory, m: Memory, page: nat, pgdir: nat)
    requires page % PAGE == 0 && 0 < page <= WORD - PAGE && SameOutside(mem0, m, page)
    requires forall i {:trigger UsesTable(mem0, pgdir, i)} | 0 <= i < KERNEL_ENTRIES && UsesTable(mem0, pgdir, i) ::
      TableOf(mem0, pgdir, i) != page
    requires forall j | 0 <= j < KERNEL_ENTRIES :: DirEntry(m, page, j) == DirEntry(mem0, pgdir, j)
    requires forall j | KERNEL_ENTRIES <= j < ENTRIES :: DirEntry(m, page, j) == 0
    ensures WellMapped(m, page) && Refines(m, page, map[])
    ensures forall v | 0 <= v < WORD && Dir(v) < KERNEL_ENTRIES :: Walk(m, page, v) == Walk(mem0, pgdir, v)
  {
    hide IsBitTrue;
    ZeroIsFault();
    assert forall i | KERNEL_ENTRIES <= i < ENTRIES :: OwnTable(m, page, i);
    assert forall i, j | KERNEL_ENTRIES <= i < ENTRIES && 0 <= j < ENTRIES :: TablesApart(m, page, i, j);
    forall i | 0 <= i < ENTRIES && UsesTable(m, page, i)
      ensures TableOf(m, page, i) != page
    {
      assert i < KERNEL_ENTRIES ==> UsesTable(mem0, pgdir, i);
    }
    forall v | 0 <= v < WORD
      ensures Dir(v) >= KERNEL_ENTRIES ==> Walk(m, page, v) == Fault
      ensures Dir(v) < KERNEL_ENTRIES ==> Walk(m, page, v) == Walk(mem0, pgdir, v)
    {
      IndexFields(v);
      if Dir(v) < KERNEL_ENTRIES {
        KernelWalk(mem0, m, page, pgdir, v);
      }
    }
  }

  lemma KernelWalk(mem0: Memory, m: Memory, page: nat, pgdir: nat, v: nat)
    requires page % PAGE == 0 && SameOutside(mem0, m, page) && v < WORD
    requires DirEntry(m, page, Dir(v)) == DirEntry(mem0, pgdir, Dir(v))
    requires UsesTable(mem0, pgdir, Dir(v)) ==> TableOf(mem0, pgdir, Dir(v)) != page
    ensures Walk(m, page, v) == Walk(mem0, pgdir, v)
  {
    hide IsBitTrue;
    IndexFields(v);
    NoFlags(DirEntry(mem0, pgdir, Dir(v)));
    if UsesTable(mem0, pgdir, Dir(v)) {
      EntryInPage(TableOf(mem0, pgdir, Dir(v)), Tab(v), page);
    }
  }
}
