/**
 Two-level page tables (kernel/page.c) and the walker of the GDB stub
 (kernel/gdb_serial_support.c), on a physical memory of 32-bit words. The format is that of
 32-bit paging, section 4.3 of volume 3A of the Intel 64 and IA-32 manual.
 */
module Paging {
  import opened Powers
  import opened WordBits

  const PAGE := 4096
  const LARGE_PAGE := 0x40_0000
  const ENTRIES := 1024
  const KERNEL_ENTRIES := 64

  type Word = x: nat | x < WORD
  type Memory = map<nat, Word>

  function Load(mem: Memory, a: nat): Word {
    if a in mem then mem[a] else 0
  }

  // ---------- entries ----------

  predicate Present(e: nat) {
    IsBitTrue(0, e)
  }

  predicate Writable(e: nat) {
    IsBitTrue(1, e)
  }

  predicate User(e: nat) {
    IsBitTrue(2, e)
  }

  predicate Large(e: nat) {
    IsBitTrue(7, e)
  }

  // e & 0xFFFFF000
  function Frame(e: nat): nat {
    e / PAGE * PAGE
  }

  function Entry(table: nat, i: nat): nat {
    table + 4 * i
  }

  // Bits 31 to 22, 21 to 12 and 11 to 0 of an address.
  function Dir(v: nat): nat {
    v / LARGE_PAGE
  }

  function Tab(v: nat): nat {
    v / PAGE % ENTRIES
  }

  function Offset(v: nat): nat {
    v % PAGE
  }

  function PageNumber(v: nat): nat {
    v / PAGE
  }

  // get_n_bits gives the two indices.
  lemma IndexFields(v: nat)
    requires v < WORD
    ensures Field(v, 22, 10) == Dir(v) < ENTRIES && Field(v, 12, 10) == Tab(v) < ENTRIES
  {
    Pow2Values();
  }

  lemma Pow2Values()
    ensures Pow2(10) == 1024 && Pow2(12) == 4096 && Pow2(22) == 0x40_0000
  {
    assert Pow2(5) == 32 && Pow2(11) == 2048 && Pow2(16) == 0x1_0000;
  }

  // The two indices together are the page number.
  lemma SamePage(v: nat, w: nat)
    requires v < WORD && w < WORD
    ensures Dir(v) == Dir(w) && Tab(v) == Tab(w) <==> PageNumber(v) == PageNumber(w)
  {
    IndexParts(v);
    IndexParts(w);
  }

  lemma IndexParts(v: nat)
    ensures PageNumber(v) == Dir(v) * ENTRIES + Tab(v)
  {
    assert v / PAGE / ENTRIES == v / LARGE_PAGE;
  }

  // Entries of page-aligned tables only coincide if table and index do.
  lemma EntriesDistinct(t: nat, i: nat, u: nat, j: nat)
    requires t % PAGE == 0 && u % PAGE == 0 && i < ENTRIES && j < ENTRIES && Entry(t, i) == Entry(u, j)
    ensures t == u && i == j
  {
    var a, b := t / PAGE, u / PAGE;
    assert t == PAGE * a && u == PAGE * b;
  }

  // Setting one of the flags keeps the other flags and the frame.
  lemma FlagSet(n: nat, e: Word)
    requires n < 12
    ensures WithBit(n, true, e) < WORD && WithBit(n, true, e) >= 0
    ensures Frame(WithBit(n, true, e)) == Frame(e)
    ensures forall m | 0 <= m < 32 :: IsBitTrue(m, WithBit(n, true, e)) <==> m == n || IsBitTrue(m, e)
  {
    WithBitIsWord(n, true, e);
    forall m | 0 <= m < 32
      ensures IsBitTrue(m, WithBit(n, true, e)) <==> m == n || IsBitTrue(m, e)
    {
      WithBitAt(n, true, e, m);
    }
    WithBitAbove(n, true, e, 12);
    Pow2Values();
  }

  // A frame address has no flags.
  lemma NoFlags(x: nat)
    ensures Frame(x) <= x && Frame(Frame(x)) == Frame(x) && Frame(x) % PAGE == 0
    ensures !Present(Frame(x)) && !Writable(Frame(x)) && !User(Frame(x)) && !Large(Frame(x))
  {
    var q := x / PAGE;
    assert Frame(x) == PAGE * q;
    assert Pow2(7) == 128 && Pow2(1) == 2 && Pow2(2) == 4;
    assert Quot(PAGE * q, 0) == PAGE * q;
  }

  // ---------- the walk ----------

  // Where an address leads, and what may be done there.
  datatype Access = Fault | Reach(paddr: nat, write: bool, user: bool)

  function DirEntry(mem: Memory, pd: nat, i: nat): Word {
    Load(mem, Entry(pd, i))
  }

  function Walk(mem: Memory, pd: nat, v: nat): Access {
    var pde := DirEntry(mem, pd, Dir(v));
    if !Present(pde) then Fault
    else if Large(pde) then Reach(pde / LARGE_PAGE * LARGE_PAGE + v % LARGE_PAGE, Writable(pde), User(pde))
    else
      var pte := Load(mem, Entry(Frame(pde), Tab(v)));
      if !Present(pte) then Fault
      else Reach(Frame(pte) + Offset(v), Writable(pde) && Writable(pte), User(pde) && User(pte))
  }

  // The bytes that follow v in its page.
  function RestOfPage(mem: Memory, pd: nat, v: nat): nat {
    if Large(DirEntry(mem, pd, Dir(v))) then LARGE_PAGE - v % LARGE_PAGE else PAGE - Offset(v)
  }

  // phys_addr_lookup: follows the walk when paging is on.
  method PhysAddrLookup(mem: Memory, paging: bool, cr3: Word, vaddr: Word) returns (paddr: nat, len: nat)
    ensures !paging ==> paddr == vaddr && len == 0xFFFF_FFFF
    ensures paging && Walk(mem, Frame(cr3), vaddr) == Fault ==> len == 0
    ensures paging && Walk(mem, Frame(cr3), vaddr) != Fault ==>
      paddr == Walk(mem, Frame(cr3), vaddr).paddr && len == RestOfPage(mem, Frame(cr3), vaddr) > 0
  {
    hide IsBitTrue;
    paddr := 0;
    var pde := DirEntry(mem, Frame(cr3), Dir(vaddr));
    if !paging {
      return vaddr, 0xFFFF_FFFF;
    }
    len := 0;
    if !Present(pde) {
      return;
    }
    if !Large(pde) {
      var pte := Load(mem, Entry(Frame(pde), Tab(vaddr)));
      var offs := Offset(vaddr);
      if !Present(pte) {
        return;
      }
      paddr := Frame(pte) + offs;
      len := PAGE - offs;
    } else {
      var offs := vaddr % LARGE_PAGE;
      paddr := pde / LARGE_PAGE * LARGE_PAGE + offs;
      len := LARGE_PAGE - offs;
    }
  }

  // ---------- the invariant of a directory ----------

  predicate UsesTable(mem: Memory, pd: nat, i: nat) {
    Present(DirEntry(mem, pd, i)) && !Large(DirEntry(mem, pd, i))
  }

  function TableOf(mem: Memory, pd: nat, i: nat): nat {
    Frame(DirEntry(mem, pd, i))
  }

  // An entry made by put_address_reel has a table of its own, for user pages; a page of it is
  // only writable if the entry is.
  ghost predicate OwnTable(mem: Memory, pd: nat, i: nat) {
    Present(DirEntry(mem, pd, i)) ==>
      && UsesTable(mem, pd, i) && User(DirEntry(mem, pd, i))
      && (forall k | 0 <= k < ENTRIES && Writable(Load(mem, Entry(TableOf(mem, pd, i), k))) ::
           Writable(DirEntry(mem, pd, i)))
  }

  ghost predicate TablesApart(mem: Memory, pd: nat, i: nat, j: nat) {
    i != j && UsesTable(mem, pd, i) && UsesTable(mem, pd, j) ==> TableOf(mem, pd, i) != TableOf(mem, pd, j)
  }

  ghost predicate WellMapped(mem: Memory, pd: nat) {
    && pd % PAGE == 0
    && (forall i {:trigger OwnTable(mem, pd, i)} | KERNEL_ENTRIES <= i < ENTRIES :: OwnTable(mem, pd, i))
    && (forall i, j {:trigger TablesApart(mem, pd, i, j)} | KERNEL_ENTRIES <= i < ENTRIES && 0 <= j < ENTRIES ::
         TablesApart(mem, pd, i, j))
    && (forall i {:trigger UsesTable(mem, pd, i)} | 0 <= i < ENTRIES && UsesTable(mem, pd, i) ::
         TableOf(mem, pd, i) != pd)
  }

  // A page that memalign may return: neither the directory nor one of its tables.
  ghost predicate FreshPage(mem: Memory, pd: nat, page: nat) {
    && page % PAGE == 0 && 0 < page <= WORD - PAGE && page != pd
    && forall i {:trigger UsesTable(mem, pd, i)} | 0 <= i < ENTRIES && UsesTable(mem, pd, i) ::
         TableOf(mem, pd, i) != page
  }

  predicate InPage(page: nat, a: nat) {
    page <= a < page + PAGE
  }

  // An entry of an aligned table lies in its page.
  lemma EntryInPage(t: nat, i: nat, page: nat)
    requires t % PAGE == 0 && page % PAGE == 0 && i < ENTRIES
    ensures InPage(page, Entry(t, i)) <==> t == page
  {
    var a, b := t / PAGE, page / PAGE;
    assert t == PAGE * a && page == PAGE * b;
  }

  // ---------- step 1: an empty table ----------

  // The words of a page, all zero.
  ghost predicate Zeroed(mem: Memory, page: nat) {
    forall k | 0 <= k < ENTRIES :: Load(mem, Entry(page, k)) == 0
  }

  ghost predicate SameOutside(mem: Memory, mem': Memory, page: nat) {
    forall a | !InPage(page, a) :: Load(mem', a) == Load(mem, a)
  }

  // Filling a fresh page does not matter to the directory.
  lemma PageFilled(mem: Memory, mem': Memory, pd: nat, page: nat, i: nat)
    requires pd % PAGE == 0 && FreshPage(mem, pd, page) && SameOutside(mem, mem', page) && i < ENTRIES
    ensures DirEntry(mem', pd, i) == DirEntry(mem, pd, i)
    ensures UsesTable(mem, pd, i) ==>
      forall k | 0 <= k < ENTRIES ::
        Load(mem', Entry(TableOf(mem, pd, i), k)) == Load(mem, Entry(TableOf(mem, pd, i), k))
  {
    hide IsBitTrue;
    EntryInPage(pd, i, page);
    if UsesTable(mem, pd, i) {
      NoFlags(DirEntry(mem, pd, i));
      forall k | 0 <= k < ENTRIES
        ensures Load(mem', Entry(TableOf(mem, pd, i), k)) == Load(mem, Entry(TableOf(mem, pd, i), k))
      {
        EntryInPage(TableOf(mem, pd, i), k, page);
      }
    }
  }

  lemma PageFilledWalk(mem: Memory, mem': Memory, pd: nat, page: nat, v: nat)
    requires pd % PAGE == 0 && FreshPage(mem, pd, page) && SameOutside(mem, mem', page) && v < WORD
    ensures Walk(mem', pd, v) == Walk(mem, pd, v)
  {
    IndexFields(v);
    PageFilled(mem, mem', pd, page, Dir(v));
    hide IsBitTrue;
    assert UsesTable(mem, pd, Dir(v)) ==>
      Load(mem', Entry(TableOf(mem, pd, Dir(v)), Tab(v))) == Load(mem, Entry(TableOf(mem, pd, Dir(v)), Tab(v)));
  }

  lemma PageFilledWell(mem: Memory, mem': Memory, pd: nat, page: nat)
    requires WellMapped(mem, pd) && FreshPage(mem, pd, page) && SameOutside(mem, mem', page)
    ensures WellMapped(mem', pd) && FreshPage(mem', pd, page)
  {
    hide IsBitTrue, FreshPage;
    forall i | 0 <= i < ENTRIES
      ensures DirEntry(mem', pd, i) == DirEntry(mem, pd, i)
      ensures KERNEL_ENTRIES <= i ==> OwnTable(mem', pd, i)
    {
      PageFilled(mem, mem', pd, page, i);
      assert KERNEL_ENTRIES <= i ==> OwnTable(mem, pd, i);
    }
    forall i, j | KERNEL_ENTRIES <= i < ENTRIES && 0 <= j < ENTRIES
      ensures TablesApart(mem', pd, i, j)
    {
      assert TablesApart(mem, pd, i, j);
    }
    forall i | 0 <= i < ENTRIES && UsesTable(mem', pd, i)
      ensures TableOf(mem', pd, i) != pd
    {
      assert UsesTable(mem, pd, i);
    }
    StillFresh(mem, mem', pd, page);
  }

  lemma StillFresh(mem: Memory, mem': Memory, pd: nat, page: nat)
    requires FreshPage(mem, pd, page) && forall i | 0 <= i < ENTRIES :: DirEntry(mem', pd, i) == DirEntry(mem, pd, i)
    ensures FreshPage(mem', pd, page)
  {
    hide IsBitTrue;
    forall i | 0 <= i < ENTRIES && UsesTable(mem', pd, i)
      ensures TableOf(mem', pd, i) != page
    {
      assert UsesTable(mem, pd, i);
    }
  }

  // ---------- step 2: writing a directory entry ----------

  ghost function PutDir(mem: Memory, pd: nat, i: nat, e: Word): Memory {
    mem[Entry(pd, i) := e]
  }

  // Only this entry changes, and no page table does.
  lemma DirWritten(mem: Memory, pd: nat, i: nat, e: Word, j: nat)
    requires WellMapped(mem, pd) && i < ENTRIES && j < ENTRIES
    ensures DirEntry(PutDir(mem, pd, i, e), pd, j) == if j == i then e else DirEntry(mem, pd, j)
  {
    if Entry(pd, i) == Entry(pd, j) {
      EntriesDistinct(pd, i, pd, j);
    }
  }

  lemma TableKept(mem: Memory, pd: nat, i: nat, e: Word, t: nat, k: nat)
    requires pd % PAGE == 0 && t % PAGE == 0 && t != pd && i < ENTRIES && k < ENTRIES
    ensures Load(PutDir(mem, pd, i, e), Entry(t, k)) == Load(mem, Entry(t, k))
  {
    if Entry(pd, i) == Entry(t, k) {
      EntriesDistinct(pd, i, t, k);
    }
  }

  // The entry names a page table of its own: the one it had, or a fresh empty one.
  ghost predicate GoodEntry(mem: Memory, pd: nat, i: nat, e: Word) {
    && Present(e) && !Large(e) && User(e) && Frame(e) != pd
    && if UsesTable(mem, pd, i)
       then Frame(e) == TableOf(mem, pd, i) && (Writable(DirEntry(mem, pd, i)) ==> Writable(e))
       else !Present(DirEntry(mem, pd, i)) && FreshPage(mem, pd, Frame(e)) && Zeroed(mem, Frame(e))
  }

  // Writing it changes no translation and no permission.
  lemma DirWrittenWalk(mem: Memory, pd: nat, i: nat, e: Word, v: nat)
    requires WellMapped(mem, pd) && KERNEL_ENTRIES <= i < ENTRIES && GoodEntry(mem, pd, i, e) && v < WORD
    ensures Walk(PutDir(mem, pd, i, e), pd, v) == Walk(mem, pd, v)
  {
    hide IsBitTrue, FreshPage;
    IndexFields(v);
    DirWritten(mem, pd, i, e, Dir(v));
    assert OwnTable(mem, pd, i);
    NoFlags(e);
    NoFlags(DirEntry(mem, pd, Dir(v)));
    if Dir(v) == i {
      TableKept(mem, pd, i, e, Frame(e), Tab(v));
      ZeroIsFault();
    } else if UsesTable(mem, pd, Dir(v)) {
      TableKept(mem, pd, i, e, TableOf(mem, pd, Dir(v)), Tab(v));
    }
  }

  lemma ZeroIsFault()
    ensures !Present(0) && !Writable(0) && !User(0)
  {
    NoFlags(0);
  }

  lemma DirWrittenWell(mem: Memory, pd: nat, i: nat, e: Word)
    requires WellMapped(mem, pd) && KERNEL_ENTRIES <= i < ENTRIES && GoodEntry(mem, pd, i, e)
    ensures WellMapped(PutDir(mem, pd, i, e), pd)
  {
    hide IsBitTrue, WellMapped;
    var mem' := PutDir(mem, pd, i, e);
    forall j | KERNEL_ENTRIES <= j < ENTRIES
      ensures OwnTable(mem', pd, j)
    {
      OwnTableKept(mem, pd, i, e, j);
    }
    forall a, b | KERNEL_ENTRIES <= a < ENTRIES && 0 <= b < ENTRIES
      ensures TablesApart(mem', pd, a, b)
    {
      ApartKept(mem, pd, i, e, a, b);
    }
    forall j | 0 <= j < ENTRIES && UsesTable(mem', pd, j)
      ensures TableOf(mem', pd, j) != pd
    {
      NotDirectory(mem, pd, i, e, j);
    }
    FoldWell(mem, mem', pd);
  }

  lemma FoldWell(mem: Memory, mem': Memory, pd: nat)
    requires WellMapped(mem, pd)
    requires forall j | KERNEL_ENTRIES <= j < ENTRIES :: OwnTable(mem', pd, j)
    requires forall a, b | KERNEL_ENTRIES <= a < ENTRIES && 0 <= b < ENTRIES :: TablesApart(mem', pd, a, b)
    requires forall j | 0 <= j < ENTRIES && UsesTable(mem', pd, j) :: TableOf(mem', pd, j) != pd
    ensures WellMapped(mem', pd)
  {
    hide IsBitTrue, OwnTable, TablesApart, UsesTable;
  }

  lemma NotDirectory(mem: Memory, pd: nat, i: nat, e: Word, j: nat)
    requires WellMapped(mem, pd) && KERNEL_ENTRIES <= i < ENTRIES && GoodEntry(mem, pd, i, e) && j < ENTRIES
    requires UsesTable(PutDir(mem, pd, i, e), pd, j)
    ensures TableOf(PutDir(mem, pd, i, e), pd, j) != pd
  {
    hide IsBitTrue, FreshPage;
    DirWritten(mem, pd, i, e, j);
    assert j != i ==> UsesTable(mem, pd, j);
  }

  lemma OwnTableKept(mem: Memory, pd: nat, i: nat, e: Word, j: nat)
    requires WellMapped(mem, pd) && KERNEL_ENTRIES <= i < ENTRIES && GoodEntry(mem, pd, i, e)
    requires KERNEL_ENTRIES <= j < ENTRIES
    ensures OwnTable(PutDir(mem, pd, i, e), pd, j)
  {
    hide IsBitTrue, FreshPage;
    var mem' := PutDir(mem, pd, i, e);
    DirWritten(mem, pd, i, e, j);
    assert OwnTable(mem, pd, j);
    NoFlags(DirEntry(mem', pd, j));
    ZeroIsFault();
    if Present(DirEntry(mem', pd, j)) {
      forall k | 0 <= k < ENTRIES
        ensures Load(mem', Entry(TableOf(mem', pd, j), k)) == Load(mem, Entry(TableOf(mem', pd, j), k))
      {
        TableKept(mem, pd, i, e, TableOf(mem', pd, j), k);
      }
    }
  }

  lemma ApartKept(mem: Memory, pd: nat, i: nat, e: Word, a: nat, b: nat)
    requires WellMapped(mem, pd) && KERNEL_ENTRIES <= i < ENTRIES && GoodEntry(mem, pd, i, e)
    requires KERNEL_ENTRIES <= a < ENTRIES && b < ENTRIES
    ensures TablesApart(PutDir(mem, pd, i, e), pd, a, b)
  {
    hide IsBitTrue;
    DirWritten(mem, pd, i, e, a);
    DirWritten(mem, pd, i, e, b);
    assert TablesApart(mem, pd, a, b) && TablesApart(mem, pd, i, b) && TablesApart(mem, pd, i, a);
    assert UsesTable(mem, pd, a) || !UsesTable(mem, pd, a);
    assert UsesTable(mem, pd, b) || !UsesTable(mem, pd, b);
  }

  // ---------- step 3: writing a table entry ----------

  ghost function PutTab(mem: Memory, pd: nat, i: nat, k: nat, e: Word): Memory {
    mem[Entry(TableOf(mem, pd, i), k) := e]
  }

  // The directory stays, and of all table entries only this one changes.
  lemma TabWritten(mem: Memory, pd: nat, i: nat, k: nat, e: Word, j: nat)
    requires WellMapped(mem, pd) && KERNEL_ENTRIES <= i < ENTRIES && UsesTable(mem, pd, i) && k < ENTRIES && j < ENTRIES
    ensures DirEntry(PutTab(mem, pd, i, k, e), pd, j) == DirEntry(mem, pd, j)
    ensures UsesTable(mem, pd, j) ==> forall m | 0 <= m < ENTRIES ::
      Load(PutTab(mem, pd, i, k, e), Entry(TableOf(mem, pd, j), m)) ==
      if j == i && m == k then e else Load(mem, Entry(TableOf(mem, pd, j), m))
  {
    hide IsBitTrue;
    var t := TableOf(mem, pd, i);
    NoFlags(DirEntry(mem, pd, i));
    if Entry(t, k) == Entry(pd, j) {
      EntriesDistinct(t, k, pd, j);
    }
    if UsesTable(mem, pd, j) {
      NoFlags(DirEntry(mem, pd, j));
      assert TablesApart(mem, pd, i, j);
      forall m | 0 <= m < ENTRIES
        ensures Entry(t, k) == Entry(TableOf(mem, pd, j), m) <==> j == i && m == k
      {
        if Entry(t, k) == Entry(TableOf(mem, pd, j), m) {
          EntriesDistinct(t, k, TableOf(mem, pd, j), m);
        }
      }
    }
  }

  // Exactly the addresses of this page lead elsewhere.
  lemma TabWrittenWalk(mem: Memory, pd: nat, i: nat, k: nat, e: Word, v: nat)
    requires WellMapped(mem, pd) && KERNEL_ENTRIES <= i < ENTRIES && UsesTable(mem, pd, i) && k < ENTRIES && v < WORD
    requires Present(e)
    ensures Walk(PutTab(mem, pd, i, k, e), pd, v) ==
      if Dir(v) == i && Tab(v) == k
      then Reach(Frame(e) + Offset(v), Writable(DirEntry(mem, pd, i)) && Writable(e),
                 User(DirEntry(mem, pd, i)) && User(e))
      else Walk(mem, pd, v)
  {
    hide IsBitTrue, WellMapped;
    IndexFields(v);
    TabWritten(mem, pd, i, k, e, Dir(v));
    var a := Entry(TableOf(mem, pd, Dir(v)), Tab(v));
    var w := if Dir(v) == i && Tab(v) == k then e else Load(mem, a);
    assert UsesTable(mem, pd, Dir(v)) ==> Load(PutTab(mem, pd, i, k, e), a) == w;
  }

  lemma TabWrittenWell(mem: Memory, pd: nat, i: nat, k: nat, e: Word)
    requires WellMapped(mem, pd) && KERNEL_ENTRIES <= i < ENTRIES && UsesTable(mem, pd, i) && k < ENTRIES
    requires Writable(e) ==> Writable(DirEntry(mem, pd, i))
    ensures WellMapped(PutTab(mem, pd, i, k, e), pd)
  {
    hide IsBitTrue, WellMapped;
    var mem' := PutTab(mem, pd, i, k, e);
    forall j | KERNEL_ENTRIES <= j < ENTRIES
      ensures OwnTable(mem', pd, j)
    {
      WellParts(mem, pd, j, j);
      TabWritten(mem, pd, i, k, e, j);
    }
    forall a, b | KERNEL_ENTRIES <= a < ENTRIES && 0 <= b < ENTRIES
      ensures TablesApart(mem', pd, a, b)
    {
      WellParts(mem, pd, a, b);
      TabWritten(mem, pd, i, k, e, a);
      TabWritten(mem, pd, i, k, e, b);
    }
    forall j | 0 <= j < ENTRIES && UsesTable(mem', pd, j)
      ensures TableOf(mem', pd, j) != pd
    {
      TabWritten(mem, pd, i, k, e, j);
      WellParts(mem, pd, i, j);
    }
    FoldWell(mem, mem', pd);
  }

  lemma WellParts(mem: Memory, pd: nat, i: nat, j: nat)
    requires WellMapped(mem, pd) && KERNEL_ENTRIES <= i < ENTRIES && j < ENTRIES
    ensures OwnTable(mem, pd, i) && TablesApart(mem, pd, i, j) && (UsesTable(mem, pd, j) ==> TableOf(mem, pd, j) != pd)
  {
    hide IsBitTrue, OwnTable, TablesApart;
    assert OwnTable(mem, pd, i) && TablesApart(mem, pd, i, j);
  }
}
