/**
 Copying from the debugged client's memory (gdb_copyin in kernel/gdb_serial_support.c): page by
 page, which amounts to translating every byte's address.
 */
module ClientCopy {
  import opened Powers
  import opened WordBits
  import opened Paging

  const UNMAPPED := -1

  // The physical address of v, as the client sees it.
  function Translate(mem: Memory, paging: bool, pd: nat, v: nat): int {
    if !paging then v
    else
      match Walk(mem, pd, v)
      case Fault => UNMAPPED
      case Reach(paddr, _, _) => paddr
  }

  // The same for the k-th address from v on; addresses wrap around.
  function Kth(mem: Memory, paging: bool, pd: nat, v: nat, k: nat): int {
    Translate(mem, paging, pd, (v + k) % WORD)
  }

  // The byte at a physical address; words are little-endian.
  function ByteAt(mem: Memory, a: nat): nat {
    Rem(Quot(Load(mem, a / 4 * 4), 8 * (a % 4)), 8)
  }

  // n bytes from physical address a on.
  function Bytes(mem: Memory, a: nat, n: nat): (s: seq<int>)
    ensures |s| == n && forall k | 0 <= k < n :: s[k] == ByteAt(mem, (a + k) % WORD)
  {
    seq(n, k requires 0 <= k < n => ByteAt(mem, (a + k) % WORD))
  }

  // Up to the end of its page, an address and the bytes behind it are mapped alike.
  lemma RunInPage(mem: Memory, pd: nat, v: nat, k: nat)
    requires v < WORD && k < RestOfPage(mem, pd, v) && Walk(mem, pd, v) != Fault
    ensures v + k < WORD && Translate(mem, true, pd, v + k) == Translate(mem, true, pd, v) + k
    ensures Walk(mem, pd, v).paddr + k < WORD
  {
    hide IsBitTrue;
    var pde := DirEntry(mem, pd, Dir(v));
    if Large(pde) {
      SameLargePage(v, k);
      Below(pde, LARGE_PAGE, v % LARGE_PAGE + k);
    } else {
      SameSmallPage(v, k);
      Below(Load(mem, Entry(Frame(pde), Tab(v))), PAGE, Offset(v) + k);
    }
  }

  lemma SameLargePage(v: nat, k: nat)
    requires v < WORD && v % LARGE_PAGE + k < LARGE_PAGE
    ensures v + k < WORD && Dir(v + k) == Dir(v) && (v + k) % LARGE_PAGE == v % LARGE_PAGE + k
  {
    var q := v / LARGE_PAGE;
    assert q * LARGE_PAGE + (v % LARGE_PAGE + k) == v + k;
  }

  lemma SameSmallPage(v: nat, k: nat)
    requires v < WORD && Offset(v) + k < PAGE
    ensures v + k < WORD && Dir(v + k) == Dir(v) && Tab(v + k) == Tab(v) && Offset(v + k) == Offset(v) + k
  {
    var q := v / PAGE;
    assert q * PAGE + (Offset(v) + k) == v + k;
    assert PageNumber(v + k) == q;
    IndexParts(v);
    IndexParts(v + k);
  }

  lemma Below(e: Word, size: nat, offset: nat)
    requires (size == PAGE || size == LARGE_PAGE) && offset < size
    ensures e / size * size + offset < WORD
  {
  }

  // What phys_addr_lookup promises for the bytes up to the end of the page.
  lemma Turn(mem: Memory, paging: bool, pd: nat, v: nat, paddr: nat, len: nat, k: nat)
    requires v < WORD && k < len && k < WORD
    requires !paging ==> paddr == v
    requires paging ==> Walk(mem, pd, v) != Fault && paddr == Walk(mem, pd, v).paddr && len == RestOfPage(mem, pd, v)
    ensures Kth(mem, paging, pd, v, k) == (paddr + k) % WORD
  {
    hide Walk, RestOfPage;
    if paging {
      RunInPage(mem, pd, v, k);
      assert (v + k) % WORD == v + k && (paddr + k) % WORD == paddr + k;
    }
  }

  // All these addresses can be read, and s holds what is there.
  ghost predicate Copied(mem: Memory, paging: bool, pd: nat, v: nat, s: seq<int>) {
    forall k | 0 <= k < |s| :: CopiedAt(mem, paging, pd, v, k, s[k])
  }

  ghost predicate CopiedAt(mem: Memory, paging: bool, pd: nat, v: nat, k: nat, b: int) {
    Kth(mem, paging, pd, v, k) >= 0 && b == ByteAt(mem, Kth(mem, paging, pd, v, k))
  }

  lemma CopiedMore(mem: Memory, paging: bool, pd: nat, v: nat, s: seq<int>, w: nat, paddr: nat, n: nat)
    requires Copied(mem, paging, pd, v, s) && w == (v + |s|) % WORD
    requires forall k | 0 <= k < n :: Kth(mem, paging, pd, w, k) == (paddr + k) % WORD
    ensures Copied(mem, paging, pd, v, s + Bytes(mem, paddr, n))
  {
    hide Translate, ByteAt;
    var r := s + Bytes(mem, paddr, n);
    forall k | 0 <= k < |r|
      ensures CopiedAt(mem, paging, pd, v, k, r[k])
    {
      if k >= |s| {
        LaterAddress(mem, paging, pd, v, |s|, w, k - |s|);
      }
    }
  }

  lemma LaterAddress(mem: Memory, paging: bool, pd: nat, v: nat, n: nat, w: nat, j: nat)
    requires w == (v + n) % WORD
    ensures Kth(mem, paging, pd, w, j) == Kth(mem, paging, pd, v, n + j)
  {
    hide Translate;
    assert (w + j) % WORD == (v + n + j) % WORD;
  }

  // gdb_copyin: 0 and all bytes, or -1 if one of the addresses is not mapped.
  method GdbCopyin(mem: Memory, paging: bool, cr3: Word, srcVa: Word, size: Word) returns (r: int, dest: seq<int>)
    ensures r == 0 ==> |dest| == size && Copied(mem, paging, Frame(cr3), srcVa, dest)
    ensures r != 0 ==> r == -1 && exists k :: 0 <= k < size && Kth(mem, paging, Frame(cr3), srcVa, k) == UNMAPPED
  {
    hide Translate, Walk, RestOfPage, ByteAt, Copied;
    ghost var pd := Frame(cr3);
    dest := [];
    NothingCopied(mem, paging, pd, srcVa);
    var v: Word := srcVa;
    var left := size;
    while left > 0
      invariant 0 <= left <= size && |dest| == size - left && v == (srcVa + |dest|) % WORD
      invariant Copied(mem, paging, pd, srcVa, dest)
    {
      var pa, sz := PhysAddrLookup(mem, paging, cr3, v);
      if sz == 0 {
        FaultUnmapped(mem, paging, pd, v);
        assert Kth(mem, paging, pd, srcVa, |dest|) == UNMAPPED;
        return -1, dest;
      }
      var n := if sz > left then left else sz;
      forall k | 0 <= k < n
        ensures Kth(mem, paging, pd, v, k) == (pa + k) % WORD
      {
        Turn(mem, paging, pd, v, pa, sz, k);
      }
      CopiedMore(mem, paging, pd, srcVa, dest, v, pa, n);
      dest := dest + Bytes(mem, pa, n);
      left := left - n;
      v := (v + n) % WORD;
    }
    r := 0;
  }

  lemma NothingCopied(mem: Memory, paging: bool, pd: nat, v: nat)
    ensures Copied(mem, paging, pd, v, [])
  {
  }

  lemma FaultUnmapped(mem: Memory, paging: bool, pd: nat, v: nat)
    requires paging && Walk(mem, pd, v) == Fault
    ensures Translate(mem, paging, pd, v) == UNMAPPED
  {
  }
}
