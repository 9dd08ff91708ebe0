/**
 The open-addressing hash table (kernel/hash.c): perturbed probing, tombstones, growing and
 shrinking. Its methods refine operations on the finite map Contents().
 */
module HashTable {
  import opened Powers
  import opened ProbeSequence
  import opened SlotTable

  const HASH_MINSIZE := 8

  // A table of 2^28 slots needs 2^32 bytes, a request of length 0 that is always refused.
  const MAX_BITS := 27

  datatype Op<K, V> = Set(key: K, value: V) | Del(key: K)

  class HashMap<K(==, !new), V> {
    var fill: nat                     // slots that are not EMPTY
    var count: nat                    // ACTIVE slots
    var mask: nat                     // number of slots - 1
    var table: array<Slot<K, V>>
    const f: Keys<K>
    ghost var bits: nat               // the number of slots is 2^bits

    ghost predicate Valid()
      reads this, table
    {
      && Sound(f)
      && 3 <= bits <= MAX_BITS && table.Length == Pow2(bits) && mask == table.Length - 1
      && WellFormed(f, table[..])
      && fill == CountIf(table[..], false) && count == CountIf(table[..], true)
    }

    // The finite map the table stands for, keyed by canonical keys.
    ghost function Map(): map<K, V>
      reads this, table
    {
      Contents(f, table[..])
    }

    // The load rule that hash_update restores.
    predicate Roomy()
      reads this, table
    {
      3 * fill < 2 * table.Length
    }

    // The search for the key ends.
    ghost predicate Findable(key: K)
      reads this, table
    {
      exists p: nat :: p < table.Length && Stops(f, table[p], key)
    }

    lemma RoomyFindable(key: K)
      requires Valid() && fill < table.Length
      ensures Findable(key)
    {
      var p := SomeEmpty(table[..]);
      assert Stops(f, table[p], key);
    }

    // hash_initialize: a table of `size` EMPTY slots, or -1 and nothing changed.
    method Initialize(size: nat, memory: bool, ghost newBits: nat) returns (r: int)
      requires 3 <= newBits <= MAX_BITS + 1 && size == Pow2(newBits) && Sound(f)
      modifies this
      ensures r == 0 || r == -1
      ensures r == 0 <==> memory && newBits <= MAX_BITS
      ensures r == -1 ==> fill == old(fill) && count == old(count) && mask == old(mask)
                          && table == old(table) && bits == old(bits)
      ensures r == 0 ==> fresh(table) && table.Length == size && Valid() && Map() == map[] && fill == 0 && count == 0
    {
      SizeInBytes(newBits);
      if !memory || size * 16 >= WORD {
        return -1;
      }
      var t := new Slot<K, V>[size];
      fill, count, mask, table := 0, 0, size - 1, t;
      bits := newBits;
      for i := 0 to size
        invariant forall p | 0 <= p < i :: t[p].Empty?
        modifies t
      {
        t[i] := Empty;
      }
      CountAllEmpty(t[..], true);
      CountAllEmpty(t[..], false);
      HoldsDetermines(f, t[..], map[]);
      return 0;
    }

    static lemma SizeInBytes(k: nat)
      requires k <= MAX_BITS + 1
      ensures Pow2(k) * 16 >= WORD <==> k > MAX_BITS
    {
      Pow2At32();
      assert Pow2(32) == 16 * Pow2(28);
      assert Pow2(28) == 2 * Pow2(27);
      Pow2Monotone(k, 27);
    }

    // A table that hash_init has initialised.
    constructor (f: Keys<K>)
      requires Sound(f)
      ensures Valid() && Roomy() && Map() == map[] && fresh(table) && this.f == f
      ensures count == 0 && fill == 0 && table.Length == HASH_MINSIZE
    {
      this.f := f;
      table := new Slot<K, V>[0];
      fill, count, mask, bits := 0, 0, 0, 0;
      new;
      assert Pow2(3) == HASH_MINSIZE;
      var r := Initialize(HASH_MINSIZE, true, 3);
    }

    // hash_init
    static method Init(f: Keys<K>, memory: bool) returns (r: int, m: HashMap?<K, V>)
      requires Sound(f)
      ensures r == if memory then 0 else -1
      ensures m == null <==> r == -1
      ensures m != null ==> fresh(m) && m.Valid() && m.Roomy() && m.Map() == map[] && m.f == f
      ensures m != null ==> m.count == 0 && m.fill == 0 && m.table.Length == HASH_MINSIZE && fresh(m.table)
    {
      if !memory {
        return -1, null;
      }
      m := new HashMap(f);
      r := 0;
    }

    // One test of hash_lookup: whether this slot holds the key.
    method Matches(slot: nat, key: K, hash: nat) returns (b: bool)
      requires Valid() && hash == f.hfunc(key) && slot < table.Length
      ensures b <==> table[slot].Active? && f.canon(table[slot].key) == f.canon(key)
    {
      assert table[..][slot] == table[slot];
      b := table[slot].Active?
        && (table[slot].key == key || (table[slot].hash == hash && f.cmp(table[slot].key, key)));
    }

    // hash_lookup: the slot with the key, or else the slot where it belongs: the first
    // tombstone on its path, or the EMPTY slot that ends the path.
    method Lookup(key: K, hash: nat) returns (r: nat)
      requires Valid() && hash == f.hfunc(key) && Findable(key)
      ensures r < table.Length
      ensures table[r].Active? ==> f.canon(table[r].key) == f.canon(key)
      ensures !table[r].Active? ==> OnPath(table[..], hash, r)
      ensures !table[r].Active? ==>
        forall q: nat | q < table.Length && table[q].Active? :: f.canon(table[q].key) != f.canon(key)
    {
      ghost var last := SearchBound(key);
      hide Valid, OnPath, Index, Perturb, Probe;
      ghost var t := table[..];
      var index, perturb := hash % (mask + 1), hash;
      var slot := index;
      var freeslot: int := -1;
      ghost var i: nat := 0;
      ProbeStart(hash, |t|);
      while true
        invariant i <= last
        invariant index == Index(hash, |t|, i) && perturb == Perturb(hash, i) && slot == Probe(hash, |t|, i)
        invariant forall j: nat | j < i :: !Stops(f, t[Probe(hash, |t|, j)], key)
        invariant -1 <= freeslot < table.Length
        invariant freeslot >= 0 ==> t[freeslot].Deleted? && OnPath(t, hash, freeslot)
        decreases last - i
      {
        Unstopped(t, key, i);
        if table[slot].Empty? {
          NoEntryBefore(key, i);
          return if freeslot == -1 then slot else freeslot;
        }
        var found := Matches(slot, key, hash);
        if found {
          return slot;
        }
        if table[slot].Deleted? && freeslot == -1 {
          freeslot := slot;
        }
        ProbeStep(hash, |t|, i);
        index := (5 * index + perturb + 1) % WORD;
        slot := index % (mask + 1);
        perturb := perturb / 32;
        i := i + 1;
      }
    }

    lemma SearchBound(key: K) returns (last: nat)
      requires Valid() && Findable(key)
      ensures mask + 1 == table.Length
      ensures Stops(f, table[..][Probe(f.hfunc(key), table.Length, last)], key)
    {
      var p: nat :| p < table.Length && Stops(f, table[p], key);
      last := EverySlotProbed(f.hfunc(key), bits, p);
    }

    // While nothing stops the search, every probe lies on the key's path.
    lemma Unstopped(t: seq<Slot<K, V>>, key: K, i: nat)
      requires |t| > 0
      requires forall j: nat | j < i :: !Stops(f, t[Probe(f.hfunc(key), |t|, j)], key)
      ensures OnPath(t, f.hfunc(key), Probe(f.hfunc(key), |t|, i))
    {
      assert Path(t, f.hfunc(key), i);
    }

    // When the path of a key ends in an EMPTY slot without an entry for it, there is none.
    lemma NoEntryBefore(key: K, i: nat)
      requires Valid()
      requires table[..][Probe(f.hfunc(key), table.Length, i)].Empty?
      requires forall j: nat | j < i :: !Stops(f, table[..][Probe(f.hfunc(key), table.Length, j)], key)
      ensures forall q: nat | q < table.Length && table[q].Active? :: f.canon(table[q].key) != f.canon(key)
    {
      forall q: nat | q < table.Length && table[q].Active?
        ensures f.canon(table[q].key) != f.canon(key)
      {
        if f.canon(table[q].key) == f.canon(key) {
          EntryBeforeEmpty(f, table[..], q, key, i);
        }
      }
    }

    lemma ActiveInMap(r: nat)
      requires Valid() && r < table.Length && table[r].Active?
      ensures f.canon(table[r].key) in Map() && Map()[f.canon(table[r].key)] == table[r].value
    {
      ContentsHold(f, table[..]);
      assert table[..][r] == table[r];
    }

    lemma AbsentFromMap(key: K)
      requires Valid()
      requires forall q: nat | q < table.Length && table[q].Active? :: f.canon(table[q].key) != f.canon(key)
      ensures f.canon(key) !in Map()
    {
      ContentsHold(f, table[..]);
    }

    // hash_get
    method Get(key: K, default_value: V) returns (v: V)
      requires Valid() && Findable(key)
      ensures v == if f.canon(key) in Map() then Map()[f.canon(key)] else default_value
    {
      var r := Lookup(key, f.hfunc(key));
      if table[r].Active? {
        ActiveInMap(r);
        return table[r].value;
      }
      AbsentFromMap(key);
      return default_value;
    }

    // hash_isset
    method IsSet(key: K) returns (b: bool)
      requires Valid() && Findable(key)
      ensures b <==> f.canon(key) in Map()
    {
      var r := Lookup(key, f.hfunc(key));
      b := table[r].Active?;
      if b {
        ActiveInMap(r);
      } else {
        AbsentFromMap(key);
      }
    }

    // Writes a new entry into a slot found by Lookup; the shared tail of hash_set and hash_copy.
    method Occupy(r: nat, key: K, value: V)
      requires Valid() && r < table.Length && !table[r].Active?
      requires OnPath(table[..], f.hfunc(key), r)
      requires forall q: nat | q < table.Length && table[q].Active? :: f.canon(table[q].key) != f.canon(key)
      modifies this`fill, this`count, table
      ensures Valid() && Map() == old(Map())[f.canon(key) := value]
      ensures count == old(count) + 1
      ensures fill == old(fill) + (if old(table[r].Empty?) then 1 else 0)
    {
      ghost var t := table[..];
      var s := Active(key, value, f.hfunc(key));
      StoreNew(f, t, r, key, value);
      CountUpdate(t, r, s, true);
      CountUpdate(t, r, s, false);
      count := count + 1;
      if table[r].Empty? {
        fill := fill + 1;
      }
      table[r] := s;
      assert table[..] == t[r := s];
    }

    // hash_copy: every entry of the old table is found again in the new, empty one.
    method Copy(oldTable: array<Slot<K, V>>)
      requires Valid() && Map() == map[] && fill == 0 && count == 0 && oldTable != table
      requires WellFormed(f, oldTable[..]) && CountIf(oldTable[..], true) < table.Length
      modifies this`fill, this`count, table
      ensures Valid() && Map() == Contents(f, oldTable[..])
      ensures count == fill == CountIf(oldTable[..], true)
    {
      ghost var o := oldTable[..];
      assert o[..0] == [];
      for i := 0 to oldTable.Length
        invariant Valid() && oldTable[..] == o
        invariant Map() == Contents(f, o[..i]) && fill == count == CountIf(o[..i], true)
        invariant CountIf(o[..i], true) <= CountIf(o, true)
      {
        assert o[..i + 1][..i] == o[..i];
        PrefixCount(o, i + 1);
        if oldTable[i].Active? {
          var s := oldTable[i];
          RoomyFindable(s.key);
          var r := Lookup(s.key, f.hfunc(s.key));
          if table[r].Active? {
            ActiveInMap(r);
            NotYetCopied(o, i);
          }
          CountsAgree(r);
          Occupy(r, s.key, s.value);
        }
      }
      assert o[..oldTable.Length] == o;
    }

    static lemma {:induction false} PrefixCount(o: seq<Slot<K, V>>, i: nat)
      requires i <= |o|
      ensures CountIf(o[..i], true) <= CountIf(o, true)
      decreases |o|
    {
      if i == |o| {
        assert o[..i] == o;
      } else {
        assert o[..|o| - 1][..i] == o[..i];
        PrefixCount(o[..|o| - 1], i);
      }
    }

    // The i-th entry's key is not among the entries before it.
    lemma NotYetCopied(o: seq<Slot<K, V>>, i: nat)
      requires Unique(f, o) && i < |o| && o[i].Active?
      ensures f.canon(o[i].key) !in Contents(f, o[..i])
    {
      assert Unique(f, o[..i]);
      ContentsHold(f, o[..i]);
    }

    // Without tombstones a slot that is not ACTIVE is EMPTY.
    lemma CountsAgree(r: nat)
      requires Valid() && fill == count && r < table.Length
      ensures !table[r].Deleted?
    {
      NoTombstones(table[..], r);
    }

    static lemma {:induction false} NoTombstones(t: seq<Slot<K, V>>, r: nat)
      requires CountIf(t, true) == CountIf(t, false) && r < |t|
      ensures !t[r].Deleted?
    {
      var n := |t| - 1;
      ActiveAtMostUsed(t[..n]);
      if r < n {
        NoTombstones(t[..n], r);
      }
    }

    // The load rule is broken in a table of the largest size.
    predicate Full()
      reads this, table
    {
      table.Length == Pow2(MAX_BITS) && !Roomy()
    }

    // hash_update: restores the load rule, or fails and changes nothing. It fails exactly if
    // another size is wanted and there is no memory, or no such size.
    method Update(memory: bool) returns (r: int)
      requires Valid()
      modifies this
      ensures Valid() && Map() == old(Map()) && count == old(count)
      ensures table == old(table) || fresh(table)
      ensures r == 0 || r == -1
      ensures r == 0 ==> Roomy()
      ensures r == -1 ==> table == old(table) && fill == old(fill)
      ensures r == -1 <==> old(Resized() != mask + 1 && (!memory || Full()))
      ensures fill <= old(fill) && (!memory ==> table == old(table) && fill == old(fill))
      ensures var n := old(table.Length);
        r == 0 ==> table.Length == if old(3 * fill >= 2 * table.Length) then 2 * n
          else if n > HASH_MINSIZE && 4 * count <= n then n / 2 else n
      ensures old(Roomy()) && !(old(table.Length) > HASH_MINSIZE && 4 * old(count) <= old(table.Length)) ==>
        r == 0 && table == old(table)
    {
      var oldSize, newSize := mask + 1, Resized();
      if newSize == oldSize {
        return 0;
      }
      var oldTable := table;
      ghost var newBits := ResizedBits();
      hide Contents, CountIf, WellFormed;
      ghost var o := table[..];
      var ok := Initialize(newSize, memory, newBits);
      if ok == -1 {
        return -1;
      }
      assert oldTable[..] == o;
      Copy(oldTable);
      return 0;
    }

    // The size hash_update asks for: doubled at two thirds full, halved at a quarter in use.
    function Resized(): (newSize: nat)
      reads this
    {
      var oldSize := mask + 1;
      if 3 * fill >= 2 * oldSize then oldSize * 2
      else if oldSize > HASH_MINSIZE && 4 * count <= oldSize then oldSize / 2
      else oldSize
    }

    lemma ResizedBits() returns (newBits: nat)
      requires Valid() && Resized() != mask + 1
      ensures 3 <= newBits <= MAX_BITS + 1 && Resized() == Pow2(newBits)
      ensures newBits <= MAX_BITS <==> !Full()
      ensures CountIf(table[..], true) == count <= fill <= table.Length
      ensures count < Resized() && 3 * count < 2 * Resized()
    {
      hide Valid, Pow2, CountIf;
      Counts();
      BitsBelow(bits);
      newBits := if 3 * fill >= 2 * table.Length then bits + 1 else bits - 1;
    }

    lemma Counts()
      requires Valid()
      ensures 3 <= bits <= MAX_BITS && mask + 1 == table.Length == Pow2(bits)
      ensures CountIf(table[..], true) == count <= fill <= table.Length
    {
      ActiveAtMostUsed(table[..]);
    }

    static lemma BitsBelow(k: nat)
      requires 3 <= k <= MAX_BITS
      ensures Pow2(k) == Pow2(MAX_BITS) <==> k == MAX_BITS
      ensures Pow2(k) > HASH_MINSIZE ==> k > 3
      ensures Pow2(k) / 2 == Pow2(k - 1) && Pow2(k + 1) == 2 * Pow2(k)
    {
      assert Pow2(3) == HASH_MINSIZE;
      if k < MAX_BITS {
        Pow2Monotone(k + 1, MAX_BITS);
      }
    }

    // hash_set
    method Set(key: K, value: V, memory: bool) returns (r: int)
      requires Valid() && Findable(key)
      modifies this, table
      ensures Valid() && Map() == old(Map())[f.canon(key) := value]
      ensures table == old(table) || fresh(table)
      ensures r == 0 || r == -1
      ensures r == 0 && old(f.canon(key) !in Map() || Roomy()) ==> Roomy()
      ensures r == -1 ==> Resized() != mask + 1 && (!memory || Full())
      ensures count == old(count) + (if old(f.canon(key) in Map()) then 0 else 1)
      ensures old(f.canon(key) in Map()) ==> r == 0 && table == old(table) && fill == old(fill)
      ensures fill <= old(fill) + 1 && (!memory ==> table == old(table))
    {
      var hash := f.hfunc(key);
      var slot := Lookup(key, hash);
      ghost var t := table[..];
      if table[slot].Active? {
        ActiveInMap(slot);
        StoreValue(f, t, slot, value);
        CountUpdate(t, slot, t[slot].(value := value), true);
        CountUpdate(t, slot, t[slot].(value := value), false);
        table[slot] := table[slot].(value := value);
        assert table[..] == t[slot := t[slot].(value := value)];
        return 0;
      }
      AbsentFromMap(key);
      Occupy(slot, key, value);
      r := Update(memory);
    }

    // hash_del
    method Delete(key: K, memory: bool) returns (r: int)
      requires Valid() && Findable(key)
      modifies this, table
      ensures Valid() && Map() == old(Map()) - {f.canon(key)}
      ensures table == old(table) || fresh(table)
      ensures r == 0 || r == -1
      ensures r == 0 && old(f.canon(key) in Map() || Roomy()) ==> Roomy()
      ensures r == -1 && old(Roomy()) ==> Roomy()
      ensures r == -1 ==> Resized() != mask + 1 && (!memory || Full())
      ensures count == old(count) - (if old(f.canon(key) in Map()) then 1 else 0)
      ensures var n := old(table.Length);
        r == 0 && old(f.canon(key) in Map() && Roomy()) ==>
          table.Length == if n > HASH_MINSIZE && 4 * count <= n then n / 2 else n
      ensures fill <= old(fill) && (!memory ==> table == old(table) && fill == old(fill))
    {
      var slot := Lookup(key, f.hfunc(key));
      if !table[slot].Active? {
        AbsentFromMap(key);
        assert Map() - {f.canon(key)} == Map();
        return 0;
      }
      ActiveInMap(slot);
      ghost var t := table[..];
      Bury(f, t, slot);
      CountUpdate(t, slot, Deleted, true);
      CountUpdate(t, slot, Deleted, false);
      table[slot] := Deleted;
      count := count - 1;
      assert table[..] == t[slot := Deleted];
      r := Update(memory);
    }

    // ---------- whole runs ----------

    // The map after a run of operations.
    static ghost function Applied(f: Keys<K>, m: map<K, V>, ops: seq<Op<K, V>>): map<K, V> {
      if ops == [] then m
      else
        var m' := Applied(f, m, ops[..|ops| - 1]);
        match ops[|ops| - 1]
        case Set(k, v) => m'[f.canon(k) := v]
        case Del(k) => m' - {f.canon(k)}
    }

    // Any run, up to the first operation that reports a failure, refines the run on the finite
    // map and keeps the load rule, so that the next search ends again. A run only fails for
    // want of memory, or when a table of the largest size is two thirds full.
    method Run(ops: seq<Op<K, V>>, memory: seq<bool>) returns (done: nat, r: int)
      requires Valid() && Roomy() && |memory| == |ops|
      modifies this, table
      ensures Valid() && done <= |ops| && (r == 0 ==> done == |ops| && Roomy())
      ensures Map() == Applied(f, old(Map()), ops[..done])
      ensures r != 0 ==> r == -1 && done > 0 && Resized() != mask + 1 && (!memory[done - 1] || Full())
      ensures (forall i | 0 <= i < |memory| :: memory[i]) && 3 * (old(fill) + |ops|) < 2 * Pow2(MAX_BITS) ==> r == 0
    {
      hide Map, Valid, Applied, Findable;
      done, r := 0, 0;
      NothingDone(old(Map()), ops);
      while done < |ops|
        invariant Valid() && Roomy() && done <= |ops| && r == 0
        invariant Map() == Applied(f, old(Map()), ops[..done])
        invariant table == old(table) || fresh(table)
        invariant fill <= old(fill) + done
      {
        OneMore(old(Map()), ops, done);
        RoomyFindable(ops[done].key);
        match ops[done] {
          case Set(key, value) => r := Set(key, value, memory[done]);
          case Del(key) => r := Delete(key, memory[done]);
        }
        done := done + 1;
        if r != 0 {
          return;
        }
      }
    }

    lemma NothingDone(m: map<K, V>, ops: seq<Op<K, V>>)
      ensures Applied(f, m, ops[..0]) == m
    {
    }

    lemma OneMore(m: map<K, V>, ops: seq<Op<K, V>>, n: nat)
      requires n < |ops|
      ensures var m' := Applied(f, m, ops[..n]);
        Applied(f, m, ops[..n + 1]) ==
        if ops[n].Set? then m'[f.canon(ops[n].key) := ops[n].value] else m' - {f.canon(ops[n].key)}
    {
      assert ops[..n + 1][..n] == ops[..n];
    }

    // A search ends if and only if some slot is EMPTY or the key is in the table.
    lemma FindableIff(key: K)
      requires Valid()
      ensures Findable(key) <==> fill < table.Length || f.canon(key) in Map()
    {
      ContentsHold(f, table[..]);
      if fill < table.Length {
        RoomyFindable(key);
      } else {
        NoneEmpty(table[..]);
      }
      if p: nat :| p < table.Length && Stops(f, table[p], key) {
        assert table[..][p] == table[p];
      }
      if f.canon(key) in Map() {
        var p: nat :| p < table.Length && table[..][p].Active? && f.canon(table[..][p].key) == f.canon(key);
        assert Stops(f, table[p], key);
      }
    }

    static lemma {:induction false} NoneEmpty(t: seq<Slot<K, V>>)
      requires CountIf(t, false) >= |t|
      ensures forall p: nat | p < |t| :: !t[p].Empty?
    {
      if t != [] {
        NoneEmpty(t[..|t| - 1]);
        assert forall p: nat | p < |t| - 1 :: t[p] == t[..|t| - 1][p];
      }
    }

    // hash_set inserts before it resizes: without memory, as many keys as there are slots fill
    // the table, and then the search for any other key does not end.
    method FillUp(keys: seq<K>, value: V)
      requires Valid() && count == 0 && fill == 0 && |keys| == table.Length
      requires forall i, j | 0 <= i < j < |keys| :: f.canon(keys[i]) != f.canon(keys[j])
      modifies this, table
      ensures Valid() && table == old(table) && count == fill == table.Length == |keys|
      ensures forall key :: Findable(key) <==> exists i | 0 <= i < |keys| :: f.canon(key) == f.canon(keys[i])
    {
      NothingIn();
      for i := 0 to |keys|
        invariant Valid() && table == old(table) && count == i && fill <= i
        invariant forall c :: c in Map() <==> exists j | 0 <= j < i :: c == f.canon(keys[j])
      {
        RoomyFindable(keys[i]);
        var r := Set(keys[i], value, false);
      }
      ActiveAtMostUsed(table[..]);
      forall key
        ensures Findable(key) <==> f.canon(key) in Map()
      {
        FindableIff(key);
      }
    }

    // A run from the start: eight keys are set and the first is deleted again, all without
    // memory. The tombstone keeps the table full, and the search for the deleted key does not
    // end any more.
    static method FillThenDelete(f: Keys<K>, keys: seq<K>, value: V) returns (m: HashMap<K, V>)
      requires Sound(f) && |keys| == HASH_MINSIZE
      requires forall i, j | 0 <= i < j < |keys| :: f.canon(keys[i]) != f.canon(keys[j])
      ensures m.Valid() && m.f == f && m.count == HASH_MINSIZE - 1 && !m.Findable(keys[0])
    {
      m := new HashMap(f);
      m.FillUp(keys, value);
      assert m.Findable(keys[0]);
      m.FindableIff(keys[0]);
      var r := m.Delete(keys[0], false);
      m.FindableIff(keys[0]);
    }

    lemma NothingIn()
      requires Valid() && count == 0
      ensures Map() == map[]
    {
      ContentsHold(f, table[..]);
      forall p: nat | p < table.Length
        ensures !table[p].Active?
      {
        NoneActive(table[..], p);
      }
      assert forall c :: c !in Map();
    }

    static lemma {:induction false} NoneActive(t: seq<Slot<K, V>>, p: nat)
      requires CountIf(t, true) == 0 && p < |t|
      ensures !t[p].Active?
    {
      if p < |t| - 1 {
        NoneActive(t[..|t| - 1], p);
      }
    }

    // What a lookup sees after a run is the last operation on an equal key.
    static lemma {:induction false} LastOpDecides(f: Keys<K>, m: map<K, V>, ops: seq<Op<K, V>>, i: nat)
      requires i < |ops|
      requires forall j | i < j < |ops| :: f.canon(ops[j].key) != f.canon(ops[i].key)
      ensures var c := f.canon(ops[i].key);
        if ops[i].Set? then c in Applied(f, m, ops) && Applied(f, m, ops)[c] == ops[i].value
        else c !in Applied(f, m, ops)
    {
      if i < |ops| - 1 {
        LastOpDecides(f, m, ops[..|ops| - 1], i);
      }
    }
  }
}
