/**
 The slot array of the hash table (kernel/hash.c) as a value: what makes it well formed,
 what finite map it stands for, and how writing one slot changes both.
 */
module SlotTable {
  import opened Powers
  import opened ProbeSequence

  // EMPTY: never used; ACTIVE: holds an entry; DELETED: a tombstone.
  datatype Slot<K, V> = Empty | Active(key: K, value: V, hash: nat) | Deleted

  // The two functions a table is created with. Keys that compare equal have one canonical
  // form: this is what it means for the comparison to be an equivalence.
  datatype Keys<!K(!new)> = Keys(hfunc: K -> nat, cmp: (K, K) -> bool, ghost canon: K -> K)

  ghost predicate Sound<K(!new)>(f: Keys<K>) {
    && (forall a, b :: f.cmp(a, b) <==> f.canon(a) == f.canon(b))
    && (forall a, b :: f.canon(a) == f.canon(b) ==> f.hfunc(a) == f.hfunc(b))
    && (forall a :: f.hfunc(a) < WORD)
  }

  // ---------- probing ----------

  // The first i probes for hash h meet no EMPTY slot.
  ghost predicate Path<K, V>(t: seq<Slot<K, V>>, h: nat, i: nat)
    requires |t| > 0
  {
    forall j: nat | j < i :: !t[Probe(h, |t|, j)].Empty?
  }

  ghost predicate OnPath<K, V>(t: seq<Slot<K, V>>, h: nat, p: nat)
    requires |t| > 0
  {
    exists i: nat :: Probe(h, |t|, i) == p && Path(t, h, i)
  }

  // The slot ends the search for a key: it is EMPTY, or ACTIVE with an equal key.
  ghost predicate Stops<K(!new), V>(f: Keys<K>, s: Slot<K, V>, key: K) {
    s.Empty? || (s.Active? && f.canon(s.key) == f.canon(key))
  }

  // ---------- well-formedness ----------

  // Each active slot stores its key's hash and lies on its key's probe path.
  ghost predicate Placed<K(!new), V>(f: Keys<K>, t: seq<Slot<K, V>>) {
    |t| > 0 &&
    forall p: nat | p < |t| && t[p].Active? :: t[p].hash == f.hfunc(t[p].key) && OnPath(t, t[p].hash, p)
  }

  ghost predicate Unique<K(!new), V>(f: Keys<K>, t: seq<Slot<K, V>>) {
    forall p: nat, q: nat | p < |t| && q < |t| && t[p].Active? && t[q].Active?
      && f.canon(t[p].key) == f.canon(t[q].key) :: p == q
  }

  ghost predicate WellFormed<K(!new), V>(f: Keys<K>, t: seq<Slot<K, V>>) {
    Placed(f, t) && Unique(f, t)
  }

  // ---------- the map it stands for ----------

  // The finite map, keyed by canonical keys.
  ghost function Contents<K(!new), V>(f: Keys<K>, t: seq<Slot<K, V>>): map<K, V> {
    if t == [] then map[]
    else
      var m := Contents(f, t[..|t| - 1]);
      var s := t[|t| - 1];
      if s.Active? then m[f.canon(s.key) := s.value] else m
  }

  ghost predicate Holds<K(!new), V>(f: Keys<K>, t: seq<Slot<K, V>>, m: map<K, V>) {
    && (forall p: nat | p < |t| && t[p].Active? ::
          f.canon(t[p].key) in m && m[f.canon(t[p].key)] == t[p].value)
    && (forall c | c in m :: exists p: nat :: p < |t| && t[p].Active? && f.canon(t[p].key) == c)
  }

  lemma {:induction false} ContentsHold<K(!new), V>(f: Keys<K>, t: seq<Slot<K, V>>)
    requires Unique(f, t)
    ensures Holds(f, t, Contents(f, t))
  {
    if t != [] {
      var n := |t| - 1;
      var t', m := t[..n], Contents(f, t);
      var m' := Contents(f, t');
      ContentsHold(f, t');
      forall p: nat | p < |t| && t[p].Active?
        ensures f.canon(t[p].key) in m && m[f.canon(t[p].key)] == t[p].value
      {
        if p < n {
          assert t'[p] == t[p];
        }
      }
      forall c | c in m
        ensures exists p: nat :: p < |t| && t[p].Active? && f.canon(t[p].key) == c
      {
        if c in m' {
          var p: nat :| p < |t'| && t'[p].Active? && f.canon(t'[p].key) == c;
          assert t[p] == t'[p];
        } else {
          assert t[n].Active? && f.canon(t[n].key) == c;
        }
      }
    }
  }

  // At most one map fits a table, so Holds determines Contents.
  lemma HoldsDetermines<K(!new), V>(f: Keys<K>, t: seq<Slot<K, V>>, m: map<K, V>)
    requires Unique(f, t) && Holds(f, t, m)
    ensures Contents(f, t) == m
  {
    var c := Contents(f, t);
    ContentsHold(f, t);
    assert forall x :: x in c <==> x in m;
    assert forall x | x in c :: c[x] == m[x];
  }

  // ---------- counting ----------

  function CountIf<K, V>(t: seq<Slot<K, V>>, active: bool): (n: nat)
    ensures n <= |t|
  {
    if t == [] then 0
    else CountIf(t[..|t| - 1], active) + (if Counted(t[|t| - 1], active) then 1 else 0)
  }

  // Count ACTIVE slots, or all slots that are not EMPTY.
  predicate Counted<K, V>(s: Slot<K, V>, active: bool) {
    if active then s.Active? else !s.Empty?
  }

  lemma {:induction false} CountUpdate<K, V>(t: seq<Slot<K, V>>, p: nat, s: Slot<K, V>, active: bool)
    requires p < |t|
    ensures CountIf(t[p := s], active)
         == CountIf(t, active) - (if Counted(t[p], active) then 1 else 0) + (if Counted(s, active) then 1 else 0)
  {
    var n := |t| - 1;
    if p == n {
      assert t[p := s][..n] == t[..n];
    } else {
      assert t[p := s][..n] == t[..n][p := s];
      CountUpdate(t[..n], p, s, active);
    }
  }

  lemma {:induction false} SomeEmpty<K, V>(t: seq<Slot<K, V>>) returns (p: nat)
    requires CountIf(t, false) < |t|
    ensures p < |t| && t[p].Empty?
  {
    var n := |t| - 1;
    if t[n].Empty? {
      p := n;
    } else {
      p := SomeEmpty(t[..n]);
    }
  }

  lemma {:induction false} ActiveAtMostUsed<K, V>(t: seq<Slot<K, V>>)
    ensures CountIf(t, true) <= CountIf(t, false)
  {
    if t != [] {
      ActiveAtMostUsed(t[..|t| - 1]);
    }
  }

  lemma {:induction false} CountAllEmpty<K, V>(t: seq<Slot<K, V>>, active: bool)
    requires forall p: nat | p < |t| :: t[p].Empty?
    ensures CountIf(t, active) == 0
  {
    if t != [] {
      assert t[..|t| - 1] == t[..|t| - 1];
      CountAllEmpty(t[..|t| - 1], active);
    }
  }

  // ---------- writing one slot ----------

  // Overwriting a slot by a used one lengthens no EMPTY gap: paths stay paths.
  lemma PathKept<K, V>(t: seq<Slot<K, V>>, p: nat, s: Slot<K, V>, h: nat, q: nat)
    requires p < |t| && q < |t| && !s.Empty? && OnPath(t, h, q)
    ensures OnPath(t[p := s], h, q)
  {
    var i: nat :| Probe(h, |t|, i) == q && Path(t, h, i);
    var t' := t[p := s];
    assert forall j: nat | j < i :: !t'[Probe(h, |t'|, j)].Empty?;
    assert Probe(h, |t'|, i) == q && Path(t', h, i);
  }

  // Storing an entry in a slot that is not in use but lies on the key's path.
  lemma StoreNew<K(!new), V>(f: Keys<K>, t: seq<Slot<K, V>>, p: nat, key: K, value: V)
    requires Sound(f) && WellFormed(f, t) && p < |t|
    requires !t[p].Active? && OnPath(t, f.hfunc(key), p)
    requires forall q: nat | q < |t| && t[q].Active? :: f.canon(t[q].key) != f.canon(key)
    ensures var t' := t[p := Active(key, value, f.hfunc(key))];
      WellFormed(f, t') && Contents(f, t') == Contents(f, t)[f.canon(key) := value]
  {
    var t' := t[p := Active(key, value, f.hfunc(key))];
    forall q: nat | q < |t'| && t'[q].Active?
      ensures t'[q].hash == f.hfunc(t'[q].key) && OnPath(t', t'[q].hash, q)
    {
      PathKept(t, p, t'[p], t'[q].hash, q);
    }
    ContentsHold(f, t);
    var m := Contents(f, t);
    StoredHolds(f, t, p, key, value, m);
    HoldsDetermines(f, t', m[f.canon(key) := value]);
  }

  lemma StoredHolds<K(!new), V>(f: Keys<K>, t: seq<Slot<K, V>>, p: nat, key: K, value: V, m: map<K, V>)
    requires p < |t| && Holds(f, t, m)
    requires t[p].Active? ==> f.canon(t[p].key) == f.canon(key)
    requires forall q: nat | q < |t| && t[q].Active? && f.canon(t[q].key) == f.canon(key) :: q == p
    ensures Holds(f, t[p := Active(key, value, f.hfunc(key))], m[f.canon(key) := value])
  {
    var t' := t[p := Active(key, value, f.hfunc(key))];
    var m' := m[f.canon(key) := value];
    forall c | c in m'
      ensures exists q: nat :: q < |t'| && t'[q].Active? && f.canon(t'[q].key) == c
    {
      if c == f.canon(key) {
        assert t'[p].Active?;
      } else {
        var q: nat :| q < |t| && t[q].Active? && f.canon(t[q].key) == c;
        assert t'[q] == t[q];
      }
    }
  }

  // Replacing the value of an entry; the stored key stays.
  lemma StoreValue<K(!new), V>(f: Keys<K>, t: seq<Slot<K, V>>, p: nat, value: V)
    requires Sound(f) && WellFormed(f, t) && p < |t| && t[p].Active?
    ensures var t' := t[p := t[p].(value := value)];
      WellFormed(f, t') && Contents(f, t') == Contents(f, t)[f.canon(t[p].key) := value]
  {
    var key := t[p].key;
    var t' := t[p := Active(key, value, f.hfunc(key))];
    forall q: nat | q < |t'| && t'[q].Active?
      ensures t'[q].hash == f.hfunc(t'[q].key) && OnPath(t', t'[q].hash, q)
    {
      PathKept(t, p, t'[p], t'[q].hash, q);
    }
    ContentsHold(f, t);
    StoredHolds(f, t, p, key, value, Contents(f, t));
    HoldsDetermines(f, t', Contents(f, t)[f.canon(key) := value]);
  }

  // Leaving a tombstone removes exactly one entry and no other entry gets lost.
  lemma Bury<K(!new), V>(f: Keys<K>, t: seq<Slot<K, V>>, p: nat)
    requires Sound(f) && WellFormed(f, t) && p < |t| && t[p].Active?
    ensures var t' := t[p := Deleted];
      WellFormed(f, t') && Contents(f, t') == Contents(f, t) - {f.canon(t[p].key)}
  {
    var t' := t[p := Deleted];
    forall q: nat | q < |t'| && t'[q].Active?
      ensures t'[q].hash == f.hfunc(t'[q].key) && OnPath(t', t'[q].hash, q)
    {
      PathKept(t, p, t'[p], t'[q].hash, q);
    }
    ContentsHold(f, t);
    var m := Contents(f, t);
    BuriedHolds(f, t, p, m);
    HoldsDetermines(f, t', m - {f.canon(t[p].key)});
  }

  lemma BuriedHolds<K(!new), V>(f: Keys<K>, t: seq<Slot<K, V>>, p: nat, m: map<K, V>)
    requires Unique(f, t) && Holds(f, t, m) && p < |t| && t[p].Active?
    ensures Holds(f, t[p := Deleted], m - {f.canon(t[p].key)})
  {
    var t', m' := t[p := Deleted], m - {f.canon(t[p].key)};
    forall c | c in m'
      ensures exists q: nat :: q < |t'| && t'[q].Active? && f.canon(t'[q].key) == c
    {
      var q: nat :| q < |t| && t[q].Active? && f.canon(t[q].key) == c;
      assert t'[q] == t[q];
    }
  }

  // ---------- when a search ends ----------

  // Probing ends exactly when the table has a slot that ends it: no such slot is ever missed,
  // and it is met within 7 + size turns.
  lemma SearchEndsIff<K(!new), V>(f: Keys<K>, t: seq<Slot<K, V>>, k: nat, key: K)
    requires Sound(f) && k <= 32 && |t| == Pow2(k)
    ensures (exists p: nat :: p < |t| && Stops(f, t[p], key))
       <==> (exists i: nat :: i < 7 + |t| && Stops(f, t[Probe(f.hfunc(key), |t|, i)], key))
    ensures (exists i: nat :: Stops(f, t[Probe(f.hfunc(key), |t|, i)], key))
       ==> (exists p: nat :: p < |t| && Stops(f, t[p], key))
  {
    if exists p: nat :: p < |t| && Stops(f, t[p], key) {
      var p: nat :| p < |t| && Stops(f, t[p], key);
      var i := EverySlotProbed(f.hfunc(key), k, p);
      assert Stops(f, t[Probe(f.hfunc(key), |t|, i)], key);
    }
  }

  // An entry whose key is on the path is found before any EMPTY slot.
  lemma EntryBeforeEmpty<K(!new), V>(f: Keys<K>, t: seq<Slot<K, V>>, p: nat, key: K, i: nat)
    requires Sound(f) && WellFormed(f, t) && p < |t| && t[p].Active? && f.canon(t[p].key) == f.canon(key)
    requires t[Probe(f.hfunc(key), |t|, i)].Empty?
    ensures exists j: nat :: j < i && Probe(f.hfunc(key), |t|, j) == p
  {
    var h := f.hfunc(key);
    assert OnPath(t, h, p);
    var j: nat :| Probe(h, |t|, j) == p && Path(t, h, j);
    assert j < i;
  }
}
