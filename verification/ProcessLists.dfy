/**
 Duplicate-free lists of process numbers, as the kernel's linked lists hold them: members,
 filtering and priority order.
 */
module ProcessLists {
  import opened PriorityOrder

  // The list without the members of d; the order of the others stays.
  function Without(s: seq<int>, d: set<int>): (r: seq<int>)
    ensures forall x :: x in r <==> x in s && x !in d
    ensures |r| <= |s|
  {
    if s == [] then []
    else (if s[0] in d then [] else [s[0]]) + Without(s[1..], d)
  }

  lemma {:induction false} WithoutNoDup(s: seq<int>, d: set<int>)
    requires NoDup(s)
    ensures NoDup(Without(s, d))
  {
    if s != [] {
      WithoutNoDup(s[1..], d);
      assert s[0] !in s[1..];
    }
  }

  lemma WithoutInTable(n: nat, s: seq<int>, d: set<int>)
    requires InTable(n, s)
    ensures InTable(n, Without(s, d))
  {
    var r := Without(s, d);
    assert forall i | 0 <= i < |r| :: r[i] in s;
  }

  lemma {:induction false} WithoutNothing(s: seq<int>, d: set<int>)
    requires forall i | 0 <= i < |s| :: s[i] !in d
    ensures Without(s, d) == s
  {
    if s != [] {
      WithoutNothing(s[1..], d);
    }
  }

  // Unlinking the only occurrence of x is filtering it out.
  lemma {:induction false} WithoutIsRemove(s: seq<int>, k: nat)
    requires NoDup(s) && k < |s|
    ensures Without(s, {s[k]}) == Remove(s, k)
  {
    if k == 0 {
      WithoutNothing(s[1..], {s[0]});
    } else {
      assert s[1..][k - 1] == s[k];
      WithoutIsRemove(s[1..], k - 1);
      assert Remove(s, k) == [s[0]] + Remove(s[1..], k - 1);
    }
  }

  lemma InsertNoDup(s: seq<int>, i: nat, x: int)
    requires NoDup(s) && i <= |s| && x !in s
    ensures NoDup(Insert(s, i, x))
    ensures forall y :: y in Insert(s, i, x) <==> y == x || y in s
  {
    InsertMembers(s, i, x);
    InsertIndices(s, i, x);
  }

  // ---------- priority order, with the priorities given by a table ----------

  ghost predicate InTable(n: nat, s: seq<int>) {
    forall i | 0 <= i < |s| :: 0 <= s[i] < n
  }

  function PrioList(prio: seq<int>, s: seq<int>): (p: seq<int>)
    requires InTable(|prio|, s)
    ensures |p| == |s| && forall i | 0 <= i < |s| :: p[i] == prio[s[i]]
  {
    seq(|s|, i requires 0 <= i < |s| && 0 <= s[i] < |prio| => prio[s[i]])
  }

  ghost predicate Ascending(prio: seq<int>, s: seq<int>) {
    && InTable(|prio|, s)
    && (forall i, j | 0 <= i < j < |s| :: prio[s[i]] <= prio[s[j]])
  }

  // queue_add of x into a list of process numbers.
  function Enqueue(prio: seq<int>, s: seq<int>, x: int): (r: seq<int>)
    requires 0 <= x < |prio| && InTable(|prio|, s)
    ensures |r| == |s| + 1 && InTable(|prio|, r)
  {
    Insert(s, InsertAt(PrioList(prio, s), prio[x]), x)
  }

  lemma EnqueueMembers(prio: seq<int>, s: seq<int>, x: int)
    requires 0 <= x < |prio| && InTable(|prio|, s)
    ensures forall y :: y in Enqueue(prio, s, x) <==> y == x || y in s
  {
    InsertMembers(s, InsertAt(PrioList(prio, s), prio[x]), x);
  }

  lemma EnqueueKeeps(prio: seq<int>, s: seq<int>, x: int)
    requires 0 <= x < |prio| && InTable(|prio|, s) && NoDup(s) && x !in s
    ensures NoDup(Enqueue(prio, s, x))
    ensures forall y :: y in Enqueue(prio, s, x) <==> y == x || y in s
  {
    InsertNoDup(s, InsertAt(PrioList(prio, s), prio[x]), x);
  }

  lemma EnqueueAscending(prio: seq<int>, s: seq<int>, x: int)
    requires 0 <= x < |prio| && Ascending(prio, s)
    ensures Ascending(prio, Enqueue(prio, s, x))
  {
    hide Insert;
    var p := PrioList(prio, s);
    var k := InsertAt(p, prio[x]);
    var r := Insert(s, k, x);
    InsertIndices(s, k, x);
    InsertSorted(p, prio[x]);
    InsertIndices(p, k, prio[x]);
    assert forall i | 0 <= i < |r| :: 0 <= r[i] < |prio| && prio[r[i]] == Insert(p, k, prio[x])[i];
  }

  lemma ConsAscending(prio: seq<int>, x: int, s: seq<int>)
    requires Ascending(prio, s) && 0 <= x < |prio|
    requires forall y | y in s :: 0 <= y < |prio| && prio[x] <= prio[y]
    ensures Ascending(prio, [x] + s)
  {
    var r := [x] + s;
    assert forall i | 0 < i < |r| :: r[i] == s[i - 1] && r[i] in s;
  }

  lemma {:induction false} WithoutAscending(prio: seq<int>, s: seq<int>, d: set<int>)
    requires Ascending(prio, s)
    ensures Ascending(prio, Without(s, d))
  {
    if s != [] {
      assert forall i | 0 <= i < |s| - 1 :: s[1..][i] == s[i + 1];
      WithoutAscending(prio, s[1..], d);
      if s[0] !in d {
        ConsAscending(prio, s[0], Without(s[1..], d));
      }
    }
  }

  lemma LastIsHighest(prio: seq<int>, s: seq<int>)
    requires Ascending(prio, s) && s != []
    ensures forall x | x in s :: 0 <= x < |prio| && prio[x] <= prio[s[|s| - 1]]
  {
  }
}
