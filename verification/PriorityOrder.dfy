/**
 The order of the kernel's priority lists (shared/queue.h) as a value: entries ascend by
 priority, are served from the end, and equal priorities are served first come, first served.
 */
module PriorityOrder {

  ghost predicate NoDup(s: seq<int>) {
    forall i, j | 0 <= i < j < |s| :: s[i] != s[j]
  }

  // queue_add's walk stops at the first entry that is not of lower priority.
  function InsertAt(prios: seq<int>, p: int): (i: nat)
    ensures i <= |prios|
    ensures forall j | 0 <= j < i :: prios[j] < p
    ensures i < |prios| ==> prios[i] >= p
  {
    if prios == [] || prios[0] >= p then 0 else 1 + InsertAt(prios[1..], p)
  }

  function Insert<T>(s: seq<T>, i: nat, x: T): (r: seq<T>)
    requires i <= |s|
    ensures |r| == |s| + 1 && r[i] == x
  {
    s[..i] + [x] + s[i..]
  }

  function Remove<T>(s: seq<T>, i: nat): (r: seq<T>)
    requires i < |s|
    ensures |r| == |s| - 1
  {
    s[..i] + s[i + 1..]
  }

  lemma InsertIndices<T>(s: seq<T>, i: nat, x: T)
    requires i <= |s|
    ensures forall j {:trigger Insert(s, i, x)[j]} | 0 <= j <= |s| ::
      Insert(s, i, x)[j] == if j < i then s[j] else if j == i then x else s[j - 1]
  {
  }

  lemma RemoveIndices<T>(s: seq<T>, i: nat)
    requires i < |s|
    ensures forall j {:trigger Remove(s, i)[j]} | 0 <= j < |s| - 1 ::
      Remove(s, i)[j] == if j < i then s[j] else s[j + 1]
  {
  }

  lemma RemoveLast<T>(s: seq<T>)
    requires s != []
    ensures Remove(s, |s| - 1) == s[..|s| - 1]
  {
  }

  lemma InsertMembers<T(!new)>(s: seq<T>, i: nat, x: T)
    requires i <= |s|
    ensures forall y :: y in Insert(s, i, x) <==> y == x || y in s
  {
    assert s == s[..i] + s[i..];
  }

  lemma RemoveMembers<T(!new)>(s: seq<T>, i: nat)
    requires i < |s|
    ensures forall y | y in Remove(s, i) :: y in s
  {
  }

  lemma RemoveUndoesInsert<T>(s: seq<T>, i: nat, x: T)
    requires i <= |s|
    ensures Remove(Insert(s, i, x), i) == s
  {
  }

  ghost predicate Sorted(prios: seq<int>) {
    forall i, j | 0 <= i < j < |prios| :: prios[i] <= prios[j]
  }

  lemma InsertSorted(prios: seq<int>, p: int)
    requires Sorted(prios)
    ensures Sorted(Insert(prios, InsertAt(prios, p), p))
  {
  }

  // The place of an entry only depends on the entries of the same or higher priority.
  lemma InsertAtUnique(prios: seq<int>, p: int, i: nat)
    requires i <= |prios| && (forall j | 0 <= j < i :: prios[j] < p) && (i < |prios| ==> prios[i] >= p)
    ensures i == InsertAt(prios, p)
  {
  }

  // ---------- service order ----------

  // An entry with the moment it was added.
  datatype Entry = Entry(prio: int, stamp: nat)

  // Nearer to the end means served earlier: higher priority first, then older first.
  ghost predicate ServesInOrder(q: seq<Entry>) {
    forall i, j | 0 <= i < j < |q| :: Before(q[j], q[i])
  }

  ghost predicate Before(a: Entry, b: Entry) {
    a.prio > b.prio || (a.prio == b.prio && a.stamp < b.stamp)
  }

  function Prios(q: seq<Entry>): (p: seq<int>)
    ensures |p| == |q| && forall i | 0 <= i < |q| :: p[i] == q[i].prio
  {
    seq(|q|, i requires 0 <= i < |q| => q[i].prio)
  }

  // A newcomer is placed behind all older entries of its priority, in service order.
  lemma AddServesInOrder(q: seq<Entry>, e: Entry)
    requires ServesInOrder(q) && forall x | x in q :: x.stamp < e.stamp
    ensures ServesInOrder(Insert(q, InsertAt(Prios(q), e.prio), e))
  {
    var k := InsertAt(Prios(q), e.prio);
    var r := Insert(q, k, e);
    forall i, j | 0 <= i < j < |r|
      ensures Before(r[j], r[i])
    {
      if i == k {
        assert r[j] == q[j - 1];
        if k < j - 1 {
          assert Before(q[j - 1], q[k]);
        }
      } else if j == k {
        assert r[i] == q[i] && Prios(q)[i] < e.prio;
      }
    }
  }

  // Taking an entry out from anywhere keeps the order of the others.
  lemma RemoveServesInOrder(q: seq<Entry>, k: nat)
    requires ServesInOrder(q) && k < |q|
    ensures ServesInOrder(Remove(q, k))
  {
    var r := Remove(q, k);
    assert forall i | 0 <= i < |r| :: r[i] == q[if i < k then i else i + 1];
  }

  // The entry queue_out takes is the oldest one of the highest priority.
  lemma LastIsOldestHighest(q: seq<Entry>)
    requires ServesInOrder(q) && q != []
    ensures forall e | e in q :: e == q[|q| - 1] || Before(q[|q| - 1], e)
  {
  }

  // ---------- whole runs ----------

  datatype Action = Add(prio: int) | Out | Delete(index: nat)

  // The list after a run of additions, services and deletions; the n-th action has stamp n.
  ghost function ListAfter(actions: seq<Action>): seq<Entry> {
    if actions == [] then []
    else
      var n := |actions| - 1;
      var q := ListAfter(actions[..n]);
      match actions[n]
      case Add(p) => Insert(q, InsertAt(Prios(q), p), Entry(p, n))
      case Out => if q == [] then q else q[..|q| - 1]
      case Delete(i) => if i < |q| then Remove(q, i) else q
  }

  lemma {:induction false} RunsServeInOrder(actions: seq<Action>)
    ensures ServesInOrder(ListAfter(actions))
    ensures forall e | e in ListAfter(actions) ::
      e.stamp < |actions| && actions[e.stamp] == Add(e.prio)
  {
    if actions != [] {
      RunsServeInOrder(actions[..|actions| - 1]);
      StampsAreActions(actions);
      StepServesInOrder(actions);
    }
  }

  // Each entry comes from the action of its stamp, so the newest entry is the last addition.
  lemma StampsAreActions(actions: seq<Action>)
    requires actions != []
    requires forall e | e in ListAfter(actions[..|actions| - 1]) ::
      e.stamp < |actions| - 1 && actions[..|actions| - 1][e.stamp] == Add(e.prio)
    ensures forall e | e in ListAfter(actions) ::
      e.stamp < |actions| && actions[e.stamp] == Add(e.prio)
  {
    var n := |actions| - 1;
    var q := ListAfter(actions[..n]);
    assert forall e | e in q :: e.stamp < n && actions[..n][e.stamp] == actions[e.stamp];
    match actions[n]
    case Add(p) => InsertMembers(q, InsertAt(Prios(q), p), Entry(p, n));
    case Out =>
    case Delete(i) =>
      if i < |q| {
        RemoveMembers(q, i);
      }
  }

  lemma StepServesInOrder(actions: seq<Action>)
    requires actions != [] && ServesInOrder(ListAfter(actions[..|actions| - 1]))
    requires forall e | e in ListAfter(actions[..|actions| - 1]) :: e.stamp < |actions| - 1
    ensures ServesInOrder(ListAfter(actions))
  {
    hide ServesInOrder;
    var n := |actions| - 1;
    var q := ListAfter(actions[..n]);
    match actions[n]
    case Add(p) => AddServesInOrder(q, Entry(p, n));
    case Out =>
      if q != [] {
        RemoveServesInOrder(q, |q| - 1);
        RemoveLast(q);
      }
    case Delete(i) =>
      if i < |q| {
        RemoveServesInOrder(q, i);
      }
  }
}
