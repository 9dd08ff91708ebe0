/**
 The circular doubly linked priority list of shared/queue.h. A node stands for the link field
 of an element together with the element's priority; the list head is a node as well.
 */
module LinkedQueue {
  import opened PriorityOrder

  class Node {
    var prev: Node?
    var next: Node?
    var prio: int

    // INIT_LINK
    constructor (prio: int)
      ensures prev == null && next == null && this.prio == prio
    {
      prev, next, this.prio := null, null, prio;
    }
  }

  // Once around: the head, then each element once, then the head again.
  ghost predicate Cycle(c: seq<Node>, head: Node) {
    && |c| >= 2 && c[0] == head && c[|c| - 1] == head
    && (forall i, j | 0 <= i < j < |c| - 1 :: c[i] != c[j])
  }

  // next and prev lead from each node of the cycle to its neighbours.
  ghost predicate Linked(c: seq<Node>)
    reads c
  {
    && (forall i {:trigger c[i].next} | 0 <= i < |c| - 1 :: c[i].next == c[i + 1])
    && (forall i {:trigger c[i].prev} | 0 < i < |c| :: c[i].prev == c[i - 1])
  }

  lemma InsertCycle(c: seq<Node>, head: Node, k: nat, e: Node)
    requires Cycle(c, head) && 0 < k < |c| && e !in c
    ensures Cycle(Insert(c, k, e), head)
    ensures Insert(c, k, e)[1..|c|] == Insert(c[1..|c| - 1], k - 1, e)
  {
    InsertIndices(c, k, e);
  }

  lemma RemoveCycle(c: seq<Node>, head: Node, k: nat)
    requires Cycle(c, head) && 0 < k < |c| - 1
    ensures Cycle(Remove(c, k), head)
    ensures Remove(c, k)[1..|c| - 2] == Remove(c[1..|c| - 1], k - 1)
  {
    RemoveIndices(c, k);
  }

  // Linking a new node between two neighbours; no other link changes.
  lemma InsertLinked(c: seq<Node>, k: nat, e: Node)
    requires 0 < k < |c|
    requires e.next == c[k] && e.prev == c[k - 1] && c[k - 1].next == e && c[k].prev == e
    requires forall i {:trigger c[i].next} | 0 <= i < |c| - 1 && i != k - 1 :: c[i].next == c[i + 1]
    requires forall i {:trigger c[i].prev} | 0 < i < |c| && i != k :: c[i].prev == c[i - 1]
    ensures Linked(Insert(c, k, e))
  {
    InsertIndices(c, k, e);
    var r := Insert(c, k, e);
    forall i | 0 <= i < |r| - 1
      ensures r[i].next == r[i + 1]
    {
      if i < k - 1 {
        assert r[i] == c[i];
      } else if i > k {
        assert r[i] == c[i - 1];
      }
    }
    forall i | 0 < i < |r|
      ensures r[i].prev == r[i - 1]
    {
      if i < k {
        assert r[i] == c[i];
      } else if i > k + 1 {
        assert r[i] == c[i - 1];
      }
    }
  }

  // Joining the neighbours of a node; no other link of the cycle changes.
  lemma RemoveLinked(c: seq<Node>, k: nat)
    requires 0 < k < |c| - 1
    requires c[k - 1].next == c[k + 1] && c[k + 1].prev == c[k - 1]
    requires forall i {:trigger c[i].next} | 0 <= i < |c| - 1 && i != k - 1 && i != k :: c[i].next == c[i + 1]
    requires forall i {:trigger c[i].prev} | 0 < i < |c| && i != k + 1 && i != k :: c[i].prev == c[i - 1]
    ensures Linked(Remove(c, k))
  {
    RemoveIndices(c, k);
    var r := Remove(c, k);
    forall i | 0 <= i < |r| - 1
      ensures r[i].next == r[i + 1]
    {
      if i < k - 1 {
        assert r[i] == c[i];
      } else if i > k - 1 {
        assert r[i] == c[i + 1];
      }
    }
    forall i | 0 < i < |r|
      ensures r[i].prev == r[i - 1]
    {
      if i < k {
        assert r[i] == c[i];
      } else if i > k {
        assert r[i] == c[i + 1];
      }
    }
  }

  class Queue {
    const head: Node
    ghost var cycle: seq<Node>   // once around the links, from the head back to the head

    // next and prev are inverse to each other along one cycle that meets each node once.
    ghost predicate Valid()
      reads this, cycle
    {
      Cycle(cycle, head) && Linked(cycle)
    }

    // The elements, in ascending order of priority.
    ghost function Nodes(): seq<Node>
      reads this
    {
      if |cycle| < 2 then [] else cycle[1..|cycle| - 1]
    }

    ghost function Prios(): (p: seq<int>)
      reads this, cycle
      ensures |p| == |Nodes()| && forall i | 0 <= i < |p| :: p[i] == Nodes()[i].prio
    {
      var n := Nodes();
      seq(|n|, i requires 0 <= i < |n| reads n => n[i].prio)
    }

    // INIT_LIST_HEAD
    constructor ()
      ensures Valid() && Nodes() == [] && fresh(head)
    {
      var h := new Node(0);
      head := h;
      cycle := [h, h];
      new;
      head.next, head.prev := head, head;
    }

    // queue_empty
    method IsEmpty() returns (b: bool)
      requires Valid()
      ensures b <==> Nodes() == []
    {
      assert cycle[0].next == cycle[1];
      b := head.next == head;
    }

    // The walk of queue_add: to the first node that is not of lower priority.
    method Seek(p: int) returns (cur: Node, ghost i: nat)
      requires Valid()
      ensures i == InsertAt(Prios(), p) && i + 1 < |cycle| && cur == cycle[i + 1]
    {
      assert cycle[0].next == cycle[1];
      cur := head.next;
      i := 0;
      while cur != head && cur.prio < p
        invariant i + 1 < |cycle| && cur == cycle[i + 1]
        invariant forall j {:trigger cycle[j]} | 0 < j <= i :: cycle[j].prio < p
        decreases |cycle| - i
      {
        cur := cur.next;
        i := i + 1;
      }
      var n := Nodes();
      assert forall j | 0 <= j < |n| :: n[j] == cycle[j + 1];
      InsertAtUnique(Prios(), p, i);
    }

    // A node without links is on no list.
    lemma NotOnCycle(elem: Node)
      requires Valid() && elem.next == null
      ensures elem !in cycle
    {
      assert forall i {:trigger cycle[i].next} | 0 <= i < |cycle| - 1 :: cycle[i].next != null;
    }

    // The four assignments of queue_add that put elem in front of cur.
    method Splice(elem: Node, cur: Node, ghost k: nat)
      requires Valid() && elem !in cycle && 0 < k < |cycle| && cur == cycle[k]
      modifies cycle, elem
      ensures cycle == old(cycle) && Linked(Insert(cycle, k, elem))
      ensures forall n | n in cycle || n == elem :: n.prio == old(n.prio)
    {
      hide Insert;
      ghost var c := cycle;
      assert c[k].prev == c[k - 1] && c[k - 1].next == c[k];
      elem.next := cur;
      elem.prev := cur.prev;
      cur.prev.next := elem;
      cur.prev := elem;
      InsertLinked(c, k, elem);
    }

    // queue_add
    method Add(elem: Node)
      requires Valid() && elem.prev == null && elem.next == null
      modifies this`cycle, cycle, elem
      ensures Valid()
      ensures Nodes() == Insert(old(Nodes()), InsertAt(old(Prios()), old(elem.prio)), elem)
      ensures forall n | n in old(cycle) || n == elem :: n.prio == old(n.prio)
    {
      hide Insert, Linked, Cycle;
      NotOnCycle(elem);
      var cur, i := Seek(elem.prio);
      Splice(elem, cur, i + 1);
      InsertCycle(cycle, head, i + 1, elem);
      cycle := Insert(cycle, i + 1, elem);
    }

    // queue_del
    method Del(elem: Node, ghost k: nat)
      requires Valid() && k < |Nodes()| && Nodes()[k] == elem
      modifies this`cycle, cycle
      ensures Valid() && Nodes() == Remove(old(Nodes()), k)
      ensures elem.prev == null && elem.next == null
      ensures forall n | n in old(cycle) :: n.prio == old(n.prio)
    {
      hide Remove;
      ghost var c := cycle;
      assert c[k + 1].next == c[k + 2] && c[k + 1].prev == c[k];
      elem.prev.next := elem.next;
      elem.next.prev := elem.prev;
      elem.next := null;
      elem.prev := null;
      cycle := Remove(c, k + 1);
      RemoveCycle(c, head, k + 1);
      RemoveLinked(c, k + 1);
    }

    // __queue_out
    method Out() returns (elem: Node?)
      requires Valid()
      modifies this`cycle, cycle
      ensures Valid()
      ensures old(Nodes()) == [] ==> elem == null && Nodes() == []
      ensures old(Nodes()) != [] ==> elem == old(Nodes())[|old(Nodes())| - 1]
      ensures old(Nodes()) != [] ==> Nodes() == old(Nodes())[..|old(Nodes())| - 1]
      ensures elem != null ==> elem.prev == null && elem.next == null
      ensures forall n | n in old(cycle) :: n.prio == old(n.prio)
    {
      hide Remove;
      ghost var last := |cycle| - 1;
      assert cycle[last].prev == cycle[last - 1];
      var e := head.prev;
      var empty := IsEmpty();
      if empty {
        return null;
      }
      ghost var c := cycle;
      assert c[last - 1].prev == c[last - 2] && c[last - 2].next == c[last - 1];
      head.prev := head.prev.prev;
      head.prev.next := head;
      e.prev := null;
      e.next := null;
      cycle := Remove(c, last - 1);
      RemoveCycle(c, head, last - 1);
      RemoveLinked(c, last - 1);
      RemoveLast(c[1..last]);
      return e;
    }

    // __queue_top
    method Top() returns (elem: Node?)
      requires Valid()
      ensures Nodes() == [] ==> elem == null
      ensures Nodes() != [] ==> elem == Nodes()[|Nodes()| - 1]
    {
      assert cycle[|cycle| - 1].prev == cycle[|cycle| - 2];
      var e := head.prev;
      var empty := IsEmpty();
      if empty {
        return null;
      }
      return e;
    }
  }
}
