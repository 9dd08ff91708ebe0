/**
 What every system call and clock tick keeps: the table and the lists agree, exactly one
 process runs, families are consistent, woken fathers find their zombie, and the history of
 terminations matches what waitpid has handed out.
 */
module ProcessInvariants {
  import opened PriorityOrder
  import opened ProcessLists
  import opened ProcessModel

  ghost predicate Alive(p: Proc) {
    p.status != Dead && p.status != Zombie
  }

  ghost predicate Slots(k: Kernel)
    requires Shape(k)
  {
    && (forall i | 0 <= i < NBPROC :: k.procs[i].status == Dead <==> k.procs[i].pid == -1)
    && (forall i | 0 <= i < NBPROC :: k.procs[i].status == Dead ==> k.procs[i] == FREE)
    && (forall i | 0 <= i < NBPROC :: k.procs[i].pid == -1 || k.procs[i].pid == i)
    && (forall i | 0 <= i < NBPROC :: k.procs[i].status == Running ==> i == k.active)
    && (k.procs[0].status == Running || k.procs[0].status == Ready)
  }

  // The ready list holds exactly the ready processes in priority order; the clock list
  // exactly the sleepers.
  ghost predicate Queues(k: Kernel)
    requires Shape(k)
  {
    && ListsAll(k.procs, k.ready, Ready) && Ascending(k.prio, k.ready)
    && ListsAll(k.procs, k.sleepers, Sleeping)
  }

  // The list holds exactly the processes with this status, once each.
  ghost predicate ListsAll(procs: seq<Proc>, list: seq<int>, status: Status) {
    && NoDup(list) && InTable(|procs|, list)
    && (forall i | 0 <= i < |procs| :: i in list <==> procs[i].status == status)
  }

  // Fathers and lists of children describe one forest, in which children are younger.
  ghost predicate Family(k: Kernel)
    requires Shape(k)
  {
    Fathers(k) && Children(k)
  }

  ghost predicate Fathers(k: Kernel)
    requires Shape(k)
  {
    && (forall i | 0 <= i < NBPROC :: k.procs[i].father == -1 || Slot(k.procs[i].father))
    && (forall i | 0 <= i < NBPROC && k.procs[i].father != -1 ::
          k.procs[k.procs[i].father].status != Dead && k.procs[k.procs[i].father].birth < k.procs[i].birth)
    && (forall i | 0 <= i < NBPROC && k.procs[i].status == Zombie :: k.procs[i].father != -1)
  }

  ghost predicate Children(k: Kernel)
    requires Shape(k)
  {
    && (forall i | 0 <= i < NBPROC :: NoDup(k.procs[i].children))
    && (forall i, c | 0 <= i < NBPROC && 0 <= c < NBPROC :: c in k.procs[i].children <==> k.procs[c].father == i)
  }

  // i has been woken by its child c and will collect it.
  ghost predicate Finds(k: Kernel, i: int, c: int)
    requires Shape(k)
  {
    && Slot(i) && Slot(c) && k.procs[i].awaited == c
    && (k.procs[i].status == Ready || k.procs[i].status == Running)
    && k.procs[c].status == Zombie && k.procs[c].father == i
  }

  ghost predicate WaitsFor(k: Kernel, i: int)
    requires Shape(k) && Slot(i)
  {
    var w := k.procs[i].awaited;
    if w == -2 then forall c | 0 <= c < NBPROC && k.procs[c].father == i :: k.procs[c].status != Zombie
    else Slot(w) && k.procs[w].father == i && k.procs[w].status != Zombie
  }

  ghost predicate Waits(k: Kernel)
    requires Shape(k)
  {
    forall i | 0 <= i < NBPROC && Alive(k.procs[i]) ::
      if k.procs[i].status == AwaitingChild then WaitsFor(k, i)
      else k.procs[i].awaited == -1 || Finds(k, i, k.procs[i].awaited)
  }

  // Births are unique, terminated processes are on record, living ones are not. The value
  // of process x alone may already be set.
  ghost predicate Records(k: Kernel, x: int)
    requires Shape(k)
  {
    && (forall i | 0 <= i < NBPROC && k.procs[i].status != Dead :: k.procs[i].birth < k.born)
    && (forall i, j | 0 <= i < j < NBPROC && k.procs[i].status != Dead && k.procs[j].status != Dead ::
          k.procs[i].birth != k.procs[j].birth)
    && (forall i | 0 <= i < NBPROC && k.procs[i].status == Zombie ::
          k.procs[i].birth in k.ended && k.ended[k.procs[i].birth] == k.procs[i].retval)
    && (forall i | 0 <= i < NBPROC && Alive(k.procs[i]) ::
          k.procs[i].birth !in k.ended && (i == x || k.procs[i].retval == 0))
    && (forall b | b in k.ended :: b < k.born)
  }

  // Each collected process is gone, had terminated with the value handed out, and was
  // handed out once.
  ghost predicate LogTrue(k: Kernel)
    requires Shape(k)
  {
    && (forall n | 0 <= n < |k.log| :: k.log[n].birth in k.ended && k.ended[k.log[n].birth] == k.log[n].value)
    && (forall n, i | 0 <= n < |k.log| && 0 <= i < NBPROC && k.procs[i].status != Dead ::
          k.procs[i].birth != k.log[n].birth)
    && (forall n, m | 0 <= n < m < |k.log| :: k.log[n].birth != k.log[m].birth)
  }

  // What holds at every call of ordonnancer.
  ghost predicate Consistent(k: Kernel) {
    Shape(k) && Slots(k) && Queues(k) && Family(k) && Waits(k) && Records(k, -1) && LogTrue(k)
  }

  // At every scheduling boundary one process runs, and none that is ready outranks it.
  ghost predicate Fair(k: Kernel)
    requires Shape(k)
  {
    k.procs[k.active].status == Running && forall r | r in k.ready :: 0 <= r < NBPROC && k.prio[r] <= k.prio[k.active]
  }

  ghost predicate Inv(k: Kernel) {
    Consistent(k) && Fair(k)
  }

  // ---------- lists and statuses change together ----------

  lemma ListAdd(procs: seq<Proc>, list: seq<int>, prio: seq<int>, i: int, p: Proc)
    requires ListsAll(procs, list, p.status) && 0 <= i < |procs| == |prio| && procs[i].status != p.status
    ensures ListsAll(procs[i := p], Enqueue(prio, list, i), p.status)
    ensures Ascending(prio, list) ==> Ascending(prio, Enqueue(prio, list, i))
  {
    hide Enqueue, Ascending;
    EnqueueKeeps(prio, list, i);
    if Ascending(prio, list) {
      EnqueueAscending(prio, list, i);
    }
  }

  lemma ListDrop(procs: seq<Proc>, list: seq<int>, status: Status, i: int, p: Proc)
    requires ListsAll(procs, list, status) && 0 <= i < |procs| && p.status != status
    ensures ListsAll(procs[i := p], Without(list, {i}), status)
  {
    WithoutNoDup(list, {i});
    WithoutInTable(|procs|, list, {i});
  }

  lemma ListSame(procs: seq<Proc>, procs': seq<Proc>, list: seq<int>, status: Status)
    requires ListsAll(procs, list, status) && |procs'| == |procs|
    requires forall i | 0 <= i < |procs| :: procs[i].status == status <==> procs'[i].status == status
    ensures ListsAll(procs', list, status)
  {
  }

  // Taking the last element is leaving it out.
  lemma PopIsWithout(list: seq<int>)
    requires NoDup(list) && list != []
    ensures list[..|list| - 1] == Without(list, {list[|list| - 1]})
  {
    WithoutIsRemove(list, |list| - 1);
    RemoveLast(list);
  }

  // ---------- ordonnancer ----------

  // The process table changes in the statuses of ready and running processes only.
  ghost predicate SameButStatus(k: Kernel, k': Kernel)
    requires Shape(k) && Shape(k')
  {
    && k'.prio == k.prio && k'.born == k.born && k'.ended == k.ended && k'.log == k.log
    && (forall i | 0 <= i < NBPROC :: k'.procs[i] == k.procs[i].(status := k'.procs[i].status))
    && (forall i | 0 <= i < NBPROC ::
          (k'.procs[i].status == k.procs[i].status || (Runnable(k.procs[i]) && Runnable(k'.procs[i]))))
  }

  ghost predicate Runnable(p: Proc) {
    p.status == Ready || p.status == Running
  }

  lemma StatusKeepsFamily(k: Kernel, k': Kernel)
    requires Shape(k) && Shape(k') && SameButStatus(k, k') && Family(k)
    ensures Family(k')
  {
  }

  lemma StatusKeepsHistory(k: Kernel, k': Kernel)
    requires Shape(k) && Shape(k') && SameButStatus(k, k') && Records(k, -1) && LogTrue(k)
    ensures Records(k', -1) && LogTrue(k')
  {
  }

  lemma StatusKeepsWaits(k: Kernel, k': Kernel)
    requires Shape(k) && Shape(k') && SameButStatus(k, k') && Waits(k)
    ensures Waits(k')
  {
    forall i | 0 <= i < NBPROC && Alive(k'.procs[i])
      ensures if k'.procs[i].status == AwaitingChild then WaitsFor(k', i)
        else k'.procs[i].awaited == -1 || Finds(k', i, k'.procs[i].awaited)
    {
      assert Alive(k.procs[i]);
    }
  }

  lemma SwitchedQueues(k: Kernel)
    requires Shape(k) && Slots(k) && Queues(k) && k.ready != []
    ensures Queues(Switched(k)) && SameButStatus(k, Switched(k))
  {
    hide Ascending, Enqueue, Without, NoDup;
    var a, next := k.active, k.ready[|k.ready| - 1];
    assert next in k.ready;
    PopIsWithout(k.ready);
    WithoutAscending(k.prio, k.ready, {next});
    var p := k.procs[next].(status := Running);
    ListDrop(k.procs, k.ready, Ready, next, p);
    var procs := k.procs[next := p];
    ListSame(k.procs, procs, k.sleepers, Sleeping);
    if k.procs[a].status == Running {
      var q := procs[a].(status := Ready);
      ListAdd(procs, k.ready[..|k.ready| - 1], k.prio, a, q);
      ListSame(procs, procs[a := q], k.sleepers, Sleeping);
    }
  }

  lemma SwitchedSlots(k: Kernel)
    requires Shape(k) && Slots(k) && Queues(k) && k.ready != []
    ensures Slots(Switched(k))
  {
    hide Ascending, Enqueue, NoDup;
    assert k.ready[|k.ready| - 1] in k.ready;
  }

  lemma SwitchedFair(k: Kernel)
    requires Shape(k) && Queues(k) && !Stays(k)
    ensures Fair(Switched(k))
  {
    hide Enqueue, NoDup;
    LastIsHighest(k.prio, k.ready);
    var a, r := k.active, k.ready[..|k.ready| - 1];
    assert forall x | x in r :: x in k.ready;
    assert k.ready[|k.ready| - 1] in k.ready;
    if k.procs[a].status == Running {
      EnqueueMembers(k.prio, r, a);
    }
  }

  lemma StaysFair(k: Kernel)
    requires Shape(k) && Slots(k) && Queues(k) && Stays(k)
    ensures Fair(k)
  {
    if k.ready == [] {
      assert 0 !in k.ready;
    } else {
      LastIsHighest(k.prio, k.ready);
    }
  }

  lemma ScheduleInv(k: Kernel)
    requires Consistent(k)
    ensures Inv(Schedule(k))
  {
    hide Shape, Slots, Queues, Family, Waits, Records, LogTrue, Fair, Switched;
    if Stays(k) {
      StaysFair(k);
    } else {
      assert k.ready != [];
      SwitchedQueues(k);
      SwitchedSlots(k);
      SwitchedFair(k);
      StatusKeepsFamily(k, Switched(k));
      StatusKeepsHistory(k, Switched(k));
      StatusKeepsWaits(k, Switched(k));
    }
  }

  // ---------- destruction of a process and the zombies below it ----------

  lemma {:induction false} DoomedYounger(k: Kernel, p: int, q: int)
    requires Shape(k) && Slot(p) && Slot(q) && Doomed(k, p, q)
    ensures k.procs[q].birth >= k.procs[p].birth
    decreases k.procs[q].birth
  {
    if q != p {
      DoomedYounger(k, p, k.procs[q].father);
    }
  }

  // The slots freed with p are p and zombies whose fathers are freed too; no zombie is left
  // below a freed slot, and p's own father stays.
  lemma DoomedFacts(k: Kernel, p: int)
    requires Shape(k) && Family(k) && Slot(p)
    ensures var d := DoomedSet(k, p);
      && p in d
      && (forall q | q in d && q != p :: Slot(q) && k.procs[q].status == Zombie && k.procs[q].father in d)
      && (forall q | 0 <= q < NBPROC && k.procs[q].status == Zombie && k.procs[q].father in d :: q in d)
      && k.procs[p].father !in d
  {
    var d := DoomedSet(k, p);
    if k.procs[p].father in d {
      DoomedYounger(k, p, k.procs[p].father);
    }
  }

  lemma BuriedAt(k: Kernel, d: set<int>)
    requires Shape(k)
    ensures forall i | 0 <= i < NBPROC :: Bury(k, d).procs[i] == BuriedProc(k.procs[i], i, d)
  {
  }

  lemma BuryFathers(k: Kernel, d: set<int>)
    requires Shape(k) && Fathers(k)
    requires forall q | 0 <= q < NBPROC && k.procs[q].status == Zombie && k.procs[q].father in d :: q in d
    ensures Fathers(Bury(k, d))
  {
    BuriedAt(k, d);
    hide Bury, Without;
    assert Fathers(Bury(k, d));
  }

  lemma BuryChildren(k: Kernel, d: set<int>)
    requires Shape(k) && Children(k)
    ensures Children(Bury(k, d))
  {
    BuriedAt(k, d);
    hide Bury;
    forall i | 0 <= i < NBPROC
      ensures NoDup(Bury(k, d).procs[i].children)
    {
      WithoutNoDup(k.procs[i].children, d);
    }
    hide NoDup, Without;
  }

  lemma BuryFamily(k: Kernel, d: set<int>)
    requires Shape(k) && Family(k)
    requires forall q | 0 <= q < NBPROC && k.procs[q].status == Zombie && k.procs[q].father in d :: q in d
    ensures Family(Bury(k, d))
  {
    hide Bury, Fathers, Children;
    BuryFathers(k, d);
    BuryChildren(k, d);
  }

  ghost predicate SameFamily(p: Proc, p': Proc) {
    p'.father == p.father && p'.children == p.children && p'.birth == p.birth
  }

  // Family looks at a status only to tell free slots and zombies apart.
  lemma FamilyKept(k: Kernel, k': Kernel)
    requires Shape(k) && Shape(k') && Family(k)
    requires forall i | 0 <= i < NBPROC :: SameFamily(k.procs[i], k'.procs[i])
    requires forall i | 0 <= i < NBPROC && k'.procs[i].status == Dead :: k.procs[i].status == Dead
    requires forall i | 0 <= i < NBPROC && k'.procs[i].status == Zombie ::
      k.procs[i].status == Zombie || k.procs[i].father != -1
    ensures Family(k')
  {
  }

  // What terminaison_processus makes of the slots when the father still exists.
  function Undertaken(k: Kernel, p: int, d: set<int>, q: int): Proc
    requires Shape(k) && Slot(p) && Slot(q)
  {
    if q == p then BuriedProc(k.procs[p], p, d).(status := Zombie)
    else if q == k.procs[p].father && Wakes(k, p) then
      BuriedProc(k.procs[q].(awaited := p, status := Ready), q, d)
    else BuriedProc(k.procs[q], q, d)
  }

  lemma TerminatedTable(k: Kernel, p: int)
    requires Shape(k) && Family(k) && Slot(p)
    ensures var d := DoomedSet(k, p);
      forall q | 0 <= q < NBPROC :: Terminated(k, p).procs[q] ==
        if Slot(k.procs[p].father) then Undertaken(k, p, d - {p}, q) else BuriedProc(k.procs[q], q, d)
  {
    hide DoomedSet, Enqueue, Without;
    DoomedFacts(k, p);
  }

  // terminaison_processus of a living process other than idle.
  ghost predicate Terminable(k: Kernel, p: int) {
    && Shape(k) && Slots(k) && Queues(k) && Family(k) && Waits(k) && Records(k, p) && LogTrue(k)
    && 0 < p < NBPROC && Alive(k.procs[p])
  }

  // What becomes of slot i when p terminates.
  ghost predicate Outlives(k: Kernel, p: int, i: int, q: Proc)
    requires Shape(k) && Slot(p) && Slot(i)
  {
    var s := k.procs[i].status;
    && (if i == p then q.status == Dead || q.status == Zombie
        else if i == k.procs[p].father && Wakes(k, p) then q.status == Ready
        else q.status == s || (s == Zombie && q.status == Dead))
    && (s == Dead ==> q.status == Dead)
    && (q.status == Dead ==> q == FREE)
    && (q.status != Dead ==> q.pid == k.procs[i].pid && q.birth == k.procs[i].birth && q.retval == k.procs[i].retval)
  }

  lemma OutlivesAt(k: Kernel, p: int, i: int, d: set<int>)
    requires Terminable(k, p) && Slot(i) && (k.procs[i].status == Dead ==> i !in d)
    requires forall q | q in d && q != p :: Slot(q) && k.procs[q].status == Zombie
    ensures Slot(k.procs[p].father) && p !in d ==> Outlives(k, p, i, Undertaken(k, p, d, i))
    ensures !Slot(k.procs[p].father) && p in d ==> Outlives(k, p, i, BuriedProc(k.procs[i], i, d))
  {
    hide Queues, Family, Waits, Records, LogTrue;
    if k.procs[i].status == Dead {
      assert Without([], d) == [] by { WithoutNothing([], d); }
    }
    hide Without;
  }

  lemma TerminatedStatus(k: Kernel, p: int)
    requires Terminable(k, p)
    ensures forall i | 0 <= i < NBPROC :: Outlives(k, p, i, Terminated(k, p).procs[i])
  {
    TerminatedTable(k, p);
    DoomedFacts(k, p);
    var d := DoomedSet(k, p);
    hide Terminated, DoomedSet, Outlives, Undertaken, BuriedProc, Queues, Waits, Records, LogTrue, Children, Slots;
    forall i | 0 <= i < NBPROC
      ensures Outlives(k, p, i, Terminated(k, p).procs[i])
    {
      OutlivesAt(k, p, i, d);
      OutlivesAt(k, p, i, d - {p});
    }
  }

  lemma TerminatedFrame(k: Kernel, p: int)
    requires Shape(k) && Slot(p)
    ensures var k' := Terminated(k, p);
      && k'.prio == k.prio && k'.active == k.active && k'.clock == k.clock && k'.born == k.born && k'.log == k.log
      && k'.ended == k.ended[k.procs[p].birth := k.procs[p].retval]
  {
    hide DoomedSet, Without, Enqueue, Doomed;
  }

  lemma TerminatedSlots(k: Kernel, p: int)
    requires Terminable(k, p)
    ensures Slots(Terminated(k, p))
  {
    hide Terminated, Queues, Family, Waits, Records, LogTrue;
    TerminatedStatus(k, p);
    TerminatedFrame(k, p);
    var k' := Terminated(k, p);
    forall i | 0 <= i < NBPROC
      ensures (k'.procs[i].status == Dead <==> k'.procs[i].pid == -1) && (k'.procs[i].pid == -1 || k'.procs[i].pid == i)
      ensures (k'.procs[i].status == Running ==> i == k'.active) && (k'.procs[i].status == Dead ==> k'.procs[i] == FREE)
    {
      assert Outlives(k, p, i, k'.procs[i]);
    }
    assert Outlives(k, p, 0, k'.procs[0]);
  }

  lemma TerminatedFamily(k: Kernel, p: int)
    requires Terminable(k, p)
    ensures Family(Terminated(k, p))
  {
    hide DoomedSet, Without, Queues, Waits, Records, LogTrue, Fathers, Children, Slots;
    DoomedFacts(k, p);
    var d, f := DoomedSet(k, p), k.procs[p].father;
    var k0 := Ended(k, p);
    if !Slot(f) {
      FamilyKept(k, Unlist(k0, p));
      BuryFamily(Unlist(k0, p), d);
    } else {
      var k1 := if Wakes(k, p) then MakeReady(Put(k0, f, k0.procs[f].(awaited := p)), f) else k0;
      FamilyKept(k, Unlist(k1, p));
      BuryFamily(Unlist(k1, p), d - {p});
      BuriedAt(Unlist(k1, p), d - {p});
      hide Bury;
      FamilyKept(Bury(Unlist(k1, p), d - {p}), Terminated(k, p));
    }
  }

  lemma TerminatedHistory(k: Kernel, p: int)
    requires Terminable(k, p)
    ensures Records(Terminated(k, p), -1) && LogTrue(Terminated(k, p))
  {
    hide Terminated, Slots, Queues, Family, Waits, Records, LogTrue;
    TerminatedStatus(k, p);
    TerminatedFrame(k, p);
    TerminatedRecords(k, Terminated(k, p), p);
  }

  lemma TerminatedRecords(k: Kernel, k': Kernel, p: int)
    requires Terminable(k, p) && Shape(k') && forall i | 0 <= i < NBPROC :: Outlives(k, p, i, k'.procs[i])
    requires k'.born == k.born && k'.log == k.log && k'.ended == k.ended[k.procs[p].birth := k.procs[p].retval]
    ensures Records(k', -1) && LogTrue(k')
  {
    hide Slots, Queues, Family, Waits;
    forall i | 0 <= i < NBPROC && k'.procs[i].status != Dead
      ensures k.procs[i].status != Dead && k'.procs[i].birth == k.procs[i].birth
      ensures k'.procs[i].retval == k.procs[i].retval
      ensures Alive(k'.procs[i]) ==> Alive(k.procs[i]) && i != p
      ensures k'.procs[i].status == Zombie ==> k.procs[i].status == Zombie || i == p
    {
      assert Outlives(k, p, i, k'.procs[i]);
    }
  }

  // The lists before p is taken off them: the father may have become ready.
  ghost function FatherWoken(k: Kernel, p: int): (k': Kernel)
    requires Shape(k) && Slot(p)
    ensures Shape(k')
  {
    var f := k.procs[p].father;
    if Wakes(k, p) then MakeReady(Put(k, f, k.procs[f].(awaited := p)), f) else k
  }

  lemma FatherWokenQueues(k: Kernel, p: int)
    requires Shape(k) && Slots(k) && Queues(k) && Slot(p)
    ensures Queues(FatherWoken(k, p))
  {
    hide Ascending, Enqueue, Slots;
    if Wakes(k, p) {
      var f := k.procs[p].father;
      var q := k.procs[f].(awaited := p, status := Ready);
      ListAdd(k.procs, k.ready, k.prio, f, q);
      ListSame(k.procs, k.procs[f := q], k.sleepers, Sleeping);
    }
  }

  lemma TerminatedLists(k: Kernel, p: int)
    requires Shape(k) && Slot(p)
    ensures var k1, k' := FatherWoken(k, p), Terminated(k, p);
      k'.ready == Without(k1.ready, {p}) && k'.sleepers == Without(k1.sleepers, {p})
  {
    hide DoomedSet, Without, Enqueue, Doomed;
  }

  lemma FatherWokenStatus(k: Kernel, p: int)
    requires Shape(k) && Slot(p)
    ensures FatherWoken(k, p).prio == k.prio
    ensures forall i | 0 <= i < NBPROC ::
      FatherWoken(k, p).procs[i].status == (if i == k.procs[p].father && Wakes(k, p) then Ready else k.procs[i].status)
  {
  }

  lemma ListWithout(procs: seq<Proc>, procs': seq<Proc>, list: seq<int>, status: Status, p: int)
    requires ListsAll(procs, list, status) && |procs'| == |procs| && 0 <= p < |procs|
    requires procs'[p].status != status
    requires forall i | 0 <= i < |procs| && i != p :: procs[i].status == status <==> procs'[i].status == status
    ensures ListsAll(procs', Without(list, {p}), status)
  {
    hide Without, NoDup;
    ListDrop(procs, list, status, p, procs'[p]);
    ListSame(procs[p := procs'[p]], procs', Without(list, {p}), status);
  }

  lemma TerminatedMatch(k: Kernel, p: int, status: Status)
    requires Terminable(k, p) && (status == Ready || status == Sleeping)
    ensures var k1, k' := FatherWoken(k, p), Terminated(k, p);
      && k'.procs[p].status != status
      && forall i | 0 <= i < NBPROC && i != p :: k1.procs[i].status == status <==> k'.procs[i].status == status
  {
    var k1, k' := FatherWoken(k, p), Terminated(k, p);
    FatherWokenStatus(k, p);
    TerminatedStatus(k, p);
    hide Terminated, FatherWoken, Slots, Queues, Family, Waits, Records, LogTrue, Outlives, Wakes;
    forall i | 0 <= i < NBPROC
      ensures i == p ==> k'.procs[i].status != status
      ensures i != p ==> (k1.procs[i].status == status <==> k'.procs[i].status == status)
    {
      OutlivesMatch(k, p, i, k'.procs[i], status);
    }
  }

  lemma OutlivesMatch(k: Kernel, p: int, i: int, q: Proc, status: Status)
    requires Shape(k) && Slot(p) && Slot(i) && Outlives(k, p, i, q) && (status == Ready || status == Sleeping)
    ensures i == p ==> q.status != status
    ensures i != p && i == k.procs[p].father && Wakes(k, p) ==> (q.status == status <==> status == Ready)
    ensures i != p && !(i == k.procs[p].father && Wakes(k, p)) ==>
      (q.status == status <==> k.procs[i].status == status)
  {
  }

  lemma TerminatedQueues(k: Kernel, p: int)
    requires Terminable(k, p)
    ensures Queues(Terminated(k, p))
  {
    var k1, k' := FatherWoken(k, p), Terminated(k, p);
    hide Terminated, FatherWoken, Without, Ascending, Slots, Family, Waits, Records, LogTrue, ListsAll;
    FatherWokenQueues(k, p);
    FatherWokenStatus(k, p);
    TerminatedLists(k, p);
    TerminatedFrame(k, p);
    TerminatedMatch(k, p, Ready);
    TerminatedMatch(k, p, Sleeping);
    ListWithout(k1.procs, k'.procs, k1.ready, Ready, p);
    ListWithout(k1.procs, k'.procs, k1.sleepers, Sleeping, p);
    WithoutAscending(k1.prio, k1.ready, {p});
  }

  lemma TerminatedWaits(k: Kernel, p: int)
    requires Terminable(k, p)
    ensures Waits(Terminated(k, p))
  {
    TerminatedTable(k, p);
    TerminatedStatus(k, p);
    DoomedFacts(k, p);
    var k', d := Terminated(k, p), DoomedSet(k, p);
    hide Terminated, DoomedSet, Without, Slots, Queues, Children, Records, LogTrue;
    forall i | 0 <= i < NBPROC && Alive(k'.procs[i])
      ensures if k'.procs[i].status == AwaitingChild then WaitsFor(k', i)
        else k'.procs[i].awaited == -1 || Finds(k', i, k'.procs[i].awaited)
    {
      assert Outlives(k, p, i, k'.procs[i]);
      assert Alive(k.procs[i]) && i != p;
      TerminatedWaiter(k, k', p, i, d);
    }
  }

  lemma TerminatedWaiter(k: Kernel, k': Kernel, p: int, i: int, d: set<int>)
    requires Terminable(k, p) && Shape(k') && Slot(i) && i != p && Alive(k.procs[i])
    requires p in d && k.procs[p].father !in d
    requires forall q | q in d && q != p :: Slot(q) && k.procs[q].status == Zombie && k.procs[q].father in d
    requires forall q | 0 <= q < NBPROC ::
      k'.procs[q] == (if Slot(k.procs[p].father) then Undertaken(k, p, d - {p}, q) else BuriedProc(k.procs[q], q, d))
    ensures if k'.procs[i].status == AwaitingChild then WaitsFor(k', i)
      else k'.procs[i].awaited == -1 || Finds(k', i, k'.procs[i].awaited)
  {
    hide Without, Slots, Queues, Children, Records, LogTrue;
    var w := k.procs[i].awaited;
    assert i !in d;
    assert if k.procs[i].status == AwaitingChild then WaitsFor(k, i) else w == -1 || Finds(k, i, w);
    assert Slot(w) && k.procs[w].father == i ==> w == p || w !in d;
  }

  lemma TerminatedConsistent(k: Kernel, p: int)
    requires Terminable(k, p)
    ensures Consistent(Terminated(k, p))
  {
    hide Terminated, Slots, Queues, Family, Waits, Records, LogTrue;
    TerminatedSlots(k, p);
    TerminatedQueues(k, p);
    TerminatedFamily(k, p);
    TerminatedWaits(k, p);
    TerminatedHistory(k, p);
  }

  // ---------- collecting a child ----------

  // The running process collects its zombie child c: at once, or because c has woken it.
  ghost predicate Collectable(k: Kernel, c: int) {
    && Consistent(k) && Slot(c) && k.procs[k.active].status == Running
    && k.procs[c].status == Zombie && k.procs[c].father == k.active
    && (k.procs[k.active].awaited == -1 || k.procs[k.active].awaited == c)
  }

  ghost function Released(k: Kernel, i: int): Proc
    requires Shape(k) && Slot(i)
  {
    if i == k.active then k.procs[i].(awaited := -1) else k.procs[i]
  }

  lemma CollectedTable(k: Kernel, c: int)
    requires Collectable(k, c)
    ensures var d, k' := DoomedSet(k, c), CollectedFrom(k, c);
      && (forall i | i in d :: Slot(i) && k.procs[i].status == Zombie)
      && (forall i | 0 <= i < NBPROC :: k'.procs[i] == BuriedProc(Released(k, i), i, d))
  {
    DoomedFacts(k, c);
    hide DoomedSet, Without, Slots, Queues, Waits, Records, LogTrue, Family;
  }

  // What becomes of a slot when a zombie is collected.
  ghost predicate Remains(p: Proc, q: Proc) {
    if q.status == Dead then q == FREE && (p.status == Zombie || p == FREE)
    else q.status == p.status && q.pid == p.pid && q.birth == p.birth && q.retval == p.retval
  }

  lemma CollectedRemains(k: Kernel, c: int)
    requires Collectable(k, c)
    ensures forall i | 0 <= i < NBPROC :: Remains(k.procs[i], CollectedFrom(k, c).procs[i])
    ensures CollectedFrom(k, c).procs[c].status == Dead
  {
    CollectedTable(k, c);
    DoomedFacts(k, c);
    hide DoomedSet, CollectedFrom, Without, Waits, Records, LogTrue, Family, Queues;
    var d := DoomedSet(k, c);
    WithoutNothing([], d);
  }

  lemma CollectedFrame(k: Kernel, c: int)
    requires Collectable(k, c)
    ensures var k' := CollectedFrom(k, c);
      && k'.log == k.log + [Collected(k.procs[c].birth, k.procs[c].retval)]
      && k'.ready == k.ready && k'.sleepers == k.sleepers && k'.prio == k.prio && k'.active == k.active
      && k'.born == k.born && k'.ended == k.ended && k'.clock == k.clock
  {
    hide DoomedSet, Without, Slots, Queues, Waits, Records, LogTrue, Family;
  }

  lemma CollectedSlots(k: Kernel, c: int)
    requires Collectable(k, c)
    ensures Slots(CollectedFrom(k, c)) && Queues(CollectedFrom(k, c))
  {
    CollectedFrame(k, c);
    CollectedRemains(k, c);
    hide CollectedFrom, Waits, Records, LogTrue, Family, Slots, Queues;
    RemainsSlots(k, CollectedFrom(k, c));
  }

  lemma RemainsSlots(k: Kernel, k': Kernel)
    requires Shape(k) && Shape(k') && Slots(k) && Queues(k)
    requires forall i | 0 <= i < NBPROC :: Remains(k.procs[i], k'.procs[i])
    requires k'.ready == k.ready && k'.sleepers == k.sleepers && k'.prio == k.prio && k'.active == k.active
    ensures Slots(k') && Queues(k')
  {
    hide Ascending, NoDup;
    forall i | 0 <= i < NBPROC
      ensures k.procs[i].status == Ready <==> k'.procs[i].status == Ready
      ensures k.procs[i].status == Sleeping <==> k'.procs[i].status == Sleeping
      ensures (k'.procs[i].status == Dead <==> k'.procs[i].pid == -1) && (k'.procs[i].pid == -1 || k'.procs[i].pid == i)
    {
      assert Remains(k.procs[i], k'.procs[i]);
    }
  }

  lemma CollectedFamily(k: Kernel, c: int)
    requires Collectable(k, c)
    ensures Family(CollectedFrom(k, c))
  {
    hide DoomedSet, Without, Slots, Queues, Waits, Records, LogTrue, Children, Bury;
    DoomedFacts(k, c);
    var k1 := Put(k, k.active, k.procs[k.active].(awaited := -1));
    var k2 := k1.(log := k.log + [Collected(k.procs[c].birth, k.procs[c].retval)]);
    FamilyKept(k, k2);
    BuryFamily(k2, DoomedSet(k, c));
  }

  lemma CollectedWaits(k: Kernel, c: int)
    requires Collectable(k, c)
    ensures Waits(CollectedFrom(k, c))
  {
    CollectedTable(k, c);
    CollectedRemains(k, c);
    DoomedFacts(k, c);
    hide DoomedSet, CollectedFrom, BuriedProc, Released, Slots, Queues, Records, LogTrue, Family, Waits;
    var d, k' := DoomedSet(k, c), CollectedFrom(k, c);
    forall i | 0 <= i < NBPROC && Alive(k'.procs[i])
      ensures if k'.procs[i].status == AwaitingChild then WaitsFor(k', i)
        else k'.procs[i].awaited == -1 || Finds(k', i, k'.procs[i].awaited)
    {
      assert Remains(k.procs[i], k'.procs[i]);
      CollectedWaiter(k, k', i, d);
    }
  }

  lemma CollectedWaiter(k: Kernel, k': Kernel, i: int, d: set<int>)
    requires Shape(k) && Waits(k) && Shape(k') && Slot(i) && Alive(k.procs[i])
    requires k.procs[k.active].status == Running
    requires forall q | q in d :: Slot(q) && k.procs[q].status == Zombie
    requires forall q | q in d :: Slot(q) && (k.procs[q].father in d || k.procs[q].father == k.active)
    requires forall q | 0 <= q < NBPROC :: k'.procs[q] == BuriedProc(Released(k, q), q, d)
    ensures if k'.procs[i].status == AwaitingChild then WaitsFor(k', i)
      else k'.procs[i].awaited == -1 || Finds(k', i, k'.procs[i].awaited)
  {
    hide Without;
    var w := k.procs[i].awaited;
    assert i !in d;
    assert if k.procs[i].status == AwaitingChild then WaitsFor(k, i) else w == -1 || Finds(k, i, w);
    assert i != k.active && Slot(w) && k.procs[w].father == i ==> w !in d;
  }

  lemma CollectedHistory(k: Kernel, c: int)
    requires Collectable(k, c)
    ensures Records(CollectedFrom(k, c), -1) && LogTrue(CollectedFrom(k, c))
  {
    CollectedFrame(k, c);
    CollectedRemains(k, c);
    hide CollectedFrom, Slots, Queues, Waits, Family, Records, LogTrue;
    RemainsHistory(k, CollectedFrom(k, c), c);
  }

  lemma RemainsHistory(k: Kernel, k': Kernel, c: int)
    requires Shape(k) && Shape(k') && Records(k, -1) && LogTrue(k)
    requires Slot(c) && k.procs[c].status == Zombie && k'.procs[c].status == Dead
    requires forall i | 0 <= i < NBPROC :: Remains(k.procs[i], k'.procs[i])
    requires k'.log == k.log + [Collected(k.procs[c].birth, k.procs[c].retval)]
    requires k'.born == k.born && k'.ended == k.ended
    ensures Records(k', -1) && LogTrue(k')
  {
    forall i | 0 <= i < NBPROC && k'.procs[i].status != Dead
      ensures k.procs[i].status == k'.procs[i].status && i != c
      ensures k'.procs[i].birth == k.procs[i].birth && k'.procs[i].retval == k.procs[i].retval
    {
      assert Remains(k.procs[i], k'.procs[i]);
    }
  }

  lemma CollectedConsistent(k: Kernel, c: int)
    requires Collectable(k, c)
    ensures Consistent(CollectedFrom(k, c))
  {
    hide CollectedFrom, Slots, Queues, Family, Waits, Records, LogTrue;
    CollectedSlots(k, c);
    CollectedFamily(k, c);
    CollectedWaits(k, c);
    CollectedHistory(k, c);
  }

  // ---------- steps that change one living process ----------

  ghost predicate SameRecord(p: Proc, p': Proc) {
    && p'.birth == p.birth && p'.retval == p.retval && p'.pid == p.pid
    && (p'.status == p.status || (Alive(p) && Alive(p')))
  }

  lemma RecordsKept(k: Kernel, k': Kernel)
    requires Shape(k) && Shape(k') && Records(k, -1) && LogTrue(k)
    requires forall i | 0 <= i < NBPROC :: SameRecord(k.procs[i], k'.procs[i])
    requires k'.born == k.born && k'.ended == k.ended && k'.log == k.log
    ensures Records(k', -1) && LogTrue(k')
  {
  }

  // The process i, alive before and after, changes its status and what it waits for.
  function Retagged(k: Kernel, i: int, status: Status, awaited: int, wake: nat): (k': Kernel)
    requires Shape(k) && Slot(i)
    ensures Shape(k')
  {
    Put(k, i, k.procs[i].(status := status, awaited := awaited, wake := wake))
  }

  lemma RetaggedKeeps(k: Kernel, i: int, status: Status, awaited: int, wake: nat)
    requires Shape(k) && Family(k) && Records(k, -1) && LogTrue(k) && Waits(k)
    requires Slot(i) && Alive(k.procs[i]) && status != Dead && status != Zombie
    ensures var k' := Retagged(k, i, status, awaited, wake);
      && Family(k') && Records(k', -1) && LogTrue(k')
      && forall j | 0 <= j < NBPROC && j != i && Alive(k.procs[j]) ::
        if k'.procs[j].status == AwaitingChild then WaitsFor(k', j)
        else k'.procs[j].awaited == -1 || Finds(k', j, k'.procs[j].awaited)
  {
    var k' := Retagged(k, i, status, awaited, wake);
    hide Family, Records, LogTrue;
    FamilyKept(k, k');
    RecordsKept(k, k');
  }

  // What the running process may wait for when waitpid blocks it.
  ghost predicate MayBlock(k: Kernel, awaited: int) {
    && Inv(k) && k.active != 0 && k.procs[k.active].awaited == -1
    && if awaited == -2 then forall c | 0 <= c < NBPROC && k.procs[c].father == k.active :: k.procs[c].status != Zombie
       else Slot(awaited) && k.procs[awaited].father == k.active && k.procs[awaited].status != Zombie
  }

  lemma BlockedConsistent(k: Kernel, awaited: int)
    requires MayBlock(k, awaited)
    ensures Consistent(Blocked(k, awaited))
  {
    hide NoDup, Ascending, Family, Records, LogTrue;
    var a, k' := k.active, Blocked(k, awaited);
    assert k' == Retagged(k, a, AwaitingChild, awaited, k.procs[a].wake);
    RetaggedKeeps(k, a, AwaitingChild, awaited, k.procs[a].wake);
    assert a !in k.ready && a !in k.sleepers;
  }

  lemma AsleepConsistent(k: Kernel, until: nat)
    requires Inv(k) && k.active != 0 && k.procs[k.active].awaited == -1
    ensures Consistent(Asleep(k, until))
  {
    hide NoDup, Ascending, Enqueue, Family, Records, LogTrue;
    var a, k' := k.active, Asleep(k, until);
    var k1 := Retagged(k, a, Sleeping, -1, until);
    assert k'.procs == k1.procs;
    RetaggedKeeps(k, a, Sleeping, -1, until);
    ListAdd(k.procs, k.sleepers, k.prio, a, k1.procs[a]);
    ListSame(k.procs, k1.procs, k.ready, Ready);
    ProcsDecide(k1, k');
  }

  // Family, waiting and history do not look at the lists.
  lemma ProcsDecide(k: Kernel, k': Kernel)
    requires Shape(k) && Shape(k') && k'.procs == k.procs
    requires k'.born == k.born && k'.ended == k.ended && k'.log == k.log
    ensures Family(k) ==> Family(k')
    ensures Records(k, -1) && LogTrue(k) ==> Records(k', -1) && LogTrue(k')
    ensures Waits(k) ==> Waits(k')
  {
  }

  lemma AwakeConsistent(k: Kernel, n: nat)
    requires Consistent(k) && n < |k.sleepers|
    ensures Consistent(Awake(k, n))
  {
    hide NoDup, Ascending, Enqueue, Without, Remove, Family, Records, LogTrue;
    var i, k' := k.sleepers[n], Awake(k, n);
    assert i in k.sleepers;
    var k1 := Retagged(k, i, Ready, k.procs[i].awaited, k.procs[i].wake);
    assert k'.procs == k1.procs;
    RetaggedKeeps(k, i, Ready, k.procs[i].awaited, k.procs[i].wake);
    WithoutIsRemove(k.sleepers, n);
    ListDrop(k.procs, k.sleepers, Sleeping, i, k1.procs[i]);
    ListAdd(k.procs, k.ready, k.prio, i, k1.procs[i]);
    ProcsDecide(k1, k');
  }

  // After tic_PIT's loop the kernel is consistent and no sleeper is overdue.
  lemma {:induction false} WakeDueConsistent(k: Kernel)
    requires Consistent(k)
    ensures Consistent(WakeDue(k)) && WakeDue(k).clock == k.clock
    ensures forall i | i in WakeDue(k).sleepers :: 0 <= i < NBPROC && WakeDue(k).procs[i].wake > k.clock
    decreases |k.sleepers|
  {
    hide Slots, Queues, Family, Waits, Records, LogTrue;
    var n := FirstDue(k.procs, k.clock, k.sleepers);
    if n < |k.sleepers| {
      AwakeConsistent(k, n);
      WakeDueConsistent(Awake(k, n));
    }
  }

  lemma ReprioritizedConsistent(k: Kernel, pid: int, newprio: int)
    requires Consistent(k) && Slot(pid)
    ensures Consistent(Reprioritized(k, pid, newprio))
  {
    hide NoDup, Enqueue, Without, Family, Waits, Records, LogTrue;
    var k', prio' := Reprioritized(k, pid, newprio), k.prio[pid := newprio];
    ProcsDecide(k, k');
    if k.procs[pid].status == Ready {
      WithoutNoDup(k.ready, {pid});
      WithoutInTable(NBPROC, k.ready, {pid});
      WithoutAscending(k.prio, k.ready, {pid});
      PrioUnseen(k.prio, Without(k.ready, {pid}), pid, newprio);
      EnqueueKeeps(prio', Without(k.ready, {pid}), pid);
      EnqueueAscending(prio', Without(k.ready, {pid}), pid);
    } else {
      PrioUnseen(k.prio, k.ready, pid, newprio);
    }
  }

  lemma PrioUnseen(prio: seq<int>, s: seq<int>, i: int, p: int)
    requires Ascending(prio, s) && 0 <= i < |prio| && i !in s
    ensures Ascending(prio[i := p], s)
  {
    assert forall j | 0 <= j < |s| :: s[j] in s;
  }

  // ---------- start ----------

  ghost predicate MayStart(k: Kernel, i: int) {
    Inv(k) && Slot(i) && k.procs[i].pid == -1
  }

  // The new process in slot i is a child of the running one; nothing else changes.
  ghost predicate Born(k: Kernel, k': Kernel, i: int)
    requires Shape(k) && Shape(k')
  {
    var a := k.active;
    && Slot(i) && i != a
    && k'.procs[i] == Proc(i, Ready, a, -1, 0, 0, [], k.born)
    && k'.procs[a] == k.procs[a].(children := k'.procs[a].children)
    && (forall j | 0 <= j < NBPROC && j != i && j != a :: k'.procs[j] == k.procs[j])
    && k'.born == k.born + 1 && k'.ended == k.ended && k'.log == k.log && k'.active == a
  }

  lemma StartedBorn(k: Kernel, i: int, prio: int)
    requires MayStart(k, i)
    ensures var k' := Started(k, i, prio);
      && Born(k, k', i) && k'.prio == k.prio[i := prio] && k'.sleepers == k.sleepers && k'.clock == k.clock
      && k'.ready == Enqueue(k'.prio, k.ready, i)
      && k'.procs[k.active].children == Enqueue(k'.prio, k.procs[k.active].children, i)
  {
    hide Enqueue, Queues, Family, Waits, Records, LogTrue;
  }

  lemma BornQueues(k: Kernel, k': Kernel, i: int)
    requires Shape(k) && Shape(k') && Born(k, k', i) && k.procs[i] == FREE && Queues(k)
    requires k'.prio[i := k.prio[i]] == k.prio && k'.sleepers == k.sleepers
    requires k'.ready == Enqueue(k'.prio, k.ready, i)
    ensures Queues(k')
  {
    hide Enqueue, Ascending, NoDup;
    PrioUnseen(k.prio, k.ready, i, k'.prio[i]);
    assert k.prio[i := k'.prio[i]] == k'.prio;
    ListAdd(k.procs, k.ready, k'.prio, i, k'.procs[i]);
    ListSame(k.procs[i := k'.procs[i]], k'.procs, k'.ready, Ready);
    ListSame(k.procs, k'.procs, k.sleepers, Sleeping);
  }

  lemma BornSlots(k: Kernel, k': Kernel, i: int)
    requires Shape(k) && Shape(k') && Born(k, k', i) && k.procs[i] == FREE && Slots(k)
    requires k.procs[k.active].status == Running
    ensures Slots(k')
  {
  }

  lemma BornFathers(k: Kernel, k': Kernel, i: int)
    requires Shape(k) && Shape(k') && Born(k, k', i) && k.procs[i] == FREE
    requires Slots(k) && Fathers(k) && Records(k, -1) && k.procs[k.active].status == Running
    ensures Fathers(k')
  {
  }

  lemma BornChildren(k: Kernel, k': Kernel, i: int)
    requires Shape(k) && Shape(k') && Born(k, k', i) && k.procs[i] == FREE
    requires Slots(k) && Fathers(k) && Children(k) && k.procs[k.active].status == Running
    requires NoDup(k'.procs[k.active].children)
    requires forall c :: c in k'.procs[k.active].children <==> c == i || c in k.procs[k.active].children
    ensures Children(k')
  {
    assert forall c | 0 <= c < NBPROC :: k.procs[c].father != i;
    hide Fathers, Slots;
  }

  lemma StartedFamily(k: Kernel, i: int, prio: int)
    requires MayStart(k, i)
    ensures Family(Started(k, i, prio))
  {
    StartedBorn(k, i, prio);
    var a, prio' := k.active, k.prio[i := prio];
    assert i !in k.procs[a].children;
    EnqueueKeeps(prio', k.procs[a].children, i);
    hide Started, Enqueue, NoDup, Queues, Waits, LogTrue, Born, Slots, Children, Fathers, Records;
    assert k.procs[i] == FREE by { FreeIsFREE(k, i); }
    BornFathers(k, Started(k, i, prio), i);
    BornChildren(k, Started(k, i, prio), i);
  }

  lemma FreeIsFREE(k: Kernel, i: int)
    requires Shape(k) && Slots(k) && Slot(i) && k.procs[i].pid == -1
    ensures k.procs[i] == FREE
  {
  }

  lemma BornWaits(k: Kernel, k': Kernel, i: int)
    requires Shape(k) && Shape(k') && Born(k, k', i) && k.procs[i] == FREE
    requires Waits(k) && k.procs[k.active].status == Running
    ensures Waits(k')
  {
    forall j | 0 <= j < NBPROC && Alive(k'.procs[j])
      ensures if k'.procs[j].status == AwaitingChild then WaitsFor(k', j)
        else k'.procs[j].awaited == -1 || Finds(k', j, k'.procs[j].awaited)
    {
      var w := k.procs[j].awaited;
      if j != i {
        assert if k.procs[j].status == AwaitingChild then WaitsFor(k, j) else w == -1 || Finds(k, j, w);
      }
    }
  }

  lemma BornHistory(k: Kernel, k': Kernel, i: int)
    requires Shape(k) && Shape(k') && Born(k, k', i) && k.procs[i] == FREE
    requires Records(k, -1) && LogTrue(k)
    ensures Records(k', -1) && LogTrue(k')
  {
  }

  lemma StartedConsistent(k: Kernel, i: int, prio: int)
    requires MayStart(k, i)
    ensures Consistent(Started(k, i, prio))
  {
    hide Started, Slots, Queues, Family, Waits, Records, LogTrue, Born;
    StartedBorn(k, i, prio);
    FreeIsFREE(k, i);
    BornQueues(k, Started(k, i, prio), i);
    BornSlots(k, Started(k, i, prio), i);
    StartedFamily(k, i, prio);
    BornWaits(k, Started(k, i, prio), i);
    BornHistory(k, Started(k, i, prio), i);
  }
}
