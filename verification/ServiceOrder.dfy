/**
 In which order processes of one priority are served (kernel/process.c, kernel/horloge.c): the
 place that start, chprio and wait_clock give a process on its list, and the order in which
 sleepers that are due on the same tick get ready.
 */
module ServiceOrder {
  import opened PriorityOrder
  import opened ProcessLists
  import opened ProcessModel
  import opened ProcessInvariants
  import opened ProcessRuns
  import opened ProcessTurns
  import opened ProcessCalls

  // ---------- the place in the ready list ----------

  // In the new list x is served after all others of its priority, and these keep their order.
  ghost predicate QueuedLast(list: seq<int>, list': seq<int>, prio: seq<int>, x: int)
    requires InTable(|prio|, list')
  {
    && x in list' && Without(list', {x}) == Without(list, {x})
    && forall m, n | 0 <= m < |list'| && 0 <= n < |list'| && list'[m] == x && list'[n] != x &&
         prio[list'[n]] == prio[x] :: m < n
  }

  lemma EnqueuedLast(prio: seq<int>, s: seq<int>, x: int)
    requires 0 <= x < |prio| && InTable(|prio|, s) && NoDup(s) && x !in s
    ensures QueuedLast(s, Enqueue(prio, s, x), prio, x)
  {
    EnqueuedOthers(prio, s, x);
    EnqueuedPlace(prio, s, x);
    EnqueueMembers(prio, s, x);
    hide Without, NoDup, Enqueue;
  }

  // Without the newcomer the list is the old one.
  lemma EnqueuedOthers(prio: seq<int>, s: seq<int>, x: int)
    requires 0 <= x < |prio| && InTable(|prio|, s) && NoDup(s) && x !in s
    ensures Without(Enqueue(prio, s, x), {x}) == Without(s, {x})
  {
    var i := InsertAt(PrioList(prio, s), prio[x]);
    EnqueueKeeps(prio, s, x);
    WithoutNothing(s, {x});
    hide NoDup, Without;
    WithoutIsRemove(Enqueue(prio, s, x), i);
    RemoveUndoesInsert(s, i, x);
  }

  lemma EnqueuedPlace(prio: seq<int>, s: seq<int>, x: int)
    requires 0 <= x < |prio| && InTable(|prio|, s) && x !in s
    ensures var r := Enqueue(prio, s, x);
      forall m, n | 0 <= m < |r| && 0 <= n < |r| && r[m] == x && r[n] != x && prio[r[n]] == prio[x] :: m < n
  {
    var i := InsertAt(PrioList(prio, s), prio[x]);
    InsertIndices(s, i, x);
    hide Insert;
    assert forall n | 0 <= n < i :: prio[s[n]] < prio[x] by {
      forall n | 0 <= n < i
        ensures prio[s[n]] < prio[x]
      {
        assert PrioList(prio, s)[n] == prio[s[n]];
      }
    }
  }

  // A ready process whose priority changes while the caller runs on goes behind its new equals.
  lemma ChPrioQueues(k: Kernel, pid: int, newprio: int)
    requires Inv(k) && Enabled(k, ChPrio(pid, newprio)) && MaySetPrio(k, pid, newprio) && k.prio[pid] != newprio
    requires k.procs[pid].status == Ready && After(k, ChPrio(pid, newprio)).active == k.active
    ensures var k' := After(k, ChPrio(pid, newprio)); QueuedLast(k.ready, k'.ready, k'.prio, pid)
  {
    hide Inv, After, Enabled, Schedule, QueuedLast, Reprioritized, Overtaken, MaySetPrio;
    ChPrioKeeps(k, pid, newprio);
    RequeuedLast(k, pid, newprio);
  }

  lemma ChPrioKeeps(k: Kernel, pid: int, newprio: int)
    requires Inv(k) && MaySetPrio(k, pid, newprio) && k.prio[pid] != newprio
    ensures Shape(k) && Queues(k) && Slot(pid)
    ensures After(k, ChPrio(pid, newprio)).active == k.active ==>
      After(k, ChPrio(pid, newprio)) == Reprioritized(k, pid, newprio)
  {
    hide Slots, Queues, Family, Waits, Records, LogTrue, Schedule, Fair, Reprioritized;
    var k1 := Reprioritized(k, pid, newprio);
    ReprioritizedConsistent(k, pid, newprio);
    ReprioritizedFrame(k, pid, newprio);
    if Overtaken(k1) {
      OvertakenSwitches(k1);
    }
  }

  lemma RequeuedLast(k: Kernel, pid: int, newprio: int)
    requires Shape(k) && Queues(k) && Slot(pid) && k.procs[pid].status == Ready
    ensures var k1 := Reprioritized(k, pid, newprio); QueuedLast(k.ready, k1.ready, k1.prio, pid)
  {
    var s := Without(k.ready, {pid});
    WithoutNoDup(k.ready, {pid});
    WithoutInTable(NBPROC, k.ready, {pid});
    WithoutNothing(s, {pid});
    EnqueuedLast(k.prio[pid := newprio], s, pid);
    hide Enqueue, NoDup, Ascending;
  }

  // So does a new process that does not run at once.
  lemma StartQueues(k: Kernel, prio: int)
    requires Inv(k) && Enabled(k, Start(prio)) && exists i :: 0 <= i < NBPROC && k.procs[i].pid == -1
    requires After(k, Start(prio)).active == k.active
    ensures var k' := After(k, Start(prio)); QueuedLast(k.ready, k'.ready, k'.prio, FirstFree(k.procs))
  {
    hide Family, Waits, Records, LogTrue, Started, Enqueue, NoDup, Ascending, QueuedLast;
    var i := FirstFreeSlot(k);
    assert i !in k.ready;
    var k1 := Started(k, i, prio);
    StartedConsistent(k, i, prio);
    StartedBorn(k, i, prio);
    EnqueuedLast(k1.prio, k.ready, i);
    SwitchedAway(k1);
  }

  lemma SwitchedAway(k: Kernel)
    requires Consistent(k) && k.procs[k.active].status == Running
    ensures Schedule(k).active == k.active ==> Schedule(k) == k
  {
    hide Family, Waits, Records, LogTrue, Enqueue, Slots, NoDup, Ascending;
    if !Stays(k) {
      assert k.ready[|k.ready| - 1] in k.ready;
    }
  }

  // ---------- sleepers that wake up on the same tick ----------

  // x is served before y.
  ghost predicate ServedBefore(list: seq<int>, x: int, y: int) {
    exists i, j :: 0 <= i < j < |list| && list[i] == y && list[j] == x
  }

  lemma InsertKeepsBefore(list: seq<int>, n: nat, z: int, x: int, y: int)
    requires n <= |list| && ServedBefore(list, x, y)
    ensures ServedBefore(Insert(list, n, z), x, y)
  {
    var r := Insert(list, n, z);
    var i, j :| 0 <= i < j < |list| && list[i] == y && list[j] == x;
    var i', j' := if i < n then i else i + 1, if j < n then j else j + 1;
    assert r[i'] == y && r[j'] == x;
  }

  lemma RemoveKeepsBefore(list: seq<int>, n: nat, x: int, y: int)
    requires n < |list| && ServedBefore(list, x, y) && list[n] != x && list[n] != y
    ensures ServedBefore(Remove(list, n), x, y)
  {
    var r := Remove(list, n);
    var i, j :| 0 <= i < j < |list| && list[i] == y && list[j] == x;
    var i', j' := if i < n then i else i - 1, if j < n then j else j - 1;
    assert r[i'] == y && r[j'] == x;
  }

  // Whoever is ready in this order stays so while others wake up.
  lemma {:induction false} WakingKeepsBefore(k: Kernel, x: int, y: int)
    requires Consistent(k) && ServedBefore(k.ready, x, y)
    ensures ServedBefore(WakeDue(k).ready, x, y)
    decreases |k.sleepers|
  {
    hide Slots, Queues, Family, Waits, Records, LogTrue, Insert;
    var n := FirstDue(k.procs, k.clock, k.sleepers);
    if n < |k.sleepers| {
      AwakeConsistent(k, n);
      InsertKeepsBefore(k.ready, InsertAt(PrioList(k.prio, k.ready), k.prio[k.sleepers[n]]), k.sleepers[n], x, y);
      WakingKeepsBefore(Awake(k, n), x, y);
    }
  }

  // A due sleeper gets behind its equals that are ready.
  lemma {:induction false} WakesBehind(k: Kernel, x: int, y: int)
    requires Consistent(k) && x in k.ready && y in k.sleepers && Slot(x) && Slot(y) && k.prio[x] == k.prio[y]
    requires k.procs[y].wake <= k.clock
    ensures ServedBefore(WakeDue(k).ready, x, y)
    decreases |k.sleepers|
  {
    hide Slots, Queues, Family, Waits, Records, LogTrue, Insert, Remove, ServedBefore;
    var n := FirstDue(k.procs, k.clock, k.sleepers);
    var m :| 0 <= m < |k.sleepers| && k.sleepers[m] == y;
    AwakeConsistent(k, n);
    if n == m {
      EnqueuedBefore(k.prio, k.ready, x, y);
      WakingKeepsBefore(Awake(k, n), x, y);
    } else {
      StillAsleep(k, n, m);
      EnqueueMembers(k.prio, k.ready, k.sleepers[n]);
      WakesBehind(Awake(k, n), x, y);
    }
  }

  lemma EnqueuedBefore(prio: seq<int>, r: seq<int>, x: int, y: int)
    requires x in r && 0 <= x < |prio| && 0 <= y < |prio| && prio[x] == prio[y] && InTable(|prio|, r)
    ensures ServedBefore(Enqueue(prio, r, y), x, y)
  {
    var i := InsertAt(PrioList(prio, r), prio[y]);
    var j :| 0 <= j < |r| && r[j] == x;
    EnqueueBehind(prio, r, y, x, j);
    assert j >= i;
    assert Enqueue(prio, r, y)[i] == y && Enqueue(prio, r, y)[j + 1] == x;
  }

  lemma StillAsleep(k: Kernel, n: nat, m: nat)
    requires Consistent(k) && n < |k.sleepers| && m < |k.sleepers| && n != m
    ensures k.sleepers[m] in Awake(k, n).sleepers && k.sleepers[m] != k.sleepers[n]
    ensures Awake(k, n).procs[k.sleepers[m]] == k.procs[k.sleepers[m]]
  {
    hide Family, Waits, Records, LogTrue, Enqueue, Slots, Ascending;
    RemoveIndices(k.sleepers, n);
    assert Remove(k.sleepers, n)[if m < n then m else m - 1] == k.sleepers[m];
  }

  // Of two sleepers of one priority that are due on the same tick, the one in front on the clock
  // list is served first.
  lemma {:induction false} FrontWakesFirst(k: Kernel, x: int, y: int)
    requires Consistent(k) && ServedBefore(k.sleepers, y, x) && Slot(x) && Slot(y) && k.prio[x] == k.prio[y]
    requires k.procs[x].wake <= k.clock && k.procs[y].wake <= k.clock
    ensures ServedBefore(WakeDue(k).ready, x, y)
    decreases |k.sleepers|
  {
    hide Slots, Queues, Family, Waits, Records, LogTrue, Insert, Remove, Enqueue;
    var n := FirstDue(k.procs, k.clock, k.sleepers);
    var i, j :| 0 <= i < j < |k.sleepers| && k.sleepers[i] == x && k.sleepers[j] == y;
    AwakeConsistent(k, n);
    StillAsleep(k, n, j);
    if n == i {
      EnqueueMembers(k.prio, k.ready, x);
      WakesBehind(Awake(k, n), x, y);
    } else {
      StillAsleep(k, n, i);
      RemoveKeepsBefore(k.sleepers, n, y, x);
      FrontWakesFirst(Awake(k, n), x, y);
    }
  }

  // wait_clock puts the caller in front of the sleepers of its priority. So among equals that are
  // due on the same tick the last to fall asleep is served first.
  lemma SleepsInFront(k: Kernel, until: nat)
    requires Inv(k) && Enabled(k, WaitClock(until))
    ensures var k' := After(k, WaitClock(until)); QueuedLast(k.sleepers, k'.sleepers, k'.prio, k.active)
  {
    hide Slots, Family, Waits, Records, LogTrue, Fair, Schedule, NoDup, Ascending, Enqueue, QueuedLast;
    RunningIsActive(k);
    EnqueuedLast(k.prio, k.sleepers, k.active);
    AsleepConsistent(k, until);
    Scheduled(Asleep(k, until));
  }

  lemma LastAsleepFirst(k: Kernel, a: int, b: int)
    requires Inv(k) && ServedBefore(k.sleepers, b, a) && Slot(a) && Slot(b) && k.prio[a] == k.prio[b]
    requires k.procs[a].wake <= k.clock + 1 && k.procs[b].wake <= k.clock + 1
    ensures var k' := After(k, Tick); k'.active == a || ServedBefore(k'.ready, a, b)
  {
    hide Slots, Queues, Family, Waits, Records, LogTrue, Fair, Schedule, WakeDue, ServedBefore;
    var k1 := k.(clock := k.clock + 1);
    ClockUnseen(k, k1);
    FrontWakesFirst(k1, a, b);
    WakeDueConsistent(k1);
    FirstRuns(WakeDue(k1), a, b);
  }

  // The first in line runs, or is still served before the others.
  lemma FirstRuns(k: Kernel, a: int, b: int)
    requires Consistent(k) && ServedBefore(k.ready, a, b)
    ensures var k' := Schedule(k); k'.active == a || ServedBefore(k'.ready, a, b)
  {
    hide Slots, Family, Waits, Records, LogTrue, Insert, Ascending;
    var i, j :| 0 <= i < j < |k.ready| && k.ready[i] == b && k.ready[j] == a;
    var r := k.ready[..|k.ready| - 1];
    if !Stays(k) && j < |r| {
      assert r[i] == b && r[j] == a;
      assert k.ready[|k.ready| - 1] in k.ready;
      if k.procs[k.active].status == Running {
        InsertKeepsBefore(r, InsertAt(PrioList(k.prio, r), k.prio[k.active]), k.active, a, b);
      }
    }
  }
}
