/**
 What each system call and the clock tick do to the process table (kernel/process.c,
 kernel/horloge.c), field by field and in every state that satisfies the invariant.
 */
module ProcessCalls {
  import opened PriorityOrder
  import opened ProcessLists
  import opened ProcessModel
  import opened ProcessInvariants
  import opened ProcessRuns
  import opened ProcessTurns

  // At most whether the process is ready or runs has changed.
  ghost predicate Same(p: Proc, q: Proc) {
    q == p.(status := q.status) && (q.status == p.status || (Runnable(p) && Runnable(q)))
  }

  // It runs, is ready, sleeps or waits.
  ghost predicate Lives(p: Proc) {
    p.status == Running || p.status == Ready || p.status == Sleeping || p.status == AwaitingChild
  }

  ghost predicate OthersSame(k: Kernel, k': Kernel, d: set<int>)
    requires Shape(k) && Shape(k')
  {
    forall i | 0 <= i < NBPROC && i !in d :: Same(k.procs[i], k'.procs[i])
  }

  // What the choice of the next process leaves alone.
  lemma Scheduled(k: Kernel)
    requires Consistent(k)
    ensures var k' := Schedule(k);
      && Inv(k') && OthersSame(k, k', {}) && k'.prio == k.prio && k'.sleepers == k.sleepers && k'.clock == k.clock
      && k'.log == k.log && k'.ended == k.ended && k'.born == k.born
  {
    hide Slots, Queues, Family, Waits, Records, LogTrue, Schedule, Fair;
    ScheduleInv(k);
    ScheduleQueues(k);
    ScheduleStatus(k);
  }

  // Every ready process has a lower priority than a.
  ghost predicate Outranks(k: Kernel, a: int)
    requires Shape(k) && Slot(a)
  {
    forall r | 0 <= r < NBPROC && k.procs[r].status == Ready :: k.prio[r] < k.prio[a]
  }

  // The running process keeps the processor exactly if it outranks every ready one: it yields to
  // an equal.
  lemma ScheduleYields(k: Kernel)
    requires Consistent(k) && k.procs[k.active].status == Running
    ensures Schedule(k).active == k.active <==> Outranks(k, k.active)
  {
    hide Family, Waits, Records, LogTrue, Slots, NoDup, Enqueue;
    if k.ready != [] {
      LastIsHighest(k.prio, k.ready);
      assert k.ready[|k.ready| - 1] in k.ready;
    }
  }

  // ---------- waitpid ----------

  // The child at position n is the first zombie in the caller's list of children.
  ghost predicate FirstZombieAt(k: Kernel, n: int)
    requires Shape(k)
  {
    var kids := k.procs[k.active].children;
    && 0 <= n < |kids| && k.procs[kids[n]].status == Zombie
    && forall m | 0 <= m < n :: k.procs[kids[m]].status != Zombie
  }

  // What waitpid(pid) may collect at once: for a negative pid the first zombie among the children,
  // else the child of that number if it is a zombie.
  ghost predicate ToCollect(k: Kernel, pid: int, c: int)
    requires Shape(k)
  {
    if pid < 0 then exists n :: FirstZombieAt(k, n) && c == k.procs[k.active].children[n]
    else c == pid && Slot(c) && k.procs[c].father == k.active && k.procs[c].status == Zombie
  }

  // There is nobody to wait for.
  ghost predicate NoSuchChild(k: Kernel, pid: int)
    requires Shape(k)
  {
    || k.procs[k.active].children == [] || pid == k.active
    || (pid >= 0 && (pid >= NBPROC || k.procs[pid].father != k.active))
  }

  // The caller hands out the value of its zombie c, whose slot is free afterwards.
  ghost predicate HandsOut(k: Kernel, k': Kernel, c: int)
    requires Shape(k) && Shape(k') && Slot(c)
  {
    && k'.log == k.log + [Collected(k.procs[c].birth, k.procs[c].retval)] && k'.procs[c] == FREE
    && k'.procs[k.active].awaited == -1 && Runnable(k'.procs[k.active]) && c !in k'.procs[k.active].children
    && k'.prio == k.prio && k'.sleepers == k.sleepers && k'.clock == k.clock && k'.born == k.born
    && (forall i | 0 <= i < NBPROC && Alive(k.procs[i]) ::
          Alive(k'.procs[i]) && k'.procs[i].birth == k.procs[i].birth && Orphaned(k, k', i))
    && FreedBelow(k, k', c)
  }

  // The father of i is the one it had, unless his slot has been freed.
  ghost predicate Orphaned(k: Kernel, k': Kernel, i: int)
    requires Shape(k) && Shape(k') && Slot(i)
  {
    var f := k.procs[i].father;
    k'.procs[i].father == if Slot(f) && k'.procs[f].status == Dead then -1 else f
  }

  // Exactly the zombies below p, through zombies only, have been freed.
  ghost predicate FreedBelow(k: Kernel, k': Kernel, p: int)
    requires Shape(k) && Shape(k')
  {
    forall i | 0 <= i < NBPROC && i != p && k.procs[i].status == Zombie ::
      var f := k.procs[i].father;
      k'.procs[i].status == Dead <==> f == p || (Slot(f) && k'.procs[f].status == Dead)
  }

  lemma {:induction false} FirstZombieIs(procs: seq<Proc>, kids: seq<int>, n: nat)
    requires InTable(|procs|, kids) && n < |kids| && procs[kids[n]].status == Zombie
    requires forall m | 0 <= m < n :: procs[kids[m]].status != Zombie
    ensures FirstZombie(procs, kids) == kids[n]
  {
    if n > 0 {
      FirstZombieIs(procs, kids[1..], n - 1);
    }
  }

  // The caller's zombies are children of its list.
  lemma OutcomeCollects(k: Kernel, pid: int, c: int)
    requires Inv(k) && Enabled(k, WaitPid(pid)) && ToCollect(k, pid, c)
    ensures WaitOutcome(k, pid) == Collects(c) && Collectable(k, c)
  {
    hide Slots, Queues, Waits, Records, LogTrue;
    if pid < 0 {
      var n :| FirstZombieAt(k, n) && c == k.procs[k.active].children[n];
      FirstZombieIs(k.procs, k.procs[k.active].children, n);
      assert c in k.procs[k.active].children;
    } else {
      assert c in k.procs[k.active].children;
    }
  }

  lemma ZombieFound(k: Kernel, pid: int)
    requires Shape(k) && pid < 0 && FirstZombie(k.procs, k.procs[k.active].children) != -1
    ensures exists c :: ToCollect(k, pid, c)
  {
    var kids := k.procs[k.active].children;
    var n := FirstIndex(k.procs, kids);
    assert FirstZombieAt(k, n) && ToCollect(k, pid, kids[n]);
  }

  lemma OutcomeBlocks(k: Kernel, pid: int)
    requires Inv(k) && Enabled(k, WaitPid(pid)) && !NoSuchChild(k, pid)
    requires forall c :: !ToCollect(k, pid, c)
    ensures WaitOutcome(k, pid) == Blocks(if pid < 0 then -2 else pid) && MayBlock(k, if pid < 0 then -2 else pid)
  {
    hide Slots, Queues, Waits, Records, LogTrue;
    if pid < 0 {
      var kids := k.procs[k.active].children;
      var c := FirstZombie(k.procs, kids);
      if c != -1 {
        ZombieFound(k, pid);
      }
    } else {
      assert !ToCollect(k, pid, pid);
    }
  }

  lemma {:induction false} FirstIndex(procs: seq<Proc>, kids: seq<int>) returns (n: nat)
    requires InTable(|procs|, kids) && FirstZombie(procs, kids) != -1
    ensures n < |kids| && procs[kids[n]].status == Zombie && forall m | 0 <= m < n :: procs[kids[m]].status != Zombie
  {
    n := 0;
    if procs[kids[0]].status != Zombie {
      n := FirstIndex(procs, kids[1..]);
      n := n + 1;
    }
  }

  // The three ways in which waitpid may go on.
  lemma OutcomeMeans(k: Kernel, pid: int)
    requires Inv(k) && Enabled(k, WaitPid(pid))
    ensures WaitOutcome(k, pid).Fails? <==> NoSuchChild(k, pid)
    ensures WaitOutcome(k, pid).Blocks? <==> !NoSuchChild(k, pid) && forall c :: !ToCollect(k, pid, c)
    ensures forall c :: ToCollect(k, pid, c) ==> WaitOutcome(k, pid) == Collects(c)
  {
    hide Slots, Queues, Family, Waits, Records, LogTrue, Fair, ToCollect;
    forall c | ToCollect(k, pid, c)
      ensures WaitOutcome(k, pid) == Collects(c)
    {
      OutcomeCollects(k, pid, c);
    }
    if !NoSuchChild(k, pid) && forall c :: !ToCollect(k, pid, c) {
      OutcomeBlocks(k, pid);
    }
  }

  // When the zombie has been destroyed.
  lemma CollectedOut(k: Kernel, c: int)
    requires Collectable(k, c)
    ensures HandsOut(k, CollectedFrom(k, c), c)
  {
    var k1 := CollectedFrom(k, c);
    CollectedFrame(k, c);
    CollectedRemains(k, c);
    CollectedTable(k, c);
    DoomedFacts(k, c);
    hide Slots, Queues, Family, Waits, Records, LogTrue, CollectedFrom, DoomedSet, Without;
    assert Remains(k.procs[c], k1.procs[c]);
    forall i | 0 <= i < NBPROC && Alive(k.procs[i])
      ensures Alive(k1.procs[i]) && k1.procs[i].birth == k.procs[i].birth
    {
      assert Remains(k.procs[i], k1.procs[i]);
    }
    CollectedFreed(k, c);
  }

  lemma CollectedFreed(k: Kernel, c: int)
    requires Collectable(k, c)
    ensures FreedBelow(k, CollectedFrom(k, c), c)
    ensures forall i | 0 <= i < NBPROC && Alive(k.procs[i]) :: Orphaned(k, CollectedFrom(k, c), i)
  {
    var k1, d := CollectedFrom(k, c), DoomedSet(k, c);
    DoomedClosed(k, c, d);
    hide Slots, Queues, Waits, Records, LogTrue, CollectedFrom, DoomedSet, Children, AsBuried, Orphaned, FreedBelow;
    forall i | 0 <= i < NBPROC
      ensures AsBuried(k.procs[i], k1.procs[i], i, d)
    {
      CollectedBuried(k, c, i);
    }
    BuriedFreed(k, k1, c, d);
    hide Fathers;
  }

  // The slots freed with p, with or without p itself: zombies below it, and all of them.
  lemma DoomedClosed(k: Kernel, p: int, d: set<int>)
    requires Shape(k) && Family(k) && Slot(p) && (d == DoomedSet(k, p) || d == DoomedSet(k, p) - {p})
    ensures forall q | q in d && q != p :: Slot(q) && k.procs[q].status == Zombie && (k.procs[q].father in d + {p})
    ensures forall q | 0 <= q < NBPROC && k.procs[q].status == Zombie && k.procs[q].father in d + {p} :: q in d + {p}
  {
    DoomedFacts(k, p);
    hide DoomedSet, Fathers, Children;
  }

  lemma CollectedBuried(k: Kernel, c: int, i: int)
    requires Collectable(k, c) && 0 <= i < NBPROC
    ensures AsBuried(k.procs[i], CollectedFrom(k, c).procs[i], i, DoomedSet(k, c))
  {
    CollectedTable(k, c);
    hide *;
    ReleasedBuried(k, i, DoomedSet(k, c));
  }

  lemma ReleasedBuried(k: Kernel, i: int, d: set<int>)
    requires Shape(k) && Slot(i)
    ensures AsBuried(k.procs[i], BuriedProc(Released(k, i), i, d), i, d)
  {
    hide Without;
  }

  // What burying the slots in d makes of the one numbered i.
  ghost predicate AsBuried(p: Proc, q: Proc, i: int, d: set<int>) {
    && (p.status != Dead ==> (q.status == Dead <==> i in d))
    && (i !in d ==> q.father == if p.father in d then -1 else p.father)
  }

  lemma BuriedFreed(k: Kernel, k1: Kernel, p: int, d: set<int>)
    requires Shape(k) && Shape(k1) && Fathers(k)
    requires forall i | 0 <= i < NBPROC :: AsBuried(k.procs[i], k1.procs[i], i, d)
    requires forall q | q in d && q != p :: Slot(q) && k.procs[q].status == Zombie && (k.procs[q].father in d + {p})
    requires forall q | 0 <= q < NBPROC && k.procs[q].status == Zombie && k.procs[q].father in d + {p} :: q in d + {p}
    ensures FreedBelow(k, k1, p)
    ensures forall i | 0 <= i < NBPROC && Alive(k.procs[i]) && i != p :: Orphaned(k, k1, i)
  {
    forall i | 0 <= i < NBPROC && i != p && k.procs[i].status == Zombie
      ensures var f := k.procs[i].father;
        k1.procs[i].status == Dead <==> f == p || (Slot(f) && k1.procs[f].status == Dead)
    {
      var f := k.procs[i].father;
      assert AsBuried(k.procs[i], k1.procs[i], i, d) && AsBuried(k.procs[f], k1.procs[f], f, d);
    }
    forall i | 0 <= i < NBPROC && Alive(k.procs[i]) && i != p
      ensures Orphaned(k, k1, i)
    {
      assert AsBuried(k.procs[i], k1.procs[i], i, d);
      var f := k.procs[i].father;
      assert Slot(f) ==> AsBuried(k.procs[f], k1.procs[f], f, d);
    }
  }

  lemma ThenScheduled(k: Kernel, k1: Kernel, c: int)
    requires Shape(k) && Consistent(k1) && Slot(c) && HandsOut(k, k1, c)
    ensures HandsOut(k, Schedule(k1), c)
  {
    hide Slots, Queues, Family, Waits, Records, LogTrue, Schedule, Fair;
    Scheduled(k1);
    var k' := Schedule(k1);
    assert Same(k1.procs[c], k'.procs[c]) && Same(k1.procs[k.active], k'.procs[k.active]);
    ScheduledFreed(k, k1, k', c);
  }

  // Who is dead and who is whose father is not changed by ordonnancer.
  lemma ScheduledFreed(k: Kernel, k1: Kernel, k': Kernel, p: int)
    requires Shape(k) && Shape(k1) && Shape(k') && OthersSame(k1, k', {})
    ensures FreedBelow(k, k1, p) ==> FreedBelow(k, k', p)
    ensures forall i | 0 <= i < NBPROC && Alive(k1.procs[i]) ::
      Alive(k'.procs[i]) && k'.procs[i].birth == k1.procs[i].birth && (Orphaned(k, k1, i) ==> Orphaned(k, k', i))
  {
    forall i | 0 <= i < NBPROC
      ensures k'.procs[i].status == Dead <==> k1.procs[i].status == Dead
      ensures k'.procs[i].father == k1.procs[i].father && (Alive(k'.procs[i]) <==> Alive(k1.procs[i]))
    {
      assert Same(k1.procs[i], k'.procs[i]);
    }
  }

  lemma CollectedHandsOut(k: Kernel, c: int)
    requires Collectable(k, c)
    ensures HandsOut(k, Schedule(CollectedFrom(k, c)), c)
  {
    hide Slots, Queues, Family, Waits, Records, LogTrue, HandsOut, Schedule, CollectedFrom;
    CollectedConsistent(k, c);
    CollectedOut(k, c);
    ThenScheduled(k, CollectedFrom(k, c), c);
  }

  // waitpid hands out the first zombie among the children, or the zombie child asked for.
  lemma WaitPidCollects(k: Kernel, pid: int, c: int)
    requires Inv(k) && Enabled(k, WaitPid(pid)) && ToCollect(k, pid, c)
    ensures Slot(c) && HandsOut(k, After(k, WaitPid(pid)), c)
  {
    hide Inv, HandsOut, Schedule, CollectedFrom, Collectable, WaitOutcome;
    OutcomeCollects(k, pid, c);
    CollectedHandsOut(k, c);
  }

  // Without one, and with a child to wait for, the caller waits for that child or any child.
  lemma WaitPidBlocks(k: Kernel, pid: int)
    requires Inv(k) && Enabled(k, WaitPid(pid)) && !NoSuchChild(k, pid) && forall c :: !ToCollect(k, pid, c)
    ensures var a, k' := k.active, After(k, WaitPid(pid));
      && k'.procs[a] == k.procs[a].(status := AwaitingChild, awaited := if pid < 0 then -2 else pid)
      && OthersSame(k, k', {a}) && k'.active != a && k'.log == k.log && k'.prio == k.prio && k'.sleepers == k.sleepers
      && k'.clock == k.clock && k'.ended == k.ended && k'.born == k.born
  {
    hide Slots, Queues, Family, Waits, Records, LogTrue, Fair, Schedule, WaitOutcome, ToCollect, NoSuchChild, MayBlock;
    OutcomeBlocks(k, pid);
    var awaited := if pid < 0 then -2 else pid;
    var k1 := Blocked(k, awaited);
    BlockedConsistent(k, awaited);
    Scheduled(k1);
    assert Same(k1.procs[k.active], Schedule(k1).procs[k.active]);
    RunningIsActive(Schedule(k1));
    forall i | 0 <= i < NBPROC && i != k.active
      ensures Same(k.procs[i], Schedule(k1).procs[i])
    {
      assert Same(k1.procs[i], Schedule(k1).procs[i]);
    }
  }

  lemma RunningIsActive(k: Kernel)
    requires Inv(k)
    ensures k.procs[k.active].status == Running
  {
    hide Slots, Queues, Family, Waits, Records, LogTrue;
  }

  // Nothing changes exactly if there is nobody to wait for.
  lemma WaitPidFails(k: Kernel, pid: int)
    requires Inv(k) && Enabled(k, WaitPid(pid))
    ensures After(k, WaitPid(pid)) == k <==> NoSuchChild(k, pid)
  {
    hide Slots, Queues, Family, Waits, Records, LogTrue, Fair, Schedule;
    if !NoSuchChild(k, pid) {
      if c :| ToCollect(k, pid, c) {
        WaitPidCollects(k, pid, c);
      } else {
        WaitPidBlocks(k, pid);
        RunningIsActive(k);
      }
    }
  }

  // The rest of a waitpid that has blocked hands out the child that woke the caller.
  lemma ResumeHands(k: Kernel)
    requires Inv(k) && Enabled(k, Resume)
    ensures var c := k.procs[k.active].awaited;
      Slot(c) && k.procs[c].father == k.active && k.procs[c].status == Zombie && HandsOut(k, After(k, Resume), c)
  {
    hide Inv, HandsOut, Schedule, CollectedFrom;
    ResumeCollects(k);
    CollectedHandsOut(k, k.procs[k.active].awaited);
    hide Consistent;
  }

  // ---------- wait_clock and the tick ----------

  // The caller sleeps until the clock shows the time asked for, whatever it shows now.
  lemma WaitClockSleeps(k: Kernel, until: nat)
    requires Inv(k) && Enabled(k, WaitClock(until))
    ensures var a, k' := k.active, After(k, WaitClock(until));
      && k'.procs[a] == k.procs[a].(status := Sleeping, wake := until) && a in k'.sleepers
      && OthersSame(k, k', {a}) && k'.active != a && k'.prio == k.prio && k'.clock == k.clock
      && k'.log == k.log && k'.ended == k.ended && k'.born == k.born
  {
    hide Slots, Family, Waits, Records, LogTrue, Fair, Schedule, NoDup, Ascending, Enqueue;
    var k1 := Asleep(k, until);
    AsleepConsistent(k, until);
    Scheduled(k1);
    assert Same(k1.procs[k.active], Schedule(k1).procs[k.active]);
    RunningIsActive(Schedule(k1));
    forall i | 0 <= i < NBPROC && i != k.active
      ensures Same(k.procs[i], Schedule(k1).procs[i])
    {
      assert Same(k1.procs[i], Schedule(k1).procs[i]);
    }
  }

  // What a tick makes of a process: a sleeper whose time has come gets ready or runs.
  ghost predicate Ticked(p: Proc, q: Proc, clock: nat) {
    if p.status == Sleeping && p.wake <= clock then q == p.(status := q.status) && Runnable(q) else Same(p, q)
  }

  lemma {:induction false} WakeDueAll(k: Kernel)
    requires Consistent(k)
    ensures WakeDue(k).active == k.active && WakeDue(k).born == k.born
    ensures forall i | 0 <= i < NBPROC :: Ticked(k.procs[i], WakeDue(k).procs[i], k.clock)
    decreases |k.sleepers|
  {
    hide Slots, Family, Waits, Records, LogTrue, Ascending, NoDup;
    var n := FirstDue(k.procs, k.clock, k.sleepers);
    if n < |k.sleepers| {
      var k1 := Awake(k, n);
      AwakeConsistent(k, n);
      WakeDueAll(k1);
      assert k.sleepers[n] in k.sleepers;
      forall i | 0 <= i < NBPROC
        ensures Ticked(k.procs[i], WakeDue(k).procs[i], k.clock)
      {
        assert Ticked(k1.procs[i], WakeDue(k1).procs[i], k1.clock);
        assert i != k.sleepers[n] ==> k1.procs[i] == k.procs[i];
      }
    } else {
      forall i | 0 <= i < NBPROC
        ensures Ticked(k.procs[i], k.procs[i], k.clock)
      {
        if k.procs[i].status == Sleeping {
          var j :| 0 <= j < |k.sleepers| && k.sleepers[j] == i;
        }
      }
    }
  }

  // Waking sleepers does not touch the running process.
  lemma {:induction false} RunningThrough(k: Kernel)
    requires Consistent(k) && k.procs[k.active].status == Running
    ensures WakeDue(k).active == k.active && WakeDue(k).procs[k.active].status == Running
    decreases |k.sleepers|
  {
    hide Slots, Family, Waits, Records, LogTrue, Ascending, NoDup;
    var n := FirstDue(k.procs, k.clock, k.sleepers);
    if n < |k.sleepers| {
      AwakeConsistent(k, n);
      assert k.sleepers[n] in k.sleepers;
      RunningThrough(Awake(k, n));
    }
  }

  // A tick advances the clock by one and wakes exactly the sleepers whose time has come.
  lemma TickWakes(k: Kernel)
    requires Inv(k)
    ensures var k' := After(k, Tick);
      && Inv(k') && k'.clock == k.clock + 1 && k'.prio == k.prio
      && k'.log == k.log && k'.ended == k.ended && k'.born == k.born
      && forall i | 0 <= i < NBPROC :: Ticked(k.procs[i], k'.procs[i], k.clock + 1)
  {
    hide Slots, Queues, Family, Waits, Records, LogTrue, Fair, Schedule, WakeDue;
    var k1 := k.(clock := k.clock + 1);
    ClockUnseen(k, k1);
    WakeDueConsistent(k1);
    WakeDueAll(k1);
    WakeDuePrio(k1);
    WakeDueGrows(k1);
    Scheduled(WakeDue(k1));
    forall i | 0 <= i < NBPROC
      ensures Ticked(k.procs[i], Schedule(WakeDue(k1)).procs[i], k.clock + 1)
    {
      assert Ticked(k1.procs[i], WakeDue(k1).procs[i], k1.clock);
      assert Same(WakeDue(k1).procs[i], Schedule(WakeDue(k1)).procs[i]);
    }
  }

  // A process asleep until some time is asleep after n ticks exactly if that is still to come.
  lemma {:induction false} SleepsOn(k: Kernel, a: int, n: nat)
    requires Inv(k) && Slot(a) && k.procs[a].status == Sleeping && n > 0
    ensures var k' := AfterAll(k, Ticks(n));
      && Inv(k') && k'.clock == k.clock + n && k'.procs[a] == k.procs[a].(status := k'.procs[a].status)
      && (k'.procs[a].status == Sleeping || Runnable(k'.procs[a]))
      && (k'.procs[a].status == Sleeping <==> k.procs[a].wake > k.clock + n)
  {
    hide Slots, Queues, Family, Waits, Records, LogTrue, Fair, After, AfterAll;
    TicksEnd(k, n - 1);
    var k1 := AfterAll(k, Ticks(n - 1));
    if n == 1 {
      TicksEnd(k, 0);
    } else {
      SleepsOn(k, a, n - 1);
    }
    TickInv(k1);
    TickWakes(k1);
    assert Ticked(k1.procs[a], After(k1, Tick).procs[a], k1.clock + 1);
  }

  // wait_clock(until) at any clock: after n ticks, and at least one, the caller still sleeps
  // if and only if until is later than that.
  lemma SleepsUntil(k: Kernel, until: nat, n: nat)
    requires Inv(k) && Enabled(k, WaitClock(until)) && n > 0
    ensures AfterAll(After(k, WaitClock(until)), Ticks(n)).procs[k.active].status == Sleeping <==> until > k.clock + n
  {
    hide Slots, Queues, Family, Waits, Records, LogTrue, Fair, After, AfterAll, Enabled;
    StepInv(k, WaitClock(until));
    WaitClockSleeps(k, until);
    SleepsOn(After(k, WaitClock(until)), k.active, n);
  }

  // ---------- chprio ----------

  // A call of chprio that is not refused.
  ghost predicate MaySetPrio(k: Kernel, pid: int, newprio: int)
    requires Shape(k)
  {
    newprio > 0 && 0 <= pid < NBPROC && Lives(k.procs[pid])
  }

  // The priority is set, nobody blocks or wakes, and the running process keeps the processor
  // exactly if no ready process has a higher priority then.
  lemma ChPrioSets(k: Kernel, pid: int, newprio: int)
    requires Inv(k) && Enabled(k, ChPrio(pid, newprio)) && MaySetPrio(k, pid, newprio)
    ensures var k' := After(k, ChPrio(pid, newprio));
      && k'.prio == k.prio[pid := newprio] && OthersSame(k, k', {}) && k'.sleepers == k.sleepers
      && k'.clock == k.clock && k'.log == k.log && k'.ended == k.ended && k'.born == k.born
      && (k'.active == k.active <==>
            forall r | 0 <= r < NBPROC && k.procs[r].status == Ready :: k'.prio[r] <= k'.prio[k.active])
  {
    hide Slots, Queues, Family, Waits, Records, LogTrue, Schedule, Fair, Reprioritized;
    if k.prio[pid] == newprio {
      assert k.prio[pid := newprio] == k.prio;
      NoneOutranks(k);
    } else {
      var k1 := Reprioritized(k, pid, newprio);
      ReprioritizedConsistent(k, pid, newprio);
      ReprioritizedFrame(k, pid, newprio);
      if Overtaken(k1) {
        Scheduled(k1);
        OvertakenSwitches(k1);
      } else {
        NotOvertaken(k1);
      }
    }
  }

  lemma ReprioritizedFrame(k: Kernel, pid: int, newprio: int)
    requires Shape(k) && Slot(pid)
    ensures var k' := Reprioritized(k, pid, newprio);
      && k'.prio == k.prio[pid := newprio] && k'.procs == k.procs && k'.sleepers == k.sleepers
      && k'.active == k.active && k'.clock == k.clock && k'.log == k.log && k'.ended == k.ended && k'.born == k.born
  {
    hide Enqueue, Without;
  }

  lemma NoneOutranks(k: Kernel)
    requires Inv(k)
    ensures forall r | 0 <= r < NBPROC && k.procs[r].status == Ready :: k.prio[r] <= k.prio[k.active]
  {
    hide Family, Waits, Records, LogTrue, Slots, Ascending, NoDup;
  }

  // The last of the ready list, which outranks the running process, takes over.
  lemma OvertakenSwitches(k: Kernel)
    requires Consistent(k) && Overtaken(k)
    ensures var r := k.ready[|k.ready| - 1];
      Schedule(k).active == r && r != k.active && k.procs[r].status == Ready && k.prio[r] > k.prio[k.active]
  {
    hide Family, Waits, Records, LogTrue, Slots, Ascending, NoDup, Enqueue;
    assert k.ready[|k.ready| - 1] in k.ready;
  }

  lemma NotOvertaken(k: Kernel)
    requires Consistent(k) && !Overtaken(k)
    ensures forall r | 0 <= r < NBPROC && k.procs[r].status == Ready :: k.prio[r] <= k.prio[k.active]
  {
    hide Family, Waits, Records, LogTrue, Slots, NoDup;
    if k.ready != [] {
      LastIsHighest(k.prio, k.ready);
    }
  }

  // A ready process raised above the running one runs at once.
  lemma ChPrioRaises(k: Kernel, pid: int, newprio: int)
    requires Inv(k) && Enabled(k, ChPrio(pid, newprio)) && MaySetPrio(k, pid, newprio)
    requires k.procs[pid].status == Ready && newprio > k.prio[k.active]
    ensures After(k, ChPrio(pid, newprio)).active == pid
  {
    var k' := After(k, ChPrio(pid, newprio));
    ChPrioSets(k, pid, newprio);
    StepInv(k, ChPrio(pid, newprio));
    NoneOutranks(k);
    NoneOutranks(k');
    RunningIsActive(k');
    RunningIsActive(k);
    hide Slots, Queues, Family, Waits, Records, LogTrue, After, Enabled;
    var a := k'.active;
    assert Same(k.procs[a], k'.procs[a]) && Same(k.procs[pid], k'.procs[pid]);
  }

  // A call with a bad priority or process changes nothing, nor does one that keeps the priority.
  lemma ChPrioRefuses(k: Kernel, pid: int, newprio: int)
    requires Inv(k) && Enabled(k, ChPrio(pid, newprio))
    ensures After(k, ChPrio(pid, newprio)) == k <==> !MaySetPrio(k, pid, newprio) || k.prio[pid] == newprio
  {
    hide Slots, Queues, Family, Waits, Records, LogTrue, Schedule, Fair;
    if MaySetPrio(k, pid, newprio) {
      ChPrioSets(k, pid, newprio);
    }
  }

  // ---------- kill and exit ----------

  // Process p waits for its child c, or for any child.
  ghost predicate AwaitsChild(p: Proc, c: int) {
    p.status == AwaitingChild && (p.awaited == -2 || p.awaited == c)
  }

  // What the death of c makes of another living process, a father or not.
  ghost predicate Survives(p: Proc, q: Proc, father: bool, c: int) {
    && q.pid == p.pid && q.birth == p.birth && q.retval == p.retval && q.wake == p.wake
    && if father && AwaitsChild(p, c) then q.awaited == c && Runnable(q)
       else q.awaited == p.awaited && (q.status == p.status || (Runnable(p) && Runnable(q)))
  }

  // Process c dies with this value: it is off every list and does not run; it stays as a zombie
  // if its father exists, and its slot is free otherwise; the zombies below it are freed, and its
  // father is woken if he waits for it.
  ghost predicate Dies(k: Kernel, k': Kernel, c: int, value: int)
    requires Shape(k) && Shape(k') && Slot(c)
  {
    && k'.ended == k.ended[k.procs[c].birth := value] && k'.log == k.log && k'.prio == k.prio && k'.clock == k.clock
    && k'.born == k.born && c !in k'.ready && c !in k'.sleepers
    && (if k.procs[c].father == -1 then k'.procs[c] == FREE
        else
          && k'.procs[c].status == Zombie && k'.procs[c].retval == value && k'.procs[c].pid == c
          && k'.procs[c].birth == k.procs[c].birth && k'.procs[c].father == k.procs[c].father)
    && FreedBelow(k, k', c)
    && forall i | 0 <= i < NBPROC && Alive(k.procs[i]) && i != c ::
         Survives(k.procs[i], k'.procs[i], i == k.procs[c].father, c) && Orphaned(k, k', i)
  }

  lemma TerminatedFreed(k: Kernel, p: int)
    requires Terminable(k, p)
    ensures FreedBelow(k, Terminated(k, p), p)
    ensures forall i | 0 <= i < NBPROC && Alive(k.procs[i]) && i != p :: Orphaned(k, Terminated(k, p), i)
  {
    var d := DoomedSet(k, p);
    var d' := if Slot(k.procs[p].father) then d - {p} else d;
    DoomedClosed(k, p, d');
    hide Slots, Queues, Waits, Records, LogTrue, Terminated, DoomedSet, Children, AsBuried;
    forall i | 0 <= i < NBPROC
      ensures AsBuried(k.procs[i], Terminated(k, p).procs[i], i, d')
    {
      TerminatedBuried(k, p, i, d');
    }
    BuriedFreed(k, Terminated(k, p), p, d');
  }

  lemma TerminatedBuried(k: Kernel, p: int, i: int, d: set<int>)
    requires Terminable(k, p) && Slot(i) && d == DoomedSet(k, p) - (if Slot(k.procs[p].father) then {p} else {})
    ensures AsBuried(k.procs[i], Terminated(k, p).procs[i], i, d)
  {
    TerminatedTable(k, p);
    hide *;
    if 0 <= k.procs[p].father < NBPROC {
      UndertakenBuried(k, p, i, d);
    } else {
      assert d == DoomedSet(k, p);
      BuriedBuried(k.procs[i], i, d);
    }
  }

  lemma UndertakenBuried(k: Kernel, p: int, i: int, d: set<int>)
    requires Shape(k) && Slot(p) && Slot(i) && p !in d
    ensures AsBuried(k.procs[i], Undertaken(k, p, d, i), i, d)
  {
    hide Without;
  }

  lemma BuriedBuried(p: Proc, i: int, d: set<int>)
    ensures AsBuried(p, BuriedProc(p, i, d), i, d)
  {
    hide Without;
  }

  lemma TerminatedSurvivor(k: Kernel, p: int, i: int)
    requires Terminable(k, p) && Slot(i) && Alive(k.procs[i]) && i != p
    ensures Survives(k.procs[i], Terminated(k, p).procs[i], i == k.procs[p].father, p)
  {
    var d := DoomedSet(k, p);
    TerminatedTable(k, p);
    DoomedFacts(k, p);
    assert i !in d;
    hide *;
    if 0 <= k.procs[p].father < NBPROC {
      UndertakenSurvives(k, p, i, d - {p});
    } else {
      BuriedSurvives(k.procs[i], i, d, p);
      assert i != k.procs[p].father;
    }
  }

  lemma UndertakenSurvives(k: Kernel, p: int, i: int, d: set<int>)
    requires Shape(k) && Slot(p) && Slot(i) && i != p && i !in d
    ensures Survives(k.procs[i], Undertaken(k, p, d, i), i == k.procs[p].father, p)
  {
    hide Without;
  }

  lemma BuriedSurvives(q: Proc, i: int, d: set<int>, p: int)
    requires i !in d
    ensures Survives(q, BuriedProc(q, i, d), false, p)
  {
    hide Without;
  }

  lemma TerminatedSelf(k: Kernel, p: int)
    requires Terminable(k, p)
    ensures var q := Terminated(k, p).procs[p];
      if k.procs[p].father == -1 then q == FREE
      else
        && q.status == Zombie && q.retval == k.procs[p].retval && q.pid == p
        && q.birth == k.procs[p].birth && q.father == k.procs[p].father
  {
    TerminatedTable(k, p);
    DoomedFacts(k, p);
    hide Queues, Waits, Records, LogTrue, Terminated, DoomedSet, Without, Children;
  }

  lemma OffLists(k: Kernel, p: int)
    requires Consistent(k) && Slot(p) && !Alive(k.procs[p])
    ensures p !in k.ready && p !in k.sleepers
  {
    hide Ascending, NoDup, Family, Waits, Records, LogTrue, Slots;
  }

  lemma TerminatedDies(k: Kernel, p: int)
    requires Terminable(k, p)
    ensures Dies(k, Terminated(k, p), p, k.procs[p].retval)
  {
    hide Slots, Queues, Family, Waits, Records, LogTrue, Terminated, FreedBelow, Orphaned, Survives;
    TerminatedConsistent(k, p);
    TerminatedFrame(k, p);
    TerminatedFreed(k, p);
    TerminatedSelf(k, p);
    OffLists(Terminated(k, p), p);
    forall i | 0 <= i < NBPROC && Alive(k.procs[i]) && i != p
      ensures Survives(k.procs[i], Terminated(k, p).procs[i], i == k.procs[p].father, p)
    {
      TerminatedSurvivor(k, p, i);
    }
  }

  lemma DiesThenScheduled(k: Kernel, k1: Kernel, p: int, value: int)
    requires Shape(k) && Consistent(k1) && Slot(p) && Dies(k, k1, p, value)
    ensures Dies(k, Schedule(k1), p, value) && Schedule(k1).active != p
  {
    hide Slots, Queues, Family, Waits, Records, LogTrue, Schedule, Fair, FreedBelow, Orphaned;
    Scheduled(k1);
    var k' := Schedule(k1);
    assert Same(k1.procs[p], k'.procs[p]);
    OffLists(k', p);
    ScheduledFreed(k, k1, k', p);
    RunningIsActive(k');
    forall i | 0 <= i < NBPROC && Alive(k.procs[i]) && i != p
      ensures Survives(k.procs[i], k'.procs[i], i == k.procs[p].father, p) && Orphaned(k, k', i)
    {
      assert Survives(k.procs[i], k1.procs[i], i == k.procs[p].father, p) && Orphaned(k, k1, i);
      assert Same(k1.procs[i], k'.procs[i]);
    }
  }

  // A process that kill may end: any but idle that runs, is ready, sleeps or waits.
  ghost predicate MayKill(k: Kernel, pid: int)
    requires Shape(k)
  {
    0 < pid < NBPROC && Lives(k.procs[pid])
  }

  // It dies with value 0, whatever it was doing.
  lemma KillEnds(k: Kernel, pid: int)
    requires Inv(k) && Enabled(k, Kill(pid)) && MayKill(k, pid)
    ensures Dies(k, After(k, Kill(pid)), pid, 0) && After(k, Kill(pid)).active != pid
  {
    hide Slots, Queues, Family, Waits, LogTrue, Fair, Schedule, Terminated, Dies;
    assert Terminable(k, pid) && k.procs[pid].retval == 0;
    hide Records;
    TerminatedConsistent(k, pid);
    TerminatedDies(k, pid);
    DiesThenScheduled(k, Terminated(k, pid), pid, 0);
  }

  lemma KillRefuses(k: Kernel, pid: int)
    requires Inv(k) && Enabled(k, Kill(pid))
    ensures After(k, Kill(pid)) == k <==> !MayKill(k, pid)
  {
    hide Slots, Queues, Family, Waits, Records, LogTrue, Fair, Schedule, Terminated;
    if MayKill(k, pid) {
      KillEnds(k, pid);
    }
  }

  // exit ends the running process with its value.
  lemma ExitEnds(k: Kernel, retval: int)
    requires Inv(k) && Enabled(k, Exit(retval))
    ensures Dies(k, After(k, Exit(retval)), k.active, retval) && After(k, Exit(retval)).active != k.active
  {
    hide Slots, Queues, Family, Waits, Records, LogTrue, Fair, Schedule, Terminated, Dies;
    var k1 := Valued(k, retval);
    ExitTerminable(k, retval);
    TerminatedConsistent(k1, k.active);
    TerminatedDies(k1, k.active);
    RunningIsActive(k);
    ValuedDies(k, retval, Terminated(k1, k.active));
    DiesThenScheduled(k, Terminated(k1, k.active), k.active, retval);
  }

  // The value of the dying process is not looked at.
  lemma ValuedDies(k: Kernel, retval: int, k': Kernel)
    requires Shape(k) && Shape(k') && k.procs[k.active].status == Running
    requires Dies(Valued(k, retval), k', k.active, retval)
    ensures Dies(k, k', k.active, retval)
  {
    var k1, a := Valued(k, retval), k.active;
    forall i | 0 <= i < NBPROC && Alive(k.procs[i]) && i != a
      ensures Survives(k.procs[i], k'.procs[i], i == k.procs[a].father, a) && Orphaned(k, k', i)
    {
      assert Survives(k1.procs[i], k'.procs[i], i == k1.procs[a].father, a) && Orphaned(k1, k', i);
    }
  }

  // ---------- start ----------

  // The new process i is a child of the caller and ready or running; nobody else changes.
  ghost predicate Starts(k: Kernel, k': Kernel, i: int, prio: int)
    requires Shape(k) && Shape(k')
  {
    var a := k.active;
    && Slot(i) && k.procs[i].pid == -1 && (forall j | 0 <= j < i :: k.procs[j].pid != -1)
    && Same(Proc(i, Ready, a, -1, 0, 0, [], k.born), k'.procs[i])
    && (forall c :: c in k'.procs[a].children <==> c == i || c in k.procs[a].children)
    && Same(k.procs[a].(children := k'.procs[a].children), k'.procs[a]) && OthersSame(k, k', {a, i})
    && k'.prio == k.prio[i := prio] && k'.born == k.born + 1 && k'.sleepers == k.sleepers && k'.clock == k.clock
    && k'.log == k.log && k'.ended == k.ended
  }

  // start takes the first free slot.
  lemma StartTakes(k: Kernel, prio: int)
    requires Inv(k) && Enabled(k, Start(prio)) && exists i :: 0 <= i < NBPROC && k.procs[i].pid == -1
    ensures Starts(k, After(k, Start(prio)), FirstFree(k.procs), prio)
  {
    hide Queues, Family, Waits, Records, LogTrue, Fair, Schedule, Started, Enqueue, MayStart;
    var i := FirstFreeSlot(k);
    var k1 := Started(k, i, prio);
    StartedConsistent(k, i, prio);
    StartedBorn(k, i, prio);
    hide Slots;
    EnqueueMembers(k1.prio, k.procs[k.active].children, i);
    Scheduled(k1);
    assert OthersSame(k, Schedule(k1), {k.active, i}) by {
      forall j | 0 <= j < NBPROC && j != i && j != k.active
        ensures Same(k.procs[j], Schedule(k1).procs[j])
      {
        assert Same(k1.procs[j], Schedule(k1).procs[j]);
      }
    }
    assert Same(k1.procs[i], Schedule(k1).procs[i]) && Same(k1.procs[k.active], Schedule(k1).procs[k.active]);
  }

  // It runs at once if it outranks the caller; the caller runs on exactly if it outranks it and
  // every other ready process.
  lemma StartRuns(k: Kernel, prio: int)
    requires Inv(k) && Enabled(k, Start(prio)) && exists i :: 0 <= i < NBPROC && k.procs[i].pid == -1
    ensures var k' := After(k, Start(prio));
      && (prio > k.prio[k.active] ==> k'.active == FirstFree(k.procs))
      && (k'.active == k.active <==> prio < k.prio[k.active] && Outranks(k, k.active))
  {
    var i, k' := FirstFree(k.procs), After(k, Start(prio));
    StartYields(k, prio);
    StartTakes(k, prio);
    StepInv(k, Start(prio));
    NoneOutranks(k);
    NoneOutranks(k');
    RunningIsActive(k);
    RunningIsActive(k');
    hide *;
    StartedStatus(k, k', i, prio);
  }

  // Nobody gets or stops being ready or running but the new process.
  lemma StartedStatus(k: Kernel, k': Kernel, i: int, prio: int)
    requires Shape(k) && Shape(k') && Starts(k, k', i, prio) && k.procs[k.active].status == Running
    ensures Slot(i) && i != k.active && Runnable(k'.procs[i]) && k'.prio == k.prio[i := prio]
    ensures forall j | 0 <= j < NBPROC && j != i :: Runnable(k'.procs[j]) <==> Runnable(k.procs[j])
  {
    forall j | 0 <= j < NBPROC && j != i
      ensures Runnable(k'.procs[j]) <==> Runnable(k.procs[j])
    {
      assert j != k.active ==> Same(k.procs[j], k'.procs[j]);
    }
  }

  lemma StartYields(k: Kernel, prio: int)
    requires Inv(k) && Enabled(k, Start(prio)) && exists i :: 0 <= i < NBPROC && k.procs[i].pid == -1
    ensures After(k, Start(prio)).active == k.active <==> prio < k.prio[k.active] && Outranks(k, k.active)
  {
    hide Inv, Consistent, Schedule, Started, Born, Outranks, MayStart, Enqueue;
    var i := FirstFreeSlot(k);
    StartedConsistent(k, i, prio);
    StartedBorn(k, i, prio);
    BornOutranks(k, Started(k, i, prio), i);
    ScheduleYields(Started(k, i, prio));
  }

  lemma FirstFreeSlot(k: Kernel) returns (i: int)
    requires Inv(k) && exists i :: 0 <= i < NBPROC && k.procs[i].pid == -1
    ensures Shape(k) && i == FirstFree(k.procs) && Slot(i) && i != k.active && k.procs[i] == FREE && MayStart(k, i)
    ensures k.procs[k.active].status == Running && forall j | 0 <= j < i :: k.procs[j].pid != -1
  {
    hide Queues, Family, Waits, Records, LogTrue;
    i := FirstFree(k.procs);
  }

  lemma BornOutranks(k: Kernel, k': Kernel, i: int)
    requires Shape(k) && Shape(k') && Born(k, k', i) && k.procs[i] == FREE && k'.prio == k.prio[i := k'.prio[i]]
    requires k.procs[k.active].status == Running
    ensures k'.active == k.active && k'.procs[k.active].status == Running
    ensures Outranks(k', k.active) <==> k'.prio[i] < k.prio[k.active] && Outranks(k, k.active)
  {
    forall r | 0 <= r < NBPROC
      ensures k'.procs[r].status == Ready <==> r == i || k.procs[r].status == Ready
      ensures r != i ==> k'.prio[r] == k.prio[r]
    {
    }
  }

  lemma StartRefuses(k: Kernel, prio: int)
    requires Inv(k) && Enabled(k, Start(prio))
    ensures After(k, Start(prio)) == k <==> forall i | 0 <= i < NBPROC :: k.procs[i].pid != -1
  {
    hide Queues, Family, Waits, Records, LogTrue, Fair, Schedule, Started;
    if exists i :: 0 <= i < NBPROC && k.procs[i].pid == -1 {
      StartTakes(k, prio);
    }
  }
}
