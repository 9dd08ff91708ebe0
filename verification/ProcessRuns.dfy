/**
 Theorems about whole runs of the process management: what holds in every reachable state,
 what waitpid hands out and what a woken father can rely on.
 */
module ProcessRuns {
  import opened PriorityOrder
  import opened ProcessLists
  import opened ProcessModel
  import opened ProcessInvariants

  // ---------- one step ----------

  lemma WaitPidInv(k: Kernel, pid: int)
    requires Inv(k) && Enabled(k, WaitPid(pid))
    ensures Inv(After(k, WaitPid(pid)))
  {
    hide Slots, Queues, Waits, Records, LogTrue;
    match WaitOutcome(k, pid)
    case Fails =>
    case Blocks(awaited) =>
      assert MayBlock(k, awaited);
      BlockedConsistent(k, awaited);
      ScheduleInv(Blocked(k, awaited));
    case Collects(c) =>
      assert Collectable(k, c);
      CollectedConsistent(k, c);
      ScheduleInv(CollectedFrom(k, c));
  }

  lemma ResumeCollects(k: Kernel)
    requires Inv(k) && Enabled(k, Resume)
    ensures Slot(k.procs[k.active].awaited) && Collectable(k, k.procs[k.active].awaited)
  {
    hide Slots, Queues, Family, Records, LogTrue;
    assert Alive(k.procs[k.active]);
  }

  lemma ResumeInv(k: Kernel)
    requires Inv(k) && Enabled(k, Resume)
    ensures Inv(After(k, Resume))
  {
    ResumeCollects(k);
    var c := k.procs[k.active].awaited;
    hide Consistent, CollectedFrom;
    CollectedConsistent(k, c);
    ScheduleInv(CollectedFrom(k, c));
  }

  // Setting the value of the running process disturbs nothing but that value.
  function Valued(k: Kernel, retval: int): (k': Kernel)
    requires Shape(k)
    ensures Shape(k')
  {
    Put(k, k.active, k.procs[k.active].(retval := retval))
  }

  lemma ValuedTable(k: Kernel, retval: int)
    requires Consistent(k) && k.procs[k.active].status == Running
    ensures var k' := Valued(k, retval); Slots(k') && Queues(k') && Family(k')
  {
    hide Waits, Records, LogTrue, Ascending, NoDup, Family;
    var k' := Valued(k, retval);
    FamilyKept(k, k');
    ListSame(k.procs, k'.procs, k.ready, Ready);
    ListSame(k.procs, k'.procs, k.sleepers, Sleeping);
  }

  lemma ValuedHistory(k: Kernel, retval: int)
    requires Consistent(k) && k.procs[k.active].status == Running
    ensures var k' := Valued(k, retval); Waits(k') && Records(k', k.active) && LogTrue(k')
  {
    hide Slots, Queues, Family;
    var k' := Valued(k, retval);
    forall i | 0 <= i < NBPROC && Alive(k'.procs[i])
      ensures if k'.procs[i].status == AwaitingChild then WaitsFor(k', i)
        else k'.procs[i].awaited == -1 || Finds(k', i, k'.procs[i].awaited)
    {
      assert Alive(k.procs[i]);
    }
  }

  lemma ExitTerminable(k: Kernel, retval: int)
    requires Inv(k) && k.active != 0
    ensures Terminable(Valued(k, retval), k.active)
  {
    hide Slots, Queues, Family, Waits, Records, LogTrue;
    ValuedTable(k, retval);
    ValuedHistory(k, retval);
  }

  lemma ExitInv(k: Kernel, retval: int)
    requires Inv(k) && Enabled(k, Exit(retval))
    ensures Inv(After(k, Exit(retval)))
  {
    hide Terminated, Schedule, Slots, Queues, Family, Waits, Records, LogTrue, Terminable;
    ExitTerminable(k, retval);
    var k' := Valued(k, retval);
    TerminatedConsistent(k', k.active);
    ScheduleInv(Terminated(k', k.active));
  }

  lemma KillInv(k: Kernel, pid: int)
    requires Inv(k) && Enabled(k, Kill(pid))
    ensures Inv(After(k, Kill(pid)))
  {
    hide Terminated, Schedule, Slots, Queues, Family, Waits, LogTrue;
    if Killable(k, pid) {
      assert Terminable(k, pid);
      TerminatedConsistent(k, pid);
      ScheduleInv(Terminated(k, pid));
    }
  }

  lemma StartInv(k: Kernel, prio: int)
    requires Inv(k) && Enabled(k, Start(prio))
    ensures Inv(After(k, Start(prio)))
  {
    hide Started, Schedule, Slots, Queues, Family, Waits, Records, LogTrue;
    var i := FirstFree(k.procs);
    if i != NBPROC && i != k.active {
      assert MayStart(k, i);
      StartedConsistent(k, i, prio);
      ScheduleInv(Started(k, i, prio));
    }
  }

  lemma ChPrioInv(k: Kernel, pid: int, newprio: int)
    requires Inv(k) && Enabled(k, ChPrio(pid, newprio))
    ensures Inv(After(k, ChPrio(pid, newprio)))
  {
    hide Schedule, Slots, Family, Waits, Records, LogTrue;
    if PrioritySet(k, pid, newprio) {
      ReprioritizedConsistent(k, pid, newprio);
      var k1 := Reprioritized(k, pid, newprio);
      if Overtaken(k1) {
        ScheduleInv(k1);
      } else if k1.ready != [] {
        LastIsHighest(k1.prio, k1.ready);
      }
    }
  }

  lemma WaitClockInv(k: Kernel, until: nat)
    requires Inv(k) && Enabled(k, WaitClock(until))
    ensures Inv(After(k, WaitClock(until)))
  {
    hide Schedule, Slots, Queues, Family, Waits, Records, LogTrue;
    AsleepConsistent(k, until);
    ScheduleInv(Asleep(k, until));
  }

  // After a tick no sleeper is overdue.
  lemma TickInv(k: Kernel)
    requires Inv(k)
    ensures Inv(After(k, Tick))
    ensures var k' := After(k, Tick);
      k'.clock == k.clock + 1 && forall i | i in k'.sleepers :: 0 <= i < NBPROC && k'.procs[i].wake > k'.clock
  {
    hide Slots, Queues, Family, Waits, Records, LogTrue, WakeDue, Schedule, Fair;
    var k1 := k.(clock := k.clock + 1);
    ClockUnseen(k, k1);
    WakeDueConsistent(k1);
    ScheduleInv(WakeDue(k1));
    ScheduleQueues(WakeDue(k1));
  }

  lemma ClockUnseen(k: Kernel, k1: Kernel)
    requires Consistent(k) && k1 == k.(clock := k1.clock)
    ensures Consistent(k1)
  {
    ProcsDecide(k, k1);
    hide Family, Waits, Records, LogTrue;
  }

  // ordonnancer leaves the sleepers alone.
  lemma ScheduleQueues(k: Kernel)
    requires Consistent(k)
    ensures var k' := Schedule(k);
      k'.sleepers == k.sleepers && k'.clock == k.clock && k'.log == k.log && k'.ended == k.ended
      && forall i | 0 <= i < NBPROC :: k'.procs[i] == k.procs[i].(status := k'.procs[i].status)
  {
    hide Slots, Queues, Family, Waits, Records, LogTrue;
  }

  // Every system call and every tick keeps the invariant.
  lemma StepInv(k: Kernel, s: Step)
    requires Inv(k) && Enabled(k, s)
    ensures Inv(After(k, s))
  {
    hide Inv, After;
    match s
    case Start(prio) => StartInv(k, prio);
    case Kill(pid) => KillInv(k, pid);
    case Exit(retval) => ExitInv(k, retval);
    case WaitPid(pid) => WaitPidInv(k, pid);
    case Resume => ResumeInv(k);
    case WaitClock(until) => WaitClockInv(k, until);
    case ChPrio(pid, newprio) => ChPrioInv(k, pid, newprio);
    case Tick => TickInv(k);
  }

  // ---------- runs ----------

  // The table when idle, the first process, has been started and runs.
  function Boot(prio: int): (k: Kernel)
    ensures Shape(k)
  {
    Kernel([Proc(0, Running, -1, -1, 0, 0, [], 0)] + seq(NBPROC - 1, _ => FREE),
           [prio] + seq(NBPROC - 1, _ => 0), [], [], 0, 0, 1, map[], [])
  }

  lemma BootInv(prio: int)
    ensures Inv(Boot(prio))
  {
    var k := Boot(prio);
    assert k.procs[0] == Proc(0, Running, -1, -1, 0, 0, [], 0);
    assert forall i | 1 <= i < NBPROC :: k.procs[i] == FREE;
    assert k.ready == [] && k.sleepers == [] && k.log == [] && k.ended == map[] && k.active == 0 && k.born == 1;
    hide Boot;
    FirstProcess(k);
  }

  ghost predicate First(k: Kernel) {
    && Shape(k) && k.procs[0] == Proc(0, Running, -1, -1, 0, 0, [], 0)
    && (forall i | 1 <= i < NBPROC :: k.procs[i] == FREE)
    && k.ready == [] && k.sleepers == [] && k.log == [] && k.ended == map[] && k.active == 0 && k.born == 1
  }

  lemma FirstTable(k: Kernel)
    requires First(k)
    ensures Slots(k) && Queues(k)
  {
  }

  lemma FirstFamily(k: Kernel)
    requires First(k)
    ensures Fathers(k) && Children(k)
  {
    assert forall i | 0 <= i < NBPROC :: k.procs[i].father == -1 && k.procs[i].children == [];
  }

  lemma FirstHistory(k: Kernel)
    requires First(k)
    ensures Waits(k) && Records(k, -1) && LogTrue(k)
  {
    assert forall i | 0 <= i < NBPROC && k.procs[i].status != Dead :: i == 0;
  }

  lemma FirstProcess(k: Kernel)
    requires First(k)
    ensures Inv(k)
  {
    FirstTable(k);
    FirstFamily(k);
    FirstHistory(k);
    hide Slots, Queues, Fathers, Children, Waits, Records, LogTrue;
  }

  // The state after a run; a step that cannot be taken changes nothing.
  ghost function AfterAll(k: Kernel, steps: seq<Step>): (k': Kernel)
    requires Shape(k)
    ensures Shape(k')
    decreases |steps|
  {
    if steps == [] then k
    else
      var k1 := AfterAll(k, steps[..|steps| - 1]);
      var s := steps[|steps| - 1];
      if Enabled(k1, s) then After(k1, s) else k1
  }

  // The invariant holds in every reachable state.
  lemma {:induction false} RunInv(k: Kernel, steps: seq<Step>)
    requires Inv(k)
    ensures Inv(AfterAll(k, steps))
    decreases |steps|
  {
    hide Slots, Queues, Family, Waits, Records, LogTrue, Fair, After;
    if steps != [] {
      RunInv(k, steps[..|steps| - 1]);
      var k1 := AfterAll(k, steps[..|steps| - 1]);
      if Enabled(k1, steps[|steps| - 1]) {
        StepInv(k1, steps[|steps| - 1]);
      }
    }
  }

  lemma ReachableInv(prio: int, steps: seq<Step>)
    ensures Inv(AfterAll(Boot(prio), steps))
  {
    hide Inv, AfterAll, Boot;
    BootInv(prio);
    RunInv(Boot(prio), steps);
  }

  // What the invariant says about the statuses: exactly one process runs and it is pid_actif,
  // the ready list holds exactly the ready processes, none of which outranks the running one,
  // and the clock list exactly the sleepers.
  lemma OneRuns(prio: int, steps: seq<Step>)
    ensures var k := AfterAll(Boot(prio), steps);
      && (forall i | 0 <= i < NBPROC :: k.procs[i].status == Running <==> i == k.active)
      && (forall i | 0 <= i < NBPROC :: k.procs[i].status == Ready <==> i in k.ready)
      && (forall i | 0 <= i < NBPROC :: k.procs[i].status == Sleeping <==> i in k.sleepers)
      && (forall i | 0 <= i < NBPROC && k.procs[i].status == Ready :: k.prio[i] <= k.prio[k.active])
  {
    ReachableInv(prio, steps);
    hide AfterAll, Boot, Family, Waits, Records, LogTrue;
  }

  // ---------- what waitpid hands out ----------

  // The record of ended processes only grows.
  ghost predicate Grows(k: Kernel, k': Kernel) {
    && (forall b | b in k.ended :: b in k'.ended && k'.ended[b] == k.ended[b])
    && |k.log| <= |k'.log| && k'.log[..|k.log|] == k.log
  }

  lemma ScheduleGrows(k: Kernel)
    requires Shape(k)
    ensures Grows(k, Schedule(k)) && Schedule(k).ended == k.ended && Schedule(k).log == k.log
  {
  }

  lemma {:induction false} WakeDueGrows(k: Kernel)
    requires Shape(k)
    ensures WakeDue(k).ended == k.ended && WakeDue(k).log == k.log
    decreases |k.sleepers|
  {
    var n := FirstDue(k.procs, k.clock, k.sleepers);
    if n < |k.sleepers| {
      WakeDueGrows(Awake(k, n));
    }
  }

  lemma CollectedGrows(k: Kernel, c: int)
    requires Shape(k) && Slot(c)
    ensures Grows(k, CollectedFrom(k, c))
    ensures CollectedFrom(k, c).log == k.log + [Collected(k.procs[c].birth, k.procs[c].retval)]
  {
    hide DoomedSet, Without;
  }

  lemma StepGrows(k: Kernel, s: Step)
    requires Inv(k) && Enabled(k, s)
    ensures Grows(k, After(k, s))
  {
    hide Schedule, CollectedFrom, Terminated, WakeDue, Slots, Queues, Family, Waits, LogTrue, Started;
    match s
    case Start(prio) =>
      var i := FirstFree(k.procs);
      if i != NBPROC && i != k.active {
        StartedBorn(k, i, prio);
        ScheduleGrows(Started(k, i, prio));
      }
    case Kill(pid) =>
      if Killable(k, pid) {
        TerminatedFrame(k, pid);
        ScheduleGrows(Terminated(k, pid));
      }
    case Exit(retval) =>
      TerminatedFrame(Valued(k, retval), k.active);
      ScheduleGrows(Terminated(Valued(k, retval), k.active));
    case WaitPid(pid) =>
      match WaitOutcome(k, pid) {
        case Fails =>
        case Blocks(awaited) => ScheduleGrows(Blocked(k, awaited));
        case Collects(c) =>
          CollectedGrows(k, c);
          ScheduleGrows(CollectedFrom(k, c));
      }
    case Resume =>
      var c := k.procs[k.active].awaited;
      if Slot(c) {
        CollectedGrows(k, c);
        ScheduleGrows(CollectedFrom(k, c));
      }
    case WaitClock(until) => ScheduleGrows(Asleep(k, until));
    case ChPrio(pid, newprio) =>
      if PrioritySet(k, pid, newprio) {
        ScheduleGrows(Reprioritized(k, pid, newprio));
      }
    case Tick =>
      WakeDueGrows(k.(clock := k.clock + 1));
      ScheduleGrows(WakeDue(k.(clock := k.clock + 1)));
  }

  lemma {:induction false} RunGrows(k: Kernel, steps: seq<Step>)
    requires Inv(k)
    ensures Grows(k, AfterAll(k, steps))
    decreases |steps|
  {
    hide Slots, Queues, Family, Waits, Records, LogTrue, Fair, After;
    if steps != [] {
      var front := steps[..|steps| - 1];
      RunGrows(k, front);
      RunInv(k, front);
      var k1 := AfterAll(k, front);
      if Enabled(k1, steps[|steps| - 1]) {
        StepGrows(k1, steps[|steps| - 1]);
        var k2 := After(k1, steps[|steps| - 1]);
        assert k2.log[..|k.log|] == k2.log[..|k1.log|][..|k.log|];
      }
    }
  }

  // A process that exits is handed out with its exit value and one that is killed with 0,
  // in every continuation of the run and never twice.
  lemma ExitValueHandedOut(k: Kernel, retval: int, steps: seq<Step>)
    requires Inv(k) && Enabled(k, Exit(retval))
    ensures var b, k' := k.procs[k.active].birth, AfterAll(After(k, Exit(retval)), steps);
      && (forall n | 0 <= n < |k'.log| && k'.log[n].birth == b :: k'.log[n].value == retval)
      && (forall n, m | 0 <= n < m < |k'.log| && k'.log[n].birth == b :: k'.log[m].birth != b)
  {
    hide Schedule, Terminated, AfterAll, Slots, Queues, Family, Waits, Records;
    var b, k1 := k.procs[k.active].birth, After(k, Exit(retval));
    StepInv(k, Exit(retval));
    TerminatedFrame(Valued(k, retval), k.active);
    ScheduleGrows(Terminated(Valued(k, retval), k.active));
    assert b in k1.ended && k1.ended[b] == retval;
    RunGrows(k1, steps);
    RunInv(k1, steps);
  }

  lemma KilledHandedOutAsZero(k: Kernel, pid: int, steps: seq<Step>)
    requires Inv(k) && Enabled(k, Kill(pid)) && Killable(k, pid)
    ensures var b, k' := k.procs[pid].birth, AfterAll(After(k, Kill(pid)), steps);
      && (forall n | 0 <= n < |k'.log| && k'.log[n].birth == b :: k'.log[n].value == 0)
      && (forall n, m | 0 <= n < m < |k'.log| && k'.log[n].birth == b :: k'.log[m].birth != b)
  {
    hide Schedule, Terminated, AfterAll, Slots, Queues, Family, Waits;
    var b, k1 := k.procs[pid].birth, After(k, Kill(pid));
    StepInv(k, Kill(pid));
    TerminatedFrame(k, pid);
    ScheduleGrows(Terminated(k, pid));
    assert b in k1.ended && k1.ended[b] == 0;
    RunGrows(k1, steps);
    RunInv(k1, steps);
  }

  // ---------- a woken father and his zombie ----------

  // i is still the process it was, runnable and about to collect c; the slot of c has not
  // been given to another process.
  ghost predicate KeepsFound(k: Kernel, k': Kernel, i: int, c: int)
    requires Shape(k) && Shape(k') && Slot(i) && Slot(c)
  {
    && Runnable(k'.procs[i]) && k'.procs[i].awaited == c && k'.procs[i].birth == k.procs[i].birth
    && (k'.procs[c].status == Zombie ==>
          k'.procs[c].birth == k.procs[c].birth && k'.procs[c].retval == k.procs[c].retval)
  }

  lemma KeptFinds(k: Kernel, k': Kernel, i: int, c: int)
    requires Finds'(k, i, c) && Consistent(k') && KeepsFound(k, k', i, c)
    ensures Finds(k', i, c)
  {
    hide Slots, Queues, Family, Records, LogTrue;
    assert Alive(k'.procs[i]);
  }

  ghost predicate Finds'(k: Kernel, i: int, c: int) {
    Shape(k) && Finds(k, i, c)
  }

  lemma ScheduleKeepsFound(k: Kernel, i: int, c: int)
    requires Consistent(k) && Finds(k, i, c)
    ensures KeepsFound(k, Schedule(k), i, c)
  {
    hide Family, Waits, Records, LogTrue;
    if !Stays(k) {
      SwitchedQueues(k);
      hide Switched, Slots, Queues;
      assert SameButStatus(k, Switched(k));
    }
  }

  // After the step's own change, ordonnancer keeps what was found.
  lemma FoundThenSchedule(k: Kernel, k1: Kernel, i: int, c: int)
    requires Finds'(k, i, c) && Consistent(k1) && KeepsFound(k, k1, i, c)
    ensures Finds(Schedule(k1), i, c) && KeepsFound(k, Schedule(k1), i, c)
  {
    hide Slots, Queues, Family, Waits, Records, LogTrue, Fair;
    KeptFinds(k, k1, i, c);
    ScheduleInv(k1);
    ScheduleKeepsFound(k1, i, c);
    KeptFinds(k1, Schedule(k1), i, c);
  }

  lemma TerminatedAwaited(k: Kernel, p: int, i: int)
    requires Terminable(k, p) && Slot(i) && i != p && Runnable(k.procs[i])
    ensures Terminated(k, p).procs[i].awaited == k.procs[i].awaited
  {
    TerminatedTable(k, p);
    DoomedFacts(k, p);
    hide Terminated, DoomedSet, Without, Slots, Queues, Family, Waits, Records, LogTrue;
    assert i !in DoomedSet(k, p);
  }

  lemma TerminatedKeepsFound(k: Kernel, p: int, i: int, c: int)
    requires Terminable(k, p) && Finds(k, i, c) && i != p
    ensures KeepsFound(k, Terminated(k, p), i, c)
  {
    TerminatedAwaited(k, p, i);
    TerminatedStatus(k, p);
    hide Terminated, Slots, Queues, Family, Waits, Records, LogTrue;
    assert Outlives(k, p, i, Terminated(k, p).procs[i]);
    assert Outlives(k, p, c, Terminated(k, p).procs[c]);
  }

  lemma CollectedKeepsFound(k: Kernel, z: int, i: int, c: int)
    requires Collectable(k, z) && Finds(k, i, c) && i != k.active
    ensures KeepsFound(k, CollectedFrom(k, z), i, c)
  {
    CollectedTable(k, z);
    CollectedRemains(k, z);
    hide CollectedFrom, DoomedSet, Without, Slots, Queues, Family, Waits, Records, LogTrue;
    assert Remains(k.procs[i], CollectedFrom(k, z).procs[i]);
    assert Remains(k.procs[c], CollectedFrom(k, z).procs[c]);
  }

  lemma {:induction false} WakeDueKeepsFound(k: Kernel, i: int, c: int)
    requires Consistent(k) && Finds(k, i, c)
    ensures KeepsFound(k, WakeDue(k), i, c)
    decreases |k.sleepers|
  {
    hide Slots, Family, Waits, Records, LogTrue, Ascending, NoDup;
    var n := FirstDue(k.procs, k.clock, k.sleepers);
    if n < |k.sleepers| {
      AwakeConsistent(k, n);
      assert k.sleepers[n] in k.sleepers;
      assert KeepsFound(k, Awake(k, n), i, c);
      KeptFinds(k, Awake(k, n), i, c);
      WakeDueKeepsFound(Awake(k, n), i, c);
    }
  }

  lemma StartKeepsFound(k: Kernel, prio: int, i: int, c: int)
    requires Inv(k) && Enabled(k, Start(prio)) && Finds(k, i, c)
    ensures Finds(After(k, Start(prio)), i, c) && KeepsFound(k, After(k, Start(prio)), i, c)
  {
    var n := FirstFree(k.procs);
    hide Schedule, Queues, Family, Waits, Records, LogTrue, Started;
    if n != NBPROC && n != k.active {
      assert n != i && n != c;
      StartedConsistent(k, n, prio);
      StartedBorn(k, n, prio);
      FoundThenSchedule(k, Started(k, n, prio), i, c);
    }
  }

  lemma KillKeepsFound(k: Kernel, pid: int, i: int, c: int)
    requires Inv(k) && Enabled(k, Kill(pid)) && Finds(k, i, c) && pid != i
    ensures Finds(After(k, Kill(pid)), i, c) && KeepsFound(k, After(k, Kill(pid)), i, c)
  {
    hide Schedule, Terminated, Slots, Queues, Family, Waits, LogTrue;
    if Killable(k, pid) {
      assert Terminable(k, pid);
      TerminatedConsistent(k, pid);
      TerminatedKeepsFound(k, pid, i, c);
      FoundThenSchedule(k, Terminated(k, pid), i, c);
    }
  }

  lemma ExitKeepsFound(k: Kernel, retval: int, i: int, c: int)
    requires Inv(k) && Enabled(k, Exit(retval)) && Finds(k, i, c)
    ensures Finds(After(k, Exit(retval)), i, c) && KeepsFound(k, After(k, Exit(retval)), i, c)
  {
    hide Schedule, Terminated, Slots, Queues, Family, Waits, Records, LogTrue;
    var k1 := Valued(k, retval);
    ExitTerminable(k, retval);
    TerminatedConsistent(k1, k.active);
    TerminatedKeepsFound(k1, k.active, i, c);
    FoundThenSchedule(k, Terminated(k1, k.active), i, c);
  }

  lemma ResumeKeepsFound(k: Kernel, i: int, c: int)
    requires Inv(k) && Enabled(k, Resume) && Finds(k, i, c) && i != k.active
    ensures Finds(After(k, Resume), i, c) && KeepsFound(k, After(k, Resume), i, c)
  {
    ResumeCollects(k);
    var z := k.procs[k.active].awaited;
    hide Schedule, CollectedFrom, Slots, Queues, Family, Waits, Records, LogTrue;
    CollectedConsistent(k, z);
    CollectedKeepsFound(k, z, i, c);
    FoundThenSchedule(k, CollectedFrom(k, z), i, c);
  }

  lemma ResumeHandsOut(k: Kernel, c: int)
    requires Inv(k) && Enabled(k, Resume) && Finds(k, k.active, c)
    ensures After(k, Resume).log == k.log + [Collected(k.procs[c].birth, k.procs[c].retval)]
  {
    hide Schedule, CollectedFrom, Slots, Queues, Family, Waits, Records, LogTrue;
    CollectedGrows(k, c);
    ScheduleGrows(CollectedFrom(k, c));
  }

  lemma TickKeepsFound(k: Kernel, i: int, c: int)
    requires Inv(k) && Finds(k, i, c)
    ensures Finds(After(k, Tick), i, c) && KeepsFound(k, After(k, Tick), i, c)
  {
    hide Schedule, WakeDue, Slots, Queues, Family, Waits, Records, LogTrue;
    var k1 := k.(clock := k.clock + 1);
    ClockUnseen(k, k1);
    WakeDueConsistent(k1);
    WakeDueKeepsFound(k1, i, c);
    FoundThenSchedule(k, WakeDue(k1), i, c);
  }

  lemma ChPrioKeepsFound(k: Kernel, pid: int, newprio: int, i: int, c: int)
    requires Inv(k) && Enabled(k, ChPrio(pid, newprio)) && Finds(k, i, c)
    ensures var k' := After(k, ChPrio(pid, newprio)); Finds(k', i, c) && KeepsFound(k, k', i, c)
  {
    hide Schedule, Slots, Queues, Family, Waits, Records, LogTrue;
    if PrioritySet(k, pid, newprio) {
      ReprioritizedConsistent(k, pid, newprio);
      FoundThenSchedule(k, Reprioritized(k, pid, newprio), i, c);
    }
  }

  lemma WaitPidKeepsFound(k: Kernel, pid: int, i: int, c: int)
    requires Inv(k) && Enabled(k, WaitPid(pid)) && Finds(k, i, c)
    ensures Finds(After(k, WaitPid(pid)), i, c) && KeepsFound(k, After(k, WaitPid(pid)), i, c)
  {
    hide Schedule, CollectedFrom, Slots, Queues, Waits, Records, LogTrue;
    match WaitOutcome(k, pid)
    case Fails =>
    case Blocks(awaited) =>
      assert MayBlock(k, awaited);
      BlockedConsistent(k, awaited);
      FoundThenSchedule(k, Blocked(k, awaited), i, c);
    case Collects(z) =>
      assert Collectable(k, z);
      CollectedConsistent(k, z);
      CollectedKeepsFound(k, z, i, c);
      FoundThenSchedule(k, CollectedFrom(k, z), i, c);
  }

  // Until it resumes or is killed, a father woken for child c keeps c as his own zombie, and
  // the slot is not reused; when he resumes, c's value is handed out.
  lemma FoundChildKept(k: Kernel, s: Step, i: int, c: int)
    requires Inv(k) && Enabled(k, s) && Finds(k, i, c)
    ensures var k' := After(k, s);
      || (s == Resume && k.active == i && k'.log == k.log + [Collected(k.procs[c].birth, k.procs[c].retval)])
      || (s == Kill(i))
      || (Finds(k', i, c) && KeepsFound(k, k', i, c))
  {
    hide After, KeepsFound, Slots, Queues, Family, Waits, Records, LogTrue;
    match s
    case Start(prio) => StartKeepsFound(k, prio, i, c);
    case Kill(pid) =>
      if pid != i {
        KillKeepsFound(k, pid, i, c);
      }
    case Exit(retval) => ExitKeepsFound(k, retval, i, c);
    case WaitPid(pid) => WaitPidKeepsFound(k, pid, i, c);
    case Resume =>
      if i == k.active {
        ResumeHandsOut(k, c);
      } else {
        ResumeKeepsFound(k, i, c);
      }
    case WaitClock(until) =>
      WaitClockKeepsFound(k, until, i, c);
    case ChPrio(pid, newprio) => ChPrioKeepsFound(k, pid, newprio, i, c);
    case Tick => TickKeepsFound(k, i, c);
  }

  // Along the run, i neither resumes nor is killed.
  ghost predicate LeftAlone(k: Kernel, steps: seq<Step>, i: int)
    requires Shape(k)
  {
    forall n | 0 <= n < |steps| ::
      steps[n] != Kill(i) && !(steps[n] == Resume && AfterAll(k, steps[..n]).active == i)
  }

  // Over every run in which a woken father neither resumes nor is killed, his child stays his
  // own zombie, with its birth and its value.
  lemma {:induction false} FoundChildStays(k: Kernel, steps: seq<Step>, i: int, c: int)
    requires Inv(k) && Finds(k, i, c) && LeftAlone(k, steps, i)
    ensures var k' := AfterAll(k, steps);
      && Finds(k', i, c) && k'.procs[i].birth == k.procs[i].birth
      && k'.procs[c].birth == k.procs[c].birth && k'.procs[c].retval == k.procs[c].retval
    decreases |steps|
  {
    hide After, Enabled, Slots, Queues, Family, Waits, Records, LogTrue, Fair;
    if steps != [] {
      var m := |steps| - 1;
      var k1 := AfterAll(k, steps[..m]);
      assert forall n | 0 <= n < m :: steps[..m][..n] == steps[..n];
      FoundChildStays(k, steps[..m], i, c);
      RunInv(k, steps[..m]);
      if Enabled(k1, steps[m]) {
        FoundChildKept(k1, steps[m], i, c);
      }
    }
  }

  lemma WaitClockKeepsFound(k: Kernel, until: nat, i: int, c: int)
    requires Inv(k) && Enabled(k, WaitClock(until)) && Finds(k, i, c)
    ensures Finds(After(k, WaitClock(until)), i, c) && KeepsFound(k, After(k, WaitClock(until)), i, c)
  {
    hide Schedule, Slots, Queues, Family, Waits, Records, LogTrue;
    AsleepConsistent(k, until);
    FoundThenSchedule(k, Asleep(k, until), i, c);
  }
}
