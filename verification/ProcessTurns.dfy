/**
 Round robin: how long a ready process waits behind its equals while only ticks happen, and
 what a sleeper that becomes due does to that.
 */
module ProcessTurns {
  import opened PriorityOrder
  import opened ProcessLists
  import opened ProcessModel
  import opened ProcessInvariants
  import opened ProcessRuns

  function Ticks(n: nat): (t: seq<Step>)
    ensures |t| == n && forall i | 0 <= i < n :: t[i] == Tick
  {
    seq(n, _ => Tick)
  }

  // x is ready with the running process's priority, and m others are served before it.
  ghost predicate InLine(k: Kernel, x: int, m: nat) {
    Inv(k) && m < |k.ready| && k.ready[|k.ready| - 1 - m] == x && k.prio[x] == k.prio[k.active]
  }

  // No sleeper of a higher priority than the running process is due during the next n ticks.
  ghost predicate Quiet(k: Kernel, n: nat) {
    Shape(k) &&
    forall s | s in k.sleepers ::
      0 <= s < NBPROC && (k.prio[s] > k.prio[k.active] ==> k.procs[s].wake > k.clock + n)
  }

  // A sleeper of no higher priority gets in line behind x.
  lemma AwakeLine(k: Kernel, i: nat, x: int, m: nat, n: nat)
    requires InLine(k, x, m) && Quiet(k, n) && i < |k.sleepers| && k.procs[k.sleepers[i]].wake <= k.clock
    ensures InLine(Awake(k, i), x, m) && Quiet(Awake(k, i), n) && Awake(k, i).active == k.active
  {
    hide Family, Waits, Records, LogTrue, Ascending, NoDup, Enqueue;
    var s := k.sleepers[i];
    assert s in k.sleepers && s != k.active;
    AwakeConsistent(k, i);
    EnqueueBehind(k.prio, k.ready, s, x, |k.ready| - 1 - m);
    EnqueueMembers(k.prio, k.ready, s);
    RemoveMembers(k.sleepers, i);
  }

  lemma {:induction false} WakeDueLine(k: Kernel, x: int, m: nat, n: nat)
    requires InLine(k, x, m) && Quiet(k, n)
    ensures InLine(WakeDue(k), x, m) && Quiet(WakeDue(k), n) && WakeDue(k).active == k.active
    decreases |k.sleepers|
  {
    hide InLine, Quiet;
    QuietShape(k, n);
    var i := FirstDue(k.procs, k.clock, k.sleepers);
    if i < |k.sleepers| {
      AwakeLine(k, i, x, m, n);
      WakeDueLine(Awake(k, i), x, m, n);
    }
  }

  // A newcomer of no higher priority is placed in front of x in the list, that is, served later.
  lemma EnqueueBehind(prio: seq<int>, r: seq<int>, a: int, x: int, j: nat)
    requires 0 <= a < |prio| && InTable(|prio|, r) && j < |r| && r[j] == x && prio[x] >= prio[a]
    ensures Enqueue(prio, r, a)[j + 1] == x
  {
    var k := InsertAt(PrioList(prio, r), prio[a]);
    InsertIndices(r, k, a);
  }

  lemma LineSwitches(k: Kernel, x: int, m: nat)
    requires InLine(k, x, m)
    ensures !Stays(k)
    ensures Slot(x) && x != k.active && k.procs[k.active].status == Running && x in k.ready
    ensures k.prio[k.ready[|k.ready| - 1]] == k.prio[k.active] && k.ready[|k.ready| - 1] != k.active
  {
    hide Family, Waits, Records, LogTrue, NoDup;
    assert x in k.ready && k.ready[|k.ready| - 1] in k.ready;
    LastIsHighest(k.prio, k.ready);
  }

  lemma SwitchedLine(k: Kernel)
    requires Shape(k) && k.ready != [] && k.procs[k.active].status == Running
    requires k.ready[|k.ready| - 1] != k.active
    ensures var k', last := Switched(k), |k.ready| - 1;
      && k'.active == k.ready[last] && k'.prio == k.prio && k'.sleepers == k.sleepers && k'.clock == k.clock
      && k'.ready == Enqueue(k.prio, k.ready[..last], k.active)
  {
    hide Enqueue;
  }

  // One turn: the first in line runs, the running process goes to the end of the line.
  lemma OneTurn(k: Kernel, x: int, m: nat)
    requires InLine(k, x, m)
    ensures var k' := Schedule(k);
      if m == 0 then k'.active == x else InLine(k', x, m - 1)
  {
    hide Slots, Queues, Family, Waits, Records, LogTrue, Enqueue, Switched, Stays, Fair;
    LineSwitches(k, x, m);
    ScheduleInv(k);
    SwitchedLine(k);
    if m > 0 {
      var last := |k.ready| - 1;
      EnqueueBehind(k.prio, k.ready[..last], k.active, x, last - m);
    }
  }

  lemma TicksEnd(k: Kernel, n: nat)
    requires Shape(k)
    ensures AfterAll(k, Ticks(0)) == k
    ensures AfterAll(k, Ticks(n + 1)) == After(AfterAll(k, Ticks(n)), Tick)
  {
    hide After;
    assert Ticks(n + 1)[..n] == Ticks(n);
  }

  // Where x stands in line after n quiet ticks.
  lemma {:induction false} LineMoves(k: Kernel, x: int, m: nat, n: nat, q: nat)
    requires InLine(k, x, m) && n <= m && n <= q && Quiet(k, q)
    ensures InLine(AfterAll(k, Ticks(n)), x, m - n) && Quiet(AfterAll(k, Ticks(n)), q - n)
  {
    hide InLine, Quiet, After, AfterAll;
    QuietShape(k, q);
    if n == 0 {
      TicksEnd(k, 0);
    } else {
      TicksEnd(k, n - 1);
      LineMoves(k, x, m, n - 1, q);
      QuietTick(AfterAll(k, Ticks(n - 1)), x, m - (n - 1), q - (n - 1));
    }
  }

  lemma QuietShape(k: Kernel, n: nat)
    requires Quiet(k, n)
    ensures Shape(k)
  {
  }

  lemma QuietTick(k: Kernel, x: int, m: nat, n: nat)
    requires InLine(k, x, m) && Quiet(k, n) && n > 0
    ensures var k' := After(k, Tick);
      if m == 0 then k'.active == x else InLine(k', x, m - 1) && Quiet(k', n - 1)
  {
    hide Slots, Queues, Family, Waits, Records, LogTrue, Schedule, WakeDue;
    var k1 := k.(clock := k.clock + 1);
    ClockUnseen(k, k1);
    WakeDueLine(k1, x, m, n - 1);
    OneTurn(WakeDue(k1), x, m);
    ScheduleQueues(WakeDue(k1));
    ScheduleStatus(WakeDue(k1));
  }

  // s sleeps until w, or has done so and is ready or running.
  ghost predicate Sleeper(k: Kernel, s: int, w: nat, p: int) {
    && Consistent(k) && Slot(s) && k.prio[s] == p && k.procs[s].wake == w
    && (k.procs[s].status == Sleeping || Runnable(k.procs[s]))
  }

  lemma {:induction false} WakeDueSleeper(k: Kernel, s: int, w: nat, p: int)
    requires Sleeper(k, s, w, p)
    ensures Sleeper(WakeDue(k), s, w, p)
    decreases |k.sleepers|
  {
    hide Slots, Family, Waits, Records, LogTrue, Ascending, NoDup;
    var i := FirstDue(k.procs, k.clock, k.sleepers);
    if i < |k.sleepers| {
      AwakeConsistent(k, i);
      WakeDueSleeper(Awake(k, i), s, w, p);
    }
  }

  lemma TickSleeper(k: Kernel, s: int, w: nat, p: int)
    requires Inv(k) && Sleeper(k, s, w, p)
    ensures Sleeper(After(k, Tick), s, w, p)
  {
    hide Queues, Slots, Family, Waits, Records, LogTrue, Schedule, WakeDue, Switched;
    var k1 := k.(clock := k.clock + 1);
    ClockUnseen(k, k1);
    WakeDueConsistent(k1);
    WakeDueSleeper(k1, s, w, p);
    ScheduleInv(WakeDue(k1));
    ScheduleStatus(WakeDue(k1));
  }

  lemma ScheduleStatus(k: Kernel)
    requires Consistent(k)
    ensures SameButStatus(k, Schedule(k))
  {
    hide Queues, Slots, Family, Waits, Records, LogTrue, Switched;
    if !Stays(k) {
      SwitchedQueues(k);
    }
  }

  // After n ticks, and at least one, no sleeper is overdue and a former sleeper is still known.
  lemma {:induction false} TicksSleeper(k: Kernel, s: int, w: nat, p: int, n: nat)
    requires Inv(k) && Sleeper(k, s, w, p)
    ensures var k' := AfterAll(k, Ticks(n));
      && Inv(k') && Sleeper(k', s, w, p) && k'.clock == k.clock + n
      && (n > 0 && s in k'.sleepers ==> w > k'.clock)
  {
    hide Slots, Queues, Family, Waits, Records, LogTrue, Fair, After, AfterAll;
    if n == 0 {
      TicksEnd(k, 0);
    } else {
      TicksEnd(k, n - 1);
      TicksSleeper(k, s, w, p, n - 1);
      var k1 := AfterAll(k, Ticks(n - 1));
      TickSleeper(k1, s, w, p);
      TickInv(k1);
    }
  }

  // A process of higher priority that has become due has taken the processor from x's line.
  lemma HigherRuns(k: Kernel, s: int, x: int, n: nat)
    requires Inv(k) && s in k.sleepers && n > 0 && Slot(s) && k.procs[s].wake <= k.clock + n
    requires Slot(x) && k.prio[x] < k.prio[s]
    ensures Shape(AfterAll(k, Ticks(n))) && AfterAll(k, Ticks(n)).active != x
  {
    hide Family, Waits, Records, LogTrue, After, AfterAll, Ascending, NoDup;
    TicksSleeper(k, s, k.procs[s].wake, k.prio[s], n);
    SamePrio(k, n);
  }

  lemma {:induction false} SamePrio(k: Kernel, n: nat)
    requires Inv(k)
    ensures Inv(AfterAll(k, Ticks(n))) && AfterAll(k, Ticks(n)).prio == k.prio
  {
    hide Slots, Queues, Family, Waits, Records, LogTrue, Fair, AfterAll, Schedule, WakeDue, Switched;
    if n == 0 {
      TicksEnd(k, 0);
    } else {
      TicksEnd(k, n - 1);
      SamePrio(k, n - 1);
      var k1 := AfterAll(k, Ticks(n - 1));
      TickInv(k1);
      var k2 := k1.(clock := k1.clock + 1);
      ClockUnseen(k1, k2);
      WakeDueConsistent(k2);
      WakeDuePrio(k2);
      ScheduleStatus(WakeDue(k2));
    }
  }

  lemma {:induction false} WakeDuePrio(k: Kernel)
    requires Shape(k)
    ensures WakeDue(k).prio == k.prio
    decreases |k.sleepers|
  {
    var i := FirstDue(k.procs, k.clock, k.sleepers);
    if i < |k.sleepers| {
      WakeDuePrio(Awake(k, i));
    }
  }

  // Round robin is exact. With m equal-priority processes ahead of it and only ticks
  // happening, x does not run before m + 1 ticks; it runs after m + 1 ticks if and only if no
  // sleeper of higher priority is due by then.
  lemma RoundRobin(k: Kernel, x: int, m: nat)
    requires InLine(k, x, m)
    ensures forall n: nat | n <= m :: AfterAll(k, Ticks(n)).active != x
    ensures AfterAll(k, Ticks(m + 1)).active == x <==> Quiet(k, m + 1)
  {
    hide InLine, Quiet, After, AfterAll;
    LineShape(k, x, m);
    forall n: nat | n <= m
      ensures AfterAll(k, Ticks(n)).active != x
    {
      NotBefore(k, x, m, n);
    }
    if Quiet(k, m + 1) {
      LineMoves(k, x, m, m, m + 1);
      QuietShape(k, m + 1);
      TicksEnd(k, m);
      QuietTick(AfterAll(k, Ticks(m)), x, 0, 1);
    } else {
      Disturbed(k, x, m, m + 1);
    }
  }

  lemma Disturbed(k: Kernel, x: int, m: nat, n: nat)
    requires InLine(k, x, m) && !Quiet(k, n) && n > 0
    ensures AfterAll(k, Ticks(n)).active != x
  {
    hide Family, Waits, Records, LogTrue, After, AfterAll, Ascending, NoDup;
    var s :| s in k.sleepers && !(0 <= s < NBPROC && (k.prio[s] > k.prio[k.active] ==> k.procs[s].wake > k.clock + n));
    LineSwitches(k, x, m);
    HigherRuns(k, s, x, n);
  }

  lemma NotBefore(k: Kernel, x: int, m: nat, n: nat)
    requires InLine(k, x, m) && n <= m
    ensures AfterAll(k, Ticks(n)).active != x
  {
    hide InLine, Quiet, After, AfterAll;
    LineShape(k, x, m);
    if n == 0 {
      TicksEnd(k, 0);
      LineSwitches(k, x, m);
    } else if Quiet(k, n) {
      LineMoves(k, x, m, n, n);
      LineSwitches(AfterAll(k, Ticks(n)), x, m - n);
    } else {
      Disturbed(k, x, m, n);
    }
  }

  lemma LineShape(k: Kernel, x: int, m: nat)
    requires InLine(k, x, m)
    ensures Shape(k)
  {
  }

  // ---------- a run in which round robin fails ----------

  // Process 1 has gone to sleep until the next tick, process 2 runs, and idle, of the same
  // priority as 2, is first in line.
  const RUN := [Start(2), WaitClock(1), Start(1)]

  ghost predicate Snapshot(k: Kernel, active: int, ready: seq<int>, sleepers: seq<int>, n: nat) {
    && Inv(k) && k.active == active && k.ready == ready && k.sleepers == sleepers && k.clock == 0
    && (forall i | 0 <= i < NBPROC :: (k.procs[i].pid == -1 <==> i >= n) && k.procs[i].awaited == -1)
    && k.prio[0] == 1
  }

  lemma EnqueueFirst(prio: seq<int>, x: int)
    requires 0 <= x < |prio|
    ensures Enqueue(prio, [], x) == [x]
  {
  }

  // The only ready process takes over from a running one that does not outrank it.
  lemma TakesOver(k: Kernel, n: int)
    requires Consistent(k) && k.ready == [n] && n != k.active
    requires k.procs[k.active].status == Running ==> 0 <= n < NBPROC && k.prio[n] >= k.prio[k.active]
    ensures var k' := Schedule(k);
      && k'.active == n && k'.prio == k.prio
      && k'.ready == if k.procs[k.active].status == Running then [k.active] else []
  {
    hide Slots, Queues, Family, Waits, Records, LogTrue, Enqueue;
    EnqueueFirst(k.prio, k.active);
  }

  // What start does to the table before it calls ordonnancer.
  lemma StartedTable(k: Kernel, n: int, p: int)
    requires Shape(k) && k.ready == [] && Slot(n) && n != k.active
    ensures var k' := Started(k, n, p);
      && k'.ready == [n] && k'.prio == k.prio[n := p] && k'.active == k.active && k'.sleepers == k.sleepers
      && k'.clock == k.clock
      && k'.procs[n].pid == n && k'.procs[n].awaited == -1
      && (forall i | 0 <= i < NBPROC && i != n :: SameCall(k.procs[i], k'.procs[i]))
  {
    hide Enqueue;
    EnqueueFirst(k.prio[n := p], n);
  }

  ghost predicate SameCall(q: Proc, r: Proc) {
    r.pid == q.pid && r.awaited == q.awaited && r.wake == q.wake && r.status == q.status
  }

  // A process that is started with at least the running process's priority runs.
  lemma StartTakesOver(k: Kernel, a: int, sleepers: seq<int>, n: nat, p: int)
    requires Snapshot(k, a, [], sleepers, n) && 0 < n < NBPROC && a < n && p >= k.prio[a]
    ensures Enabled(k, Start(p)) && Snapshot(After(k, Start(p)), n, [a], sleepers, n + 1)
    ensures After(k, Start(p)).prio == k.prio[n := p]
    ensures forall i | 0 <= i < NBPROC && i != n :: After(k, Start(p)).procs[i].wake == k.procs[i].wake
  {
    hide Slots, Queues, Family, Waits, Records, LogTrue, Started, Schedule;
    assert k.procs[n].pid == -1 && FirstFree(k.procs) >= n;
    var k1 := Started(k, n, p);
    StartInv(k, p);
    StartedConsistent(k, n, p);
    StartedTable(k, n, p);
    TakesOver(k1, n);
    ScheduleQueues(k1);
  }

  lemma BootSnapshot()
    ensures Snapshot(Boot(1), 0, [], [], 1)
  {
    BootInv(1);
  }

  // The running process goes to sleep and the only ready one runs.
  lemma SleepHandsOver(k: Kernel, a: int, b: int, n: nat, until: nat)
    requires Snapshot(k, a, [b], [], n) && a != 0
    ensures Enabled(k, WaitClock(until)) && Snapshot(After(k, WaitClock(until)), b, [], [a], n)
    ensures After(k, WaitClock(until)).prio == k.prio && After(k, WaitClock(until)).procs[a].wake == until
  {
    hide Slots, Family, Waits, Records, LogTrue, Schedule, Enqueue;
    WaitClockInv(k, until);
    AsleepConsistent(k, until);
    EnqueueFirst(k.prio, a);
    var k1 := Asleep(k, until);
    assert b in k.ready;
    TakesOver(k1, b);
    ScheduleQueues(k1);
  }

  lemma NoSteps(k: Kernel)
    requires Shape(k)
    ensures AfterAll(k, []) == k
  {
  }

  lemma OneStepMore(k: Kernel, steps: seq<Step>, s: Step)
    requires Shape(k) && Enabled(AfterAll(k, steps), s)
    ensures AfterAll(k, steps + [s]) == After(AfterAll(k, steps), s)
  {
    hide After, Enabled;
    assert (steps + [s])[..|steps|] == steps;
  }

  lemma RunReaches()
    ensures var k := AfterAll(Boot(1), RUN);
      Snapshot(k, 2, [0], [1], 3) && k.prio[0] == k.prio[2] == 1 && k.prio[1] == 2 && k.procs[1].wake == 1
  {
    var k0 := Boot(1);
    BootSnapshot();
    hide After, AfterAll, Inv, Boot, Enabled;
    StartTakesOver(k0, 0, [], 1, 2);
    var k1 := After(k0, Start(2));
    SleepHandsOver(k1, 1, 0, 2, 1);
    var k2 := After(k1, WaitClock(1));
    StartTakesOver(k2, 0, [1], 2, 1);
    NoSteps(k0);
    assert [Start(2)] == [] + [Start(2)] && [Start(2), WaitClock(1)] == [Start(2)] + [WaitClock(1)];
    assert RUN == [Start(2), WaitClock(1)] + [Start(1)];
    OneStepMore(k0, [], Start(2));
    OneStepMore(k0, [Start(2)], WaitClock(1));
    OneStepMore(k0, [Start(2), WaitClock(1)], Start(1));
  }

  // Being first in line is then not enough: the sleeper wakes up and runs instead.
  lemma SleeperTakesTheTurn()
    ensures var k := AfterAll(Boot(1), RUN); InLine(k, 0, 0) && AfterAll(k, Ticks(1)).active != 0
  {
    hide AfterAll, Slots, Queues, Family, Waits, Records, LogTrue;
    RunReaches();
    var k := AfterAll(Boot(1), RUN);
    assert 1 in k.sleepers;
    assert !Quiet(k, 1);
    RoundRobin(k, 0, 0);
  }
}
