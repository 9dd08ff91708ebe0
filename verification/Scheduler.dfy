/**
 The process management of kernel/process.c and kernel/horloge.c, with the process table
 updated in place. Each method is proved against the function on Kernel values of the same
 operation.
 */
module Scheduler {
  import opened PriorityOrder
  import opened ProcessLists
  import opened ProcessModel
  import opened ProcessInvariants
  import opened ProcessGraves
  import opened ProcessRuns
  import opened ProcessCalls

  class ProcessTable {
    const procs: array<Proc>     // table_des_processus
    var prio: seq<int>           // the prio fields of the table
    var ready: seq<int>          // file_ordonnee_des_processus_activables
    var sleepers: seq<int>       // file_processus_endomis_sur_wait_clock
    var active: int              // pid_actif
    var clock: nat
    var born: nat                // history: processes started so far
    ghost var ended: map<nat, int>
    ghost var log: seq<Collected>

    ghost function K(): Kernel
      reads this, procs
    {
      Rest().(procs := procs[..])
    }

    // Everything but the table itself.
    ghost function Rest(): Kernel
      reads this`prio, this`ready, this`sleepers, this`active, this`clock, this`born, this`ended, this`log
    {
      Kernel([], prio, ready, sleepers, active, clock, born, ended, log)
    }

    // initialiser_gestion_des_processus and the start of idle, which runs at once as process 0.
    constructor (idlePrio: int)
      ensures Inv(K()) && K() == Boot(idlePrio) && fresh(procs)
    {
      procs := new Proc[NBPROC](i => if i == 0 then Proc(0, Running, -1, -1, 0, 0, [], 0) else FREE);
      prio := [idlePrio] + seq(NBPROC - 1, _ => 0);
      ready, sleepers, active, clock := [], [], 0, 0;
      born, ended, log := 1, map[], [];
      new;
      assert procs[..] == Boot(idlePrio).procs;
      BootInv(idlePrio);
    }

    // ---------- the MORT and ZOMBIE cases of definir_etat_processus ----------

    // definir_etat_processus(p, MORT): p and all zombies below it are freed; their children
    // lose their father, and p leaves the list of its own father if it still has one.
    method Destroy(p: int, ghost k: Kernel, ghost d: set<int>, ghost e: set<int>, ghost r: set<int>)
      requires Shape(k) && Family(k) && Young(k) && Slot(p) && procs.Length == NBPROC
      requires IsCut(k, procs[..], d, e, r) && DoomedSet(k, p) !! d && Apart(k, p, d) && Apart(k, p, r)
      requires k.procs[p].father !in d
      modifies procs
      ensures IsCut(k, procs[..], d + DoomedSet(k, p), e + ChildrenOf(k, DoomedSet(k, p)),
                    if p !in e && k.procs[p].father != -1 then r + {p} else r)
      decreases k.born - k.procs[p].birth, 1
    {
      DoomedFacts(k, p);
      var kids := procs[p].children;
      KidsAsBefore(k, procs[..], d, e, r, p);
      NothingYet(k, p, d, e);
      hide *;
      var n := 0;
      while n < |kids|
        invariant 0 <= n <= |kids| && kids == k.procs[p].children
        invariant Shape(k) && Family(k) && Young(k) && Slot(p) && procs.Length == NBPROC
        invariant IsCut(k, procs[..], Freed(k, p, n, d), Severed(k, p, n, e), r)
      {
        DestroyChild(p, kids[n], n, k, d, e, r);
        n := n + 1;
      }
      Leave(p, k, d, e, r);
    }

    // One turn of the loop over the children of a dying process.
    method DestroyChild(p: int, c: int, ghost n: nat, ghost k: Kernel, ghost d: set<int>, ghost e: set<int>,
        ghost r: set<int>)
      requires Shape(k) && Family(k) && Young(k) && Slot(p) && procs.Length == NBPROC
      requires DoomedSet(k, p) !! d && Apart(k, p, d) && Apart(k, p, r)
      requires n < |k.procs[p].children| && c == k.procs[p].children[n]
      requires IsCut(k, procs[..], Freed(k, p, n, d), Severed(k, p, n, e), r)
      modifies procs
      ensures IsCut(k, procs[..], Freed(k, p, n + 1, d), Severed(k, p, n + 1, e), r)
      decreases k.born - k.procs[p].birth, 0
    {
      ghost var d1, e1 := Freed(k, p, n, d), Severed(k, p, n, e);
      ChildTurn(k, procs[..], p, n, d, e, r);
      hide *;
      procs[c] := procs[c].(father := -1);
      if procs[c].status == Zombie {
        ZombieTurn(k, p, n, d, e, r);
        Destroy(c, k, d1, e1 + {c}, r);
      } else {
        LivingTurn(k, p, n, d, e);
      }
    }

    // The end of the MORT case: the slot is freed and its father's list forgets it.
    method Leave(p: int, ghost k: Kernel, ghost d: set<int>, ghost e: set<int>, ghost r: set<int>)
      requires Shape(k) && Family(k) && Slot(p) && procs.Length == NBPROC
      requires k.procs[p].father !in d && p !in d
      requires var n := |k.procs[p].children|;
        IsCut(k, procs[..], Freed(k, p, n, d), Severed(k, p, n, e), r)
      modifies procs
      ensures IsCut(k, procs[..], d + DoomedSet(k, p), e + ChildrenOf(k, DoomedSet(k, p)),
                    if p !in e && k.procs[p].father != -1 then r + {p} else r)
    {
      ghost var n, d1, e1 := |k.procs[p].children|, d + DoomedSet(k, p), e + ChildrenOf(k, DoomedSet(k, p));
      AllFreed(k, p, d, e);
      DoomedFacts(k, p);
      var f := procs[p].father;
      CutFree(k, procs[..], Freed(k, p, n, d), e1, r, p);
      procs[p] := FREE;
      assert IsCut(k, procs[..], d1, e1, r);
      if f != -1 {
        CutList(k, procs[..], d1, e1, r, p);
      }
      if 0 <= f < NBPROC && procs[f].status != Dead {
        procs[f] := procs[f].(children := Without(procs[f].children, {p}));
      }
    }

    // ---------- the other cases of definir_etat_processus ----------

    ghost predicate Valid()
      reads this, procs
    {
      Shape(K())
    }

    // The bounds that Shape gives.
    static lemma Bounds(k: Kernel)
      requires Shape(k)
      ensures |k.procs| == NBPROC && |k.prio| == NBPROC && Slot(k.active)
      ensures InTable(NBPROC, k.ready) && InTable(NBPROC, k.sleepers)
      ensures k.ready != [] ==> Slot(k.ready[|k.ready| - 1])
    {
    }

    // A process on no list gets ready.
    method MakeReadyAt(i: int)
      requires Valid() && Slot(i)
      modifies this`ready, procs
      ensures Valid() && K() == MakeReady(old(K()), i)
    {
      Bounds(K());
      hide Enqueue, Shape, InTable;
      ready := Enqueue(prio, ready, i);
      procs[i] := procs[i].(status := Ready);
    }

    // ordonnancer
    method Ordonnancer()
      requires Consistent(K()) && procs[active].status != Ready
      modifies this`ready, this`active, procs
      ensures Valid() && K() == Schedule(old(K()))
    {
      ghost var k := K();
      NextIsReady(k);
      Bounds(k);
      hide Slots, Queues, Family, Waits, Records, LogTrue, Shape, InTable;
      if ready == [] {
        return;
      }
      var next, a := ready[|ready| - 1], active;
      if procs[a].status == Running && prio[next] < prio[a] {
        return;
      }
      SwitchToNext();
      if procs[a].status == Running {
        MakeReadyAt(a);
      }
    }

    // The last of the ready list leaves it and runs.
    method SwitchToNext()
      requires Valid() && ready != []
      modifies this`ready, this`active, procs
      ensures Valid() && K() == SwitchedTo(old(K()))
      ensures old(active) != old(ready)[|old(ready)| - 1] ==> procs[old(active)] == old(procs[active])
    {
      Bounds(K());
      hide Shape, InTable;
      var next := ready[|ready| - 1];
      ready := ready[..|ready| - 1];
      procs[next] := procs[next].(status := Running);
      active := next;
    }

    static lemma NextIsReady(k: Kernel)
      requires Consistent(k)
      ensures k.ready != [] ==> k.procs[k.ready[|k.ready| - 1]].status == Ready
    {
      if k.ready != [] {
        assert k.ready[|k.ready| - 1] in k.ready;
      }
    }

    // definir_etat_processus(p, ZOMBIE): the zombies among the children are destroyed.
    method DestroyZombieChildren(p: int)
      requires Valid() && Family(K()) && Young(K()) && Slot(p)
      modifies procs
      ensures Valid() && K() == Bury(old(K()), DoomedSet(old(K()), p) - {p})
    {
      ghost var k := K();
      assert Shape(k) && k.procs == procs[..] && Rest() == k.(procs := []);
      hide *;
      StartsUncut(k, p);
      Bounds(k);
      VisitChildren(p, k);
      EndsCut(k, procs[..], p);
      BuriedNow(k, DoomedSet(k, p) - {p});
    }

    // Its loop over the children.
    method VisitChildren(p: int, ghost k: Kernel)
      requires Shape(k) && Family(k) && Young(k) && Slot(p) && procs.Length == NBPROC
      requires procs[p].children == k.procs[p].children
      requires IsCut(k, procs[..], Freed(k, p, 0, {}), ChildrenOf(k, Freed(k, p, 0, {})), ZombieKids(k, p, 0))
      modifies procs
      ensures procs.Length == NBPROC
      ensures var n := |k.procs[p].children|;
        IsCut(k, procs[..], Freed(k, p, n, {}), ChildrenOf(k, Freed(k, p, n, {})), ZombieKids(k, p, n))
    {
      Bounds(k);
      assert 0 <= p < NBPROC;
      hide *;
      var kids := procs[p].children;
      var n := 0;
      while n < |kids|
        invariant 0 <= n <= |kids| && procs.Length == |k.procs| == NBPROC
        invariant Shape(k) && Family(k) && Young(k) && 0 <= p < NBPROC && Slot(p) && kids == k.procs[p].children
        invariant IsCut(k, procs[..], Freed(k, p, n, {}), ChildrenOf(k, Freed(k, p, n, {})), ZombieKids(k, p, n))
      {
        DestroyIfZombie(p, kids[n], n, k);
        n := n + 1;
      }
    }

    lemma BuriedNow(k: Kernel, d: set<int>)
      requires Shape(k) && procs[..] == Bury(k, d).procs
      requires Rest() == k.(procs := [])
      ensures Valid() && K() == Bury(k, d)
    {
      hide BuriedProc, Shape;
    }

    method DestroyIfZombie(p: int, c: int, ghost n: nat, ghost k: Kernel)
      requires Shape(k) && Family(k) && Young(k) && Slot(p) && procs.Length == NBPROC
      requires n < |k.procs[p].children| && c == k.procs[p].children[n]
      requires IsCut(k, procs[..], Freed(k, p, n, {}), ChildrenOf(k, Freed(k, p, n, {})), ZombieKids(k, p, n))
      modifies procs
      ensures procs.Length == NBPROC
      ensures IsCut(k, procs[..], Freed(k, p, n + 1, {}), ChildrenOf(k, Freed(k, p, n + 1, {})),
        ZombieKids(k, p, n + 1))
    {
      ZombieKidTurn(k, procs[..], p, n);
      hide *;
      if procs[c].status == Zombie {
        Destroy(c, k, Freed(k, p, n, {}), ChildrenOf(k, Freed(k, p, n, {})), ZombieKids(k, p, n));
      }
    }

    // definir_etat_processus(p, MORT) from outside: the closed form of the recursion.
    method DestroyAll(p: int)
      requires Valid() && Family(K()) && Young(K()) && Slot(p)
      modifies procs
      ensures Valid() && K() == Bury(old(K()), DoomedSet(old(K()), p))
    {
      ghost var k := K();
      assert Shape(k) && k.procs == procs[..] && Rest() == k.(procs := []);
      hide *;
      StartsUncut(k, p);
      DoomedApart(k, p);
      Bounds(k);
      Destroy(p, k, {}, {}, {});
      EndsCutAll(k, procs[..], p);
      BuriedNow(k, DoomedSet(k, p));
    }

    // Leaving the ready or clock list before dying.
    method LeaveLists(p: int)
      requires Valid() && Queues(K()) && Slot(p)
      modifies this`ready, this`sleepers
      ensures Valid() && K() == Unlist(old(K()), p)
    {
      ghost var k := K();
      UnlistedAlready(k, p);
      Bounds(k);
      hide Queues, Without, Shape, InTable;
      if procs[p].status == Ready {
        ready := Without(ready, {p});
      } else if procs[p].status == Sleeping {
        sleepers := Without(sleepers, {p});
      }
      assert K() == Unlist(k, p);
    }

    static lemma UnlistedAlready(k: Kernel, p: int)
      requires Shape(k) && Queues(k) && Slot(p)
      ensures k.procs[p].status != Ready ==> Without(k.ready, {p}) == k.ready
      ensures k.procs[p].status != Sleeping ==> Without(k.sleepers, {p}) == k.sleepers
    {
      hide Ascending, NoDup, Without;
      if k.procs[p].status != Ready {
        assert forall i | 0 <= i < |k.ready| :: k.ready[i] in k.ready;
        WithoutNothing(k.ready, {p});
      }
      if k.procs[p].status != Sleeping {
        assert forall i | 0 <= i < |k.sleepers| :: k.sleepers[i] in k.sleepers;
        WithoutNothing(k.sleepers, {p});
      }
    }

    // The father of a dying process is woken if it waits for it.
    method WakeFather(p: int)
      requires Valid() && Slot(p) && Slot(procs[p].father)
      modifies this`ready, procs
      ensures Valid() && K() == FatherWoken(old(K()), p)
    {
      ghost var k := K();
      Bounds(k);
      var f := procs[p].father;
      if procs[f].status == AwaitingChild && (procs[f].awaited == -2 || procs[f].awaited == p) {
        if procs[f].awaited == -2 {
          procs[f] := procs[f].(awaited := p);
        }
        hide Shape, InTable;
        assert K() == Put(k, f, k.procs[f].(awaited := p));
        MakeReadyAt(f);
      }
    }

    // The last stroke of the ZOMBIE case.
    method BecomesZombie(p: int)
      requires Valid() && Slot(p)
      modifies procs
      ensures Valid() && K() == Buried(old(K()), p)
    {
      procs[p] := procs[p].(status := Zombie);
    }

    // The history of the termination.
    ghost method Record(p: int)
      requires Valid() && Slot(p)
      modifies this`ended
      ensures Valid() && K() == Ended(old(K()), p)
    {
      ended := ended[procs[p].birth := procs[p].retval];
    }

    // terminaison_processus up to its call of ordonnancer.
    method Terminaison(p: int)
      requires Terminable(K(), p)
      modifies this`ready, this`sleepers, this`ended, procs
      ensures Valid() && K() == Terminated(old(K()), p)
    {
      ghost var k := K();
      TerminableBounds(k, p);
      TerminatedStages(k, p);
      hide *;
      Record(p);
      if !(0 <= procs[p].father < NBPROC) {
        LeaveLists(p);
        DestroyAll(p);
      } else {
        WakeFather(p);
        LeaveLists(p);
        DestroyZombieChildren(p);
        BecomesZombie(p);
      }
    }

    static lemma TerminableBounds(k: Kernel, p: int)
      requires Terminable(k, p)
      ensures Shape(k) && Slot(p) && |k.procs| == NBPROC
    {
    }

    // ---------- system calls ----------

    // The search for a free slot in start.
    method FindFree() returns (pid: int)
      requires procs.Length == NBPROC
      ensures pid == -1 <==> FirstFree(procs[..]) == NBPROC
      ensures pid != -1 ==> pid == FirstFree(procs[..])
    {
      for i := 0 to NBPROC
        invariant forall j | 0 <= j < i :: procs[j].pid != -1
      {
        if procs[i].pid == -1 {
          return i;
        }
      }
      return -1;
    }

    // start: the new process, in the list of its father, then in the ready list.
    method NewChild(i: int, newprio: int)
      requires Valid() && Slot(i) && i != active
      modifies this, procs
      ensures Valid() && K() == Started(old(K()), i, newprio)
    {
      ghost var k := K();
      Bounds(k);
      assert InTable(NBPROC, k.procs[k.active].children);
      hide Enqueue, Shape;
      var a := active;
      prio := prio[i := newprio];
      procs[i] := Proc(i, Ready, a, -1, 0, 0, [], born);
      born := born + 1;
      procs[a] := procs[a].(children := Enqueue(prio, procs[a].children, i));
      assert K() == WithChild(k, i, newprio);
      MakeReadyAt(i);
    }

    // start, for a program that exists: the number of the new process, or -1 when the table
    // is full.
    method Start(newprio: int) returns (pid: int)
      requires Inv(K()) && Enabled(K(), Step.Start(newprio))
      modifies this, procs
      ensures Inv(K()) && K() == After(old(K()), Step.Start(newprio))
      ensures pid == -1 <==> forall i | 0 <= i < NBPROC :: old(procs[..])[i].pid != -1
      ensures if pid == -1 then K() == old(K()) else Starts(old(K()), K(), pid, newprio)
    {
      hide Slots, Queues, Family, Waits, Records, LogTrue, Fair, Schedule, After, Started, Starts;
      ghost var k := K();
      if exists i :: 0 <= i < NBPROC && k.procs[i].pid == -1 {
        StartTakes(k, newprio);
      }
      StepInv(k, Step.Start(newprio));
      StartSteps(k, newprio);
      assert procs.Length == NBPROC;
      pid := FindFree();
      if pid == -1 {
        return;
      }
      NewChild(pid, newprio);
      Ordonnancer();
    }

    static lemma StartSteps(k: Kernel, newprio: int)
      requires Inv(k)
      ensures Shape(k) && k.procs[k.active].pid != -1
      ensures var i := FirstFree(k.procs);
        if i == NBPROC then After(k, Step.Start(newprio)) == k
        else
          && i != k.active && Consistent(Started(k, i, newprio))
          && Started(k, i, newprio).procs[Started(k, i, newprio).active].status != Ready
          && After(k, Step.Start(newprio)) == Schedule(Started(k, i, newprio))
    {
      hide Queues, Family, Waits, Records, LogTrue, Started, Schedule;
      var i := FirstFree(k.procs);
      if i != NBPROC {
        StartedConsistent(k, i, newprio);
        StartedBorn(k, i, newprio);
      }
    }

    // kill: 0, or -1 for a process that cannot be killed.
    method Kill(pid: int) returns (r: int)
      requires Inv(K()) && Enabled(K(), Step.Kill(pid))
      modifies this, procs
      ensures Inv(K()) && K() == After(old(K()), Step.Kill(pid))
      ensures r == if old(MayKill(K(), pid)) then 0 else -1
      ensures if old(MayKill(K(), pid)) then Dies(old(K()), K(), pid, 0) else K() == old(K())
    {
      hide Slots, Queues, Family, Waits, Records, LogTrue, Fair, Schedule, After, Terminated, Terminable, Dies;
      ghost var k := K();
      if MayKill(k, pid) {
        KillEnds(k, pid);
      }
      StepInv(k, Step.Kill(pid));
      KillSteps(k, pid);
      if !(0 < pid < NBPROC) || procs[pid].status == Dead || procs[pid].status == Zombie {
        return -1;
      }
      Terminaison(pid);
      Ordonnancer();
      return 0;
    }

    // What terminaison_processus leaves running is not ready, so that ordonnancer may be called.
    static lemma TerminatedNotReady(k: Kernel, p: int)
      requires Terminable(k, p) && k.procs[k.active].status == Running
      ensures Consistent(Terminated(k, p))
      ensures Terminated(k, p).procs[Terminated(k, p).active].status != Ready
    {
      hide Slots, Queues, Family, Waits, Records, LogTrue, Terminated;
      TerminatedConsistent(k, p);
      TerminatedStatus(k, p);
      TerminatedFrame(k, p);
      assert Outlives(k, p, k.active, Terminated(k, p).procs[k.active]);
    }

    static lemma KillSteps(k: Kernel, pid: int)
      requires Inv(k)
      ensures Shape(k) && |k.procs| == NBPROC
      ensures !Killable(k, pid) ==> After(k, Step.Kill(pid)) == k
      ensures Killable(k, pid) ==>
        && Terminable(k, pid) && Consistent(Terminated(k, pid))
        && Terminated(k, pid).procs[Terminated(k, pid).active].status != Ready
        && After(k, Step.Kill(pid)) == Schedule(Terminated(k, pid))
    {
      hide Slots, Queues, Family, Waits, LogTrue, Terminated, Schedule;
      if Killable(k, pid) {
        TerminatedNotReady(k, pid);
      }
    }

    // exit: the process does not run any more.
    method Exit(retval: int)
      requires Inv(K()) && Enabled(K(), Step.Exit(retval))
      modifies this, procs
      ensures Inv(K()) && K() == After(old(K()), Step.Exit(retval))
      ensures Dies(old(K()), K(), old(active), retval) && active != old(active)
    {
      hide Slots, Queues, Family, Waits, Records, LogTrue, Fair, Schedule, After, Terminated, Terminable, Dies;
      ghost var k := K();
      ExitEnds(k, retval);
      StepInv(k, Step.Exit(retval));
      ExitSteps(k, retval);
      var p := active;
      procs[p] := procs[p].(retval := retval);
      assert K() == Valued(k, retval);
      Terminaison(p);
      Ordonnancer();
    }

    static lemma ExitSteps(k: Kernel, retval: int)
      requires Inv(k) && k.active != 0
      ensures var k1 := Valued(k, retval);
        && Terminable(k1, k.active) && k1.active == k.active && Consistent(Terminated(k1, k.active))
        && Terminated(k1, k.active).procs[Terminated(k1, k.active).active].status != Ready
        && After(k, Step.Exit(retval)) == Schedule(Terminated(k1, k.active))
    {
      hide Slots, Queues, Family, Waits, Records, LogTrue, Terminated, Schedule, Terminable;
      ExitTerminable(k, retval);
      TerminatedNotReady(Valued(k, retval), k.active);
    }

    // The search of waitpid for a child that is a zombie already.
    method FindZombie(kids: seq<int>) returns (c: int)
      requires procs.Length == NBPROC && InTable(NBPROC, kids)
      ensures c == FirstZombie(procs[..], kids)
    {
      assert kids[0..] == kids;
      for n := 0 to |kids|
        invariant FirstZombie(procs[..], kids) == FirstZombie(procs[..], kids[n..])
      {
        assert kids[n..][1..] == kids[n + 1..];
        if procs[kids[n]].status == Zombie {
          return kids[n];
        }
      }
      return -1;
    }

    // The tests of waitpid: it fails, has to wait, or finds a zombie child.
    method Examine(pid: int) returns (w: Waiting)
      requires Inv(K()) && Enabled(K(), Step.WaitPid(pid))
      ensures w == WaitOutcome(K(), pid)
      ensures w.Fails? <==> NoSuchChild(K(), pid)
      ensures w.Blocks? <==> !NoSuchChild(K(), pid) && forall c :: !ToCollect(K(), pid, c)
      ensures forall c :: ToCollect(K(), pid, c) ==> w == Collects(c)
    {
      OutcomeMeans(K(), pid);
      hide Slots, Queues, Family, Waits, Records, LogTrue, Fair, ToCollect, NoSuchChild;
      Bounds(K());
      assert InTable(NBPROC, procs[active].children);
      if procs[active].children == [] || active == pid {
        return Fails;
      }
      if pid < 0 {
        var c := FindZombie(procs[active].children);
        return if c == -1 then Blocks(-2) else Collects(c);
      }
      if pid >= NBPROC || procs[pid].father != active {
        return Fails;
      }
      return if procs[pid].status != Zombie then Blocks(pid) else Collects(pid);
    }

    // The end of waitpid up to its call of ordonnancer: the value is taken, the child destroyed.
    method Collect(c: int) returns (value: int)
      requires Collectable(K(), c)
      modifies this, procs
      ensures Valid() && K() == CollectedFrom(old(K()), c)
      ensures value == old(procs[..])[c].retval
    {
      ghost var k := K();
      CollectSteps(k, c);
      hide Slots, Queues, Family, Waits, Records, LogTrue, DoomedSet, Bury, Shape, Young;
      value := procs[c].retval;
      procs[active] := procs[active].(awaited := -1);
      log := log + [Collected(k.procs[c].birth, k.procs[c].retval)];
      assert K() == Handed(k, c);
      DestroyAll(c);
    }

    static ghost function Handed(k: Kernel, c: int): (k': Kernel)
      requires Shape(k) && Slot(c)
      ensures Shape(k')
    {
      Put(k, k.active, k.procs[k.active].(awaited := -1))
        .(log := k.log + [Collected(k.procs[c].birth, k.procs[c].retval)])
    }

    static lemma CollectSteps(k: Kernel, c: int)
      requires Collectable(k, c)
      ensures Shape(k) && |k.procs| == NBPROC && Slot(k.active) && Slot(c) && c != k.active
      ensures Family(Handed(k, c)) && Young(Handed(k, c))
      ensures CollectedFrom(k, c) == Bury(Handed(k, c), DoomedSet(Handed(k, c), c))
      ensures Consistent(CollectedFrom(k, c))
      ensures CollectedFrom(k, c).procs[CollectedFrom(k, c).active].status != Ready
    {
      hide Slots, Queues, Family, Waits, Records, LogTrue, Bury, Doomed, DoomedSet, CollectedFrom, Handed;
      CollectedConsistent(k, c);
      CollectorRuns(k, c);
      HandedFamily(k, c);
      HandedDoomed(k, c);
      CollectedByHand(k, c);
    }

    static lemma CollectorRuns(k: Kernel, c: int)
      requires Collectable(k, c)
      ensures CollectedFrom(k, c).procs[CollectedFrom(k, c).active].status != Ready
    {
      hide Slots, Queues, Family, Waits, Records, LogTrue, CollectedFrom;
      CollectedRemains(k, c);
      CollectedFrame(k, c);
      assert Remains(k.procs[k.active], CollectedFrom(k, c).procs[k.active]);
    }

    static lemma HandedFamily(k: Kernel, c: int)
      requires Collectable(k, c)
      ensures Family(Handed(k, c)) && Young(Handed(k, c))
    {
      hide Queues, Waits, LogTrue, Children, Fathers;
      FamilyKept(k, Handed(k, c));
    }

    static lemma HandedDoomed(k: Kernel, c: int)
      requires Shape(k) && Slot(c)
      ensures DoomedSet(Handed(k, c), c) == DoomedSet(k, c)
    {
      hide Doomed;
      forall q | 0 <= q < NBPROC
        ensures Doomed(Handed(k, c), c, q) <==> Doomed(k, c, q)
      {
        DoomedKept(k, Handed(k, c), c, q);
      }
    }

    static lemma CollectedByHand(k: Kernel, c: int)
      requires Shape(k) && Slot(c)
      ensures CollectedFrom(k, c) == Bury(Handed(k, c), DoomedSet(k, c))
    {
    }

    // waitpid up to the point where it fails, blocks or has collected a child. The result and
    // the value are those of the call when it does not block.
    method WaitPid(pid: int) returns (r: int, value: int, blocked: bool)
      requires Inv(K()) && Enabled(K(), Step.WaitPid(pid))
      modifies this, procs
      ensures Inv(K()) && K() == After(old(K()), Step.WaitPid(pid))
      ensures old(NoSuchChild(K(), pid)) ==> r == -1 && !blocked
      ensures blocked <==> !old(NoSuchChild(K(), pid)) && forall c :: !old(ToCollect(K(), pid, c))
      ensures forall c :: old(ToCollect(K(), pid, c)) ==>
        !blocked && r == c && Slot(c) && value == old(procs[..])[c].retval && HandsOut(old(K()), K(), c)
    {
      hide Slots, Queues, Family, Waits, Records, LogTrue, Fair, Schedule, After, CollectedFrom, Blocked,
        Collectable, WaitOutcome, HandsOut, ToCollect, NoSuchChild;
      ghost var k := K();
      StepInv(k, Step.WaitPid(pid));
      WaitSteps(k, pid);
      AllHandOut(k, pid);
      r, value, blocked := -1, 0, false;
      var w := Examine(pid);
      match w {
        case Fails =>
        case Blocks(awaited) =>
          BlockOn(awaited);
          blocked := true;
          Ordonnancer();
        case Collects(c) =>
          r := c;
          value := Collect(c);
          Ordonnancer();
      }
    }

    static lemma AllHandOut(k: Kernel, pid: int)
      requires Inv(k) && Enabled(k, Step.WaitPid(pid))
      ensures forall c :: ToCollect(k, pid, c) ==> Slot(c) && HandsOut(k, After(k, Step.WaitPid(pid)), c)
    {
      hide Slots, Queues, Family, Waits, Records, LogTrue, Fair, HandsOut, ToCollect, After, Enabled;
      forall c | ToCollect(k, pid, c)
        ensures Slot(c) && HandsOut(k, After(k, Step.WaitPid(pid)), c)
      {
        WaitPidCollects(k, pid, c);
      }
    }

    method BlockOn(awaited: int)
      requires Valid()
      modifies procs
      ensures Valid() && K() == Blocked(old(K()), awaited)
    {
      procs[active] := procs[active].(status := AwaitingChild, awaited := awaited);
    }

    static lemma WaitSteps(k: Kernel, pid: int)
      requires Inv(k) && Enabled(k, Step.WaitPid(pid))
      ensures Shape(k) && |k.procs| == NBPROC
      ensures match WaitOutcome(k, pid)
        case Fails => After(k, Step.WaitPid(pid)) == k
        case Blocks(awaited) =>
          && Consistent(Blocked(k, awaited)) && Blocked(k, awaited).procs[Blocked(k, awaited).active].status != Ready
          && After(k, Step.WaitPid(pid)) == Schedule(Blocked(k, awaited))
        case Collects(c) =>
          && Collectable(k, c) && Consistent(CollectedFrom(k, c))
          && CollectedFrom(k, c).procs[CollectedFrom(k, c).active].status != Ready
          && After(k, Step.WaitPid(pid)) == Schedule(CollectedFrom(k, c))
    {
      hide Slots, Queues, Waits, Records, LogTrue, Schedule;
      match WaitOutcome(k, pid)
      case Fails =>
      case Blocks(awaited) =>
        assert MayBlock(k, awaited);
        BlockedConsistent(k, awaited);
      case Collects(c) =>
        assert Collectable(k, c);
        CollectSteps(k, c);
    }

    // waitpid, after the process has been woken by the child it finds.
    method Resume() returns (pid: int, value: int)
      requires Inv(K()) && Enabled(K(), Step.Resume)
      modifies this, procs
      ensures Inv(K()) && K() == After(old(K()), Step.Resume)
      ensures pid == old(procs[active].awaited) && Slot(pid) && value == old(procs[..])[pid].retval
      ensures log == old(log) + [Collected(old(procs[..])[pid].birth, value)]
    {
      ghost var k := K();
      StepInv(k, Step.Resume);
      ResumeCollects(k);
      pid := procs[active].awaited;
      CollectSteps(k, pid);
      CollectedGrows(k, pid);
      ScheduleGrows(CollectedFrom(k, pid));
      assert After(k, Step.Resume) == Schedule(CollectedFrom(k, pid));
      hide Inv, Consistent, Schedule, Enabled, After, CollectedFrom, Collectable;
      value := Collect(pid);
      Ordonnancer();
    }

    // wait_clock
    method WaitClock(until: nat)
      requires Inv(K()) && Enabled(K(), Step.WaitClock(until))
      modifies this, procs
      ensures Inv(K()) && K() == After(old(K()), Step.WaitClock(until))
      ensures procs[..][old(active)] == old(procs[active]).(status := Sleeping, wake := until) && clock == old(clock)
    {
      hide Slots, Queues, Family, Waits, Records, LogTrue, Fair, Schedule, After, Asleep, Same;
      ghost var k := K();
      WaitClockSleeps(k, until);
      StepInv(k, Step.WaitClock(until));
      SleepSteps(k, until);
      FallAsleep(until);
      Ordonnancer();
    }

    method FallAsleep(until: nat)
      requires Valid()
      modifies procs, this`sleepers
      ensures Valid() && K() == Asleep(old(K()), until)
    {
      hide Enqueue;
      procs[active] := procs[active].(wake := until);
      sleepers := Enqueue(prio, sleepers, active);
      procs[active] := procs[active].(status := Sleeping);
    }

    static lemma SleepSteps(k: Kernel, until: nat)
      requires Inv(k) && Enabled(k, Step.WaitClock(until))
      ensures Shape(k) && Consistent(Asleep(k, until))
      ensures Asleep(k, until).procs[Asleep(k, until).active].status != Ready
      ensures After(k, Step.WaitClock(until)) == Schedule(Asleep(k, until))
    {
      AsleepConsistent(k, until);
      hide Slots, Queues, Family, Waits, Records, LogTrue, Schedule;
    }

    // chprio: the old priority, or -1; an unchanged priority is returned as it is.
    method ChPrio(pid: int, newprio: int) returns (r: int)
      requires Inv(K()) && Enabled(K(), Step.ChPrio(pid, newprio))
      modifies this, procs
      ensures Inv(K()) && K() == After(old(K()), Step.ChPrio(pid, newprio))
      ensures r == if old(MaySetPrio(K(), pid, newprio)) then old(prio)[pid] else -1
      ensures prio == if old(MaySetPrio(K(), pid, newprio)) then old(prio)[pid := newprio] else old(prio)
    {
      hide Slots, Queues, Family, Waits, Records, LogTrue, Fair, Schedule, After, Reprioritized, Same;
      ghost var k := K();
      ChPrioRefuses(k, pid, newprio);
      if MaySetPrio(k, pid, newprio) {
        ChPrioSets(k, pid, newprio);
      }
      StepInv(k, Step.ChPrio(pid, newprio));
      PrioSteps(k, pid, newprio);
      if newprio <= 0 || !(0 <= pid < NBPROC) || procs[pid].status == Dead || procs[pid].status == Zombie {
        return -1;
      }
      if prio[pid] == newprio {
        return newprio;
      }
      var oldprio := prio[pid];
      Reprioritize(pid, newprio);
      if ready != [] && prio[ready[|ready| - 1]] > prio[active] {
        Ordonnancer();
      }
      return oldprio;
    }

    method Reprioritize(pid: int, newprio: int)
      requires Valid() && Queues(K()) && Slot(pid)
      modifies this`prio, this`ready
      ensures Valid() && K() == Reprioritized(old(K()), pid, newprio)
      ensures |prio| == NBPROC && Slot(active) && (ready != [] ==> Slot(ready[|ready| - 1]))
    {
      Bounds(K());
      WithoutInTable(NBPROC, ready, {pid});
      hide Enqueue, Without, Queues;
      prio := prio[pid := newprio];
      if procs[pid].status == Ready {
        ready := Enqueue(prio, Without(ready, {pid}), pid);
      }
      Bounds(K());
    }

    static lemma PrioSteps(k: Kernel, pid: int, newprio: int)
      requires Inv(k)
      ensures Shape(k) && |k.procs| == NBPROC && |k.prio| == NBPROC && Queues(k)
      ensures !PrioritySet(k, pid, newprio) ==> After(k, Step.ChPrio(pid, newprio)) == k
      ensures PrioritySet(k, pid, newprio) ==>
        var k1 := Reprioritized(k, pid, newprio);
        && Consistent(k1) && k1.procs[k1.active].status != Ready
        && After(k, Step.ChPrio(pid, newprio)) == if Overtaken(k1) then Schedule(k1) else k1
    {
      hide Slots, Queues, Family, Waits, Records, LogTrue, Schedule;
      if PrioritySet(k, pid, newprio) {
        ReprioritizedConsistent(k, pid, newprio);
      }
    }

    // tic_PIT: the clock advances, due sleepers wake up one by one, the next process is chosen.
    method Tic()
      requires Inv(K())
      modifies this, procs
      ensures Inv(K()) && K() == After(old(K()), Tick)
      ensures forall i | i in sleepers :: 0 <= i < NBPROC && procs[i].wake > clock
      ensures clock == old(clock) + 1
      ensures forall i | 0 <= i < NBPROC :: Ticked(old(procs[..])[i], procs[i], clock)
    {
      hide Slots, Queues, Family, Waits, Records, LogTrue, Fair, Schedule, After, WakeDue, InTable, Ticked;
      ghost var k := K();
      TickWakes(k);
      TickInv(k);
      TickSteps(k);
      Advance();
      WakeAll();
      Ordonnancer();
    }

    method Advance()
      requires Valid()
      modifies this`clock
      ensures Valid() && K() == old(K()).(clock := old(clock) + 1)
    {
      clock := clock + 1;
    }

    // The loop of tic_PIT.
    method WakeAll()
      requires Valid()
      modifies this`sleepers, this`ready, procs
      ensures Valid() && K() == WakeDue(old(K()))
    {
      ghost var k := K();
      hide WakeDue, Shape;
      var due := true;
      while due
        invariant Valid() && WakeDue(K()) == WakeDue(k)
        invariant !due ==> WakeDue(K()) == K()
        decreases |sleepers|, due
      {
        due := WakeFirst();
      }
    }

    // One walk over the clock list: the first due sleeper wakes up.
    method WakeFirst() returns (found: bool)
      requires Valid()
      modifies this`sleepers, this`ready, procs
      ensures Valid() && WakeDue(K()) == WakeDue(old(K()))
      ensures found ==> |sleepers| < |old(sleepers)|
      ensures !found ==> K() == old(K()) && WakeDue(K()) == K()
    {
      Bounds(K());
      hide Shape, InTable, FirstDue, MakeReady;
      var n := FindDue();
      found := n < |sleepers|;
      if found {
        var p := sleepers[n];
        sleepers := Remove(sleepers, n);
        MakeReadyAt(p);
      }
    }

    method FindDue() returns (n: nat)
      requires InTable(NBPROC, sleepers) && procs.Length == NBPROC
      ensures n == FirstDue(procs[..], clock, sleepers)
    {
      n := 0;
      assert sleepers[0..] == sleepers;
      while n < |sleepers| && procs[sleepers[n]].wake > clock
        invariant n <= |sleepers|
        invariant FirstDue(procs[..], clock, sleepers) == n + FirstDue(procs[..], clock, sleepers[n..])
      {
        assert sleepers[n..][1..] == sleepers[n + 1..];
        n := n + 1;
      }
    }

    static lemma TickSteps(k: Kernel)
      requires Inv(k)
      ensures var k1 := WakeDue(k.(clock := k.clock + 1));
        Consistent(k1) && k1.procs[k1.active].status != Ready && After(k, Tick) == Schedule(k1)
    {
      hide Slots, Queues, Family, Waits, Records, LogTrue, Schedule, WakeDue;
      var k1 := k.(clock := k.clock + 1);
      ClockUnseen(k, k1);
      WakeDueConsistent(k1);
      RunningThrough(k1);
    }
  }
}
