/**
 The process table and the system calls of kernel/process.c and kernel/horloge.c as functions
 on one value. A system call or clock tick is one step, cut where the kernel calls
 ordonnancer(); the context switch itself is abstracted away.
 */
module ProcessModel {
  import opened PriorityOrder
  import opened ProcessLists

  const NBPROC := 15

  // ACTIF, ACTIVABLE, BLOQUE_SUR_SEMAPHORE, BLOQUE_SUR_ATTENTE_D_UN_FILS, MORT, ZOMBIE
  datatype Status = Running | Ready | Sleeping | AwaitingChild | Dead | Zombie

  datatype Proc = Proc(
    pid: int,              // the slot's own number, or -1 when the slot is free
    status: Status,
    father: int,           // slot of the father, or -1
    awaited: int,          // -1: none, -2: any child, else the child waited for or found
    retval: int,
    wake: nat,             // clock interrupt to wake up at
    children: seq<int>,
    birth: nat)            // history: how many processes were started before this one

  const FREE := Proc(-1, Dead, -1, -1, 0, 0, [], 0)

  // A child collected by waitpid: which process it was, and the value handed to the father.
  datatype Collected = Collected(birth: nat, value: int)

  datatype Kernel = Kernel(
    procs: seq<Proc>,
    prio: seq<int>,
    ready: seq<int>,           // file_ordonnee_des_processus_activables
    sleepers: seq<int>,        // file_processus_endomis_sur_wait_clock
    active: int,               // pid_actif
    clock: nat,
    born: nat,                 // history: processes started so far
    ended: map<nat, int>,      // history: the value each terminated process ended with
    log: seq<Collected>)       // history: what waitpid handed out, in order

  // ---------- building blocks ----------

  predicate Slot(i: int) {
    0 <= i < NBPROC
  }

  // All numbers in the kernel are slots of the table.
  ghost predicate Shape(k: Kernel) {
    && |k.procs| == NBPROC && |k.prio| == NBPROC && Slot(k.active)
    && InTable(NBPROC, k.ready) && InTable(NBPROC, k.sleepers)
    && forall i | 0 <= i < NBPROC :: InTable(NBPROC, k.procs[i].children)
  }

  function Put(k: Kernel, i: int, p: Proc): (k': Kernel)
    requires Shape(k) && Slot(i) && InTable(NBPROC, p.children)
    ensures Shape(k')
  {
    k.(procs := k.procs[i := p])
  }

  // definir_etat_processus(pr, ACTIVABLE) for a process that is on no list.
  function MakeReady(k: Kernel, i: int): (k': Kernel)
    requires Shape(k) && Slot(i)
    ensures Shape(k')
  {
    Put(k, i, k.procs[i].(status := Ready)).(ready := Enqueue(k.prio, k.ready, i))
  }

  // The running process keeps the processor: nothing is ready, or only lower priorities are.
  predicate Stays(k: Kernel)
    requires Shape(k)
  {
    k.ready == [] ||
    (k.procs[k.active].status == Running && k.prio[k.ready[|k.ready| - 1]] < k.prio[k.active])
  }

  // The last of the ready list leaves it and runs.
  function SwitchedTo(k: Kernel): (k': Kernel)
    requires Shape(k) && k.ready != []
    ensures Shape(k')
  {
    var next := k.ready[|k.ready| - 1];
    Put(k, next, k.procs[next].(status := Running)).(ready := k.ready[..|k.ready| - 1], active := next)
  }

  // A process that was running gets ready.
  function Switched(k: Kernel): (k': Kernel)
    requires Shape(k) && k.ready != []
    ensures Shape(k')
  {
    if k.procs[k.active].status == Running then MakeReady(SwitchedTo(k), k.active) else SwitchedTo(k)
  }

  // ordonnancer: the highest ready process runs next unless the running one is higher still.
  function Schedule(k: Kernel): (k': Kernel)
    requires Shape(k)
    ensures Shape(k')
  {
    if Stays(k) then k else Switched(k)
  }

  // ---------- termination ----------

  // q is p, or a zombie below p through zombies only: these slots are freed with p.
  ghost predicate Doomed(k: Kernel, p: int, q: int)
    requires |k.procs| == NBPROC && Slot(q)
    decreases k.procs[q].birth
  {
    q == p ||
    (var f := k.procs[q].father;
    k.procs[q].status == Zombie && Slot(f) && k.procs[f].birth < k.procs[q].birth && Doomed(k, p, f))
  }

  ghost function DoomedSet(k: Kernel, p: int): set<int>
    requires |k.procs| == NBPROC
  {
    set q | 0 <= q < NBPROC && Doomed(k, p, q)
  }

  function BuriedProc(p: Proc, i: int, d: set<int>): Proc {
    if i in d then FREE
    else p.(father := if p.father in d then -1 else p.father, children := Without(p.children, d))
  }

  // Frees the slots in d: their children have no father any more and nobody lists them.
  function Bury(k: Kernel, d: set<int>): (k': Kernel)
    requires Shape(k)
    ensures Shape(k')
  {
    var procs := seq(NBPROC, i requires 0 <= i < NBPROC && |k.procs| == NBPROC => BuriedProc(k.procs[i], i, d));
    BuriedInTable(k, d);
    k.(procs := procs)
  }

  lemma BuriedInTable(k: Kernel, d: set<int>)
    requires Shape(k)
    ensures forall i | 0 <= i < NBPROC :: InTable(NBPROC, BuriedProc(k.procs[i], i, d).children)
  {
    forall i | 0 <= i < NBPROC
      ensures InTable(NBPROC, BuriedProc(k.procs[i], i, d).children)
    {
      WithoutInTable(NBPROC, k.procs[i].children, d);
    }
  }

  // Leaving the list that a process may be on before it dies.
  function Unlist(k: Kernel, p: int): (k': Kernel)
    requires Shape(k)
    ensures Shape(k')
  {
    WithoutInTable(NBPROC, k.ready, {p});
    WithoutInTable(NBPROC, k.sleepers, {p});
    k.(ready := Without(k.ready, {p}), sleepers := Without(k.sleepers, {p}))
  }

  // The father wakes up when he waits for this child or for any child.
  predicate Wakes(k: Kernel, p: int)
    requires |k.procs| == NBPROC && Slot(p)
  {
    var f := k.procs[p].father;
    Slot(f) && k.procs[f].status == AwaitingChild && (k.procs[f].awaited == -2 || k.procs[f].awaited == p)
  }

  // The history of a termination: the value the process ended with.
  function Ended(k: Kernel, p: int): (k': Kernel)
    requires Shape(k) && Slot(p)
    ensures Shape(k')
  {
    k.(ended := k.ended[k.procs[p].birth := k.procs[p].retval])
  }

  // terminaison_processus up to its call of ordonnancer.
  ghost function Terminated(k: Kernel, p: int): (k': Kernel)
    requires Shape(k) && Slot(p)
    ensures Shape(k')
  {
    var k0 := Ended(k, p);
    var f := k.procs[p].father;
    if !Slot(f) then
      Bury(Unlist(k0, p), DoomedSet(k, p))
    else
      var k1 := if Wakes(k, p) then MakeReady(Put(k0, f, k0.procs[f].(awaited := p)), f) else k0;
      var k2 := Bury(Unlist(k1, p), DoomedSet(k, p) - {p});
      Put(k2, p, k2.procs[p].(status := Zombie))
  }

  // ---------- system calls ----------

  function FirstFree(procs: seq<Proc>): (i: nat)
    ensures i <= |procs| && (i < |procs| ==> procs[i].pid == -1)
    ensures forall j | 0 <= j < i :: procs[j].pid != -1
  {
    if procs == [] || procs[0].pid == -1 then 0 else 1 + FirstFree(procs[1..])
  }

  // start, the new process in slot i and in its father's list of children.
  function WithChild(k: Kernel, i: int, prio: int): (k': Kernel)
    requires Shape(k) && Slot(i) && i != k.active
    ensures Shape(k')
  {
    var a := k.active;
    var k1 := k.(prio := k.prio[i := prio], born := k.born + 1);
    var k2 := Put(k1, i, Proc(i, Ready, a, -1, 0, 0, [], k.born));
    Put(k2, a, k2.procs[a].(children := Enqueue(k2.prio, k2.procs[a].children, i)))
  }

  // start up to its call of ordonnancer, with the free slot i.
  function Started(k: Kernel, i: int, prio: int): (k': Kernel)
    requires Shape(k) && Slot(i) && i != k.active
    ensures Shape(k')
  {
    MakeReady(WithChild(k, i, prio), i)
  }

  // The running process waits for a child.
  function Blocked(k: Kernel, awaited: int): (k': Kernel)
    requires Shape(k)
    ensures Shape(k')
  {
    Put(k, k.active, k.procs[k.active].(status := AwaitingChild, awaited := awaited))
  }

  // The end of waitpid: the value of zombie c is handed out and c is destroyed.
  ghost function CollectedFrom(k: Kernel, c: int): (k': Kernel)
    requires Shape(k) && Slot(c)
    ensures Shape(k')
  {
    var k1 := Put(k, k.active, k.procs[k.active].(awaited := -1));
    Bury(k1.(log := k.log + [Collected(k.procs[c].birth, k.procs[c].retval)]), DoomedSet(k, c))
  }

  // The first zombie in a list of children, or -1.
  function FirstZombie(procs: seq<Proc>, children: seq<int>): (c: int)
    requires InTable(|procs|, children)
    ensures c == -1 || (c in children && 0 <= c < |procs| && procs[c].status == Zombie)
    ensures c == -1 ==> forall x | x in children :: 0 <= x < |procs| && procs[x].status != Zombie
  {
    if children == [] then -1
    else if procs[children[0]].status == Zombie then children[0]
    else FirstZombie(procs, children[1..])
  }

  // kill refuses idle, numbers out of range, free slots and zombies.
  predicate Killable(k: Kernel, pid: int)
    requires |k.procs| == NBPROC
  {
    0 < pid < NBPROC && k.procs[pid].status != Dead && k.procs[pid].status != Zombie
  }

  // chprio moves a ready process to its new place.
  function Reprioritized(k: Kernel, pid: int, newprio: int): (k': Kernel)
    requires Shape(k) && Slot(pid)
    ensures Shape(k')
  {
    var k1 := k.(prio := k.prio[pid := newprio]);
    if k.procs[pid].status == Ready then
      WithoutInTable(NBPROC, k.ready, {pid});
      k1.(ready := Enqueue(k1.prio, Without(k.ready, {pid}), pid))
    else k1
  }

  // wait_clock up to its call of ordonnancer.
  function Asleep(k: Kernel, until: nat): (k': Kernel)
    requires Shape(k)
    ensures Shape(k')
  {
    var a := k.active;
    Put(k, a, k.procs[a].(status := Sleeping, wake := until)).(sleepers := Enqueue(k.prio, k.sleepers, a))
  }

  // The first sleeper in list order whose time has come, or the end of the list.
  function FirstDue(procs: seq<Proc>, clock: nat, sleepers: seq<int>): (i: nat)
    requires InTable(|procs|, sleepers)
    ensures i <= |sleepers|
    ensures i < |sleepers| ==> procs[sleepers[i]].wake <= clock
    ensures forall j | 0 <= j < i :: procs[sleepers[j]].wake > clock
  {
    if sleepers == [] || procs[sleepers[0]].wake <= clock then 0
    else 1 + FirstDue(procs, clock, sleepers[1..])
  }

  // The i-th sleeper wakes up.
  function Awake(k: Kernel, i: nat): (k': Kernel)
    requires Shape(k) && i < |k.sleepers|
    ensures Shape(k') && |k'.sleepers| == |k.sleepers| - 1
  {
    MakeReady(k.(sleepers := Remove(k.sleepers, i)), k.sleepers[i])
  }

  // tic_PIT wakes the due sleepers one by one, looking from the front of the list each time.
  function WakeDue(k: Kernel): (k': Kernel)
    requires Shape(k)
    ensures Shape(k')
    decreases |k.sleepers|
  {
    var i := FirstDue(k.procs, k.clock, k.sleepers);
    if i == |k.sleepers| then k else WakeDue(Awake(k, i))
  }

  // ---------- steps ----------

  datatype Step =
    | Start(prio: int)
    | Kill(pid: int)
    | Exit(retval: int)
    | WaitPid(pid: int)     // up to the point where the caller blocks, fails or has collected
    | Resume                // the rest of a waitpid that has blocked
    | WaitClock(until: nat)
    | ChPrio(pid: int, newprio: int)
    | Tick

  // A process that waitpid has blocked does nothing before it resumes; idle neither blocks
  // nor exits.
  predicate Enabled(k: Kernel, s: Step)
    requires |k.procs| == NBPROC && Slot(k.active)
  {
    var waiting := k.procs[k.active].awaited != -1;
    match s
    case Tick => true
    case Resume => waiting
    case Start(_) => !waiting
    case Kill(_) => !waiting
    case ChPrio(_, _) => !waiting
    case Exit(_) => !waiting && k.active != 0
    case WaitPid(_) => !waiting && k.active != 0
    case WaitClock(_) => !waiting && k.active != 0
  }

  // waitpid: it fails, blocks or collects a child that is a zombie already.
  datatype Waiting = Fails | Blocks(awaited: int) | Collects(child: int)

  function WaitOutcome(k: Kernel, pid: int): (w: Waiting)
    requires Shape(k)
    ensures w.Collects? ==> Slot(w.child)
  {
    var a := k.active;
    if k.procs[a].children == [] || a == pid then Fails
    else if pid < 0 then
      var c := FirstZombie(k.procs, k.procs[a].children);
      if c == -1 then Blocks(-2) else Collects(c)
    else if pid >= NBPROC || k.procs[pid].father != a then Fails
    else if k.procs[pid].status != Zombie then Blocks(pid)
    else Collects(pid)
  }

  predicate PrioritySet(k: Kernel, pid: int, newprio: int)
    requires |k.procs| == NBPROC && |k.prio| == NBPROC
  {
    newprio > 0 && Slot(pid) && k.procs[pid].status != Dead && k.procs[pid].status != Zombie
    && k.prio[pid] != newprio
  }

  predicate Overtaken(k: Kernel)
    requires Shape(k)
  {
    k.ready != [] && k.prio[k.ready[|k.ready| - 1]] > k.prio[k.active]
  }

  ghost function After(k: Kernel, s: Step): (k': Kernel)
    requires Shape(k)
    ensures Shape(k')
  {
    var a := k.active;
    match s
    case Start(prio) =>
      var i := FirstFree(k.procs);
      if i == NBPROC || i == a then k else Schedule(Started(k, i, prio))
    case Kill(pid) =>
      if Killable(k, pid) then Schedule(Terminated(k, pid)) else k
    case Exit(retval) =>
      Schedule(Terminated(Put(k, a, k.procs[a].(retval := retval)), a))
    case WaitPid(pid) =>
      (match WaitOutcome(k, pid)
       case Fails => k
       case Blocks(awaited) => Schedule(Blocked(k, awaited))
       case Collects(c) => Schedule(CollectedFrom(k, c)))
    case Resume =>
      var c := k.procs[a].awaited;
      if Slot(c) then Schedule(CollectedFrom(k, c)) else k
    case WaitClock(until) => Schedule(Asleep(k, until))
    case ChPrio(pid, newprio) =>
      if !PrioritySet(k, pid, newprio) then k
      else
        var k1 := Reprioritized(k, pid, newprio);
        if Overtaken(k1) then Schedule(k1) else k1
    case Tick => Schedule(WakeDue(k.(clock := k.clock + 1)))
  }
}
