/**
 The protocol of a message queue (kernel/file.c) on values: psend and preceive as steps that end
 where ordonnancer is called, resets, and what every run of them keeps.
 */
module MessageProtocol {
  import opened PriorityOrder

  const MAX_SIZE := 512

  // process_bloque
  datatype Waiting = Waiting(
    pid: int,
    prio: int,
    since: nat)                // history: how many processes had blocked on the queue before

  // What a process is blocked on, as far as this queue is concerned.
  datatype Status = Ready | OnReception | OnSending

  // How a step of a system call ends: with a result, or in ordonnancer. A process that yields
  // has its result and returns it when it runs again.
  datatype Outcome = Done(result: int) | Blocked | Yields(result: int)

  datatype QState = QState(
    open: bool,                // statut
    size: int,
    queue: seq<int>,           // the messages, oldest first
    receivers: seq<Waiting>,   // liste_proc_bloque_reception
    senders: seq<Waiting>,     // liste_proc_bloque_envoi
    status: seq<Status>,       // of the process table
    reset: seq<bool>,          // valresetfile
    now: nat)                  // history: how often a process has blocked on the queue

  datatype Result = Result(state: QState, outcome: Outcome, msg: int)

  function WaitPrios(w: seq<Waiting>): (s: seq<int>)
    ensures |s| == |w| && forall i | 0 <= i < |w| :: s[i] == w[i].prio
  {
    seq(|w|, i requires 0 <= i < |w| => w[i].prio)
  }

  function Entries(w: seq<Waiting>): (s: seq<Entry>)
    ensures |s| == |w| && forall i | 0 <= i < |w| :: s[i] == Entry(w[i].prio, w[i].since)
  {
    seq(|w|, i requires 0 <= i < |w| => Entry(w[i].prio, w[i].since))
  }

  // queue_add
  function Enter(w: seq<Waiting>, p: Waiting): seq<Waiting> {
    Insert(w, InsertAt(WaitPrios(w), p.prio), p)
  }

  // queue_out
  function Head(w: seq<Waiting>): int
    requires w != []
  {
    w[|w| - 1].pid
  }

  function Rest(w: seq<Waiting>): seq<Waiting>
    requires w != []
  {
    w[..|w| - 1]
  }

  // definir_etat_processus
  function Become(status: seq<Status>, p: int, s: Status): seq<Status> {
    if 0 <= p < |status| then status[p := s] else status
  }

  // ---------- the invariant ----------

  // The list holds exactly the processes with this status, each once.
  ghost predicate WaitingFor(w: seq<Waiting>, status: seq<Status>, s: Status) {
    OnlySuch(w, status, s) && EachOnce(w) && AllSuch(w, status, s)
  }

  ghost predicate OnlySuch(w: seq<Waiting>, status: seq<Status>, s: Status) {
    forall i | 0 <= i < |w| :: 0 <= w[i].pid < |status| && status[w[i].pid] == s
  }

  ghost predicate EachOnce(w: seq<Waiting>) {
    forall i, j | 0 <= i < j < |w| :: w[i].pid != w[j].pid
  }

  ghost predicate AllSuch(w: seq<Waiting>, status: seq<Status>, s: Status) {
    forall p | 0 <= p < |status| && status[p] == s :: IsWaiting(w, p)
  }

  predicate IsWaiting(w: seq<Waiting>, p: int) {
    exists i :: 0 <= i < |w| && w[i].pid == p
  }

  // The list is served from its end: higher priorities first, then those that wait longer.
  ghost predicate InOrder(w: seq<Waiting>, now: nat) {
    ServesInOrder(Entries(w)) && forall i | 0 <= i < |w| :: w[i].since < now
  }

  ghost predicate Inv(q: QState) {
    && |q.queue| <= q.size && |q.reset| == |q.status|
    && WaitingFor(q.receivers, q.status, OnReception) && WaitingFor(q.senders, q.status, OnSending)
    && InOrder(q.receivers, q.now) && InOrder(q.senders, q.now)
    && if q.open then 1 <= q.size <= MAX_SIZE else q.size == 0 && q.receivers == [] && q.senders == []
  }

  // The process may run a turn of psend or preceive. On a closed queue only a process that was
  // woken by the reset does.
  predicate MayRun(q: QState, p: int) {
    0 <= p < |q.status| && |q.reset| == |q.status| && q.status[p] == Ready && (q.open || q.reset[p])
  }

  // ---------- the steps ----------

  // preceive from the head of its loop: at the call, and whenever the process runs again.
  function Receive(q: QState, p: int, prio: int): Result
    requires MayRun(q, p)
  {
    if q.queue == [] && !q.reset[p] then
      Result(q.(receivers := Enter(q.receivers, Waiting(p, prio, q.now)), status := q.status[p := OnReception],
                now := q.now + 1), Blocked, 0)
    else if !q.reset[p] then
      var r := q.(queue := q.queue[1..]);
      if |r.queue| == r.size - 1 && r.senders != []
      then Result(r.(senders := Rest(r.senders), status := Become(r.status, Head(r.senders), Ready)),
                  Yields(0), q.queue[0])
      else Result(r, Done(0), q.queue[0])
    else Result(q.(reset := q.reset[p := false]), Done(-1), 0)
  }

  // psend from the head of its loop; a resumed process gives up if the queue is full again.
  function Send(q: QState, p: int, prio: int, message: int, resumed: bool): Result
    requires MayRun(q, p)
  {
    if resumed && |q.queue| == q.size then Result(q, Done(-1), 0)
    else if |q.queue| == q.size && !q.reset[p] then
      Result(q.(senders := Enter(q.senders, Waiting(p, prio, q.now)), status := q.status[p := OnSending],
                now := q.now + 1), Blocked, 0)
    else if !q.reset[p] then
      var r := q.(queue := q.queue + [message]);
      if |r.queue| == 1 && r.receivers != []
      then Result(r.(receivers := Rest(r.receivers), status := Become(r.status, Head(r.receivers), Ready)), Done(0), 0)
      else Result(r, Done(0), 0)
    else Result(q.(reset := q.reset[p := false]), Done(-1), 0)
  }

  // The last assignment of preceive, when a process that yielded runs again.
  function Leave(q: QState, p: int): QState
    requires 0 <= p < |q.reset|
  {
    q.(reset := q.reset[p := false])
  }

  // preset: no message and no waiting process is left; those that waited know of the reset.
  function ResetState(q: QState): QState {
    q.(queue := [], receivers := [], senders := [], status := seq(|q.status|, _ => Ready),
       reset := seq(|q.reset|, i requires 0 <= i < |q.reset| => q.reset[i] || (i < |q.status| && q.status[i] != Ready)))
  }

  // pdelete
  function Deleted(q: QState): QState {
    ResetState(q).(open := false, size := 0)
  }

  // pcreate on a free slot.
  function Created(q: QState, count: int): QState {
    if 0 < count <= MAX_SIZE then q.(open := true, size := count, queue := [], receivers := [], senders := []) else q
  }

  // ---------- waiting lists ----------

  // The head of the list is served: the longest waiting among those of highest priority.
  lemma Served(w: seq<Waiting>, status: seq<Status>, s: Status)
    requires WaitingFor(w, status, s) && w != [] && s != Ready
    ensures 0 <= Head(w) < |status| && status[Head(w)] == s
    ensures WaitingFor(Rest(w), status[Head(w) := Ready], s)
  {
    var n := |w| - 1;
    var u := status[Head(w) := Ready];
    forall p | 0 <= p < |u| && u[p] == s
      ensures IsWaiting(w[..n], p)
    {
      assert IsWaiting(w, p);
      var i :| 0 <= i < |w| && w[i].pid == p;
      assert w[..n][i].pid == p;
    }
  }

  // Changing the status of a process that does not wait here, to one that does not either.
  lemma OtherList(w: seq<Waiting>, status: seq<Status>, s: Status, q: int, u: Status)
    requires WaitingFor(w, status, s) && 0 <= q < |status| && status[q] != s && u != s
    ensures WaitingFor(w, status[q := u], s)
  {
    var t := status[q := u];
    forall p | 0 <= p < |t| && t[p] == s
      ensures IsWaiting(w, p)
    {
      assert status[p] == s;
    }
  }

  // A process that blocks joins the list.
  lemma Joined(w: seq<Waiting>, status: seq<Status>, s: Status, x: Waiting)
    requires WaitingFor(w, status, s) && 0 <= x.pid < |status| && status[x.pid] != s
    ensures WaitingFor(Enter(w, x), status[x.pid := s], s)
  {
    var k := InsertAt(WaitPrios(w), x.prio);
    hide OnlySuch, EachOnce, AllSuch;
    JoinedOnly(w, status, s, x, k);
    JoinedOnce(w, status, s, x, k);
    JoinedAll(w, status, s, x, k);
  }

  lemma JoinedOnly(w: seq<Waiting>, status: seq<Status>, s: Status, x: Waiting, k: nat)
    requires OnlySuch(w, status, s) && 0 <= x.pid < |status| && k <= |w|
    ensures OnlySuch(Insert(w, k, x), status[x.pid := s], s)
  {
    hide Insert;
    var r, t := Insert(w, k, x), status[x.pid := s];
    forall i | 0 <= i < |r|
      ensures 0 <= r[i].pid < |t| && t[r[i].pid] == s
    {
      InsertGet(w, k, x, i);
    }
  }

  lemma JoinedOnce(w: seq<Waiting>, status: seq<Status>, s: Status, x: Waiting, k: nat)
    requires OnlySuch(w, status, s) && EachOnce(w) && 0 <= x.pid < |status| && status[x.pid] != s && k <= |w|
    ensures EachOnce(Insert(w, k, x))
  {
    hide Insert;
    var r := Insert(w, k, x);
    forall i, j | 0 <= i < j < |r|
      ensures r[i].pid != r[j].pid
    {
      InsertGet(w, k, x, i);
      InsertGet(w, k, x, j);
    }
  }

  lemma JoinedAll(w: seq<Waiting>, status: seq<Status>, s: Status, x: Waiting, k: nat)
    requires AllSuch(w, status, s) && 0 <= x.pid < |status| && k <= |w|
    ensures AllSuch(Insert(w, k, x), status[x.pid := s], s)
  {
    hide Insert;
    var r, t := Insert(w, k, x), status[x.pid := s];
    forall p | 0 <= p < |t| && t[p] == s
      ensures IsWaiting(r, p)
    {
      if p == x.pid {
        assert r[k].pid == p;
      } else {
        assert IsWaiting(w, p);
        var i :| 0 <= i < |w| && w[i].pid == p;
        var j := if i < k then i else i + 1;
        InsertGet(w, k, x, j);
        assert r[j].pid == p;
      }
    }
  }

  // The newcomer is served after all that wait already with its priority.
  lemma EnterInOrder(w: seq<Waiting>, now: nat, x: Waiting)
    requires InOrder(w, now) && x.since == now
    ensures InOrder(Enter(w, x), now + 1)
  {
    var e, k := Entry(x.prio, now), InsertAt(WaitPrios(w), x.prio);
    assert Prios(Entries(w)) == WaitPrios(w);
    AddServesInOrder(Entries(w), e);
    hide ServesInOrder;
    assert Entries(Insert(w, k, x)) == Insert(Entries(w), k, e) by {
      forall i | 0 <= i <= |w|
        ensures Entries(Insert(w, k, x))[i] == Insert(Entries(w), k, e)[i]
      {
        InsertGet(w, k, x, i);
      }
    }
    forall i | 0 <= i <= |w|
      ensures Insert(w, k, x)[i].since < now + 1
    {
      InsertGet(w, k, x, i);
    }
  }

  lemma RestInOrder(w: seq<Waiting>, now: nat)
    requires InOrder(w, now) && w != []
    ensures InOrder(Rest(w), now)
  {
    assert Entries(Rest(w)) == Entries(w)[..|w| - 1];
  }

  lemma LaterInOrder(w: seq<Waiting>, now: nat)
    requires InOrder(w, now)
    ensures InOrder(w, now + 1)
  {
  }

  lemma InsertGet(w: seq<Waiting>, k: nat, x: Waiting, i: nat)
    requires k <= |w| && i <= |w|
    ensures Insert(w, k, x)[i] == if i < k then w[i] else if i == k then x else w[i - 1]
  {
  }

  // ---------- every step keeps the invariant ----------

  lemma ReceiveInv(q: QState, p: int, prio: int)
    requires Inv(q) && MayRun(q, p)
    ensures Inv(Receive(q, p, prio).state)
  {
    if q.queue == [] && !q.reset[p] {
      Joined(q.receivers, q.status, OnReception, Waiting(p, prio, q.now));
      OtherList(q.senders, q.status, OnSending, p, OnReception);
      EnterInOrder(q.receivers, q.now, Waiting(p, prio, q.now));
      LaterInOrder(q.senders, q.now);
    } else if !q.reset[p] && q.senders != [] {
      RestInOrder(q.senders, q.now);
      Served(q.senders, q.status, OnSending);
      OtherList(q.receivers, q.status, OnReception, Head(q.senders), Ready);
    }
  }

  lemma SendInv(q: QState, p: int, prio: int, message: int, resumed: bool)
    requires Inv(q) && MayRun(q, p)
    ensures Inv(Send(q, p, prio, message, resumed).state)
  {
    if |q.queue| == q.size && !q.reset[p] {
      Joined(q.senders, q.status, OnSending, Waiting(p, prio, q.now));
      OtherList(q.receivers, q.status, OnReception, p, OnSending);
      EnterInOrder(q.senders, q.now, Waiting(p, prio, q.now));
      LaterInOrder(q.receivers, q.now);
    } else if !q.reset[p] && q.receivers != [] {
      RestInOrder(q.receivers, q.now);
      Served(q.receivers, q.status, OnReception);
      OtherList(q.senders, q.status, OnSending, Head(q.receivers), Ready);
    }
  }

  lemma ResetInv(q: QState)
    requires Inv(q)
    ensures Inv(ResetState(q)) && Inv(Deleted(q))
    ensures forall p | 0 <= p < |q.status| && IsWaiting(q.receivers + q.senders, p) ::
      ResetState(q).reset[p] && ResetState(q).status[p] == Ready
  {
    NobodyWaits(ResetState(q));
    NobodyWaits(Deleted(q));
    WaitersBlocked(q);
  }

  lemma NobodyWaits(q: QState)
    requires q.queue == [] && q.receivers == [] && q.senders == [] && |q.reset| == |q.status|
    requires if q.open then 1 <= q.size <= MAX_SIZE else q.size == 0
    requires forall p | 0 <= p < |q.status| :: q.status[p] == Ready
    ensures Inv(q)
  {
  }

  lemma WaitersBlocked(q: QState)
    requires OnlySuch(q.receivers, q.status, OnReception) && OnlySuch(q.senders, q.status, OnSending)
    ensures forall p | 0 <= p < |q.status| && IsWaiting(q.receivers + q.senders, p) :: q.status[p] != Ready
  {
    forall p | 0 <= p < |q.status| && IsWaiting(q.receivers + q.senders, p)
      ensures q.status[p] != Ready
    {
      var i :| 0 <= i < |q.receivers + q.senders| && (q.receivers + q.senders)[i].pid == p;
      if i < |q.receivers| {
        assert q.receivers[i].pid == p;
      } else {
        assert q.senders[i - |q.receivers|].pid == p;
      }
    }
  }

  lemma CreateInv(q: QState, count: int)
    requires Inv(q) && !q.open
    ensures Inv(Created(q, count))
  {
  }

  // ---------- runs ----------

  datatype Step =
    | Recv(pid: int, prio: int)
    | Snd(pid: int, prio: int, message: int, resumed: bool)
    | Finish(pid: int)
    | PReset
    | PDelete
    | PCreate(count: int)

  ghost predicate Enabled(q: QState, a: Step) {
    match a
    case Recv(p, _) => MayRun(q, p)
    case Snd(p, _, _, _) => MayRun(q, p)
    case Finish(p) => 0 <= p < |q.reset|
    case PReset => true
    case PDelete => true
    case PCreate(_) => !q.open
  }

  ghost function Apply(q: QState, a: Step): QState
    requires Enabled(q, a)
  {
    match a
    case Recv(p, prio) => Receive(q, p, prio).state
    case Snd(p, prio, m, r) => Send(q, p, prio, m, r).state
    case Finish(p) => Leave(q, p)
    case PReset => if q.open then ResetState(q) else q
    case PDelete => if q.open then Deleted(q) else q
    case PCreate(count) => Created(q, count)
  }

  ghost predicate CanRun(q: QState, run: seq<Step>)
    decreases |run|
  {
    run == [] || (Enabled(q, run[0]) && CanRun(Apply(q, run[0]), run[1..]))
  }

  ghost function After(q: QState, run: seq<Step>): QState
    requires CanRun(q, run)
    decreases |run|
  {
    if run == [] then q else After(Apply(q, run[0]), run[1..])
  }

  // The messages that psend accepts in a step, and those that preceive returns.
  ghost function Accepted(q: QState, a: Step): seq<int>
    requires Enabled(q, a)
  {
    if a.Snd? && Send(q, a.pid, a.prio, a.message, a.resumed).outcome == Done(0) then [a.message] else []
  }

  ghost function Returned(q: QState, a: Step): seq<int>
    requires Enabled(q, a)
  {
    if a.Recv? && Receive(q, a.pid, a.prio).outcome in {Done(0), Yields(0)} then [Receive(q, a.pid, a.prio).msg] else []
  }

  ghost function AllAccepted(q: QState, run: seq<Step>): seq<int>
    requires CanRun(q, run)
    decreases |run|
  {
    if run == [] then [] else Accepted(q, run[0]) + AllAccepted(Apply(q, run[0]), run[1..])
  }

  ghost function AllReturned(q: QState, run: seq<Step>): seq<int>
    requires CanRun(q, run)
    decreases |run|
  {
    if run == [] then [] else Returned(q, run[0]) + AllReturned(Apply(q, run[0]), run[1..])
  }

  ghost predicate NoReset(run: seq<Step>) {
    forall i | 0 <= i < |run| :: run[i].Recv? || run[i].Snd? || run[i].Finish?
  }

  lemma StepInv(q: QState, a: Step)
    requires Inv(q) && Enabled(q, a)
    ensures Inv(Apply(q, a))
  {
    match a
    case Recv(p, prio) => ReceiveInv(q, p, prio);
    case Snd(p, prio, m, r) => SendInv(q, p, prio, m, r);
    case Finish(_) =>
    case PReset => ResetInv(q);
    case PDelete => ResetInv(q);
    case PCreate(count) => CreateInv(q, count);
  }

  // In every run the queue never holds more than size messages, and the waiting lists hold
  // exactly the blocked processes.
  lemma {:induction false} RunInv(q: QState, run: seq<Step>)
    requires Inv(q) && CanRun(q, run)
    ensures Inv(After(q, run))
    decreases |run|
  {
    if run != [] {
      StepInv(q, run[0]);
      RunInv(Apply(q, run[0]), run[1..]);
    }
  }

  // First in, first out: what was queued and then accepted is what was returned and is queued.
  lemma StepFifo(q: QState, a: Step)
    requires Enabled(q, a) && NoReset([a])
    ensures q.queue + Accepted(q, a) == Returned(q, a) + Apply(q, a).queue
  {
    assert [a][0] == a;
    if a.Recv? && !(q.queue == []) && !q.reset[a.pid] {
      assert q.queue == [q.queue[0]] + q.queue[1..];
    }
  }

  lemma {:induction false} RunFifo(q: QState, run: seq<Step>)
    requires CanRun(q, run) && NoReset(run)
    ensures q.queue + AllAccepted(q, run) == AllReturned(q, run) + After(q, run).queue
    decreases |run|
  {
    if run != [] {
      var a, rest := run[0], run[1..];
      var q' := Apply(q, a);
      assert run[0].Recv? || run[0].Snd? || run[0].Finish?;
      StepFifo(q, a);
      RunFifo(q', rest);
      Regroup(q.queue, Accepted(q, a), AllAccepted(q', rest), Returned(q, a), q'.queue,
              AllReturned(q', rest), After(q', rest).queue);
    }
  }

  lemma Regroup(a: seq<int>, b: seq<int>, c: seq<int>, d: seq<int>, e: seq<int>, f: seq<int>, g: seq<int>)
    requires a + b == d + e && e + c == f + g
    ensures a + (b + c) == (d + f) + g
  {
    assert a + (b + c) == (a + b) + c;
    assert (d + e) + c == d + (e + c);
    assert d + (f + g) == (d + f) + g;
  }
}
