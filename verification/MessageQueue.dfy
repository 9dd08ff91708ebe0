/**
 A message queue (kernel/file.c) with its linked message list and counters updated in place.
 Each method is proved against the function of the protocol on values. mem_alloc zeroes
 memory, so a new message has no successor.
 */
module MessageQueue {
  import opened PriorityOrder
  import opened MessageProtocol

  class Message {
    var val: int
    var next: Message?
    ghost var freed: bool        // given back to the allocator

    constructor (val: int)
      ensures this.val == val && next == null && !freed
    {
      this.val, next, freed := val, null, false;
    }
  }

  // mem_free: a message is given back at most once.
  method MemFree(p: Message)
    requires !p.freed
    modifies p`freed
    ensures p.freed
  {
    p.freed := true;
  }

  ghost predicate NextInList(c: seq<Message>, i: nat)
    requires i < |c|
    reads c
  {
    !c[i].freed && c[i].next == if i + 1 < |c| then c[i + 1] else null
  }

  // From the first message along the links: c and nothing else.
  ghost predicate Linked(first: Message?, c: seq<Message>)
    reads c
  {
    && (if c == [] then first == null else first == c[0])
    && (forall i {:trigger NextInList(c, i)} | 0 <= i < |c| :: NextInList(c, i))
    && (forall i, j | 0 <= i < j < |c| :: c[i] != c[j])
  }

  ghost function Vals(c: seq<Message>): (s: seq<int>)
    reads c
    ensures |s| == |c|
  {
    seq(|c|, i requires 0 <= i < |c| reads c => c[i].val)
  }

  class Queue {
    var open: bool
    var size: int
    var nbelem: int
    var nbSend: int              // nbproc_envoi
    var nbRecv: int              // nbproc_recep
    var debut: Message?
    var fin: Message?
    var receivers: seq<Waiting>
    var senders: seq<Waiting>
    var status: seq<Status>
    var reset: seq<bool>
    var now: nat                 // history: how often a process has blocked here
    ghost var nodes: seq<Message>

    ghost function Q(): QState
      reads this, nodes
    {
      QState(open, size, Vals(nodes), receivers, senders, status, reset, now)
    }

    // The list is linked to its end, and the counters count.
    ghost predicate Valid()
      reads this, nodes
    {
      && Linked(debut, nodes) && (nodes != [] ==> fin == nodes[|nodes| - 1])
      && nbelem == |nodes| && nbSend == |senders| && nbRecv == |receivers| && Inv(Q())
    }

    // A slot that has never been used, in a kernel with n processes.
    constructor (n: nat)
      ensures Valid() && !open && Q() == QState(false, 0, [], [], [], seq(n, _ => Ready), seq(n, _ => false), 0)
    {
      open, size, nbelem, nbSend, nbRecv, debut, fin, now := false, 0, 0, 0, 0, null, null, 0;
      receivers, senders, status, reset, nodes := [], [], seq(n, _ => Ready), seq(n, _ => false), [];
    }

    // add_message
    method AddMessage(val: int)
      requires Linked(debut, nodes) && (nodes != [] ==> fin == nodes[|nodes| - 1])
      modifies this`debut, this`fin, this`nodes, nodes
      ensures Linked(debut, nodes) && nodes != [] && fin == nodes[|nodes| - 1]
      ensures |nodes| == |old(nodes)| + 1 && Vals(nodes) == old(Vals(nodes)) + [val]
    {
      var p := new Message(val);
      ghost var c := nodes;
      if debut == null {
        debut, fin := p, p;
      } else {
        fin.next := p;
        fin := p;
      }
      nodes := nodes + [p];
      forall i | 0 <= i < |nodes|
        ensures NextInList(nodes, i)
      {
        assert i < |c| ==> old(NextInList(nodes, i));
      }
    }

    // read_message
    method ReadMessage() returns (val: int)
      requires Linked(debut, nodes) && nodes != [] && fin == nodes[|nodes| - 1]
      modifies this`debut, this`nodes, nodes
      ensures Linked(debut, nodes) && (nodes != [] ==> fin == nodes[|nodes| - 1])
      ensures |nodes| == |old(nodes)| - 1 && old(Vals(nodes)) == [val] + Vals(nodes)
      ensures old(nodes)[0].freed
    {
      ghost var c := nodes;
      assert NextInList(c, 0);
      TailLinked(c);
      var p := debut;
      debut := p.next;
      val := p.val;
      nodes := nodes[1..];
      MemFree(p);
      forall i | 0 <= i < |nodes|
        ensures NextInList(nodes, i)
      {
        assert old(NextInList(c[1..], i));
      }
    }

    lemma TailLinked(c: seq<Message>)
      requires c != [] && Linked(c[0], c)
      ensures Linked(c[0].next, c[1..])
    {
      var d := c[1..];
      assert NextInList(c, 0);
      forall i | 0 <= i < |d|
        ensures NextInList(d, i)
      {
        assert NextInList(c, i + 1);
      }
    }

    // reset_file: every message of the list is given back, once, and none is left.
    method ResetFile()
      requires Linked(debut, nodes) && (nodes != [] ==> fin == nodes[|nodes| - 1])
      modifies this`debut, this`fin, this`nodes, nodes
      ensures debut == null && nodes == [] && forall m | m in old(nodes) :: m.freed
    {
      ghost var c := nodes;
      if debut != null {
        var p := debut;
        ghost var k := 0;
        while p != fin && p.next != null
          invariant k < |c| && p == c[k] && fin == c[|c| - 1]
          invariant forall j | 0 <= j < k :: c[j].freed
          invariant forall j {:trigger NextInList(c, j)} | k <= j < |c| :: NextInList(c, j)
          decreases |c| - k
        {
          assert NextInList(c, k) && forall j | k < j < |c| :: c[j] != c[k];
          var q := p.next;
          label before:
          MemFree(p);
          forall j {:trigger NextInList(c, j)} | k + 1 <= j < |c|
            ensures NextInList(c, j)
          {
            assert old@before(NextInList(c, j));
          }
          p := q;
          k := k + 1;
        }
        assert NextInList(c, k);
        MemFree(p);
      }
      debut, fin := null, null;
      nodes := [];
    }

    // preceive from the head of its loop.
    method ReceiveTurn(p: int, prio: int) returns (o: Outcome, msg: int)
      requires Valid() && MayRun(Q(), p)
      modifies this, nodes
      ensures Valid() && Result(Q(), o, msg) == Receive(old(Q()), p, prio)
    {
      hide Inv, Enter, Linked, Vals;
      ReceiveInv(Q(), p, prio);
      o, msg := Done(-1), 0;
      if nbelem == 0 && !reset[p] {
        EnterLength(receivers, Waiting(p, prio, now));
        receivers := Enter(receivers, Waiting(p, prio, now));
        now := now + 1;
        status := status[p := OnReception];
        nbRecv := nbRecv + 1;
        o := Blocked;
      } else if !reset[p] {
        o, msg := TakeMessage(p);
      } else {
        reset := reset[p := false];
      }
    }

    lemma EnterLength(w: seq<Waiting>, x: Waiting)
      ensures |Enter(w, x)| == |w| + 1
    {
    }

    // A message is read; a sender that waits for room is woken and the processor is yielded.
    method TakeMessage(p: int) returns (o: Outcome, msg: int)
      requires Valid() && MayRun(Q(), p) && nbelem > 0 && !reset[p]
      modifies this, nodes
      ensures Valid() && Result(Q(), o, msg) == Receive(old(Q()), p, 0)
    {
      hide Inv, Linked, Head, Rest, Become, Enter, Vals;
      ReceiveInv(Q(), p, 0);
      ghost var q := Q();
      msg := ReadMessage();
      nbelem := nbelem - 1;
      assert q.queue == [msg] + Vals(nodes);
      if nbelem == size - 1 && senders != [] {
        WakeSender();
        o := Yields(0);
      } else {
        FalseAlready(reset, p);
        reset := reset[p := false];
        o := Done(0);
      }
    }

    method WakeSender()
      requires senders != [] && nbSend == |senders|
      modifies this`senders, this`status, this`nbSend
      ensures senders == Rest(old(senders)) && status == Become(old(status), Head(old(senders)), Ready)
      ensures nbSend == |senders|
    {
      status := Become(status, Head(senders), Ready);
      senders := Rest(senders);
      nbSend := nbSend - 1;
    }

    method WakeReceiver()
      requires receivers != [] && nbRecv == |receivers|
      modifies this`receivers, this`status, this`nbRecv
      ensures receivers == Rest(old(receivers)) && status == Become(old(status), Head(old(receivers)), Ready)
      ensures nbRecv == |receivers|
    {
      status := Become(status, Head(receivers), Ready);
      receivers := Rest(receivers);
      nbRecv := nbRecv - 1;
    }

    // psend from the head of its loop.
    method SendTurn(p: int, prio: int, message: int, resumed: bool) returns (o: Outcome)
      requires Valid() && MayRun(Q(), p)
      modifies this, nodes
      ensures Valid() && Result(Q(), o, 0) == Send(old(Q()), p, prio, message, resumed)
    {
      hide Inv, Enter, Linked, Vals;
      SendInv(Q(), p, prio, message, resumed);
      if resumed && nbelem == size {
        return Done(-1);
      }
      o := Done(-1);
      if nbelem == size && !reset[p] {
        EnterLength(senders, Waiting(p, prio, now));
        senders := Enter(senders, Waiting(p, prio, now));
        now := now + 1;
        status := status[p := OnSending];
        nbSend := nbSend + 1;
        o := Blocked;
      } else if !reset[p] {
        PutMessage(p, message);
        o := Done(0);
      } else {
        reset := reset[p := false];
      }
    }

    // A message is added; a receiver that waits for it is woken.
    method PutMessage(p: int, message: int)
      requires Valid() && MayRun(Q(), p) && nbelem < size && !reset[p]
      modifies this, nodes
      ensures Valid() && Result(Q(), Done(0), 0) == Send(old(Q()), p, 0, message, false)
    {
      hide Inv, Linked, Head, Rest, Become, Enter, Vals;
      SendInv(Q(), p, 0, message, false);
      ghost var q := Q();
      AddMessage(message);
      nbelem := nbelem + 1;
      if nbelem == 1 && receivers != [] {
        WakeReceiver();
      }
      FalseAlready(reset, p);
      reset := reset[p := false];
    }

    lemma FalseAlready(reset: seq<bool>, p: nat)
      requires p < |reset| && !reset[p]
      ensures reset[p := false] == reset
    {
    }

    // The calls themselves: a queue that is not open is refused.
    method PReceive(p: int, prio: int) returns (o: Outcome, msg: int)
      requires Valid() && 0 <= p < |status| && status[p] == Ready
      modifies this, nodes
      ensures Valid() && (!old(open) ==> o == Done(-1) && Q() == old(Q()))
      ensures old(open) ==> Result(Q(), o, msg) == Receive(old(Q()), p, prio)
    {
      hide Linked, WaitingFor, Receive;
      if !open {
        return Done(-1), 0;
      }
      o, msg := ReceiveTurn(p, prio);
    }

    method PSend(p: int, prio: int, message: int) returns (o: Outcome)
      requires Valid() && 0 <= p < |status| && status[p] == Ready
      modifies this, nodes
      ensures Valid() && (!old(open) ==> o == Done(-1) && Q() == old(Q()))
      ensures old(open) ==> Result(Q(), o, 0) == Send(old(Q()), p, prio, message, false)
    {
      hide Linked, WaitingFor, Send;
      if !open {
        return Done(-1);
      }
      o := SendTurn(p, prio, message, false);
    }

    // The end of preceive in a process that yielded.
    method FinishReceive(p: int)
      requires Valid() && 0 <= p < |reset|
      modifies this`reset
      ensures Valid() && Q() == Leave(old(Q()), p)
    {
      reset := reset[p := false];
    }

    // Where the waiting processes of preset stand: those of status s are being woken.
    ghost predicate Waking(status0: seq<Status>, reset0: seq<bool>, s: Status)
      reads this`status, this`reset
    {
      && |status| == |reset| == |status0| == |reset0|
      && forall p | 0 <= p < |status0| ::
        if status0[p] == s && status[p] != s then status[p] == Ready && reset[p]
        else status[p] == status0[p] && reset[p] == reset0[p]
    }

    // Waking all processes that wait to receive.
    method WakeReceivers()
      requires |status| == |reset| && WaitingFor(receivers, status, OnReception)
      requires WaitingFor(senders, status, OnSending)
      modifies this`receivers, this`status, this`reset
      ensures receivers == [] && WaitingFor(senders, status, OnSending)
      ensures Waking(old(status), old(reset), OnReception) && forall p | 0 <= p < |status| :: status[p] != OnReception
    {
      while receivers != []
        invariant WaitingFor(receivers, status, OnReception) && WaitingFor(senders, status, OnSending)
        invariant Waking(old(status), old(reset), OnReception)
        decreases |receivers|
      {
        Served(receivers, status, OnReception);
        var pid := Head(receivers);
        OtherList(senders, status, OnSending, pid, Ready);
        hide WaitingFor;
        if status[pid] == OnReception {
          status := status[pid := Ready];
          reset := reset[pid := true];
          receivers := Rest(receivers);
        }
      }
      NoneLeft(status, OnReception);
    }

    method WakeSenders()
      requires |status| == |reset| && WaitingFor(senders, status, OnSending)
      modifies this`senders, this`status, this`reset
      ensures senders == []
      ensures Waking(old(status), old(reset), OnSending) && forall p | 0 <= p < |status| :: status[p] != OnSending
    {
      while senders != []
        invariant WaitingFor(senders, status, OnSending)
        invariant Waking(old(status), old(reset), OnSending)
        decreases |senders|
      {
        Served(senders, status, OnSending);
        var pid := Head(senders);
        hide WaitingFor;
        if status[pid] == OnSending {
          status := status[pid := Ready];
          reset := reset[pid := true];
          senders := Rest(senders);
        }
      }
      NoneLeft(status, OnSending);
    }

    lemma NoneLeft(status: seq<Status>, s: Status)
      requires WaitingFor([], status, s)
      ensures forall p | 0 <= p < |status| :: status[p] != s
    {
      forall p | 0 <= p < |status|
        ensures status[p] != s
      {
        assert !IsWaiting([], p);
      }
    }

    // The two loops of preset, from state q.
    method WakeWaiting(ghost q: QState)
      requires status == q.status && reset == q.reset && |status| == |reset|
      requires WaitingFor(receivers, status, OnReception) && WaitingFor(senders, status, OnSending)
      modifies this`receivers, this`senders, this`status, this`reset
      ensures receivers == [] && senders == []
      ensures status == ResetState(q).status && reset == ResetState(q).reset
    {
      hide WaitingFor;
      WakeReceivers();
      WakeSenders();
      assert forall p | 0 <= p < |status| :: status[p] == Ready;
    }

    // preset. Its loops end because every waiting process has the status it is tested for.
    method PReset() returns (r: int)
      requires Valid()
      modifies this, nodes
      ensures Valid() && r == if old(open) then 0 else -1
      ensures Q() == if old(open) then ResetState(old(Q())) else old(Q())
    {
      hide Inv, WaitingFor, Linked;
      if !open {
        return -1;
      }
      r := 0;
      ResetInv(Q());
      WaitParts(Q());
      ghost var q := Q();
      ResetFile();
      nbelem := 0;
      WakeWaiting(q);
      nbSend, nbRecv := 0, 0;
      Empty();
    }

    lemma WaitParts(q: QState)
      requires Inv(q)
      ensures WaitingFor(q.receivers, q.status, OnReception) && WaitingFor(q.senders, q.status, OnSending)
      ensures |q.status| == |q.reset|
    {
    }

    lemma Empty()
      requires debut == null && nodes == []
      ensures Linked(debut, nodes) && Vals(nodes) == []
    {
    }

    // pdelete
    method PDelete() returns (r: int)
      requires Valid()
      modifies this, nodes
      ensures Valid() && r == if old(open) then 0 else -1
      ensures Q() == if old(open) then Deleted(old(Q())) else old(Q())
    {
      ResetInv(Q());
      r := PReset();
      if r == -1 {
        return;
      }
      size, open := 0, false;
    }

    // pcreate, on this slot.
    method PCreate(count: int) returns (r: int)
      requires Valid() && !open
      modifies this
      ensures Valid() && Q() == Created(old(Q()), count)
      ensures r == if 0 < count <= MAX_SIZE then 0 else -1
    {
      if count <= 0 || count > MAX_SIZE {
        return -1;
      }
      open, nbelem, nbRecv, nbSend, size := true, 0, 0, 0, count;
      receivers, senders := [], [];
      assert Vals(nodes) == [];
      return 0;
    }

    // pcount: messages, plus waiting senders, minus waiting receivers.
    method PCount() returns (count: int)
      requires Valid()
      ensures count == |Q().queue| + |Q().senders| - |Q().receivers|
    {
      count := -nbRecv + nbelem + nbSend;
    }
  }

  // ---------- the table of queues ----------

  const NBQUEUE := 5

  function CountOpen(statut: seq<bool>): nat {
    if statut == [] then 0 else (if statut[0] then 1 else 0) + CountOpen(statut[1..])
  }

  lemma {:induction false} AllOpen(statut: seq<bool>)
    ensures CountOpen(statut) <= |statut|
    ensures CountOpen(statut) == |statut| <==> forall j | 0 <= j < |statut| :: statut[j]
  {
    if statut != [] {
      AllOpen(statut[1..]);
      assert forall j | 1 <= j < |statut| :: statut[j] == statut[1..][j - 1];
    }
  }

  // The search of pcreate: the first free slot. It looks at a slot before it compares the index
  // with the size of the table; NBFILES, the number of used slots, keeps it inside.
  method FindSlot(statut: seq<bool>, nbFiles: int) returns (i: int)
    requires |statut| == NBQUEUE && nbFiles == CountOpen(statut)
    ensures -1 <= i < NBQUEUE
    ensures i == -1 <==> forall j | 0 <= j < NBQUEUE :: statut[j]
    ensures i >= 0 ==> !statut[i] && forall j | 0 <= j < i :: statut[j]
  {
    AllOpen(statut);
    hide CountOpen;
    if nbFiles >= NBQUEUE {
      return -1;
    }
    i := 0;
    while statut[i] && i != NBQUEUE
      invariant 0 <= i < NBQUEUE && forall j | 0 <= j < i :: statut[j]
      decreases NBQUEUE - i
    {
      if i == NBQUEUE - 1 {
        assert forall j | 0 <= j < NBQUEUE :: statut[j];
      }
      i := i + 1;
    }
    if i == NBQUEUE {
      return -1;
    }
  }
}
