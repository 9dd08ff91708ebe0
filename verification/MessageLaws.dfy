/**
 What psend, preceive and preset do (kernel/file.c), case by case: when a call blocks, when it
 fails, and exactly whom it wakes. Every case is stated for all states that satisfy the invariant.
 */
module MessageLaws {
  import opened PriorityOrder
  import opened MessageProtocol

  // Exactly process x leaves the list, in which it is the longest waiting of the highest
  // priority, and gets ready; nobody else changes.
  ghost predicate Wakes(w: seq<Waiting>, w': seq<Waiting>, status: seq<Status>, status': seq<Status>, x: Waiting) {
    && w == w' + [x] && 0 <= x.pid < |status| == |status'|
    && (forall y | y in w && y != x :: y.prio < x.prio || (y.prio == x.prio && y.since > x.since))
    && status[x.pid] != Ready && status'[x.pid] == Ready
    && (forall p | 0 <= p < |status| && p != x.pid :: status'[p] == status[p])
  }

  // Exactly process x joins the list and is blocked.
  ghost predicate Joins(w: seq<Waiting>, w': seq<Waiting>, status: seq<Status>, status': seq<Status>, x: Waiting,
      s: Status)
  {
    && (forall y :: y in w' <==> y == x || y in w) && |w'| == |w| + 1 && 0 <= x.pid < |status| == |status'|
    && status[x.pid] == Ready && status'[x.pid] == s != Ready
    && (forall p | 0 <= p < |status| && p != x.pid :: status'[p] == status[p])
  }

  // Serving a waiting list wakes the right process.
  lemma HeadWakes(w: seq<Waiting>, status: seq<Status>, s: Status, now: nat)
    requires WaitingFor(w, status, s) && InOrder(w, now) && w != [] && s != Ready
    ensures Wakes(w, Rest(w), status, Become(status, Head(w), Ready), w[|w| - 1])
  {
    var x := w[|w| - 1];
    forall y | y in w && y != x
      ensures y.prio < x.prio || (y.prio == x.prio && y.since > x.since)
    {
      var i :| 0 <= i < |w| && w[i] == y;
      assert Before(Entries(w)[|w| - 1], Entries(w)[i]);
    }
  }

  lemma EnterJoins(w: seq<Waiting>, status: seq<Status>, x: Waiting, s: Status)
    requires 0 <= x.pid < |status| && status[x.pid] == Ready && s != Ready
    ensures Joins(w, Enter(w, x), status, status[x.pid := s], x, s)
  {
    InsertMembers(w, InsertAt(WaitPrios(w), x.prio), x);
  }

  // ---------- psend ----------

  // A message is accepted: it becomes the last of the queue, and a process that waits to receive
  // is woken exactly if the queue was empty.
  lemma SendAccepts(q: QState, p: int, prio: int, message: int, resumed: bool)
    requires Inv(q) && MayRun(q, p) && !q.reset[p] && |q.queue| < q.size
    ensures var r := Send(q, p, prio, message, resumed); var q' := r.state;
      && r.outcome == Done(0) && q'.queue == q.queue + [message] && q'.senders == q.senders && q'.reset == q.reset
      && q'.open == q.open && q'.size == q.size
      && if q.queue == [] && q.receivers != []
         then exists x :: Wakes(q.receivers, q'.receivers, q.status, q'.status, x)
         else q'.receivers == q.receivers && q'.status == q.status
  {
    if q.receivers != [] {
      HeadWakes(q.receivers, q.status, OnReception, q.now);
    }
  }

  // The queue is full: a first attempt blocks, and a resumed one fails and changes nothing.
  lemma SendFull(q: QState, p: int, prio: int, message: int, resumed: bool)
    requires Inv(q) && MayRun(q, p) && !q.reset[p] && |q.queue| == q.size
    ensures var r := Send(q, p, prio, message, resumed); var q' := r.state;
      if resumed then r.outcome == Done(-1) && q' == q
      else
        && r.outcome == Blocked && q'.queue == q.queue && q'.receivers == q.receivers && q'.reset == q.reset
        && q'.open == q.open && q'.size == q.size
        && Joins(q.senders, q'.senders, q.status, q'.status, Waiting(p, prio, q.now), OnSending)
  {
    EnterJoins(q.senders, q.status, Waiting(p, prio, q.now), OnSending);
  }

  // After a reset the call fails; only the note of the reset is cleared, unless the queue is full
  // again by the time the process resumes.
  lemma SendReset(q: QState, p: int, prio: int, message: int, resumed: bool)
    requires Inv(q) && MayRun(q, p) && q.reset[p]
    ensures var r := Send(q, p, prio, message, resumed);
      && r.outcome == Done(-1)
      && r.state == if resumed && |q.queue| == q.size then q else q.(reset := q.reset[p := false])
  {
  }

  // ---------- preceive ----------

  // A message is there: the oldest is returned, and a process that waits to send is woken exactly
  // if the queue was full; the caller then yields.
  lemma ReceiveTakes(q: QState, p: int, prio: int)
    requires Inv(q) && MayRun(q, p) && !q.reset[p] && q.queue != []
    ensures var r := Receive(q, p, prio); var q' := r.state;
      && r.msg == q.queue[0] && q'.queue == q.queue[1..] && q'.receivers == q.receivers && q'.reset == q.reset
      && q'.open == q.open && q'.size == q.size
      && if |q.queue| == q.size && q.senders != []
         then r.outcome == Yields(0) && exists x :: Wakes(q.senders, q'.senders, q.status, q'.status, x)
         else r.outcome == Done(0) && q'.senders == q.senders && q'.status == q.status
  {
    if q.senders != [] {
      HeadWakes(q.senders, q.status, OnSending, q.now);
    }
  }

  // The queue is empty: the caller blocks.
  lemma ReceiveEmpty(q: QState, p: int, prio: int)
    requires Inv(q) && MayRun(q, p) && !q.reset[p] && q.queue == []
    ensures var r := Receive(q, p, prio); var q' := r.state;
      && r.outcome == Blocked && q'.queue == [] && q'.senders == q.senders && q'.reset == q.reset
      && q'.open == q.open && q'.size == q.size
      && Joins(q.receivers, q'.receivers, q.status, q'.status, Waiting(p, prio, q.now), OnReception)
  {
    EnterJoins(q.receivers, q.status, Waiting(p, prio, q.now), OnReception);
  }

  lemma ReceiveReset(q: QState, p: int, prio: int)
    requires Inv(q) && MayRun(q, p) && q.reset[p]
    ensures var r := Receive(q, p, prio); r.outcome == Done(-1) && r.state == q.(reset := q.reset[p := false])
  {
  }

  // ---------- preset and pdelete ----------

  // No message and no waiting process is left; exactly those that waited are woken and learn of it.
  lemma ResetFrees(q: QState)
    requires Inv(q)
    ensures var q' := ResetState(q);
      && q'.queue == [] && q'.receivers == [] && q'.senders == [] && q'.open == q.open && q'.size == q.size
      && |q'.status| == |q'.reset| == |q.status| && (forall p | 0 <= p < |q.status| :: q'.status[p] == Ready)
      && (forall p | 0 <= p < |q.status| ::
            q'.reset[p] <==> q.reset[p] || IsWaiting(q.receivers, p) || IsWaiting(q.senders, p))
    ensures Deleted(q) == ResetState(q).(open := false, size := 0)
  {
    forall p | 0 <= p < |q.status|
      ensures q.status[p] != Ready <==> IsWaiting(q.receivers, p) || IsWaiting(q.senders, p)
    {
      assert q.status[p] == OnReception ==> IsWaiting(q.receivers, p);
      assert q.status[p] == OnSending ==> IsWaiting(q.senders, p);
    }
  }

  // ---------- a process that nobody wakes ----------

  // Processes 1 and 2 wait to receive; 0 sends two messages before 1 runs again, then 1 takes one.
  const RUN := [Recv(1, 1), Recv(2, 1), Snd(0, 1, 10, false), Snd(0, 1, 20, false), Recv(1, 1)]

  // The queue after the first n steps.
  function AfterStep(n: nat): QState
    requires n <= |RUN|
  {
    var w1, w2 := Waiting(1, 1, 0), Waiting(2, 1, 1);
    var q := QState(true, 2, [], [], [], [Ready, Ready, Ready], [false, false, false], 0);
    if n == 0 then q
    else if n == 1 then q.(receivers := [w1], status := [Ready, OnReception, Ready], now := 1)
    else if n == 2 then q.(receivers := [w2, w1], status := [Ready, OnReception, OnReception], now := 2)
    else q.(queue := if n == 3 then [10] else if n == 4 then [10, 20] else [20], receivers := [w2],
            status := [Ready, Ready, OnReception], now := 2)
  }

  lemma EnterInFront(w: seq<Waiting>, x: Waiting)
    requires w == [] || w[0].prio >= x.prio
    ensures Enter(w, x) == [x] + w
  {
  }

  // The two receivers block.
  lemma BlockStep(n: nat)
    requires n < 2
    ensures Enabled(AfterStep(n), RUN[n]) && Apply(AfterStep(n), RUN[n]) == AfterStep(n + 1)
  {
    hide Enter;
    var w1, w2 := Waiting(1, 1, 0), Waiting(2, 1, 1);
    EnterInFront([], w1);
    EnterInFront([w1], w2);
    if n == 0 {
      assert [w1] + [] == [w1];
    } else {
      assert [w2] + [w1] == [w2, w1];
    }
  }

  // Two messages are sent and one is taken.
  lemma MessageStep(n: nat)
    requires 2 <= n < |RUN|
    ensures Enabled(AfterStep(n), RUN[n]) && Apply(AfterStep(n), RUN[n]) == AfterStep(n + 1)
  {
    hide Enter;
  }

  lemma {:induction false} RunFrom(n: nat)
    requires n <= |RUN|
    ensures CanRun(AfterStep(n), RUN[n..]) && After(AfterStep(n), RUN[n..]) == AfterStep(|RUN|)
    decreases |RUN| - n
  {
    hide AfterStep, Enabled, Apply;
    if n < |RUN| {
      if n < 2 {
        BlockStep(n);
      } else {
        MessageStep(n);
      }
      RunFrom(n + 1);
      assert RUN[n..][0] == RUN[n] && RUN[n..][1..] == RUN[n + 1..];
    }
  }

  // Process 2 then still waits to receive, although a message is queued and every process that
  // was woken has run.
  lemma StaysBlocked()
    ensures Inv(AfterStep(0)) && CanRun(AfterStep(0), RUN)
    ensures var q := After(AfterStep(0), RUN);
      q.queue == [20] && q.receivers == [Waiting(2, 1, 1)] && q.status == [Ready, Ready, OnReception]
  {
    hide CanRun, After, Inv;
    StartsValid();
    assert RUN[0..] == RUN;
    RunFrom(0);
  }

  lemma StartsValid()
    ensures Inv(AfterStep(0))
  {
  }
}
