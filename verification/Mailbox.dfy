/**
 Mailboxes (rt_mb_send_wait, rt_mb_recv, rt_mb_control), at the grain the kernel
 really interleaves at: one step is one interrupt-disabled section.

 MailboxProtocol is the abstract machine, with the mails as one sequence. It holds
 the properties of every run. Mailbox refines it with the ring buffer.
 */
module MailboxProtocol {
  import opened Sequences
  import opened WaitList

  /** Where a thread stands between two of its steps. */
  datatype Pc =
    | Idle
    | RecvBlocked(wait: Wait)
    | RecvWoken(wait: Wait)
    | SendBlocked(mail: int, wait: Wait)
    | SendWoken(mail: int, wait: Wait)
    | Failing              // resumed with an error, which its call is about to return

  datatype Event =
    | Send(t: Tid, mail: int, wait: Wait)   // first section of rt_mb_send_wait
    | SendAgain(t: Tid, left: nat)          // a woken sender tests the mailbox again
    | Recv(t: Tid, wait: Wait)
    | RecvAgain(t: Tid, left: nat)
    | Expire(t: Tid)                        // the thread timer runs rt_thread_timeout
    | Return(t: Tid)
    | Reset                                 // rt_mb_control(RT_IPC_CMD_RESET)
    | ChangePriority(t: Tid, p: nat)        // of any thread, at any time: the lists are not sorted again

  datatype State = State(
    size: nat,
    mails: seq<int>,
    receivers: seq<Tid>,
    senders: seq<Tid>,
    pc: seq<Pc>,
    flag: Flag,
    prio: seq<nat>,
    now: nat, stamp: seq<nat>,           // arrival times of the wait lists
    sent: seq<int>, got: seq<int>)       // what was sent and received since the last reset

  ghost predicate Initial(s: State) {
    && s.mails == [] && s.receivers == [] && s.senders == []
    && |s.pc| == |s.prio| == |s.stamp|
    && (forall t | 0 <= t < |s.pc| :: s.pc[t] == Idle)
    && (forall t | 0 <= t < |s.stamp| :: s.stamp[t] < s.now)
    && s.sent == [] && s.got == []
  }

  predicate Enabled(s: State, e: Event) {
    match e
    case Send(t, _, _) => t < |s.pc| && s.pc[t] == Idle
    case Recv(t, _) => t < |s.pc| && s.pc[t] == Idle
    case SendAgain(t, _) => t < |s.pc| && s.pc[t].SendWoken?
    case RecvAgain(t, _) => t < |s.pc| && s.pc[t].RecvWoken?
    case Expire(t) => t < |s.pc| && (s.pc[t].RecvBlocked? || s.pc[t].SendBlocked?) && s.pc[t].wait.Ticks?
    case Return(t) => t < |s.pc| && s.pc[t] == Failing
    case Reset => true
    case ChangePriority(t, _) => t < |s.pc|
  }

  predicate Shaped(s: State) {
    && |s.pc| == |s.prio| == |s.stamp|
    && |s.mails| <= s.size
    && (forall i | 0 <= i < |s.receivers| :: s.receivers[i] < |s.pc| && s.pc[s.receivers[i]].RecvBlocked?)
    && (forall i | 0 <= i < |s.senders| :: s.senders[i] < |s.pc| && s.pc[s.senders[i]].SendBlocked?)
  }

  /** One pass through the loop head of rt_mb_send_wait by thread `t`, interrupts disabled. */
  function SendSection(s: State, t: Tid, mail: int, w: Wait): (r: State)
    requires Shaped(s) && t < |s.pc| && t !in s.receivers
  {
    if |s.mails| == s.size then
      if w == Ticks(0) then s.(pc := s.pc[t := Idle])
      else s.(pc := s.pc[t := SendBlocked(mail, w)],
              senders := Enqueue(s.flag, s.senders, s.prio, t),
              stamp := s.stamp[t := s.now], now := s.now + 1)
    else
      var d := s.(mails := s.mails + [mail], sent := s.sent + [mail], pc := s.pc[t := Idle]);
      if s.receivers == [] then d
      else
        var h := s.receivers[0];
        d.(receivers := s.receivers[1..], pc := d.pc[h := RecvWoken(s.pc[h].wait)])
  }

  /** One pass through the loop head of rt_mb_recv by thread `t`. */
  function RecvSection(s: State, t: Tid, w: Wait): (r: State)
    requires Shaped(s) && t < |s.pc| && t !in s.senders
  {
    if |s.mails| == 0 then
      if w == Ticks(0) then s.(pc := s.pc[t := Idle])
      else s.(pc := s.pc[t := RecvBlocked(w)],
              receivers := Enqueue(s.flag, s.receivers, s.prio, t),
              stamp := s.stamp[t := s.now], now := s.now + 1)
    else
      var d := s.(mails := s.mails[1..], got := s.got + [s.mails[0]], pc := s.pc[t := Idle]);
      if s.senders == [] then d
      else
        var h := s.senders[0];
        d.(senders := s.senders[1..], pc := d.pc[h := SendWoken(s.pc[h].mail, s.pc[h].wait)])
  }

  /** Every blocked thread is resumed with an error and the mailbox emptied. */
  function ResetSection(s: State): (r: State) {
    s.(pc := seq(|s.pc|, i requires 0 <= i < |s.pc| =>
               if s.pc[i].RecvBlocked? || s.pc[i].SendBlocked? then Failing else s.pc[i]),
       receivers := [], senders := [], mails := [], sent := [], got := [])
  }

  function Next(s: State, e: Event): (r: State)
    requires Shaped(s) && Enabled(s, e)
  {
    match e
    case Send(t, m, w) => SendSection(s, t, m, w)
    case SendAgain(t, left) => SendSection(s, t, s.pc[t].mail, Remaining(s.pc[t].wait, left))
    case Recv(t, w) => RecvSection(s, t, w)
    case RecvAgain(t, left) => RecvSection(s, t, Remaining(s.pc[t].wait, left))
    case Expire(t) =>
      s.(pc := s.pc[t := Failing],
         receivers := Remove(s.receivers, t), senders := Remove(s.senders, t))
    case Return(t) => s.(pc := s.pc[t := Idle])
    case Reset => ResetSection(s)
    case ChangePriority(t, p) => s.(prio := s.prio[t := p])
  }

  const IsRecvWoken: Pc -> bool := (p: Pc) => p.RecvWoken?
  const IsSendWoken: Pc -> bool := (p: Pc) => p.SendWoken?

  /** Receivers resumed by a send that have not run yet. */
  ghost function RecvWokenCount(s: State): nat { Count(s.pc, IsRecvWoken) }
  ghost function SendWokenCount(s: State): nat { Count(s.pc, IsSendWoken) }

  /** The two lists hold exactly the threads blocked on each side. */
  ghost predicate Lists(s: State) {
    && Shaped(s)
    && Waiting(s.receivers, s.prio, s.stamp)
    && Waiting(s.senders, s.prio, s.stamp)
    && (forall t | 0 <= t < |s.pc| :: s.pc[t].RecvBlocked? ==> t in s.receivers)
    && (forall t | 0 <= t < |s.pc| :: s.pc[t].SendBlocked? ==> t in s.senders)
    && (forall t | 0 <= t < |s.stamp| :: s.stamp[t] < s.now)
  }

  /**
   A wake-up hands over no mail: the woken thread competes for it. So a mail may sit
   in the box while receivers sleep, but only as many as there are receivers already
   on their way; and likewise for free slots and senders.
   */
  ghost predicate NoLostWakeup(s: State) {
    && (s.receivers != [] ==> |s.mails| <= RecvWokenCount(s))
    && (s.senders != [] ==> s.size - |s.mails| <= SendWokenCount(s))
  }

  ghost predicate Inv(s: State) {
    && Lists(s)
    && NoLostWakeup(s)
    && s.sent == s.got + s.mails
  }

  lemma InitialInv(s: State)
    requires Initial(s)
    ensures Inv(s)
  {
  }

  /** The effect of one or two changed program counters on the two counts. */
  lemma CountsAfter(pc: seq<Pc>, t: Tid, p: Pc)
    requires t < |pc|
    ensures Count(pc[t := p], IsRecvWoken) + (if pc[t].RecvWoken? then 1 else 0)
         == Count(pc, IsRecvWoken) + (if p.RecvWoken? then 1 else 0)
    ensures Count(pc[t := p], IsSendWoken) + (if pc[t].SendWoken? then 1 else 0)
         == Count(pc, IsSendWoken) + (if p.SendWoken? then 1 else 0)
  {
    CountUpdate(pc, IsRecvWoken, t, p);
    CountUpdate(pc, IsSendWoken, t, p);
  }

  lemma SendBlocksLists(s: State, t: Tid, mail: int, w: Wait)
    requires Lists(s) && t < |s.pc| && |s.mails| == s.size && w != Ticks(0)
    requires s.pc[t] == Idle || s.pc[t].SendWoken?
    ensures Lists(SendSection(s, t, mail, w))
  {
    EnqueueDistinct(s.flag, s.senders, s.prio, t);
    var q := Enqueue(s.flag, s.senders, s.prio, t);
    forall i | 0 <= i < |q| ensures q[i] < |s.pc| && (q[i] == t || s.pc[q[i]].SendBlocked?) {
      assert q[i] in q;
    }
  }

  lemma RecvBlocksLists(s: State, t: Tid, w: Wait)
    requires Lists(s) && t < |s.pc| && s.mails == [] && w != Ticks(0)
    requires s.pc[t] == Idle || s.pc[t].RecvWoken?
    ensures Lists(RecvSection(s, t, w))
  {
    EnqueueDistinct(s.flag, s.receivers, s.prio, t);
    var q := Enqueue(s.flag, s.receivers, s.prio, t);
    forall i | 0 <= i < |q| ensures q[i] < |s.pc| && (q[i] == t || s.pc[q[i]].RecvBlocked?) {
      assert q[i] in q;
    }
  }

  /** Depositing a mail resumes the first receiver, if there is one. */
  lemma SendWakesLists(s: State, t: Tid, mail: int, w: Wait)
    requires Lists(s) && t < |s.pc| && |s.mails| < s.size && s.receivers != []
    requires s.pc[t] == Idle || s.pc[t].SendWoken?
    ensures Lists(SendSection(s, t, mail, w))
  {
    TailDistinct(s.receivers);
  }

  lemma RecvWakesLists(s: State, t: Tid, w: Wait)
    requires Lists(s) && t < |s.pc| && s.mails != [] && s.senders != []
    requires s.pc[t] == Idle || s.pc[t].RecvWoken?
    ensures Lists(RecvSection(s, t, w))
  {
    TailDistinct(s.senders);
  }

  lemma SendSectionLists(s: State, t: Tid, mail: int, w: Wait)
    requires Lists(s) && t < |s.pc|
    requires s.pc[t] == Idle || s.pc[t].SendWoken?
    ensures Lists(SendSection(s, t, mail, w))
  {
    if |s.mails| == s.size && w != Ticks(0) {
      SendBlocksLists(s, t, mail, w);
    } else if |s.mails| < s.size && s.receivers != [] {
      SendWakesLists(s, t, mail, w);
    }
  }

  lemma RecvSectionLists(s: State, t: Tid, w: Wait)
    requires Lists(s) && t < |s.pc|
    requires s.pc[t] == Idle || s.pc[t].RecvWoken?
    ensures Lists(RecvSection(s, t, w))
  {
    if s.mails == [] && w != Ticks(0) {
      RecvBlocksLists(s, t, w);
    } else if s.mails != [] && s.senders != [] {
      RecvWakesLists(s, t, w);
    }
  }

  lemma SendSectionWakeups(s: State, t: Tid, mail: int, w: Wait)
    requires Shaped(s) && NoLostWakeup(s) && t < |s.pc|
    requires s.pc[t] == Idle || s.pc[t].SendWoken?
    ensures NoLostWakeup(SendSection(s, t, mail, w))
  {
    if |s.mails| == s.size {
      CountsAfter(s.pc, t, if w == Ticks(0) then Idle else SendBlocked(mail, w));
    } else {
      CountsAfter(s.pc, t, Idle);
      if s.receivers != [] {
        var h := s.receivers[0];
        CountsAfter(s.pc[t := Idle], h, RecvWoken(s.pc[h].wait));
      }
    }
  }

  lemma RecvSectionWakeups(s: State, t: Tid, w: Wait)
    requires Shaped(s) && NoLostWakeup(s) && t < |s.pc|
    requires s.pc[t] == Idle || s.pc[t].RecvWoken?
    ensures NoLostWakeup(RecvSection(s, t, w))
  {
    if s.mails == [] {
      CountsAfter(s.pc, t, if w == Ticks(0) then Idle else RecvBlocked(w));
    } else {
      CountsAfter(s.pc, t, Idle);
      if s.senders != [] {
        var h := s.senders[0];
        CountsAfter(s.pc[t := Idle], h, SendWoken(s.pc[h].mail, s.pc[h].wait));
      }
    }
  }

  lemma SendSectionInv(s: State, t: Tid, mail: int, w: Wait)
    requires Inv(s) && t < |s.pc|
    requires s.pc[t] == Idle || s.pc[t].SendWoken?
    ensures Inv(SendSection(s, t, mail, w))
  {
    SendSectionLists(s, t, mail, w);
    SendSectionWakeups(s, t, mail, w);
    assert s.sent + [mail] == s.got + (s.mails + [mail]);
  }

  lemma RecvSectionInv(s: State, t: Tid, w: Wait)
    requires Inv(s) && t < |s.pc|
    requires s.pc[t] == Idle || s.pc[t].RecvWoken?
    ensures Inv(RecvSection(s, t, w))
  {
    RecvSectionLists(s, t, w);
    RecvSectionWakeups(s, t, w);
    assert s.mails != [] ==> s.got + s.mails == (s.got + [s.mails[0]]) + s.mails[1..];
  }

  lemma LeaveList(q: seq<Tid>, prio: seq<nat>, stamp: seq<nat>, t: Tid) returns (r: seq<Tid>)
    requires Waiting(q, prio, stamp)
    ensures r == Remove(q, t) && Waiting(r, prio, stamp) && forall x :: x in r <==> x in q && x != t
    ensures forall i | 0 <= i < |r| :: r[i] in q && r[i] != t
  {
    RemoveDistinct(q, t);
    r := Remove(q, t);
    assert forall i | 0 <= i < |r| :: r[i] in r;
  }

  lemma ExpireLists(s: State, t: Tid)
    requires Lists(s) && Enabled(s, Expire(t))
    ensures Lists(Next(s, Expire(t)))
  {
    var q := LeaveList(s.receivers, s.prio, s.stamp, t);
    var p := LeaveList(s.senders, s.prio, s.stamp, t);
    ExpiredLists(s, t, q, p, Next(s, Expire(t)));
  }

  lemma ExpiredLists(s: State, t: Tid, q: seq<Tid>, p: seq<Tid>, r: State)
    requires Lists(s) && t < |s.pc| && r == s.(pc := s.pc[t := Failing], receivers := q, senders := p)
    requires Waiting(q, s.prio, s.stamp) && Waiting(p, s.prio, s.stamp)
    requires (forall x :: x in q <==> x in s.receivers && x != t) && (forall x :: x in p <==> x in s.senders && x != t)
    requires forall i | 0 <= i < |q| :: q[i] in s.receivers && q[i] != t
    requires forall i | 0 <= i < |p| :: p[i] in s.senders && p[i] != t
    ensures Lists(r)
  {
  }

  lemma ExpireInv(s: State, t: Tid)
    requires Inv(s) && Enabled(s, Expire(t))
    ensures Inv(Next(s, Expire(t)))
  {
    ExpireLists(s, t);
    CountsAfter(s.pc, t, Failing);
  }

  lemma ReturnInv(s: State, t: Tid)
    requires Inv(s) && Enabled(s, Return(t))
    ensures Inv(Next(s, Return(t)))
  {
    CountsAfter(s.pc, t, Idle);
  }

  lemma ResetLists(s: State)
    requires Lists(s)
    ensures Lists(ResetSection(s))
  {
  }

  /** Every step of every thread, every timeout and every reset keeps the invariant. */
  lemma StepInv(s: State, e: Event)
    requires Inv(s) && Enabled(s, e)
    ensures Inv(Next(s, e))
  {
    match e
    case Send(t, m, w) => SendSectionInv(s, t, m, w);
    case SendAgain(t, left) => SendSectionInv(s, t, s.pc[t].mail, Remaining(s.pc[t].wait, left));
    case Recv(t, w) => RecvSectionInv(s, t, w);
    case RecvAgain(t, left) => RecvSectionInv(s, t, Remaining(s.pc[t].wait, left));
    case Expire(t) => ExpireInv(s, t);
    case Return(t) => ReturnInv(s, t);
    case Reset => ResetLists(s);
    case ChangePriority(_, _) =>
  }

  /** `trace` is what a run over `events` looks like, state by state. */
  ghost predicate Run(trace: seq<State>, events: seq<Event>) {
    && |trace| == |events| + 1
    && Initial(trace[0])
    && forall i | 0 <= i < |events| :: StepAt(trace, events, i)
  }

  ghost predicate StepAt(trace: seq<State>, events: seq<Event>, i: nat)
    requires i < |events| < |trace|
  {
    Shaped(trace[i]) && Enabled(trace[i], events[i]) && trace[i + 1] == Next(trace[i], events[i])
  }

  lemma {:induction false} RunInv(trace: seq<State>, events: seq<Event>, k: nat)
    requires Run(trace, events) && k < |trace|
    ensures Inv(trace[k])
  {
    if k == 0 {
      InitialInv(trace[0]);
    } else {
      RunInv(trace, events, k - 1);
      assert StepAt(trace, events, k - 1);
      StepInv(trace[k - 1], events[k - 1]);
    }
  }

  /* The order of the wait lists. */

  ghost predicate InOrder(s: State) {
    Ordered(s.flag, s.receivers, s.prio, s.stamp) && Ordered(s.flag, s.senders, s.prio, s.stamp)
  }

  /** A priority change leaves the thread between its neighbours in the list it waits in. */
  ghost predicate Fitting(s: State, t: Tid, p: nat)
    requires Lists(s) && t < |s.pc|
  {
    InPlace(s.flag, s.receivers, s.prio[t := p], s.stamp, t) && InPlace(s.flag, s.senders, s.prio[t := p], s.stamp, t)
  }

  lemma SendSectionOrder(s: State, t: Tid, mail: int, w: Wait)
    requires Lists(s) && InOrder(s) && t < |s.pc| && (s.pc[t] == Idle || s.pc[t].SendWoken?)
    ensures InOrder(SendSection(s, t, mail, w))
  {
    if |s.mails| == s.size && w != Ticks(0) {
      EnqueueOrdered(s.flag, s.senders, s.prio, s.stamp, t, s.now);
      StampElsewhere(s.flag, s.receivers, s.prio, s.stamp, t, s.now);
    } else if |s.mails| < s.size && s.receivers != [] {
      TailOrdered(s.flag, s.receivers, s.prio, s.stamp);
    }
  }

  lemma RecvSectionOrder(s: State, t: Tid, w: Wait)
    requires Lists(s) && InOrder(s) && t < |s.pc| && (s.pc[t] == Idle || s.pc[t].RecvWoken?)
    ensures InOrder(RecvSection(s, t, w))
  {
    if s.mails == [] && w != Ticks(0) {
      EnqueueOrdered(s.flag, s.receivers, s.prio, s.stamp, t, s.now);
      StampElsewhere(s.flag, s.senders, s.prio, s.stamp, t, s.now);
    } else if s.mails != [] && s.senders != [] {
      TailOrdered(s.flag, s.senders, s.prio, s.stamp);
    }
  }

  /** Every step keeps the lists in order, except a priority change that takes a waiter out of its place. */
  lemma StepOrder(s: State, e: Event)
    requires Lists(s) && InOrder(s) && Enabled(s, e)
    ensures InOrder(Next(s, e)) <==> (e.ChangePriority? ==> Fitting(s, e.t, e.p))
  {
    match e
    case Send(t, m, w) => SendSectionOrder(s, t, m, w);
    case SendAgain(t, left) => SendSectionOrder(s, t, s.pc[t].mail, Remaining(s.pc[t].wait, left));
    case Recv(t, w) => RecvSectionOrder(s, t, w);
    case RecvAgain(t, left) => RecvSectionOrder(s, t, Remaining(s.pc[t].wait, left));
    case Expire(t) =>
      RemoveOrdered(s.flag, s.receivers, s.prio, s.stamp, t);
      RemoveOrdered(s.flag, s.senders, s.prio, s.stamp, t);
    case Return(t) =>
    case Reset =>
    case ChangePriority(t, p) =>
      PriorityChange(s.flag, s.receivers, s.prio, s.stamp, t, p);
      PriorityChange(s.flag, s.senders, s.prio, s.stamp, t, p);
  }

  /** So the lists are in order in every run whose priority changes leave the waiters in place: always for FIFO. */
  lemma {:induction false} RunOrder(trace: seq<State>, events: seq<Event>, k: nat)
    requires Run(trace, events) && k < |trace|
    requires forall i | 0 <= i < k && events[i].ChangePriority? :: FittingAt(trace[i], events[i])
    ensures InOrder(trace[k])
  {
    if k > 0 {
      RunOrder(trace, events, k - 1);
      RunInv(trace, events, k - 1);
      assert StepAt(trace, events, k - 1);
      StepOrder(trace[k - 1], events[k - 1]);
    }
  }

  ghost predicate FittingAt(s: State, e: Event)
    requires e.ChangePriority?
  {
    s.flag == Fifo || (Lists(s) && e.t < |s.pc| && Fitting(s, e.t, e.p))
  }

  lemma RunOn(trace: seq<State>, events: seq<Event>, e: Event) returns (trace': seq<State>, events': seq<Event>)
    requires Run(trace, events) && Shaped(trace[|events|]) && Enabled(trace[|events|], e)
    ensures Run(trace', events') && trace' == trace + [Next(trace[|events|], e)] && events' == events + [e]
  {
    trace', events' := trace + [Next(trace[|events|], e)], events + [e];
    forall i | 0 <= i < |events'| ensures StepAt(trace', events', i) {
      assert i < |events| ==> StepAt(trace, events, i);
    }
  }

  /** A receiver that is not more urgent than the others waits last. */
  lemma WaitsLast(s: State, t: Tid)
    requires Shaped(s) && Enabled(s, Recv(t, Forever)) && s.mails == []
    requires forall i | 0 <= i < |s.receivers| :: s.prio[s.receivers[i]] <= s.prio[t]
    ensures var r := Next(s, Recv(t, Forever));
      Shaped(r) && r == s.(receivers := s.receivers + [t], pc := s.pc[t := RecvBlocked(Forever)], now := r.now,
          stamp := r.stamp)
  {
    assert Enqueue(s.flag, s.receivers, s.prio, t) == s.receivers + [t];
  }

  lemma ThreeThreads() returns (s: State)
    ensures Initial(s) && Shaped(s) && s.pc == [Idle, Idle, Idle] && s.flag == Prio && s.size == 1
      && s.prio == [1, 2, 2]
  {
    s := State(1, [], [], [], [Idle, Idle, Idle], Prio, [1, 2, 2], 1, [0, 0, 0], [], []);
  }

  lemma OneReceiver() returns (trace: seq<State>, events: seq<Event>)
    ensures Run(trace, events) && |events| == 1 && Shaped(trace[1]) && trace[1].receivers == [0]
    ensures trace[1].flag == Prio && trace[1].prio == [1, 2, 2] && trace[1].size == 1 && trace[1].mails == []
    ensures |trace[1].pc| == 3 && trace[1].pc[1] == trace[1].pc[2] == Idle
  {
    var s := ThreeThreads();
    WaitsLast(s, 0);
    trace, events := RunOn([s], [], Recv(0, Forever));
  }

  lemma TwoReceivers() returns (trace: seq<State>, events: seq<Event>)
    ensures Run(trace, events) && |events| == 2 && Shaped(trace[2]) && trace[2].receivers == [0, 1]
    ensures trace[2].flag == Prio && trace[2].prio == [1, 2, 2] && trace[2].size == 1 && trace[2].mails == []
    ensures |trace[2].pc| == 3 && trace[2].pc[2] == Idle
  {
    trace, events := OneReceiver();
    WaitsLast(trace[1], 1);
    trace, events := RunOn(trace, events, Recv(1, Forever));
  }

  /** The second of two receivers becomes the more urgent one, and a mail wakes the first. */
  lemma LessUrgentServed() returns (trace: seq<State>, events: seq<Event>)
    ensures Run(trace, events) && |events| == 4 && events[2] == ChangePriority(1, 0) && events[3].Send?
    ensures trace[3].receivers == [0, 1] && trace[3].prio == [1, 0, 2] && trace[3].flag == Prio
    ensures trace[4].receivers == [1] && |trace[4].pc| == 3 && trace[4].pc[0].RecvWoken?
  {
    trace, events := TwoReceivers();
    trace, events := RunOn(trace, events, ChangePriority(1, 0));
    trace, events := RunOn(trace, events, Send(2, 7, Forever));
  }

  /** No thread has been resumed by a peer without having run since. */
  predicate Settled(s: State) {
    forall t | 0 <= t < |s.pc| :: !s.pc[t].RecvWoken? && !s.pc[t].SendWoken?
  }

  /**
   No interleaving loses a wake-up: whenever the woken threads have all had their turn,
   nobody sleeps for a mail while there is one, nobody sleeps for room while there is
   some, and the two sides never sleep on each other.
   */
  lemma NobodySleepsInVain(trace: seq<State>, events: seq<Event>, k: nat)
    requires Run(trace, events) && k < |trace| && Settled(trace[k])
    ensures trace[k].receivers != [] ==> trace[k].mails == []
    ensures trace[k].senders != [] ==> |trace[k].mails| == trace[k].size
    ensures trace[k].receivers != [] && trace[k].senders != [] ==> trace[k].size == 0
  {
    RunInv(trace, events, k);
    CountZero(trace[k].pc, IsRecvWoken);
    CountZero(trace[k].pc, IsSendWoken);
  }

  /** How many steps a call that stands at `p` can cause before it ends. */
  const Left: Pc -> nat := (p: Pc) =>
    match p
    case Idle => 0
    case Failing => 1
    case RecvBlocked(_) => 2
    case SendBlocked(_, _) => 2
    case RecvWoken(_) => 3
    case SendWoken(_, _) => 3

  /** The event begins a call. */
  predicate Begins(e: Event) { e.Send? || e.Recv? }

  /** The event belongs to a call that has begun: a further turn, a timeout, or the return with an error. */
  predicate Continues(e: Event) { e.SendAgain? || e.RecvAgain? || e.Expire? || e.Return? }

  lemma SendSteps(s: State, t: Tid, mail: int, w: Wait)
    requires Shaped(s) && t < |s.pc| && t !in s.receivers
    ensures var r := SendSection(s, t, mail, w); Total(r.pc, Left) + Left(s.pc[t]) <= Total(s.pc, Left) + 2
  {
    TotalUpdate(s.pc, Left, t, Idle);
    if |s.mails| == s.size {
      TotalUpdate(s.pc, Left, t, SendBlocked(mail, w));
    } else if s.receivers != [] {
      var h := s.receivers[0];
      assert h in s.receivers;
      TotalUpdate(s.pc[t := Idle], Left, h, RecvWoken(s.pc[h].wait));
    }
  }

  lemma RecvSteps(s: State, t: Tid, w: Wait)
    requires Shaped(s) && t < |s.pc| && t !in s.senders
    ensures var r := RecvSection(s, t, w); Total(r.pc, Left) + Left(s.pc[t]) <= Total(s.pc, Left) + 2
  {
    TotalUpdate(s.pc, Left, t, Idle);
    if s.mails == [] {
      TotalUpdate(s.pc, Left, t, RecvBlocked(w));
    } else if s.senders != [] {
      var h := s.senders[0];
      assert h in s.senders;
      TotalUpdate(s.pc[t := Idle], Left, h, SendWoken(s.pc[h].mail, s.pc[h].wait));
    }
  }

  /** A call that begins can cause two steps more; every step of a call leaves fewer. */
  lemma StepCost(s: State, e: Event)
    requires Shaped(s) && Enabled(s, e)
    ensures Total(Next(s, e).pc, Left) + (if Continues(e) then 1 else 0)
         <= Total(s.pc, Left) + (if Begins(e) then 2 else 0)
  {
    if e.Send? || e.SendAgain? {
      SendCost(s, e);
    } else if e.Recv? || e.RecvAgain? {
      RecvCost(s, e);
    } else if e.Expire? {
      TotalUpdate(s.pc, Left, e.t, Failing);
    } else if e.Return? {
      TotalUpdate(s.pc, Left, e.t, Idle);
    } else if e.Reset? {
      TotalFewer(s.pc, ResetSection(s).pc, Left);
    }
  }

  lemma SendCost(s: State, e: Event)
    requires Shaped(s) && Enabled(s, e) && (e.Send? || e.SendAgain?)
    ensures Total(Next(s, e).pc, Left) + (if Continues(e) then 1 else 0)
         <= Total(s.pc, Left) + (if Begins(e) then 2 else 0)
  {
    if e.Send? {
      SendSteps(s, e.t, e.mail, e.wait);
    } else {
      SendSteps(s, e.t, s.pc[e.t].mail, Remaining(s.pc[e.t].wait, e.left));
    }
  }

  lemma RecvCost(s: State, e: Event)
    requires Shaped(s) && Enabled(s, e) && (e.Recv? || e.RecvAgain?)
    ensures Total(Next(s, e).pc, Left) + (if Continues(e) then 1 else 0)
         <= Total(s.pc, Left) + (if Begins(e) then 2 else 0)
  {
    if e.Recv? {
      RecvSteps(s, e.t, e.wait);
    } else {
      RecvSteps(s, e.t, Remaining(s.pc[e.t].wait, e.left));
    }
  }

  const Beginning: Event -> bool := (e: Event) => Begins(e)
  const Continuing: Event -> bool := (e: Event) => Continues(e)

  lemma {:induction false} CostSoFar(trace: seq<State>, events: seq<Event>, k: nat)
    requires Run(trace, events) && k < |trace|
    ensures Count(events[..k], Continuing) + Total(trace[k].pc, Left) <= 2 * Count(events[..k], Beginning)
  {
    if k == 0 {
      TotalAtMost(trace[0].pc, Left, 0);
    } else {
      CostSoFar(trace, events, k - 1);
      assert StepAt(trace, events, k - 1);
      StepCost(trace[k - 1], events[k - 1]);
      assert events[..k][..k - 1] == events[..k - 1];
    }
  }

  /**
   Although a woken thread may find the mail gone and sleep again, nobody goes round for ever: in every run
   all further turns, timeouts and failing returns together are at most two for each call that was made.
   */
  lemma TurnsBounded(trace: seq<State>, events: seq<Event>)
    requires Run(trace, events)
    ensures Count(events, Continuing) <= 2 * Count(events, Beginning)
  {
    CostSoFar(trace, events, |events|);
    assert events[..|events|] == events;
  }

  /** As long as no new call is made, at most three steps for each thread remain, ... */
  lemma {:induction false} SettlesWithin(trace: seq<State>, events: seq<Event>, i: nat, k: nat)
    requires Run(trace, events) && i <= k < |trace| && forall j | i <= j < k :: Continues(events[j])
    ensures k - i + Total(trace[k].pc, Left) <= Total(trace[i].pc, Left) <= 3 * |trace[i].pc|
    decreases k
  {
    TotalAtMost(trace[i].pc, Left, 3);
    if i < k {
      SettlesWithin(trace, events, i, k - 1);
      assert StepAt(trace, events, k - 1);
      StepCost(trace[k - 1], events[k - 1]);
    }
  }

  /** ... and whoever is neither idle nor asleep has a step to make. */
  lemma StepToMake(s: State, t: Tid) returns (e: Event)
    requires t < |s.pc| && s.pc[t] != Idle && !s.pc[t].RecvBlocked? && !s.pc[t].SendBlocked?
    ensures Enabled(s, e) && Continues(e) && e.t == t
  {
    e := match s.pc[t]
      case RecvWoken(_) => RecvAgain(t, 0)
      case SendWoken(_, _) => SendAgain(t, 0)
      case _ => Return(t);
  }

  /* Where each thread stands, and what its call asked for. */

  /** The mailbox has room and the event is a sender's turn; or it has a mail and it is a receiver's. */
  predicate Stores(s: State, e: Event) { (e.Send? || e.SendAgain?) && |s.mails| < s.size }
  predicate Takes(s: State, e: Event) { (e.Recv? || e.RecvAgain?) && s.mails != [] }

  /** Thread `u` stands at `q` after its own event. */
  ghost predicate OwnMove(s: State, e: Event, u: Tid, q: Pc)
    requires u < |s.pc|
  {
    match e
    case Send(_, mail, w) => q == if Stores(s, e) || w == Ticks(0) then Idle else SendBlocked(mail, w)
    case Recv(_, w) => q == if Takes(s, e) || w == Ticks(0) then Idle else RecvBlocked(w)
    case SendAgain(_, left) =>
      s.pc[u].SendWoken? &&
      var w := Remaining(s.pc[u].wait, left);
      q == if Stores(s, e) || w == Ticks(0) then Idle else SendBlocked(s.pc[u].mail, w)
    case RecvAgain(_, left) =>
      s.pc[u].RecvWoken? &&
      var w := Remaining(s.pc[u].wait, left);
      q == if Takes(s, e) || w == Ticks(0) then Idle else RecvBlocked(w)
    case Expire(_) => q == Failing
    case Return(_) => q == Idle
    case _ => q == s.pc[u]
  }

  /** Thread `u` stands at `q` after an event of somebody else: only the first of a list is resumed. */
  ghost predicate OthersMove(s: State, e: Event, u: Tid, q: Pc)
    requires u < |s.pc|
  {
    if e.Reset? then q == if s.pc[u].RecvBlocked? || s.pc[u].SendBlocked? then Failing else s.pc[u]
    else if Stores(s, e) && s.receivers != [] && s.receivers[0] == u then
      s.pc[u].RecvBlocked? && q == RecvWoken(s.pc[u].wait)
    else if Takes(s, e) && s.senders != [] && s.senders[0] == u then
      s.pc[u].SendBlocked? && q == SendWoken(s.pc[u].mail, s.pc[u].wait)
    else q == s.pc[u]
  }

  lemma SendMoves(s: State, e: Event, u: Tid)
    requires Lists(s) && Enabled(s, e) && u < |s.pc| && (e.Send? || e.SendAgain?)
    ensures if e.t == u then OwnMove(s, e, u, Next(s, e).pc[u]) else OthersMove(s, e, u, Next(s, e).pc[u])
  {
  }

  lemma RecvMoves(s: State, e: Event, u: Tid)
    requires Lists(s) && Enabled(s, e) && u < |s.pc| && (e.Recv? || e.RecvAgain?)
    ensures if e.t == u then OwnMove(s, e, u, Next(s, e).pc[u]) else OthersMove(s, e, u, Next(s, e).pc[u])
  {
  }

  /** Where every thread stands after a step. */
  lemma ThreadMoves(s: State, e: Event, u: Tid) returns (q: Pc)
    requires Lists(s) && Enabled(s, e) && u < |s.pc|
    ensures |Next(s, e).pc| == |s.pc| && q == Next(s, e).pc[u]
    ensures if !e.Reset? && e.t == u then OwnMove(s, e, u, q) else OthersMove(s, e, u, q)
  {
    if e.Send? || e.SendAgain? {
      SendMoves(s, e, u);
    } else if e.Recv? || e.RecvAgain? {
      RecvMoves(s, e, u);
    }
    q := Next(s, e).pc[u];
  }

  /** Who is resumed comes before all others that wait. */
  lemma FirstResumed(s: State, e: Event, u: Tid)
    requires Lists(s) && InOrder(s) && Enabled(s, e)
    requires (Stores(s, e) && u in s.receivers) || (Takes(s, e) && u in s.senders)
    ensures var h := if Stores(s, e) then s.receivers[0] else s.senders[0];
      && (Stores(s, e) ==> Next(s, e).pc[h].RecvWoken?) && (Takes(s, e) ==> Next(s, e).pc[h].SendWoken?)
      && (u == h || (Before(s.flag, s.prio, s.stamp, h, u) && Next(s, e).pc[u] == s.pc[u]))
  {
    var q := if Stores(s, e) then s.receivers else s.senders;
    var i :| 0 <= i < |q| && q[i] == u;
    var mine := ThreadMoves(s, e, u);
    var first := ThreadMoves(s, e, q[0]);
    if i > 0 {
      assert Before(s.flag, s.prio, s.stamp, q[0], q[i]);
    }
  }

  /** The call that thread `t` made last. */
  function CallOf(events: seq<Event>, t: Tid): Option<Event> {
    if events == [] then None
    else
      var e := events[|events| - 1];
      if (e.Send? || e.Recv?) && e.t == t then Some(e) else CallOf(events[..|events| - 1], t)
  }

  /** `p` is a state of the call `c`. */
  predicate Serves(p: Pc, c: Option<Event>) {
    match p
    case RecvBlocked(w) => c.Some? && c.value.Recv? && NoLonger(w, c.value.wait)
    case RecvWoken(w) => c.Some? && c.value.Recv? && NoLonger(w, c.value.wait)
    case SendBlocked(m, w) => c.Some? && c.value.Send? && m == c.value.mail && NoLonger(w, c.value.wait)
    case SendWoken(m, w) => c.Some? && c.value.Send? && m == c.value.mail && NoLonger(w, c.value.wait)
    case _ => true
  }

  lemma StillServes(s: State, e: Event, u: Tid, c: Option<Event>, q: Pc)
    requires Enabled(s, e) && u < |s.pc| && Serves(s.pc[u], c)
    requires if !e.Reset? && e.t == u then OwnMove(s, e, u, q) else OthersMove(s, e, u, q)
    ensures Serves(q, if (e.Send? || e.Recv?) && e.t == u then Some(e) else c)
  {
  }

  /** In every run: a thread on its way carries the mail of its own last call, and no longer waiting time. */
  lemma {:induction false} OwnCall(trace: seq<State>, events: seq<Event>, k: nat, t: Tid)
    requires Run(trace, events) && k < |trace| && t < |trace[0].pc|
    ensures |trace[k].pc| == |trace[0].pc| && Serves(trace[k].pc[t], CallOf(events[..k], t))
  {
    if k > 0 {
      OwnCall(trace, events, k - 1, t);
      RunInv(trace, events, k - 1);
      assert StepAt(trace, events, k - 1);
      var q := ThreadMoves(trace[k - 1], events[k - 1], t);
      StillServes(trace[k - 1], events[k - 1], t, CallOf(events[..k - 1], t), q);
      assert events[..k][..k - 1] == events[..k - 1];
    }
  }

  /** A mailbox as its users see it: what is inside and what has come out. */
  datatype Box = Box(inside: seq<int>, out: seq<int>)

  /** What a plain bounded queue makes of the same events: each sender's turn brings the mail of its own call. */
  function Plain(size: nat, events: seq<Event>): Box {
    if events == [] then Box([], [])
    else
      var before := events[..|events| - 1];
      var b := Plain(size, before);
      match events[|events| - 1]
      case Send(_, mail, _) => if |b.inside| < size then b.(inside := b.inside + [mail]) else b
      case SendAgain(t, _) =>
        var c := CallOf(before, t);
        if |b.inside| < size && c.Some? && c.value.Send? then b.(inside := b.inside + [c.value.mail]) else b
      case Recv(_, _) => Pop(b)
      case RecvAgain(_, _) => Pop(b)
      case Reset => Box([], [])
      case _ => b
  }

  function Pop(b: Box): Box {
    if b.inside == [] then b else Box(b.inside[1..], b.out + [b.inside[0]])
  }

  /** In every run: the mailbox holds, and has delivered, exactly what the plain queue does. */
  lemma {:induction false} PlainMailbox(trace: seq<State>, events: seq<Event>, k: nat)
    requires Run(trace, events) && k < |trace|
    ensures trace[k].size == trace[0].size
    ensures Box(trace[k].mails, trace[k].got) == Plain(trace[0].size, events[..k])
  {
    if k > 0 {
      PlainMailbox(trace, events, k - 1);
      assert StepAt(trace, events, k - 1) && events[..k][..k - 1] == events[..k - 1];
      var e := events[k - 1];
      if e.SendAgain? {
        CountsThreads(trace, events, k - 1);
        OwnCall(trace, events, k - 1, e.t);
      }
    }
  }

  lemma {:induction false} CountsThreads(trace: seq<State>, events: seq<Event>, k: nat)
    requires Run(trace, events) && k < |trace|
    ensures |trace[k].pc| == |trace[0].pc|
  {
    if k > 0 {
      CountsThreads(trace, events, k - 1);
      assert StepAt(trace, events, k - 1);
    }
  }

  /** Since the last reset, mails come out in exactly the order they went in. */
  lemma DeliveredInOrder(trace: seq<State>, events: seq<Event>, k: nat)
    requires Run(trace, events) && k < |trace|
    ensures trace[k].got <= trace[k].sent
    ensures trace[k].sent[|trace[k].got|..] == trace[k].mails
    ensures |trace[k].mails| <= trace[k].size
  {
    RunInv(trace, events, k);
  }
}

/** struct rt_mailbox: the mails sit in a ring, found through two offsets and a count. */
module MailboxRing {
  import opened Sequences
  import opened WaitList
  import opened MailboxProtocol

  datatype Outcome = Done | Suspended | Full | Empty

  /** The pool index `i` places after `start`, in a pool of `size` entries. */
  function Slot(size: nat, start: nat, i: nat): int {
    if start + i < size then start + i else start + i - size
  }

  /** The `n` mails of a ring from the output offset on. */
  ghost function Ring(pool: seq<int>, start: nat, n: nat): (m: seq<int>)
    requires n <= |pool| && (n > 0 ==> start < |pool|)
    ensures |m| == n
  {
    seq(n, i requires 0 <= i < n => pool[Slot(|pool|, start, i)])
  }

  class Mailbox {
    const pool: array<int>
    const size: nat
    var inOffset: nat
    var outOffset: nat
    var entry: nat
    var receivers: seq<Tid>     // parent.suspend_thread
    var senders: seq<Tid>       // suspend_sender_thread
    var pc: seq<Pc>
    const flag: Flag
    var prio: seq<nat>
    ghost var now: nat
    ghost var stamp: seq<nat>
    ghost var sent: seq<int>
    ghost var got: seq<int>

    ghost predicate RingValid()
      reads this
    {
      && pool.Length == size && entry <= size
      && (size == 0 ==> inOffset == outOffset == 0)
      && (size > 0 ==> outOffset < size && inOffset == Slot(size, outOffset, entry))
    }

    ghost function Mails(): (m: seq<int>)
      requires RingValid()
      reads this, pool
    {
      Ring(pool[..], outOffset, entry)
    }

    ghost function Abs(): State
      requires RingValid()
      reads this, pool
    {
      State(size, Mails(), receivers, senders, pc, flag, prio, now, stamp, sent, got)
    }

    ghost predicate Valid()
      reads this, pool
    {
      RingValid() && Inv(Abs())
    }

    constructor (size: nat, flag: Flag, prio: seq<nat>)
      ensures Valid() && Initial(Abs()) && fresh(pool)
      ensures this.size == size && this.flag == flag && this.prio == prio
    {
      this.pool := new int[size];
      this.size, this.flag, this.prio := size, flag, prio;
      inOffset, outOffset, entry := 0, 0, 0;
      receivers, senders := [], [];
      pc := seq(|prio|, _ => Idle);
      now, stamp := 1, seq(|prio|, _ => 0);
      sent, got := [], [];
      new;
      InitialInv(Abs());
    }

    /** Store a mail at the input offset and move it on, wrapping at the end of the pool. */
    method Put(mail: int)
      requires RingValid() && entry < size
      modifies `inOffset, `entry, pool
      ensures RingValid() && Mails() == old(Mails()) + [mail]
    {
      pool[inOffset] := mail;
      inOffset := inOffset + 1;
      if inOffset >= size {
        inOffset := 0;
      }
      entry := entry + 1;
    }

    /** Fetch the mail at the output offset and move that on. */
    method Take() returns (mail: int)
      requires RingValid() && entry > 0
      modifies `outOffset, `entry
      ensures RingValid() && [mail] + Mails() == old(Mails())
    {
      mail := pool[outOffset];
      outOffset := outOffset + 1;
      if outOffset >= size {
        outOffset := 0;
      }
      entry := entry - 1;
    }

    /** One pass through the loop head of rt_mb_send_wait. */
    method SendSection(t: Tid, mail: int, w: Wait) returns (r: Outcome)
      requires RingValid() && Shaped(Abs()) && t < |pc| && t !in receivers
      modifies this, pool
      ensures RingValid() && Abs() == MailboxProtocol.SendSection(old(Abs()), t, mail, w)
      ensures r == if old(entry) < size then Done else if w == Ticks(0) then Full else Suspended
    {
      if entry == size {
        SendWaits(t, mail, w);
        return if w == Ticks(0) then Full else Suspended;
      }
      SendStores(t, mail, w);
      r := Done;
    }

    /** The mailbox is full. */
    method SendWaits(t: Tid, mail: int, w: Wait)
      requires RingValid() && Shaped(Abs()) && t < |pc| && t !in receivers && entry == size
      modifies `pc, `senders, `stamp, `now
      ensures RingValid() && Abs() == MailboxProtocol.SendSection(old(Abs()), t, mail, w)
    {
      if w == Ticks(0) {
        pc := pc[t := Idle];
        return;
      }
      senders := ListSuspend(flag, senders, prio, t);
      pc := pc[t := SendBlocked(mail, w)];
      stamp, now := stamp[t := now], now + 1;
    }

    /** There is room: the mail is stored, and a receiver resumed if one waits. */
    method SendStores(t: Tid, mail: int, ghost w: Wait)
      requires RingValid() && Shaped(Abs()) && t < |pc| && t !in receivers && entry < size
      modifies `inOffset, `entry, `pc, `sent, `receivers, pool
      ensures RingValid() && Abs() == MailboxProtocol.SendSection(old(Abs()), t, mail, w)
    {
      Put(mail);
      pc, sent := pc[t := Idle], sent + [mail];
      if receivers != [] {
        var h := receivers[0];
        receivers, pc := receivers[1..], pc[h := RecvWoken(pc[h].wait)];
      }
    }

    /** One pass through the loop head of rt_mb_recv. */
    method RecvSection(t: Tid, w: Wait) returns (r: Outcome, mail: int)
      requires RingValid() && Shaped(Abs()) && t < |pc| && t !in senders
      modifies this
      ensures RingValid() && Abs() == MailboxProtocol.RecvSection(old(Abs()), t, w)
      ensures r == if old(entry) > 0 then Done else if w == Ticks(0) then Empty else Suspended
      ensures r == Done ==> mail == old(Mails())[0]
    {
      if entry == 0 {
        RecvWaits(t, w);
        return if w == Ticks(0) then Empty else Suspended, 0;
      }
      mail := RecvTakes(t, w);
      r := Done;
    }

    /** The mailbox is empty. */
    method RecvWaits(t: Tid, w: Wait)
      requires RingValid() && Shaped(Abs()) && t < |pc| && t !in senders && entry == 0
      modifies `pc, `receivers, `stamp, `now
      ensures RingValid() && Abs() == MailboxProtocol.RecvSection(old(Abs()), t, w)
    {
      if w == Ticks(0) {
        pc := pc[t := Idle];
        return;
      }
      receivers := ListSuspend(flag, receivers, prio, t);
      pc := pc[t := RecvBlocked(w)];
      stamp, now := stamp[t := now], now + 1;
    }

    /** There is a mail: it is taken, and a sender resumed if one waits. */
    method RecvTakes(t: Tid, ghost w: Wait) returns (mail: int)
      requires RingValid() && Shaped(Abs()) && t < |pc| && t !in senders && entry > 0
      modifies `outOffset, `entry, `pc, `got, `senders
      ensures RingValid() && Abs() == MailboxProtocol.RecvSection(old(Abs()), t, w)
      ensures mail == old(Mails())[0]
    {
      mail := Take();
      assert old(Mails())[0] == mail && old(Mails())[1..] == Mails();
      pc, got := pc[t := Idle], got + [mail];
      if senders != [] {
        var h := senders[0];
        senders, pc := senders[1..], pc[h := SendWoken(pc[h].mail, pc[h].wait)];
      }
    }

    method Send(t: Tid, mail: int, w: Wait) returns (r: Outcome)
      requires Valid() && Enabled(Abs(), Event.Send(t, mail, w))
      modifies this, pool
      ensures Valid() && Abs() == Next(old(Abs()), Event.Send(t, mail, w))
      ensures r == if old(entry) < size then Done else if w == Ticks(0) then Full else Suspended
      ensures Mails() == if r == Done then old(Mails()) + [mail] else old(Mails())
    {
      StepInv(Abs(), Event.Send(t, mail, w));
      r := SendSection(t, mail, w);
    }

    method SendAgain(t: Tid, left: nat) returns (r: Outcome)
      requires Valid() && Enabled(Abs(), Event.SendAgain(t, left))
      modifies this, pool
      ensures Valid() && Abs() == Next(old(Abs()), Event.SendAgain(t, left))
      ensures r == if old(entry) < size then Done
                   else if Remaining(old(pc)[t].wait, left) == Ticks(0) then Full else Suspended
      ensures Mails() == if r == Done then old(Mails()) + [old(pc)[t].mail] else old(Mails())
    {
      StepInv(Abs(), Event.SendAgain(t, left));
      r := SendSection(t, pc[t].mail, Remaining(pc[t].wait, left));
    }

    method Recv(t: Tid, w: Wait) returns (r: Outcome, mail: int)
      requires Valid() && Enabled(Abs(), Event.Recv(t, w))
      modifies this
      ensures Valid() && Abs() == Next(old(Abs()), Event.Recv(t, w))
      ensures r == if old(entry) > 0 then Done else if w == Ticks(0) then Empty else Suspended
      ensures old(Mails()) == if r == Done then [mail] + Mails() else Mails()
    {
      StepInv(Abs(), Event.Recv(t, w));
      r, mail := RecvSection(t, w);
    }

    method RecvAgain(t: Tid, left: nat) returns (r: Outcome, mail: int)
      requires Valid() && Enabled(Abs(), Event.RecvAgain(t, left))
      modifies this
      ensures Valid() && Abs() == Next(old(Abs()), Event.RecvAgain(t, left))
      ensures r == if old(entry) > 0 then Done
                   else if Remaining(old(pc)[t].wait, left) == Ticks(0) then Empty else Suspended
      ensures old(Mails()) == if r == Done then [mail] + Mails() else Mails()
    {
      StepInv(Abs(), Event.RecvAgain(t, left));
      r, mail := RecvSection(t, Remaining(pc[t].wait, left));
    }

    method Expire(t: Tid)
      requires Valid() && Enabled(Abs(), Event.Expire(t))
      modifies this
      ensures Valid() && Abs() == Next(old(Abs()), Event.Expire(t))
    {
      StepInv(Abs(), Event.Expire(t));
      receivers, senders := Remove(receivers, t), Remove(senders, t);
      pc := pc[t := Failing];
    }

    /** rt_thread_control or priority inheritance: the wait lists are left as they are. */
    method ChangePriority(t: Tid, p: nat)
      requires Valid() && t < |pc|
      modifies `prio
      ensures Valid() && Abs() == Next(old(Abs()), Event.ChangePriority(t, p))
    {
      StepInv(Abs(), Event.ChangePriority(t, p));
      prio := prio[t := p];
    }

    method Reset()
      requires Valid()
      modifies this
      ensures Valid() && Abs() == Next(old(Abs()), Event.Reset) && Mails() == []
    {
      StepInv(Abs(), Event.Reset);
      ghost var after := ResetSection(Abs());
      var r := ListResumeAll(receivers, pc, Failing);
      r := ListResumeAll(senders, r, Failing);
      assert r == after.pc;
      pc, receivers, senders := r, [], [];
      entry, inOffset, outOffset := 0, 0, 0;
      sent, got := [], [];
      assert Mails() == [];
    }
  }
}
