/**
 Message queues (rt_mq_send, rt_mq_urgent, rt_mq_recv, rt_mq_control). Messages are copied
 with interrupts enabled, so a slot spends time in the hands of a sender that fills it or
 of a receiver that empties it. One step is one interrupt-disabled section, or one copy.

 QueueProtocol has the two lists as sequences of slots and holds the properties of every
 run. LinkedQueue refines it with the links in the slots themselves.
 */
module QueueProtocol {
  import opened Sequences
  import opened WaitList

  type Slot = nat
  type Message = seq<int>

  datatype Pc =
    | Idle
    | Filling(slot: Slot, msg: Message, urgent: bool)   // slot taken off the free list
    | Filled(slot: Slot, msg: Message, urgent: bool)    // message copied, not yet linked
    | RecvBlocked(size: nat, wait: Wait)
    | RecvWoken(size: nat, wait: Wait)
    | Draining(slot: Slot, size: nat)                   // message unlinked, not yet copied
    | Drained(slot: Slot, buffer: seq<int>)             // copied out, slot not yet given back
    | Failing

  /** Where a slot is. Every slot is in exactly one place: this is not in the kernel, but its invariant. */
  datatype Place = OnFree | OnQueue | With(t: Tid)

  datatype Event =
    | Alloc(t: Tid, msg: Message, urgent: bool)
    | Fill(t: Tid)
    | Link(t: Tid)
    | Recv(t: Tid, size: nat, wait: Wait)
    | RecvAgain(t: Tid, left: nat)
    | CopyOut(t: Tid)
    | Release(t: Tid)
    | Expire(t: Tid)
    | Return(t: Tid)
    | Reset
    | ChangePriority(t: Tid, p: nat)     // of any thread, at any time: the list is not sorted again

  datatype State = State(
    msgSize: nat,
    queue: seq<Slot>,
    free: seq<Slot>,
    data: seq<seq<int>>,                  // the bytes of each slot
    receivers: seq<Tid>,
    pc: seq<Pc>,
    flag: Flag, prio: seq<nat>, now: nat, stamp: seq<nat>,
    place: seq<Place>,
    msg: seq<Message>,                    // the message each slot was last filled with
    box: seq<Message>,                    // the messages linked and not yet received, without regard to slots
    held: seq<Message>,                   // the message each thread took last
    plain: bool,                          // no urgent message and no reset so far
    sent: seq<Message>, taken: seq<Message>, dropped: seq<Message>)

  predicate HoldsSlot(p: Pc) { p.Filling? || p.Filled? || p.Draining? || p.Drained? }

  ghost predicate Initial(s: State) {
    && |s.pc| == |s.prio| == |s.stamp| == |s.held|
    && |s.data| == |s.place| == |s.msg|
    && s.queue == [] && s.receivers == []
    && NoDup(s.free) && (forall i | 0 <= i < |s.free| :: s.free[i] < |s.data|)
    && (forall x | 0 <= x < |s.data| :: x in s.free)
    && (forall x | 0 <= x < |s.data| :: |s.data[x]| == s.msgSize && s.place[x] == OnFree)
    && (forall t | 0 <= t < |s.pc| :: s.pc[t] == Idle)
    && (forall t | 0 <= t < |s.stamp| :: s.stamp[t] < s.now)
    && s.plain && s.box == [] && s.sent == [] && s.taken == [] && s.dropped == []
  }

  predicate Enabled(s: State, e: Event) {
    match e
    case Reset => true
    case Alloc(t, _, _) => t < |s.pc| && s.pc[t] == Idle
    case Recv(t, _, _) => t < |s.pc| && s.pc[t] == Idle
    case Fill(t) => t < |s.pc| && s.pc[t].Filling?
    case Link(t) => t < |s.pc| && s.pc[t].Filled?
    case RecvAgain(t, _) => t < |s.pc| && s.pc[t].RecvWoken?
    case CopyOut(t) => t < |s.pc| && s.pc[t].Draining?
    case Release(t) => t < |s.pc| && s.pc[t].Drained?
    case Expire(t) => t < |s.pc| && s.pc[t].RecvBlocked? && s.pc[t].wait.Ticks?
    case Return(t) => t < |s.pc| && s.pc[t] == Failing
    case ChangePriority(t, _) => t < |s.pc|
  }

  /** What the steps below need in order to be well defined. */
  ghost predicate Shaped(s: State) {
    Sized(s) && AllBlocked(s)
  }

  ghost predicate AllBlocked(s: State) {
    Blocked(s.receivers, s.pc)
  }

  ghost predicate Blocked(receivers: seq<Tid>, pc: seq<Pc>) {
    forall i | 0 <= i < |receivers| :: receivers[i] < |pc| && pc[receivers[i]].RecvBlocked?
  }

  ghost predicate Sized(s: State) {
    && |s.pc| == |s.prio| == |s.stamp| == |s.held|
    && |s.data| == |s.place| == |s.msg|
    && (forall i | 0 <= i < |s.queue| :: s.queue[i] < |s.data|)
    && (forall i | 0 <= i < |s.free| :: s.free[i] < |s.data|)
    && (forall x | 0 <= x < |s.data| :: |s.data[x]| == s.msgSize)
    && (forall t | 0 <= t < |s.pc| && HoldsSlot(s.pc[t]) :: s.pc[t].slot < |s.data|)
    && (forall t | 0 <= t < |s.pc| && (s.pc[t].Filling? || s.pc[t].Filled?) :: |s.pc[t].msg| <= s.msgSize)
  }

  /** First section of a send: a message too long or a queue without a free slot is refused. */
  ghost function AllocStep(s: State, t: Tid, m: Message, urgent: bool): State
    requires Sized(s) && t < |s.pc|
  {
    if |m| > s.msgSize || s.free == [] then s
    else s.(free := s.free[1..], pc := s.pc[t := Filling(s.free[0], m, urgent)],
            place := s.place[s.free[0] := With(t)])
  }

  function Copied(m: Message, bytes: seq<int>): (r: seq<int>)
    ensures |m| <= |bytes| ==> |r| == |bytes| && r[..|m|] == m
  {
    if |m| <= |bytes| then m + bytes[|m|..] else bytes
  }

  ghost function FillStep(s: State, t: Tid): State
    requires Sized(s) && t < |s.pc| && s.pc[t].Filling?
  {
    var p := s.pc[t];
    s.(data := s.data[p.slot := Copied(p.msg, s.data[p.slot])], msg := s.msg[p.slot := p.msg],
       pc := s.pc[t := Filled(p.slot, p.msg, p.urgent)])
  }

  /** Second section of a send: link the slot, at the back or, if urgent, at the front. */
  ghost function Linked(s: State, t: Tid): State
    requires t < |s.pc| && s.pc[t].Filled? && s.pc[t].slot < |s.place|
  {
    var p := s.pc[t];
    s.(queue := if p.urgent then [p.slot] + s.queue else s.queue + [p.slot],
       place := s.place[p.slot := OnQueue], pc := s.pc[t := Idle],
       box := if p.urgent then [p.msg] + s.box else s.box + [p.msg],
       plain := s.plain && !p.urgent, sent := s.sent + [p.msg])
  }

  /** The threads once rt_ipc_list_resume has run, if a receiver waits. */
  ghost function Woken(receivers: seq<Tid>, pc: seq<Pc>): seq<Pc>
    requires Blocked(receivers, pc)
  {
    if receivers == [] then pc
    else
      var h := receivers[0];
      pc[h := RecvWoken(pc[h].size, pc[h].wait)]
  }

  function Rest(q: seq<Tid>): seq<Tid> {
    if q == [] then [] else q[1..]
  }

  ghost function WakeFirst(s: State): State
    requires AllBlocked(s)
  {
    s.(receivers := Rest(s.receivers), pc := Woken(s.receivers, s.pc))
  }

  ghost function LinkStep(s: State, t: Tid): State
    requires Shaped(s) && t < |s.pc| && s.pc[t].Filled?
  {
    WakeFirst(Linked(s, t))
  }

  /** The message that the next receive takes. */
  function Front(box: seq<Message>): Message {
    if box == [] then [] else box[0]
  }

  /** One pass through the loop head of rt_mq_recv. */
  ghost function RecvStep(s: State, t: Tid, size: nat, w: Wait): State
    requires Shaped(s) && t < |s.pc|
  {
    if s.queue == [] then
      if w == Ticks(0) then s.(pc := s.pc[t := Idle])
      else s.(pc := s.pc[t := RecvBlocked(size, w)],
              receivers := Enqueue(s.flag, s.receivers, s.prio, t),
              stamp := s.stamp[t := s.now], now := s.now + 1)
    else
      var x := s.queue[0];
      s.(queue := s.queue[1..], pc := s.pc[t := Draining(x, size)],
         place := s.place[x := With(t)],
         box := if s.box == [] then [] else s.box[1..], held := s.held[t := Front(s.box)],
         taken := s.taken + [Front(s.box)])
  }

  ghost function CopyOutStep(s: State, t: Tid): State
    requires Sized(s) && t < |s.pc| && s.pc[t].Draining?
  {
    var p := s.pc[t];
    var n := if p.size > s.msgSize then s.msgSize else p.size;
    s.(pc := s.pc[t := Drained(p.slot, s.data[p.slot][..n])])
  }

  ghost function ReleaseStep(s: State, t: Tid): State
    requires Sized(s) && t < |s.pc| && s.pc[t].Drained?
  {
    var x := s.pc[t].slot;
    s.(free := [x] + s.free, place := s.place[x := OnFree], pc := s.pc[t := Idle])
  }

  function Reverse(q: seq<Slot>): (r: seq<Slot>)
    ensures |r| == |q| && forall i | 0 <= i < |q| :: r[i] == q[|q| - 1 - i]
  {
    if q == [] then [] else Reverse(q[1..]) + [q[0]]
  }

  /** rt_mq_control(RT_IPC_CMD_RESET): fail all receivers, move every queued slot to the free list. */
  ghost function ResetStep(s: State): State
    requires Sized(s)
  {
    s.(pc := seq(|s.pc|, i requires 0 <= i < |s.pc| => if s.pc[i].RecvBlocked? then Failing else s.pc[i]),
       receivers := [], queue := [], free := Reverse(s.queue) + s.free,
       place := seq(|s.place|, x requires 0 <= x < |s.place| => if s.place[x] == OnQueue then OnFree else s.place[x]),
       box := [], plain := false, dropped := s.dropped + s.box)
  }

  ghost function Next(s: State, e: Event): State
    requires Shaped(s) && Enabled(s, e)
  {
    match e
    case Alloc(t, m, urgent) => AllocStep(s, t, m, urgent)
    case Fill(t) => FillStep(s, t)
    case Link(t) => LinkStep(s, t)
    case Recv(t, size, w) => RecvStep(s, t, size, w)
    case RecvAgain(t, left) => RecvStep(s, t, s.pc[t].size, Remaining(s.pc[t].wait, left))
    case CopyOut(t) => CopyOutStep(s, t)
    case Release(t) => ReleaseStep(s, t)
    case Expire(t) => s.(pc := s.pc[t := Failing], receivers := Remove(s.receivers, t))
    case Return(t) => s.(pc := s.pc[t := Idle])
    case Reset => ResetStep(s)
    case ChangePriority(t, p) => s.(prio := s.prio[t := p])
  }

  /** Every slot is on the free list, on the queue, or with one thread: exactly one of these. */
  ghost predicate Partition(s: State)
    requires Sized(s)
  {
    && NoDup(s.queue) && NoDup(s.free)
    && (forall x | 0 <= x < |s.place| :: s.place[x] == OnQueue <==> x in s.queue)
    && (forall x | 0 <= x < |s.place| :: s.place[x] == OnFree <==> x in s.free)
    && (forall t | 0 <= t < |s.pc| && HoldsSlot(s.pc[t]) :: s.place[s.pc[t].slot] == With(t))
    && (forall x | 0 <= x < |s.place| && s.place[x].With? ::
          s.place[x].t < |s.pc| && HoldsSlot(s.pc[s.place[x].t]) && s.pc[s.place[x].t].slot == x)
  }

  /** Slot `x` begins with the message it was filled with. */
  ghost predicate Intact(s: State, x: Slot)
    requires Sized(s) && x < |s.data|
  {
    |s.msg[x]| <= s.msgSize && s.data[x][..|s.msg[x]|] == s.msg[x]
  }

  /** No step touches the bytes of a message between the copy in and the copy out. */
  ghost predicate Payload(s: State)
    requires Sized(s)
  {
    && (forall i | 0 <= i < |s.queue| :: Intact(s, s.queue[i]))
    && (forall t | 0 <= t < |s.pc| && (s.pc[t].Filled? || s.pc[t].Draining? || s.pc[t].Drained?) ::
          Intact(s, s.pc[t].slot))
    && (forall t | 0 <= t < |s.pc| && s.pc[t].Filled? :: s.msg[s.pc[t].slot] == s.pc[t].msg)
    && (forall t | 0 <= t < |s.pc| && s.pc[t].Drained? :: s.pc[t].buffer <= s.data[s.pc[t].slot])
    && (forall t | 0 <= t < |s.pc| && (s.pc[t].Draining? || s.pc[t].Drained?) :: s.msg[s.pc[t].slot] == s.held[t])
  }

  ghost predicate Waiters(s: State) {
    && |s.pc| == |s.prio| == |s.stamp|
    && AllBlocked(s)
    && Waiting(s.receivers, s.prio, s.stamp)
    && (forall t | 0 <= t < |s.pc| :: s.pc[t].RecvBlocked? ==> t in s.receivers)
    && (forall t | 0 <= t < |s.stamp| :: s.stamp[t] < s.now)
  }

  const IsRecvWoken: Pc -> bool := (p: Pc) => p.RecvWoken?

  ghost predicate NoLostWakeup(s: State) {
    s.receivers != [] ==> |s.queue| <= Count(s.pc, IsRecvWoken)
  }

  /** The messages in the queue, first to be received first. */
  ghost function Contents(s: State): (c: seq<Message>)
    requires Sized(s)
    ensures |c| == |s.queue|
  {
    seq(|s.queue|, i requires 0 <= i < |s.queue| => s.msg[s.queue[i]])
  }

  /** The slot side of the invariant. */
  ghost predicate Slots(s: State) {
    Sized(s) && Partition(s) && Payload(s)
  }

  /** The wait-list side of the invariant. */
  ghost predicate Waking(s: State) {
    Waiters(s) && NoLostWakeup(s)
  }

  ghost predicate Inv(s: State) {
    && Slots(s)
    && Waking(s)
    && s.box == Contents(s) && Ledger(s)
  }

  /** No message is lost or comes twice; without urgent messages and resets they come in the order they were linked. */
  ghost predicate Ledger(s: State) { Books(s.plain, s.sent, s.taken, s.box, s.dropped) }

  ghost predicate Books(plain: bool, sent: seq<Message>, taken: seq<Message>, box: seq<Message>,
                        dropped: seq<Message>) {
    && (plain ==> sent == taken + box)
    && multiset(sent) == multiset(taken) + multiset(box) + multiset(dropped)
  }

  lemma InitialInv(s: State)
    requires Initial(s)
    ensures Inv(s)
  {
  }

  /** A thread that neither starts nor stops waiting leaves the wait-list side alone. */
  lemma QuietStep(s: State, r: State, t: Tid, p: Pc)
    requires Waking(s) && t < |s.pc|
    requires r.pc == s.pc[t := p] && !p.RecvBlocked? && !p.RecvWoken? && !s.pc[t].RecvBlocked? && !s.pc[t].RecvWoken?
    requires |r.queue| == |s.queue| && r.receivers == s.receivers
    requires r.flag == s.flag && r.prio == s.prio && r.now == s.now && r.stamp == s.stamp
    ensures Waking(r)
  {
    CountUpdate(s.pc, IsRecvWoken, t, p);
  }

  lemma AllocSlots(s: State, t: Tid, m: Message, urgent: bool)
    requires Slots(s) && Enabled(s, Alloc(t, m, urgent))
    ensures Slots(AllocStep(s, t, m, urgent))
  {
    if |m| <= s.msgSize && s.free != [] {
      TailDistinct(s.free);
    }
  }

  lemma AllocInv(s: State, t: Tid, m: Message, urgent: bool)
    requires Inv(s) && Enabled(s, Alloc(t, m, urgent))
    ensures Inv(AllocStep(s, t, m, urgent))
  {
    AllocSlots(s, t, m, urgent);
    var r := AllocStep(s, t, m, urgent);
    if |m| <= s.msgSize && s.free != [] {
      QuietStep(s, r, t, r.pc[t]);
    }
    assert Contents(r) == Contents(s);
  }

  lemma FillPartition(s: State, t: Tid)
    requires Sized(s) && Partition(s) && Enabled(s, Fill(t))
    ensures Sized(FillStep(s, t)) && Partition(FillStep(s, t))
    ensures forall i | 0 <= i < |s.queue| :: s.queue[i] != s.pc[t].slot
  {
    assert s.place[s.pc[t].slot] == With(t);
  }

  lemma FillSlots(s: State, t: Tid)
    requires Slots(s) && Enabled(s, Fill(t))
    ensures Slots(FillStep(s, t))
    ensures forall i | 0 <= i < |s.queue| :: s.queue[i] != s.pc[t].slot
  {
    FillPartition(s, t);
    var r := FillStep(s, t);
    assert forall x | 0 <= x < |s.data| && x != s.pc[t].slot && Intact(s, x) :: Intact(r, x);
  }

  lemma FillInv(s: State, t: Tid)
    requires Inv(s) && Enabled(s, Fill(t))
    ensures Inv(FillStep(s, t))
  {
    FillSlots(s, t);
    var r := FillStep(s, t);
    QuietStep(s, r, t, r.pc[t]);
    assert Contents(r) == Contents(s);
  }

  lemma CopyOutSlots(s: State, t: Tid)
    requires Slots(s) && Enabled(s, CopyOut(t))
    ensures Slots(CopyOutStep(s, t))
  {
  }

  lemma CopyOutInv(s: State, t: Tid)
    requires Inv(s) && Enabled(s, CopyOut(t))
    ensures Inv(CopyOutStep(s, t))
  {
    CopyOutSlots(s, t);
    var r := CopyOutStep(s, t);
    QuietStep(s, r, t, r.pc[t]);
    assert Contents(r) == Contents(s);
  }

  lemma ReleasePartition(s: State, t: Tid)
    requires Sized(s) && Partition(s) && Enabled(s, Release(t))
    ensures Sized(ReleaseStep(s, t)) && Partition(ReleaseStep(s, t))
  {
    var x := s.pc[t].slot;
    assert s.place[x] == With(t) && x !in s.free;
    EndElements(s.free, x);
  }

  lemma ReleaseSlots(s: State, t: Tid)
    requires Slots(s) && Enabled(s, Release(t))
    ensures Slots(ReleaseStep(s, t))
  {
    ReleasePartition(s, t);
    var r := ReleaseStep(s, t);
    assert forall x | 0 <= x < |s.data| && Intact(s, x) :: Intact(r, x);
  }

  lemma ReleaseInv(s: State, t: Tid)
    requires Inv(s) && Enabled(s, Release(t))
    ensures Inv(ReleaseStep(s, t))
  {
    ReleaseSlots(s, t);
    var r := ReleaseStep(s, t);
    QuietStep(s, r, t, r.pc[t]);
    assert Contents(r) == Contents(s);
  }

  /** A thread without a slot changing its state does not concern the slots. */
  lemma IdleSlots(s: State, r: State, t: Tid, p: Pc)
    requires Slots(s) && t < |s.pc| && !HoldsSlot(s.pc[t]) && !HoldsSlot(p)
    requires r == s.(pc := s.pc[t := p], receivers := r.receivers, stamp := r.stamp, now := r.now)
    requires |r.stamp| == |s.stamp|
    ensures Slots(r)
  {
  }

  lemma EndElements(q: seq<Slot>, x: Slot)
    requires NoDup(q) && x !in q
    ensures NoDup([x] + q) && NoDup(q + [x])
    ensures forall y :: (y in [x] + q <==> y == x || y in q) && (y in q + [x] <==> y == x || y in q)
  {
  }

  lemma LinkPartition(s: State, t: Tid)
    requires Sized(s) && Partition(s) && Enabled(s, Link(t))
    ensures Sized(Linked(s, t)) && Partition(Linked(s, t))
  {
    var x := s.pc[t].slot;
    assert s.place[x] == With(t) && x !in s.queue;
    EndElements(s.queue, x);
    var r := Linked(s, t);
    assert NoDup(r.queue) && forall y :: y in r.queue <==> y == x || y in s.queue;
    LinkSized(s, t);
  }

  lemma LinkSized(s: State, t: Tid)
    requires Sized(s) && Enabled(s, Link(t))
    ensures Sized(Linked(s, t))
  {
    var r := Linked(s, t);
    forall i | 0 <= i < |r.queue| ensures r.queue[i] < |r.data| {
      assert r.queue[i] == s.pc[t].slot || exists j :: 0 <= j < |s.queue| && s.queue[j] == r.queue[i];
    }
  }

  lemma LinkPayload(s: State, t: Tid)
    requires Sized(s) && Payload(s) && Enabled(s, Link(t)) && Sized(Linked(s, t))
    ensures Payload(Linked(s, t))
  {
    var x := s.pc[t].slot;
    var r := Linked(s, t);
    assert Intact(r, x);
    forall i | 0 <= i < |r.queue| ensures Intact(r, r.queue[i]) {
      assert r.queue[i] == x || exists j :: 0 <= j < |s.queue| && s.queue[j] == r.queue[i];
    }
  }

  lemma WakeSlots(s: State)
    requires Slots(s) && AllBlocked(s)
    ensures Slots(WakeFirst(s))
  {
    if s.receivers != [] {
      var h := s.receivers[0];
      IdleSlots(s, WakeFirst(s), h, WakeFirst(s).pc[h]);
    }
  }

  lemma LinkedWaiters(s: State, t: Tid)
    requires Waiters(s) && Sized(s) && Enabled(s, Link(t))
    ensures Waiters(Linked(s, t)) && Count(Linked(s, t).pc, IsRecvWoken) == Count(s.pc, IsRecvWoken)
  {
    CountUpdate(s.pc, IsRecvWoken, t, Idle);
  }

  lemma WakeWaiters(s: State)
    requires Waiters(s) && s.receivers != []
    ensures Waiters(WakeFirst(s)) && Count(WakeFirst(s).pc, IsRecvWoken) == Count(s.pc, IsRecvWoken) + 1
  {
    var h := s.receivers[0];
    CountUpdate(s.pc, IsRecvWoken, h, RecvWoken(s.pc[h].size, s.pc[h].wait));
    TailDistinct(s.receivers);
  }

  /** One message more, and one receiver more on its way, if any waits. */
  lemma LinkWaking(s: State, t: Tid)
    requires Waking(s) && Shaped(s) && Enabled(s, Link(t))
    ensures Waking(LinkStep(s, t))
  {
    LinkedWaiters(s, t);
    if s.receivers != [] {
      WakeWaiters(Linked(s, t));
    }
  }

  /** Linking adds the message at the back of the queue, or at the front if it is urgent. */
  lemma LinkContents(s: State, t: Tid)
    requires Slots(s) && Shaped(s) && Enabled(s, Link(t)) && Sized(LinkStep(s, t))
    ensures Contents(LinkStep(s, t)) ==
      if s.pc[t].urgent then [s.pc[t].msg] + Contents(s) else Contents(s) + [s.pc[t].msg]
  {
  }

  lemma LinkSlots(s: State, t: Tid)
    requires Slots(s) && AllBlocked(s) && Enabled(s, Link(t))
    ensures AllBlocked(Linked(s, t)) && Slots(LinkStep(s, t))
  {
    LinkPartition(s, t);
    LinkPayload(s, t);
    WakeSlots(Linked(s, t));
  }

  lemma LinkLedger(s: State, t: Tid)
    requires Ledger(s) && Shaped(s) && Enabled(s, Link(t)) && AllBlocked(Linked(s, t))
    ensures Ledger(LinkStep(s, t))
  {
    assert s.taken + s.box + [s.pc[t].msg] == s.taken + (s.box + [s.pc[t].msg]);
  }

  lemma LinkInv(s: State, t: Tid)
    requires Inv(s) && Enabled(s, Link(t))
    ensures Inv(LinkStep(s, t))
  {
    LinkSlots(s, t);
    LinkWaking(s, t);
    LinkContents(s, t);
    LinkLedger(s, t);
  }

  lemma RecvSlots(s: State, t: Tid, size: nat, w: Wait)
    requires Slots(s) && Shaped(s) && t < |s.pc| && (s.pc[t] == Idle || s.pc[t].RecvWoken?)
    requires s.queue != [] && s.box == Contents(s)
    ensures Slots(RecvStep(s, t, size, w))
  {
    TailDistinct(s.queue);
  }

  lemma RecvBlocksSlots(s: State, t: Tid, size: nat, w: Wait)
    requires Slots(s) && Shaped(s) && t < |s.pc| && (s.pc[t] == Idle || s.pc[t].RecvWoken?)
    requires s.queue == []
    ensures Slots(RecvStep(s, t, size, w))
  {
    var r := RecvStep(s, t, size, w);
    IdleSlots(s, r, t, r.pc[t]);
  }

  lemma RecvBlocksWaiters(s: State, t: Tid, size: nat, w: Wait)
    requires Waiters(s) && Shaped(s) && t < |s.pc| && (s.pc[t] == Idle || s.pc[t].RecvWoken?)
    requires s.queue == [] && w != Ticks(0)
    ensures Waiters(RecvStep(s, t, size, w))
  {
    EnqueueDistinct(s.flag, s.receivers, s.prio, t);
    var q := Enqueue(s.flag, s.receivers, s.prio, t);
    forall i | 0 <= i < |q| ensures q[i] < |s.pc| && (q[i] == t || s.pc[q[i]].RecvBlocked?) {
      assert q[i] in q;
    }
  }

  lemma RecvBlocksWaking(s: State, t: Tid, size: nat, w: Wait)
    requires Waking(s) && Shaped(s) && t < |s.pc| && (s.pc[t] == Idle || s.pc[t].RecvWoken?)
    requires s.queue == [] && w != Ticks(0)
    ensures Waking(RecvStep(s, t, size, w))
  {
    RecvBlocksWaiters(s, t, size, w);
    CountUpdate(s.pc, IsRecvWoken, t, RecvBlocked(size, w));
  }

  lemma RecvWaking(s: State, t: Tid, size: nat, w: Wait)
    requires Waking(s) && Shaped(s) && t < |s.pc| && (s.pc[t] == Idle || s.pc[t].RecvWoken?)
    ensures Waking(RecvStep(s, t, size, w))
  {
    if s.queue == [] && w != Ticks(0) {
      RecvBlocksWaking(s, t, size, w);
    } else {
      CountUpdate(s.pc, IsRecvWoken, t, RecvStep(s, t, size, w).pc[t]);
    }
  }

  /** Receiving takes the first message of the queue. */
  lemma RecvContents(s: State, t: Tid, size: nat, w: Wait)
    requires Slots(s) && Shaped(s) && t < |s.pc| && s.queue != [] && Sized(RecvStep(s, t, size, w))
    ensures Contents(RecvStep(s, t, size, w)) == Contents(s)[1..]
  {
  }

  lemma RecvLedger(s: State, t: Tid, size: nat, w: Wait)
    requires Ledger(s) && Shaped(s) && t < |s.pc| && |s.box| == |s.queue|
    ensures Ledger(RecvStep(s, t, size, w))
  {
    if s.queue != [] {
      BooksTake(s.plain, s.sent, s.taken, s.box, s.dropped);
    }
  }

  lemma BooksTake(plain: bool, sent: seq<Message>, taken: seq<Message>, box: seq<Message>, dropped: seq<Message>)
    requires Books(plain, sent, taken, box, dropped) && box != []
    ensures Books(plain, sent, taken + [box[0]], box[1..], dropped)
  {
    assert box == [box[0]] + box[1..];
    assert taken + box == (taken + [box[0]]) + box[1..];
  }

  lemma RecvTakes(s: State, t: Tid, size: nat, w: Wait)
    requires Inv(s) && t < |s.pc| && (s.pc[t] == Idle || s.pc[t].RecvWoken?) && s.queue != []
    ensures var r := RecvStep(s, t, size, w); Slots(r) && r.box == Contents(r)
  {
    RecvSlots(s, t, size, w);
    RecvContents(s, t, size, w);
  }

  lemma RecvInv(s: State, t: Tid, size: nat, w: Wait)
    requires Inv(s) && t < |s.pc| && (s.pc[t] == Idle || s.pc[t].RecvWoken?)
    ensures Inv(RecvStep(s, t, size, w))
  {
    if s.queue == [] {
      RecvBlocksSlots(s, t, size, w);
      assert Contents(RecvStep(s, t, size, w)) == Contents(s);
    } else {
      RecvTakes(s, t, size, w);
    }
    RecvLedger(s, t, size, w);
    RecvWaking(s, t, size, w);
  }

  lemma ExpireInv(s: State, t: Tid)
    requires Inv(s) && Enabled(s, Expire(t))
    ensures Inv(Next(s, Expire(t)))
  {
    RemoveDistinct(s.receivers, t);
    var r := Next(s, Expire(t));
    forall i | 0 <= i < |r.receivers| ensures r.receivers[i] < |r.pc| && r.pc[r.receivers[i]].RecvBlocked? {
      assert r.receivers[i] in r.receivers;
    }
    IdleSlots(s, r, t, Failing);
    CountUpdate(s.pc, IsRecvWoken, t, Failing);
    assert Contents(r) == Contents(s);
  }

  lemma ReturnInv(s: State, t: Tid)
    requires Inv(s) && Enabled(s, Return(t))
    ensures Inv(Next(s, Return(t)))
  {
    IdleSlots(s, Next(s, Return(t)), t, Idle);
    QuietStep(s, Next(s, Return(t)), t, Idle);
    assert Contents(Next(s, Return(t))) == Contents(s);
  }

  lemma ReverseElements(q: seq<Slot>, f: seq<Slot>)
    requires NoDup(q) && NoDup(f) && forall x :: x in q ==> x !in f
    ensures NoDup(Reverse(q) + f)
    ensures forall x :: x in Reverse(q) + f <==> x in q || x in f
  {
    var r := Reverse(q);
    forall x ensures x in r <==> x in q {
      if x in q {
        var i :| 0 <= i < |q| && q[i] == x;
        assert r[|q| - 1 - i] == x;
      }
    }
    forall i, j | 0 <= i < j < |r + f| ensures (r + f)[i] != (r + f)[j] {
      if i < |q| <= j {
        assert r[i] in r && f[j - |q|] in f;
      }
    }
  }

  lemma ResetPartition(s: State)
    requires Sized(s) && Partition(s)
    ensures Sized(ResetStep(s)) && Partition(ResetStep(s))
  {
    forall x | x in s.queue ensures x !in s.free {
      assert s.place[x] == OnQueue;
    }
    ReverseElements(s.queue, s.free);
    var r := ResetStep(s);
    forall i | 0 <= i < |r.free| ensures r.free[i] < |r.data| {
      assert r.free[i] in r.free;
    }
  }

  lemma ResetSlots(s: State)
    requires Slots(s)
    ensures Slots(ResetStep(s))
  {
    ResetPartition(s);
  }

  lemma ResetInv(s: State)
    requires Inv(s)
    ensures Inv(ResetStep(s))
  {
    ResetSlots(s);
  }

  /** Every section, every copy, every timeout and every reset keeps the invariant. */
  lemma StepInv(s: State, e: Event)
    requires Inv(s) && Enabled(s, e)
    ensures Inv(Next(s, e))
  {
    match e
    case Alloc(t, m, urgent) => AllocInv(s, t, m, urgent);
    case Fill(t) => FillInv(s, t);
    case Link(t) => LinkInv(s, t);
    case Recv(t, size, w) => RecvInv(s, t, size, w);
    case RecvAgain(t, left) => RecvInv(s, t, s.pc[t].size, Remaining(s.pc[t].wait, left));
    case CopyOut(t) => CopyOutInv(s, t);
    case Release(t) => ReleaseInv(s, t);
    case Expire(t) => ExpireInv(s, t);
    case Return(t) => ReturnInv(s, t);
    case Reset => ResetInv(s);
    case ChangePriority(t, p) => ChangeInv(s, t, p);
  }

  lemma ChangeInv(s: State, t: Tid, p: nat)
    requires Inv(s) && t < |s.pc|
    ensures Inv(s.(prio := s.prio[t := p]))
  {
    assert Contents(s.(prio := s.prio[t := p])) == Contents(s);
  }

  /** Every step keeps the wait list in order, except a priority change that takes a waiter out of its place. */
  lemma StepOrder(s: State, e: Event)
    requires Inv(s) && Ordered(s.flag, s.receivers, s.prio, s.stamp) && Enabled(s, e)
    ensures var r := Next(s, e);
      Ordered(r.flag, r.receivers, r.prio, r.stamp) <==>
          (e.ChangePriority? ==> InPlace(s.flag, s.receivers, r.prio, s.stamp, e.t))
  {
    match e
    case Recv(t, size, w) => RecvOrder(s, t, size, w);
    case RecvAgain(t, left) => RecvOrder(s, t, s.pc[t].size, Remaining(s.pc[t].wait, left));
    case Link(t) =>
      if s.receivers != [] {
        TailOrdered(s.flag, s.receivers, s.prio, s.stamp);
      }
    case Expire(t) => RemoveOrdered(s.flag, s.receivers, s.prio, s.stamp, t);
    case ChangePriority(t, p) => PriorityChange(s.flag, s.receivers, s.prio, s.stamp, t, p);
    case Alloc(_, _, _) =>
    case Fill(_) =>
    case CopyOut(_) =>
    case Release(_) =>
    case Return(_) =>
    case Reset =>
  }

  lemma RecvOrder(s: State, t: Tid, size: nat, w: Wait)
    requires Inv(s) && Ordered(s.flag, s.receivers, s.prio, s.stamp) && t < |s.pc|
      && (s.pc[t] == Idle || s.pc[t].RecvWoken?)
    ensures var r := RecvStep(s, t, size, w); Ordered(r.flag, r.receivers, r.prio, r.stamp)
  {
    if s.queue == [] && w != Ticks(0) {
      EnqueueOrdered(s.flag, s.receivers, s.prio, s.stamp, t, s.now);
    }
  }

  ghost predicate Run(trace: seq<State>, events: seq<Event>) {
    && |trace| == |events| + 1
    && Initial(trace[0])
    && forall i | 0 <= i < |events| :: StepAt(trace, events, i)
  }

  ghost predicate StepAt(trace: seq<State>, events: seq<Event>, i: nat)
    requires i < |events| < |trace|
  {
    Shaped(trace[i]) && Enabled(trace[i], events[i]) && trace[i + 1] == Next(trace[i], events[i])
  }

  /** The state at the end of some run. */
  ghost predicate Reachable(s: State) {
    exists trace, events :: Run(trace, events) && trace[|events|] == s
  }

  lemma ReachableInv(s: State)
    requires Reachable(s)
    ensures Inv(s)
  {
    var trace, events :| Run(trace, events) && trace[|events|] == s;
    RunInv(trace, events, |events|);
  }

  lemma InitialReachable(s: State)
    requires Initial(s)
    ensures Reachable(s)
  {
    InitialInv(s);
    assert Run([s], []);
  }

  lemma ExtendRun(trace: seq<State>, events: seq<Event>, e: Event, r: State)
    requires Run(trace, events) && Shaped(trace[|events|]) && Enabled(trace[|events|], e)
      && r == Next(trace[|events|], e)
    ensures Run(trace + [r], events + [e])
  {
    var trace', events' := trace + [r], events + [e];
    forall i | 0 <= i < |events'| ensures StepAt(trace', events', i) {
      if i < |events| {
        assert StepAt(trace, events, i);
      }
    }
  }

  /** `Next`, for states of which only `Reachable` is known. */
  ghost function After(s: State, e: Event): State {
    if Shaped(s) && Enabled(s, e) then Next(s, e) else s
  }

  lemma StepReachable(s: State, e: Event)
    requires Reachable(s) && Enabled(s, e)
    ensures Inv(s) && After(s, e) == Next(s, e) && Reachable(After(s, e))
  {
    ReachableInv(s);
    NextReachable(s, e, Next(s, e));
  }

  lemma NextReachable(s: State, e: Event, r: State)
    requires Reachable(s) && Shaped(s) && Enabled(s, e) && r == Next(s, e)
    ensures Reachable(r)
  {
    var trace, events :| Run(trace, events) && trace[|events|] == s;
    ExtendRun(trace, events, e, r);
    assert (trace + [r])[|events + [e]|] == r;
  }

  lemma {:induction false} RunInv(trace: seq<State>, events: seq<Event>, k: nat)
    requires Run(trace, events) && k < |trace|
    ensures Inv(trace[k])
  {
    if k == 0 {
      InitialInv(trace[0]);
    } else {
      RunInv(trace, events, k - 1);
      assert StepAt(trace, events, k - 1);
      StepInv(trace[k - 1], events[k - 1]);
    }
  }

  /** In every run: no slot is lost, and no slot is in two places. */
  lemma SlotsConserved(trace: seq<State>, events: seq<Event>, k: nat, x: Slot)
    requires Run(trace, events) && k < |trace| && x < |trace[k].data|
    ensures x in trace[k].queue || x in trace[k].free || exists t ::
      0 <= t < |trace[k].pc| && HoldsSlot(trace[k].pc[t]) && trace[k].pc[t].slot == x
    ensures !(x in trace[k].queue && x in trace[k].free)
    ensures forall t | 0 <= t < |trace[k].pc| && HoldsSlot(trace[k].pc[t]) && trace[k].pc[t].slot == x ::
      x !in trace[k].queue && x !in trace[k].free
    ensures forall t, t' | 0 <= t < t' < |trace[k].pc| && HoldsSlot(trace[k].pc[t]) && HoldsSlot(trace[k].pc[t']) ::
      trace[k].pc[t].slot != trace[k].pc[t'].slot
  {
    RunInv(trace, events, k);
  }

  /** Event `e` makes thread `t` take the first message. */
  ghost predicate Takes(s: State, e: Event, t: Tid) {
    s.queue != [] && ((e.Recv? && e.t == t) || (e.RecvAgain? && e.t == t))
  }

  ghost predicate Emptying(s: State, t: Tid) {
    t < |s.pc| && (s.pc[t].Draining? || s.pc[t].Drained?)
  }

  lemma TakeHolds(s: State, e: Event, t: Tid)
    requires Inv(s) && Enabled(s, e) && Takes(s, e, t)
    ensures s.box != [] && t < |Next(s, e).held| && Next(s, e).held[t] == s.box[0]
  {
  }

  lemma StepHolds(s: State, e: Event, t: Tid)
    requires Inv(s) && Enabled(s, e) && Emptying(s, t)
    ensures t < |Next(s, e).held| && Next(s, e).held[t] == s.held[t]
  {
  }

  /** What a thread took is what it holds, until its slot is given back. */
  lemma {:induction false} HeldUntilRelease(trace: seq<State>, events: seq<Event>, i: nat, k: nat, t: Tid)
    requires Run(trace, events) && i < k < |trace| && Takes(trace[i], events[i], t)
    requires forall j | i < j < k :: Emptying(trace[j], t)
    ensures trace[i].box != [] && t < |trace[k].held| && trace[k].held[t] == trace[i].box[0]
    decreases k
  {
    RunInv(trace, events, k - 1);
    assert StepAt(trace, events, k - 1);
    if i < k - 1 {
      HeldUntilRelease(trace, events, i, k - 1, t);
      StepHolds(trace[k - 1], events[k - 1], t);
    } else {
      TakeHolds(trace[i], events[i], t);
    }
  }

  /* Where each thread stands, and what its call asked for. */

  /** Thread `u` stands at `q` after its own event. */
  ghost predicate OwnMove(s: State, e: Event, u: Tid, q: Pc)
    requires u < |s.pc|
  {
    match e
    case Alloc(_, m, urgent) => q == if |m| <= s.msgSize && s.free != [] then Filling(s.free[0], m, urgent) else s.pc[u]
    case Fill(_) => s.pc[u].Filling? && q == Filled(s.pc[u].slot, s.pc[u].msg, s.pc[u].urgent)
    case Recv(_, size, w) => OwnTurn(s, size, w, q)
    case RecvAgain(_, left) => s.pc[u].RecvWoken? && OwnTurn(s, s.pc[u].size, Remaining(s.pc[u].wait, left), q)
    case CopyOut(_) =>
      && s.pc[u].Draining? && q.Drained? && q.slot == s.pc[u].slot
      && |q.buffer| == if s.pc[u].size < s.msgSize then s.pc[u].size else s.msgSize
    case Expire(_) => q == Failing
    case ChangePriority(_, _) => q == s.pc[u]
    case _ => q == Idle
  }

  /** A receiver's turn. */
  ghost predicate OwnTurn(s: State, size: nat, w: Wait, q: Pc) {
    q == if s.queue != [] then Draining(s.queue[0], size) else if w == Ticks(0) then Idle else RecvBlocked(size, w)
  }

  /** Thread `u` stands at `q` after an event of somebody else: a message linked resumes the first that waits. */
  ghost predicate OthersMove(s: State, e: Event, u: Tid, q: Pc)
    requires u < |s.pc|
  {
    if e.Reset? then q == if s.pc[u].RecvBlocked? then Failing else s.pc[u]
    else if e.Link? && s.receivers != [] && s.receivers[0] == u then
      s.pc[u].RecvBlocked? && q == RecvWoken(s.pc[u].size, s.pc[u].wait)
    else q == s.pc[u]
  }

  ghost predicate Moves(s: State, e: Event, u: Tid, q: Pc)
    requires u < |s.pc|
  {
    if !e.Reset? && e.t == u then OwnMove(s, e, u, q) else OthersMove(s, e, u, q)
  }

  lemma RecvMoves(s: State, e: Event, u: Tid)
    requires Shaped(s) && Enabled(s, e) && u < |s.pc| && (e.Recv? || e.RecvAgain?)
    ensures Moves(s, e, u, Next(s, e).pc[u])
  {
  }

  lemma LinkMoves(s: State, e: Event, u: Tid)
    requires Shaped(s) && Enabled(s, e) && u < |s.pc| && e.Link?
    ensures Moves(s, e, u, Next(s, e).pc[u])
  {
  }

  lemma CopyMoves(s: State, e: Event, u: Tid)
    requires Shaped(s) && Enabled(s, e) && u < |s.pc| && (e.Alloc? || e.Fill? || e.CopyOut?)
    ensures Moves(s, e, u, Next(s, e).pc[u])
  {
  }

  /** Where every thread stands after a step. */
  lemma ThreadMoves(s: State, e: Event, u: Tid) returns (q: Pc)
    requires Shaped(s) && Enabled(s, e) && u < |s.pc|
    ensures |Next(s, e).pc| == |s.pc| && q == Next(s, e).pc[u] && Moves(s, e, u, q)
  {
    if e.Recv? || e.RecvAgain? {
      RecvMoves(s, e, u);
    } else if e.Link? {
      LinkMoves(s, e, u);
    } else if e.Alloc? || e.Fill? || e.CopyOut? {
      CopyMoves(s, e, u);
    }
    q := Next(s, e).pc[u];
  }

  /** Who is resumed comes before all others that wait. */
  lemma FirstResumed(s: State, e: Event, u: Tid)
    requires Shaped(s) && Enabled(s, e) && e.Link? && Ordered(s.flag, s.receivers, s.prio, s.stamp) && u in s.receivers
    ensures |Next(s, e).pc| == |s.pc| && Next(s, e).pc[s.receivers[0]].RecvWoken?
    ensures u == s.receivers[0]
      || (Before(s.flag, s.prio, s.stamp, s.receivers[0], u) && Next(s, e).pc[u] == s.pc[u])
  {
    var i :| 0 <= i < |s.receivers| && s.receivers[i] == u;
    var mine := ThreadMoves(s, e, u);
    var first := ThreadMoves(s, e, s.receivers[0]);
    if i > 0 {
      assert Before(s.flag, s.prio, s.stamp, s.receivers[0], s.receivers[i]);
    }
  }

  /** The call that thread `t` made last. */
  function CallOf(events: seq<Event>, t: Tid): Option<Event> {
    if events == [] then None
    else
      var e := events[|events| - 1];
      if (e.Alloc? || e.Recv?) && e.t == t then Some(e) else CallOf(events[..|events| - 1], t)
  }

  lemma CallOwner(events: seq<Event>, t: Tid)
    ensures var c := CallOf(events, t); c.Some? ==> (c.value.Alloc? || c.value.Recv?) && c.value.t == t
  {
  }

  /** A send of message `m`. */
  predicate ServesSend(m: Message, urgent: bool, c: Option<Event>) {
    c.Some? && c.value.Alloc? && c.value.msg == m && c.value.urgent == urgent
  }

  /** A receive into a buffer of `size` bytes. */
  predicate ServesRecv(size: nat, c: Option<Event>) {
    c.Some? && c.value.Recv? && c.value.size == size
  }

  /** `p` is a state of the call `c`. */
  predicate Serves(p: Pc, c: Option<Event>, msgSize: nat) {
    match p
    case Filling(_, m, urgent) => ServesSend(m, urgent, c)
    case Filled(_, m, urgent) => ServesSend(m, urgent, c)
    case RecvBlocked(size, w) => ServesRecv(size, c) && NoLonger(w, c.value.wait)
    case RecvWoken(size, w) => ServesRecv(size, c) && NoLonger(w, c.value.wait)
    case Draining(_, size) => ServesRecv(size, c)
    case Drained(_, buffer) =>
      c.Some? && c.value.Recv? && |buffer| == if c.value.size < msgSize then c.value.size else msgSize
    case _ => true
  }

  lemma StillServes(s: State, e: Event, u: Tid, c: Option<Event>, q: Pc)
    requires Enabled(s, e) && u < |s.pc| && Serves(s.pc[u], c, s.msgSize) && Moves(s, e, u, q)
    ensures Serves(q, if (e.Alloc? || e.Recv?) && e.t == u then Some(e) else c, s.msgSize)
  {
  }

  lemma {:induction false} SameSizes(trace: seq<State>, events: seq<Event>, k: nat)
    requires Run(trace, events) && k < |trace|
    ensures |trace[k].pc| == |trace[0].pc| && trace[k].msgSize == trace[0].msgSize
  {
    if k > 0 {
      SameSizes(trace, events, k - 1);
      assert StepAt(trace, events, k - 1);
    }
  }

  /**
   In every run: from the first section of its call to the end a thread carries the message, or the size of
   the buffer, that it called with; and what it has copied out is that size, or the size of a message if less.
   */
  lemma {:induction false} OwnCall(trace: seq<State>, events: seq<Event>, k: nat, t: Tid)
    requires Run(trace, events) && k < |trace| && t < |trace[k].pc|
    ensures Serves(trace[k].pc[t], CallOf(events[..k], t), trace[k].msgSize)
  {
    if k > 0 {
      SameSizes(trace, events, k);
      SameSizes(trace, events, k - 1);
      OwnCall(trace, events, k - 1, t);
      assert StepAt(trace, events, k - 1);
      var q := ThreadMoves(trace[k - 1], events[k - 1], t);
      StillServes(trace[k - 1], events[k - 1], t, CallOf(events[..k - 1], t), q);
      assert events[..k][..k - 1] == events[..k - 1];
    }
  }

  /** A queue as its users see it: what is inside and what has come out. */
  datatype Box = Box(inside: seq<Message>, out: seq<Message>)

  function Pop(b: Box): Box {
    if b.inside == [] then b else Box(b.inside[1..], b.out + [b.inside[0]])
  }

  function Push(b: Box, c: Option<Event>): Box {
    if c.None? || !c.value.Alloc? then b
    else if c.value.urgent then b.(inside := [c.value.msg] + b.inside)
    else b.(inside := b.inside + [c.value.msg])
  }

  /** What a plain queue makes of the same events: each send brings the message of its own call. */
  function Plain(events: seq<Event>): Box {
    if events == [] then Box([], [])
    else
      var before, e := events[..|events| - 1], events[|events| - 1];
      PlainNext(Plain(before), e, if e.Link? then CallOf(before, e.t) else None)
  }

  function PlainNext(b: Box, e: Event, c: Option<Event>): Box {
    match e
    case Link(_) => Push(b, c)
    case Recv(_, _, _) => Pop(b)
    case RecvAgain(_, _) => Pop(b)
    case Reset => b.(inside := [])
    case _ => b
  }

  /** In every run: the queue holds, and has delivered, exactly what the plain queue does. */
  lemma {:induction false} PlainQueue(trace: seq<State>, events: seq<Event>, k: nat)
    requires Run(trace, events) && k < |trace|
    ensures Box(trace[k].box, trace[k].taken) == Plain(events[..k])
  {
    if k > 0 {
      PlainQueue(trace, events, k - 1);
      PlainOn(events, k);
      PlainAt(trace, events, k - 1);
    }
  }

  lemma PlainOn(events: seq<Event>, k: nat)
    requires 0 < k <= |events|
    ensures var e := events[k - 1];
      Plain(events[..k]) == PlainNext(Plain(events[..k - 1]), e, if e.Link? then CallOf(events[..k - 1], e.t) else None)
  {
    assert events[..k][..k - 1] == events[..k - 1];
  }

  lemma PlainAt(trace: seq<State>, events: seq<Event>, i: nat)
    requires Run(trace, events) && i < |events|
    ensures var e, s, r := events[i], trace[i], trace[i + 1];
      Box(r.box, r.taken)
      == PlainNext(Box(s.box, s.taken), e, if e.Link? then CallOf(events[..i], e.t) else None)
  {
    RunInv(trace, events, i);
    assert StepAt(trace, events, i);
    var e := events[i];
    if e.Link? {
      OwnCall(trace, events, i, e.t);
      PlainStep(trace[i], e, CallOf(events[..i], e.t));
    } else {
      PlainStep(trace[i], e, None);
    }
  }

  lemma PlainStep(s: State, e: Event, c: Option<Event>)
    requires Inv(s) && Enabled(s, e) && (e.Link? ==> Serves(s.pc[e.t], c, s.msgSize))
    ensures var r := Next(s, e); Box(r.box, r.taken) == PlainNext(Box(s.box, s.taken), e, c)
  {
    assert |s.box| == |s.queue|;
  }

  /**
   In every run: the buffer of a receiver is as long as its call asked for, or as a message if that is less, and
   begins with the message that was first in the queue when it took it, as far as the buffer reaches, whatever
   other threads did between that and the copy.
   */
  lemma PayloadArrives(trace: seq<State>, events: seq<Event>, i: nat, k: nat, t: Tid)
    requires Run(trace, events) && i < k < |trace| && Takes(trace[i], events[i], t)
    requires (forall j | i < j <= k :: Emptying(trace[j], t)) && t < |trace[k].pc| && trace[k].pc[t].Drained?
    ensures trace[i].box != []
    ensures var m, buffer := trace[i].box[0], trace[k].pc[t].buffer;
            if |m| <= |buffer| then m <= buffer else buffer <= m
    ensures var c := CallOf(events[..k], t);
            c.Some? && c.value.Recv? && c.value.t == t &&
            |trace[k].pc[t].buffer| == if c.value.size < trace[0].msgSize then c.value.size else trace[0].msgSize
  {
    OwnCall(trace, events, k, t);
    SameSizes(trace, events, k);
    CallOwner(events[..k], t);
    HeldUntilRelease(trace, events, i, k, t);
    RunInv(trace, events, k);
    var s := trace[k];
    var x := s.pc[t].slot;
    assert Intact(s, x);
    assert s.msg[x] <= s.data[x] && s.pc[t].buffer <= s.data[x];
  }

  /** In every run: the slots of the queue hold the messages linked and not yet received, in their order. */
  lemma QueueIs(trace: seq<State>, events: seq<Event>, k: nat)
    requires Run(trace, events) && k < |trace|
    ensures Sized(trace[k]) && Contents(trace[k]) == trace[k].box
  {
    RunInv(trace, events, k);
  }

  /** In every run: every message linked has been taken once, is still queued, or was dropped by a reset. */
  lemma NoneLost(trace: seq<State>, events: seq<Event>, k: nat)
    requires Run(trace, events) && k < |trace|
    ensures multiset(trace[k].sent) == multiset(trace[k].taken) + multiset(trace[k].box) + multiset(trace[k].dropped)
    ensures trace[k].plain ==> trace[k].taken <= trace[k].sent
  {
    RunInv(trace, events, k);
  }

  /** The wait list is in order in every run whose priority changes leave the waiters in place: always for FIFO. */
  lemma {:induction false} RunOrder(trace: seq<State>, events: seq<Event>, k: nat)
    requires Run(trace, events) && k < |trace|
    requires forall i | 0 <= i < k && events[i].ChangePriority? :: FittingAt(trace[i], events[i])
    ensures Ordered(trace[k].flag, trace[k].receivers, trace[k].prio, trace[k].stamp)
  {
    if k > 0 {
      RunOrder(trace, events, k - 1);
      RunInv(trace, events, k - 1);
      assert StepAt(trace, events, k - 1);
      var s, e := trace[k - 1], events[k - 1];
      if e.ChangePriority? {
        assert FittingAt(s, e);
        PriorityChange(s.flag, s.receivers, s.prio, s.stamp, e.t, e.p);
      }
      StepOrder(s, e);
    }
  }

  ghost predicate FittingAt(s: State, e: Event)
    requires e.ChangePriority?
  {
    s.flag == Fifo || (Waiters(s) && e.t < |s.pc| && InPlace(s.flag, s.receivers, s.prio[e.t := e.p], s.stamp, e.t))
  }

  /** In every run: once the woken receivers have run, none sleeps while a message is queued. */
  lemma NobodySleepsInVain(trace: seq<State>, events: seq<Event>, k: nat)
    requires Run(trace, events) && k < |trace|
    requires forall t | 0 <= t < |trace[k].pc| :: !trace[k].pc[t].RecvWoken?
    ensures trace[k].receivers != [] ==> trace[k].queue == []
  {
    RunInv(trace, events, k);
    CountZero(trace[k].pc, IsRecvWoken);
  }

  /** How many steps a call that stands at `p` can cause before it ends. */
  const Left: Pc -> nat := (p: Pc) =>
    match p
    case Idle => 0
    case Failing => 1
    case Drained(_, _) => 1
    case Draining(_, _) => 2
    case RecvBlocked(_, _) => 2
    case Filled(_, _, _) => 2
    case RecvWoken(_, _) => 3
    case Filling(_, _, _) => 3

  /** The event begins a call. */
  predicate Begins(e: Event) { e.Alloc? || e.Recv? }

  /** The event belongs to a call that has begun. */
  predicate Continues(e: Event) { !Begins(e) && !e.Reset? && !e.ChangePriority? }

  lemma LinkCost(s: State, t: Tid)
    requires Shaped(s) && Enabled(s, Link(t))
    ensures Total(LinkStep(s, t).pc, Left) < Total(s.pc, Left)
  {
    var d := Linked(s, t);
    TotalUpdate(s.pc, Left, t, Idle);
    if s.receivers != [] {
      var h := s.receivers[0];
      TotalUpdate(d.pc, Left, h, RecvWoken(s.pc[h].size, s.pc[h].wait));
    }
  }

  lemma RecvCost(s: State, t: Tid, size: nat, w: Wait)
    requires Shaped(s) && t < |s.pc|
    ensures Total(RecvStep(s, t, size, w).pc, Left) + Left(s.pc[t]) <= Total(s.pc, Left) + 2
  {
    TotalUpdate(s.pc, Left, t, RecvStep(s, t, size, w).pc[t]);
  }

  /** One thread goes on, and has fewer steps left. */
  lemma MoveCost(s: State, e: Event)
    requires Shaped(s) && Enabled(s, e) && (e.Fill? || e.CopyOut? || e.Release? || e.Expire? || e.Return?)
    ensures Total(Next(s, e).pc, Left) < Total(s.pc, Left)
  {
    TotalUpdate(s.pc, Left, e.t, Next(s, e).pc[e.t]);
  }

  /** A call that begins can cause three steps more; every step of a call leaves fewer. */
  lemma StepCost(s: State, e: Event)
    requires Shaped(s) && Enabled(s, e)
    ensures Total(Next(s, e).pc, Left) + (if Continues(e) then 1 else 0)
         <= Total(s.pc, Left) + (if Begins(e) then 3 else 0)
  {
    match e
    case Alloc(t, m, urgent) => TotalUpdate(s.pc, Left, t, AllocStep(s, t, m, urgent).pc[t]);
    case Link(t) => LinkCost(s, t);
    case Recv(t, size, w) => RecvCost(s, t, size, w);
    case RecvAgain(t, left) => RecvCost(s, t, s.pc[t].size, Remaining(s.pc[t].wait, left));
    case Reset => TotalFewer(s.pc, ResetStep(s).pc, Left);
    case ChangePriority(_, _) =>
    case _ => MoveCost(s, e);
  }

  const Beginning: Event -> bool := (e: Event) => Begins(e)
  const Continuing: Event -> bool := (e: Event) => Continues(e)

  lemma {:induction false} CostSoFar(trace: seq<State>, events: seq<Event>, k: nat)
    requires Run(trace, events) && k < |trace|
    ensures Count(events[..k], Continuing) + Total(trace[k].pc, Left) <= 3 * Count(events[..k], Beginning)
  {
    if k == 0 {
      TotalAtMost(trace[0].pc, Left, 0);
    } else {
      CostSoFar(trace, events, k - 1);
      assert StepAt(trace, events, k - 1);
      StepCost(trace[k - 1], events[k - 1]);
      assert events[..k][..k - 1] == events[..k - 1];
    }
  }

  /** In every run the further steps of all calls, turns of the loop included, are at most three for each call made. */
  lemma TurnsBounded(trace: seq<State>, events: seq<Event>)
    requires Run(trace, events)
    ensures Count(events, Continuing) <= 3 * Count(events, Beginning)
  {
    CostSoFar(trace, events, |events|);
    assert events[..|events|] == events;
  }

  /** As long as no new call is made, at most three steps for each thread remain, ... */
  lemma {:induction false} SettlesWithin(trace: seq<State>, events: seq<Event>, i: nat, k: nat)
    requires Run(trace, events) && i <= k < |trace| && forall j | i <= j < k :: Continues(events[j])
    ensures k - i + Total(trace[k].pc, Left) <= Total(trace[i].pc, Left) <= 3 * |trace[i].pc|
    decreases k
  {
    TotalAtMost(trace[i].pc, Left, 3);
    if i < k {
      SettlesWithin(trace, events, i, k - 1);
      assert StepAt(trace, events, k - 1);
      StepCost(trace[k - 1], events[k - 1]);
    }
  }

  /** ... and whoever is neither idle nor asleep has a step to make. */
  lemma StepToMake(s: State, t: Tid) returns (e: Event)
    requires t < |s.pc| && s.pc[t] != Idle && !s.pc[t].RecvBlocked?
    ensures Enabled(s, e) && Continues(e) && e.t == t
  {
    e := match s.pc[t]
      case Filling(_, _, _) => Fill(t)
      case Filled(_, _, _) => Link(t)
      case RecvWoken(_, _) => RecvAgain(t, 0)
      case Draining(_, _) => CopyOut(t)
      case Drained(_, _) => Release(t)
      case _ => Return(t);
  }
}

/** struct rt_messagequeue: the lists are threaded through the slots, head and tail kept apart. */
module LinkedQueue {
  import opened Sequences
  import opened WaitList
  import opened QueueProtocol

  datatype Outcome = Done | Suspended | TooLong | Full | Empty

  function First(q: seq<Slot>): Option<Slot> { if q == [] then None else Some(q[0]) }
  function Last(q: seq<Slot>): Option<Slot> { if q == [] then None else Some(q[|q| - 1]) }

  /** Following the links from the first slot of `q` visits exactly `q`. */
  ghost predicate Chained(next: seq<Option<Slot>>, q: seq<Slot>) {
    forall i | 0 <= i < |q| :: q[i] < |next| && next[q[i]] == Following(q, i)
  }

  function Following(q: seq<Slot>, i: nat): Option<Slot> {
    if i + 1 < |q| then Some(q[i + 1]) else None
  }

  lemma ChainElsewhere(next: seq<Option<Slot>>, q: seq<Slot>, x: Slot, n: Option<Slot>)
    requires Chained(next, q) && x < |next| && x !in q
    ensures Chained(next[x := n], q)
  {
    assert forall i | 0 <= i < |q| :: q[i] in q;
  }

  lemma ChainTail(next: seq<Option<Slot>>, q: seq<Slot>)
    requires Chained(next, q) && q != []
    ensures Chained(next, q[1..]) && q[0] < |next| && next[q[0]] == First(q[1..])
    ensures Last(q[1..]) == if Last(q) == Some(q[0]) && |q| == 1 then None else Last(q)
  {
    var r := q[1..];
    assert next[q[0]] == Following(q, 0);
    forall i | 0 <= i < |r| ensures r[i] < |next| && next[r[i]] == Following(r, i) {
      assert r[i] == q[i + 1];
      assert next[q[i + 1]] == Following(q, i + 1);
    }
  }

  lemma ChainPush(next: seq<Option<Slot>>, q: seq<Slot>, x: Slot)
    requires Chained(next, q) && x < |next| && x !in q
    ensures Chained(next[x := First(q)], [x] + q)
  {
    var n, r := next[x := First(q)], [x] + q;
    ChainElsewhere(next, q, x, First(q));
    forall i | 0 <= i < |r| ensures r[i] < |n| && n[r[i]] == Following(r, i) {
      if i > 0 {
        assert n[q[i - 1]] == Following(q, i - 1);
      }
    }
  }

  lemma ChainAppend(next: seq<Option<Slot>>, q: seq<Slot>, x: Slot)
    requires Chained(next, q) && q != [] && x < |next| && x !in q && next[x] == None && NoDup(q)
    ensures Chained(next[q[|q| - 1] := Some(x)], q + [x])
  {
    var l := q[|q| - 1];
    var n, r := next[l := Some(x)], q + [x];
    forall i | 0 <= i < |r| ensures r[i] < |n| && n[r[i]] == Following(r, i) {
      if i < |q| - 1 {
        assert q[i] != l && next[q[i]] == Following(q, i);
      }
    }
  }

  /** The links and counts agree with the abstract queue. */
  ghost predicate Matches(s: State, next: seq<Option<Slot>>, head: Option<Slot>, tail: Option<Slot>,
                          free: Option<Slot>, entry: nat) {
    && |next| == |s.data|
    && Chained(next, s.queue) && head == First(s.queue) && tail == Last(s.queue)
    && Chained(next, s.free) && free == First(s.free)
    && entry == |s.queue|
    && Terminated(s, next)
  }

  /** A message ready to become the tail has no successor. */
  ghost predicate Terminated(s: State, next: seq<Option<Slot>>) {
    forall t | 0 <= t < |s.pc| && s.pc[t].Filled? && !s.pc[t].urgent && s.pc[t].slot < |next| ::
      next[s.pc[t].slot] == None
  }

  /** Only the links of `slot` and of the slots of `q` have changed. */
  ghost predicate Spared(next: seq<Option<Slot>>, next': seq<Option<Slot>>, q: seq<Slot>, slot: Slot) {
    |next'| == |next| && forall x | 0 <= x < |next| && x !in q && x != slot :: next'[x] == next[x]
  }

  /** The parts of the state an operation has not touched. */
  ghost predicate SameSetup(s: State, r: State) {
    r.msgSize == s.msgSize && r.flag == s.flag && r.prio == s.prio
  }

  lemma AllocDone(s: State, t: Tid, m: Message, urgent: bool, next: seq<Option<Slot>>, head: Option<Slot>,
                  tail: Option<Slot>, free: Option<Slot>, entry: nat)
    returns (r: State)
    requires Reachable(s) && Enabled(s, Alloc(t, m, urgent)) && Matches(s, next, head, tail, free, entry)
    ensures r == After(s, Alloc(t, m, urgent)) && Reachable(r) && SameSetup(s, r) && r.data == s.data
      && r.receivers == s.receivers
    ensures |m| > s.msgSize || free == None ==> r == s
    ensures |m| <= s.msgSize && free.Some? ==>
      && free.value < |next| && Matches(r, next, head, tail, next[free.value], entry)
      && r.pc == s.pc[t := Filling(free.value, m, urgent)]
  {
    StepReachable(s, Alloc(t, m, urgent));
    r := After(s, Alloc(t, m, urgent));
    if s.free != [] {
      ChainTail(next, s.free);
    }
  }

  /** A slot in the hands of a thread is on neither list. */
  lemma InHand(s: State, t: Tid)
    requires Slots(s) && t < |s.pc| && HoldsSlot(s.pc[t])
    ensures s.pc[t].slot < |s.data| && s.pc[t].slot !in s.queue && s.pc[t].slot !in s.free
    ensures forall t' | 0 <= t' < |s.pc| && t' != t && HoldsSlot(s.pc[t']) :: s.pc[t'].slot != s.pc[t].slot
  {
    assert s.place[s.pc[t].slot] == With(t);
  }

  lemma FillDone(s: State, t: Tid, next: seq<Option<Slot>>, head: Option<Slot>, tail: Option<Slot>,
                 free: Option<Slot>, entry: nat)
    returns (r: State)
    requires Reachable(s) && Enabled(s, Fill(t)) && Matches(s, next, head, tail, free, entry)
    ensures r == After(s, Fill(t)) && Reachable(r) && SameSetup(s, r) && r.receivers == s.receivers
    ensures s.pc[t].slot < |next| && s.pc[t].slot < |s.data|
      && r.pc == s.pc[t := Filled(s.pc[t].slot, s.pc[t].msg, s.pc[t].urgent)]
    ensures r.data == s.data[s.pc[t].slot := Copied(s.pc[t].msg, s.data[s.pc[t].slot])]
    ensures Matches(r, if s.pc[t].urgent then next else next[s.pc[t].slot := None], head, tail, free, entry)
  {
    StepReachable(s, Fill(t));
    r := After(s, Fill(t));
    InHand(s, t);
    ChainElsewhere(next, s.queue, s.pc[t].slot, None);
    ChainElsewhere(next, s.free, s.pc[t].slot, None);
  }

  /** A filled slot can be linked: it is in nobody else's hands. */
  lemma LinkReady(s: State, t: Tid, next: seq<Option<Slot>>)
    requires Reachable(s) && Enabled(s, Link(t)) && |next| == |s.data| && Terminated(s, next)
    ensures s.pc[t].slot < |next| && s.pc[t].slot !in s.queue && (s.pc[t].urgent || next[s.pc[t].slot] == None)
    ensures Blocked(s.receivers, s.pc[t := Idle]) && NoDup(s.queue)
  {
    ReachableInv(s);
    InHand(s, t);
    LinkSlots(s, t);
  }

  function LinkOrder(q: seq<Slot>, slot: Slot, urgent: bool): seq<Slot> {
    if urgent then [slot] + q else q + [slot]
  }

  lemma LinkMatches(s: State, t: Tid, next: seq<Option<Slot>>, next': seq<Option<Slot>>, head: Option<Slot>,
                    tail: Option<Slot>, free: Option<Slot>, entry: nat)
    requires Slots(s) && AllBlocked(s) && Enabled(s, Link(t)) && |next| == |s.data|
      && Spared(next, next', s.queue, s.pc[t].slot)
    requires Chained(next, s.free) && free == First(s.free) && entry == |s.queue| && Terminated(s, next)
    requires var q := LinkOrder(s.queue, s.pc[t].slot, s.pc[t].urgent);
      Chained(next', q) && head == First(q) && tail == Last(q)
    ensures Matches(LinkStep(s, t), next', head, tail, free, entry + 1)
  {
    InHand(s, t);
    FreeUntouched(s, next, next', s.pc[t].slot);
    StillTerminated(s, t, next, next');
  }

  lemma StillTerminated(s: State, t: Tid, next: seq<Option<Slot>>, next': seq<Option<Slot>>)
    requires Slots(s) && AllBlocked(s) && Enabled(s, Link(t)) && |next| == |s.data|
    requires Spared(next, next', s.queue, s.pc[t].slot) && Terminated(s, next)
    ensures Terminated(LinkStep(s, t), next')
  {
    forall t' | 0 <= t' < |s.pc| && t' != t && s.pc[t'].Filled? && !s.pc[t'].urgent
      ensures next'[s.pc[t'].slot] == None
    {
      InHand(s, t');
      InHand(s, t);
    }
  }

  /** Changing the links of queued slots only leaves the free list alone. */
  lemma FreeUntouched(s: State, next: seq<Option<Slot>>, next': seq<Option<Slot>>, slot: Slot)
    requires Slots(s) && Chained(next, s.free) && |next| == |s.data| && slot !in s.free
    requires Spared(next, next', s.queue, slot)
    ensures Chained(next', s.free)
  {
    forall i | 0 <= i < |s.free| ensures next'[s.free[i]] == Following(s.free, i) {
      assert s.free[i] in s.free && s.place[s.free[i]] == OnFree;
    }
  }

  lemma LinkDone(s: State, t: Tid, next: seq<Option<Slot>>, next': seq<Option<Slot>>, head: Option<Slot>,
                 tail: Option<Slot>, free: Option<Slot>, entry: nat)
    returns (r: State)
    requires Reachable(s) && Enabled(s, Link(t)) && |next| == |s.data| && Spared(next, next', s.queue, s.pc[t].slot)
    requires Chained(next, s.free) && free == First(s.free) && entry == |s.queue| && Terminated(s, next)
    requires var q := LinkOrder(s.queue, s.pc[t].slot, s.pc[t].urgent);
      Chained(next', q) && head == First(q) && tail == Last(q)
    requires Blocked(s.receivers, s.pc[t := Idle])
    ensures r == After(s, Link(t)) && Reachable(r) && SameSetup(s, r) && r.data == s.data
    ensures r.receivers == Rest(s.receivers) && r.pc == Woken(s.receivers, s.pc[t := Idle])
    ensures Matches(r, next', head, tail, free, entry + 1)
  {
    StepReachable(s, Link(t));
    r := After(s, Link(t));
    LinkMatches(s, t, next, next', head, tail, free, entry);
  }

  /** What a pass through the receive loop does to the fields. */
  lemma RecvMatches(s: State, t: Tid, size: nat, w: Wait, next: seq<Option<Slot>>, head: Option<Slot>,
                    tail: Option<Slot>, free: Option<Slot>, entry: nat)
    returns (r: State)
    requires Shaped(s) && NoDup(s.queue) && t < |s.pc| && (s.pc[t] == Idle || s.pc[t].RecvWoken?)
    requires Matches(s, next, head, tail, free, entry)
    ensures r == RecvStep(s, t, size, w) && SameSetup(s, r) && r.data == s.data && Threads(s.receivers, |s.prio|)
      && t < |s.prio|
    ensures entry == 0 && w == Ticks(0) ==>
      Matches(r, next, head, tail, free, entry) && r.receivers == s.receivers && r.pc == s.pc[t := Idle]
    ensures entry == 0 && w != Ticks(0) ==>
      && Matches(r, next, head, tail, free, entry)
      && r.receivers == Enqueue(s.flag, s.receivers, s.prio, t) && r.pc == s.pc[t := RecvBlocked(size, w)]
    ensures entry > 0 ==>
      && head.Some? && head.value < |next| && r.receivers == s.receivers
      && r.pc == s.pc[t := Draining(head.value, size)]
      && Matches(r, next, next[head.value], if tail == head then None else tail, free, entry - 1)
  {
    r := RecvStep(s, t, size, w);
    if s.queue != [] {
      ChainTail(next, s.queue);
      assert tail == head <==> |s.queue| == 1;
    }
  }

  lemma RecvDone(s: State, e: Event, t: Tid, size: nat, w: Wait, next: seq<Option<Slot>>, head: Option<Slot>,
                 tail: Option<Slot>, free: Option<Slot>, entry: nat)
    returns (r: State)
    requires Reachable(s) && Enabled(s, e) && Matches(s, next, head, tail, free, entry)
    requires e == Recv(t, size, w)
      || (e.RecvAgain? && e.t == t && size == s.pc[t].size && w == Remaining(s.pc[t].wait, e.left))
    ensures r == After(s, e) && Reachable(r) && SameSetup(s, r) && r.data == s.data
      && Threads(s.receivers, |s.prio|) && t < |s.prio|
    ensures entry == 0 && w == Ticks(0) ==>
      Matches(r, next, head, tail, free, entry) && r.receivers == s.receivers && r.pc == s.pc[t := Idle]
    ensures entry == 0 && w != Ticks(0) ==>
      && Matches(r, next, head, tail, free, entry)
      && r.receivers == Enqueue(s.flag, s.receivers, s.prio, t) && r.pc == s.pc[t := RecvBlocked(size, w)]
    ensures entry > 0 ==>
      && head.Some? && head.value < |next| && r.receivers == s.receivers
      && r.pc == s.pc[t := Draining(head.value, size)]
      && Matches(r, next, next[head.value], if tail == head then None else tail, free, entry - 1)
  {
    StepReachable(s, e);
    r := RecvMatches(s, t, size, w, next, head, tail, free, entry);
  }

  lemma TakeDone(s: State, e: Event, t: Tid, size: nat, w: Wait, next: seq<Option<Slot>>, head: Option<Slot>,
                 tail: Option<Slot>, free: Option<Slot>, entry: nat)
    returns (r: State)
    requires Reachable(s) && Enabled(s, e) && Matches(s, next, head, tail, free, entry) && entry > 0
    requires e == Recv(t, size, w)
      || (e.RecvAgain? && e.t == t && size == s.pc[t].size && w == Remaining(s.pc[t].wait, e.left))
    ensures r == After(s, e) && Reachable(r) && SameSetup(s, r) && r.data == s.data && r.receivers == s.receivers
    ensures head.Some? && head.value < |next| && r.pc == s.pc[t := Draining(head.value, size)]
    ensures Matches(r, next, next[head.value], if tail == head then None else tail, free, entry - 1)
  {
    r := RecvDone(s, e, t, size, w, next, head, tail, free, entry);
  }

  lemma CopyOutDone(s: State, t: Tid, next: seq<Option<Slot>>, head: Option<Slot>, tail: Option<Slot>,
                    free: Option<Slot>, entry: nat)
    returns (r: State)
    requires Reachable(s) && Enabled(s, CopyOut(t)) && Matches(s, next, head, tail, free, entry)
    ensures r == After(s, CopyOut(t)) && Reachable(r) && SameSetup(s, r) && r.data == s.data
      && r.receivers == s.receivers
    ensures var p := s.pc[t];
      && p.slot < |s.data| && |s.data[p.slot]| == s.msgSize
      && r.pc == s.pc[t := Drained(p.slot, s.data[p.slot][..if p.size > s.msgSize then s.msgSize else p.size])]
    ensures Matches(r, next, head, tail, free, entry)
  {
    StepReachable(s, CopyOut(t));
    r := After(s, CopyOut(t));
  }

  lemma ReleaseDone(s: State, t: Tid, next: seq<Option<Slot>>, head: Option<Slot>, tail: Option<Slot>,
                    free: Option<Slot>, entry: nat)
    returns (r: State)
    requires Reachable(s) && Enabled(s, Release(t)) && Matches(s, next, head, tail, free, entry)
    ensures r == After(s, Release(t)) && Reachable(r) && SameSetup(s, r) && r.data == s.data
      && r.receivers == s.receivers
    ensures r.pc == s.pc[t := Idle] && s.pc[t].slot < |next|
    ensures Matches(r, next[s.pc[t].slot := free], head, tail, Some(s.pc[t].slot), entry)
  {
    StepReachable(s, Release(t));
    r := After(s, Release(t));
    InHand(s, t);
    ChainElsewhere(next, s.queue, s.pc[t].slot, free);
    ChainPush(next, s.free, s.pc[t].slot);
  }

  /** A timeout, or a failed call returning. */
  lemma LeaveDone(s: State, e: Event, next: seq<Option<Slot>>, head: Option<Slot>, tail: Option<Slot>,
                  free: Option<Slot>, entry: nat)
    returns (r: State)
    requires Reachable(s) && (e.Expire? || e.Return?) && Enabled(s, e) && Matches(s, next, head, tail, free, entry)
    ensures r == After(s, e) && Reachable(r) && SameSetup(s, r) && r.data == s.data
    ensures r.receivers == if e.Expire? then Remove(s.receivers, e.t) else s.receivers
    ensures r.pc == s.pc[e.t := if e.Expire? then Failing else Idle]
    ensures Matches(r, next, head, tail, free, entry)
  {
    StepReachable(s, e);
    r := After(s, e);
  }

  lemma ResetReady(s: State)
    requires Reachable(s)
    ensures Apart(s.queue, s.free) && NoDup(s.queue) && Threads(s.receivers, |s.pc|)
  {
    ReachableInv(s);
    forall x | x in s.queue ensures x !in s.free {
      assert s.place[x] == OnQueue;
    }
  }

  lemma ResetMatches(s: State, next: seq<Option<Slot>>, next': seq<Option<Slot>>, free: Option<Slot>)
    requires Slots(s) && |next| == |s.data| && Terminated(s, next) && SparedBut(next, next', s.queue)
    requires Chained(next', Reverse(s.queue) + s.free) && free == First(Reverse(s.queue) + s.free)
    ensures Matches(ResetStep(s), next', None, None, free, 0)
  {
    forall t | 0 <= t < |s.pc| && s.pc[t].Filled? && !s.pc[t].urgent ensures next'[s.pc[t].slot] == None {
      InHand(s, t);
    }
  }

  lemma ResetRuns(s: State, pc: seq<Pc>) returns (r: State)
    requires Reachable(s) && Failed(s.receivers, s.pc, pc)
    ensures Slots(s) && r == After(s, Reset) == ResetStep(s) && Reachable(r) && SameSetup(s, r) && r.data == s.data
    ensures r.receivers == [] && r.pc == pc
  {
    StepReachable(s, Reset);
    r := After(s, Reset);
  }

  lemma ResetDone(s: State, next: seq<Option<Slot>>, next': seq<Option<Slot>>, free: Option<Slot>, pc: seq<Pc>)
    returns (r: State)
    requires Reachable(s) && |next| == |s.data| && Terminated(s, next) && SparedBut(next, next', s.queue)
    requires Chained(next', Reverse(s.queue) + s.free) && free == First(Reverse(s.queue) + s.free)
    requires Failed(s.receivers, s.pc, pc)
    ensures r == After(s, Reset) && Reachable(r) && SameSetup(s, r) && r.data == s.data
    ensures r.receivers == [] && r.pc == pc
    ensures Matches(r, next', None, None, free, 0)
  {
    r := ResetRuns(s, pc);
    ResetMatches(s, next, next', free);
  }

  /** A queue that has seen no call. */
  ghost function FreshState(msgSize: nat, slots: seq<seq<int>>, q: seq<Slot>, flag: Flag, prio: seq<nat>,
                            threads: seq<Pc>): (s: State)
    requires NoDup(q) && (forall i | 0 <= i < |q| :: q[i] < |slots|) && (forall x | 0 <= x < |slots| :: x in q)
    requires (forall x | 0 <= x < |slots| :: |slots[x]| == msgSize) && |threads| == |prio|
    requires forall t | 0 <= t < |threads| :: threads[t] == Idle
    ensures Initial(s) && Reachable(s) && s.queue == [] && s.free == q && s.data == slots && s.msgSize == msgSize
    ensures s.receivers == [] && s.pc == threads && s.flag == flag && s.prio == prio
  {
    var n, k := |slots|, |prio|;
    var s := State(msgSize, [], q, slots, [], threads, flag, prio, 1, seq(k, _ => 0), seq(n, _ => OnFree),
                   seq(n, _ => []), [], seq(k, _ => []), true, [], [], []);
    InitialReachable(s);
    s
  }

  /** Every thread in `receivers` has failed, and no other has changed. */
  ghost predicate Failed(receivers: seq<Tid>, pc: seq<Pc>, pc': seq<Pc>) {
    |pc'| == |pc| && forall t | 0 <= t < |pc| :: pc'[t] == if t in receivers then Failing else pc[t]
  }

  ghost predicate Apart(q: seq<Slot>, f: seq<Slot>) { forall x :: x in q ==> x !in f }

  ghost predicate Within(q: seq<Slot>, r: seq<Slot>) { forall x :: x in q ==> x in r }

  /** Only the links of the slots of `q` have changed. */
  ghost predicate SparedBut(next: seq<Option<Slot>>, next': seq<Option<Slot>>, q: seq<Slot>) {
    |next'| == |next| && forall x | 0 <= x < |next| && x !in q :: next'[x] == next[x]
  }

  /** Moving the first slot of `q` to the front of `f` keeps both lists linked. */
  lemma MoveFirst(next: seq<Option<Slot>>, q: seq<Slot>, f: seq<Slot>)
    requires q != [] && NoDup(q) && Chained(next, q) && Chained(next, f) && Apart(q, f)
    ensures q[0] < |next| && next[q[0]] == First(q[1..])
    ensures Last(q[1..]) == if Last(q) == Some(q[0]) then None else Last(q)
    ensures Chained(next[q[0] := First(f)], q[1..]) && Chained(next[q[0] := First(f)], [q[0]] + f)
  {
    TailDistinct(q);
    ChainTail(next, q);
    ChainElsewhere(next, q[1..], q[0], First(f));
    ChainPush(next, f, q[0]);
  }

  lemma MoveElements(q: seq<Slot>, f: seq<Slot>, q0: seq<Slot>)
    requires q != [] && NoDup(q) && Apart(q, f) && Within(q, q0)
    ensures NoDup(q[1..]) && Apart(q[1..], [q[0]] + f) && Within(q[1..], q0)
    ensures Reverse(q) + f == Reverse(q[1..]) + ([q[0]] + f)
  {
    TailDistinct(q);
  }

  class Queue {
    const msgSize: nat
    var next: seq<Option<Slot>>
    var head: Option<Slot>
    var tail: Option<Slot>
    var free: Option<Slot>
    var entry: nat
    var data: seq<seq<int>>
    var receivers: seq<Tid>
    var pc: seq<Pc>
    const flag: Flag
    var prio: seq<nat>

    /** The queue is in a state the protocol can reach, and its links and counts are those of that state. */
    ghost predicate Represents(s: State)
      reads this
    {
      && Reachable(s)
      && s.msgSize == msgSize && s.data == data && s.receivers == receivers && s.pc == pc
      && s.flag == flag && s.prio == prio
      && Matches(s, next, head, tail, free, entry)
    }

    /** The loop of rt_mq_init: every slot goes on the free list, the last one in front. */
    static method FreeAll(maxMsgs: nat) returns (links: seq<Option<Slot>>, list: Option<Slot>, ghost q: seq<Slot>)
      ensures |links| == maxMsgs && Chained(links, q) && list == First(q)
      ensures NoDup(q) && (forall i | 0 <= i < |q| :: q[i] < maxMsgs) && (forall x | 0 <= x < maxMsgs :: x in q)
    {
      links := seq(maxMsgs, _ => None);
      list, q := None, [];
      for temp := 0 to maxMsgs
        invariant |links| == maxMsgs && Chained(links, q) && list == First(q)
        invariant NoDup(q) && (forall i | 0 <= i < |q| :: q[i] < temp) && (forall x | 0 <= x < temp :: x in q)
      {
        EndElements(q, temp);
        ChainPush(links, q, temp);
        links := links[temp := list];
        list := Some(temp);
        q := [temp] + q;
      }
    }

    constructor (msgSize: nat, maxMsgs: nat, flag: Flag, prio: seq<nat>)
      ensures exists s :: Initial(s) && Represents(s) && |data| == maxMsgs && this.msgSize == msgSize
      ensures this.flag == flag && this.prio == prio
    {
      this.msgSize, this.flag, this.prio := msgSize, flag, prio;
      var links, list, q := FreeAll(maxMsgs);
      next, head, tail, free, entry := links, None, None, list, 0;
      var bytes: seq<int> := seq(msgSize, _ => 0);
      var slots := seq(maxMsgs, _ => bytes);
      var threads: seq<Pc> := seq(|prio|, _ => Idle);
      data, receivers, pc := slots, [], threads;
      ghost var s := FreshState(msgSize, slots, q, flag, prio, threads);
      new;
      assert Represents(s);
    }

    /** First section of rt_mq_send and rt_mq_urgent. */
    method Alloc(t: Tid, msg: Message, urgent: bool, ghost s: State) returns (r: Outcome)
      requires Represents(s) && Enabled(s, Event.Alloc(t, msg, urgent))
      modifies this
      ensures Represents(After(s, Event.Alloc(t, msg, urgent)))
      ensures r == if |msg| > msgSize then TooLong else if old(free).None? then Full else Done
    {
      ghost var after := AllocDone(s, t, msg, urgent, next, head, tail, free, entry);
      if |msg| > msgSize {
        return TooLong;
      }
      if free.None? {
        return Full;
      }
      var slot := free.value;
      free := next[slot];
      pc := pc[t := Filling(slot, msg, urgent)];
      r := Done;
    }

    /** The copy between the two sections. A message sent in order has its link cleared here. */
    method Fill(t: Tid, ghost s: State)
      requires Represents(s) && Enabled(s, Event.Fill(t))
      modifies this
      ensures Represents(After(s, Event.Fill(t)))
    {
      ghost var after := FillDone(s, t, next, head, tail, free, entry);
      var p := pc[t];
      if !p.urgent {
        next := next[p.slot := None];
      }
      data := data[p.slot := Copied(p.msg, data[p.slot])];
      pc := pc[t := Filled(p.slot, p.msg, p.urgent)];
    }

    /** The links hold `q`. */
    ghost predicate Holds(q: seq<Slot>)
      reads this
    {
      Chained(next, q) && head == First(q) && tail == Last(q)
    }

    /** The link of rt_mq_send: behind the tail. */
    method LinkLast(ghost q: seq<Slot>, slot: Slot)
      requires Holds(q) && NoDup(q) && slot < |next| && slot !in q && next[slot] == None
      modifies `next, `head, `tail
      ensures Holds(q + [slot]) && Spared(old(next), next, q, slot)
    {
      if tail.Some? {
        ChainAppend(next, q, slot);
        next := next[tail.value := Some(slot)];
      }
      tail := Some(slot);
      if head.None? {
        head := Some(slot);
      }
    }

    /** The link of rt_mq_urgent: before the head. */
    method LinkFirst(ghost q: seq<Slot>, slot: Slot)
      requires Holds(q) && slot < |next| && slot !in q
      modifies `next, `head, `tail
      ensures Holds([slot] + q) && Spared(old(next), next, q, slot)
    {
      ChainPush(next, q, slot);
      next := next[slot := head];
      head := Some(slot);
      if tail.None? {
        tail := Some(slot);
      }
    }

    /** Link the slot at its end of the queue and count it. */
    method LinkSlot(ghost q: seq<Slot>, slot: Slot, urgent: bool)
      requires Holds(q) && NoDup(q) && slot < |next| && slot !in q && (urgent || next[slot] == None)
      modifies `next, `head, `tail, `entry
      ensures Holds(LinkOrder(q, slot, urgent)) && Spared(old(next), next, q, slot)
      ensures entry == old(entry) + 1
    {
      if urgent {
        LinkFirst(q, slot);
      } else {
        LinkLast(q, slot);
      }
      entry := entry + 1;
    }

    /** The sender is done; rt_ipc_list_resume, if a receiver waits. */
    method Wake(t: Tid)
      requires t < |pc| && Blocked(receivers, pc[t := Idle])
      modifies `receivers, `pc
      ensures receivers == Rest(old(receivers)) && pc == Woken(old(receivers), old(pc)[t := Idle])
    {
      pc := pc[t := Idle];
      if receivers != [] {
        var h := receivers[0];
        receivers, pc := receivers[1..], pc[h := RecvWoken(pc[h].size, pc[h].wait)];
      }
    }

    /** Second section of a send. */
    method Link(t: Tid, ghost s: State)
      requires Represents(s) && Enabled(s, Event.Link(t))
      modifies this
      ensures Represents(After(s, Event.Link(t)))
    {
      LinkReady(s, t, next);
      LinkSection(t, s.queue);
      ghost var after := LinkDone(s, t, old(next), next, head, tail, free, entry - 1);
    }

    method LinkSection(t: Tid, ghost q: seq<Slot>)
      requires Holds(q) && NoDup(q) && t < |pc| && pc[t].Filled? && pc[t].slot < |next| && pc[t].slot !in q
      requires (pc[t].urgent || next[pc[t].slot] == None) && Blocked(receivers, pc[t := Idle])
      modifies `next, `head, `tail, `entry, `receivers, `pc
      ensures Holds(LinkOrder(q, old(pc)[t].slot, old(pc)[t].urgent)) && Spared(old(next), next, q, old(pc)[t].slot)
      ensures entry == old(entry) + 1
      ensures receivers == Rest(old(receivers)) && pc == Woken(old(receivers), old(pc)[t := Idle])
    {
      LinkSlot(q, pc[t].slot, pc[t].urgent);
      Wake(t);
    }

    /** One pass through the loop head of rt_mq_recv. */
    method RecvSection(t: Tid, size: nat, w: Wait, ghost e: Event, ghost s: State)
      returns (r: Outcome, ghost after: State)
      requires Represents(s) && Enabled(s, e)
      requires e == Event.Recv(t, size, w)
        || (e.RecvAgain? && e.t == t && size == pc[t].size && w == Remaining(pc[t].wait, e.left))
      modifies this
      ensures after == After(s, e) && Represents(after)
      ensures r == if old(entry) > 0 then Done else if w == Ticks(0) then Empty else Suspended
    {
      if entry > 0 {
        after := TakeDone(s, e, t, size, w, next, head, tail, free, entry);
        TakeFirst(t, size, s, after);
        r := Done;
      } else {
        after := RecvDone(s, e, t, size, w, next, head, tail, free, entry);
        r := WaitFirst(t, size, w, s, after);
      }
    }

    /** There is a message, and its receiver goes on to the state `after`. */
    method TakeFirst(t: Tid, size: nat, ghost s: State, ghost after: State)
      requires Represents(s) && Reachable(after) && SameSetup(s, after) && after.data == s.data && entry > 0 && t < |pc|
      requires head.Some? && head.value < |next| && after.pc == s.pc[t := Draining(head.value, size)]
      requires Matches(after, next, next[head.value], if tail == head then None else tail, free, entry - 1)
      requires after.receivers == s.receivers
      modifies `head, `tail, `entry, `pc
      ensures Represents(after)
    {
      TakeHead(t, size);
    }

    /** There is none, and the thread goes on to `after`. */
    method WaitFirst(t: Tid, size: nat, w: Wait, ghost s: State, ghost after: State) returns (r: Outcome)
      requires Represents(s) && Reachable(after) && SameSetup(s, after) && after.data == s.data
      requires Threads(s.receivers, |s.prio|) && t < |s.prio| && t < |pc|
        && Matches(after, next, head, tail, free, entry)
      requires w == Ticks(0) ==> after.receivers == s.receivers && after.pc == s.pc[t := Idle]
      requires w != Ticks(0) ==>
        after.receivers == Enqueue(s.flag, s.receivers, s.prio, t) && after.pc == s.pc[t := RecvBlocked(size, w)]
      modifies `receivers, `pc
      ensures Represents(after) && r == if w == Ticks(0) then Empty else Suspended
    {
      r := GiveUp(t, size, w);
    }

    /** The queue is empty: the thread gives up or suspends. */
    method GiveUp(t: Tid, size: nat, w: Wait) returns (r: Outcome)
      requires Threads(receivers, |prio|) && t < |prio| && t < |pc|
      modifies `receivers, `pc
      ensures w == Ticks(0) ==> r == Empty && receivers == old(receivers) && pc == old(pc)[t := Idle]
      ensures w != Ticks(0) ==>
        && r == Suspended && receivers == Enqueue(flag, old(receivers), prio, t)
        && pc == old(pc)[t := RecvBlocked(size, w)]
    {
      if w == Ticks(0) {
        pc := pc[t := Idle];
        return Empty;
      }
      receivers := ListSuspend(flag, receivers, prio, t);
      pc := pc[t := RecvBlocked(size, w)];
      r := Suspended;
    }

    /** The first slot of the queue goes to the receiver. */
    method TakeHead(t: Tid, size: nat)
      requires entry > 0 && t < |pc| && head.Some? && head.value < |next|
      modifies `head, `tail, `entry, `pc
      ensures head == next[old(head).value] && tail == (if old(tail == head) then None else old(tail))
      ensures entry == old(entry) - 1 && pc == old(pc)[t := Draining(old(head).value, size)]
    {
      var msg := head.value;
      head := next[msg];
      if tail == Some(msg) {
        tail := None;
      }
      entry := entry - 1;
      pc := pc[t := Draining(msg, size)];
    }

    method Recv(t: Tid, size: nat, w: Wait, ghost s: State) returns (r: Outcome)
      requires Represents(s) && Enabled(s, Event.Recv(t, size, w))
      modifies this
      ensures Represents(After(s, Event.Recv(t, size, w)))
      ensures r == if old(entry) > 0 then Done else if w == Ticks(0) then Empty else Suspended
    {
      ghost var after;
      r, after := RecvSection(t, size, w, Event.Recv(t, size, w), s);
    }

    method RecvAgain(t: Tid, left: nat, ghost s: State) returns (r: Outcome)
      requires Represents(s) && Enabled(s, Event.RecvAgain(t, left))
      modifies this
      ensures Represents(After(s, Event.RecvAgain(t, left)))
      ensures r == if old(entry) > 0 then Done
                   else if Remaining(old(pc)[t].wait, left) == Ticks(0) then Empty else Suspended
    {
      ghost var after;
      r, after := RecvSection(t, pc[t].size, Remaining(pc[t].wait, left), Event.RecvAgain(t, left), s);
    }

    method CopyOut(t: Tid, ghost s: State)
      requires Represents(s) && Enabled(s, Event.CopyOut(t))
      modifies this
      ensures Represents(After(s, Event.CopyOut(t)))
    {
      ghost var after := CopyOutDone(s, t, next, head, tail, free, entry);
      var p := pc[t];
      pc := pc[t := Drained(p.slot, data[p.slot][..if p.size > msgSize then msgSize else p.size])];
    }

    /** Last section of rt_mq_recv: the slot goes to the front of the free list. */
    method Release(t: Tid, ghost s: State) returns (buffer: seq<int>)
      requires Represents(s) && Enabled(s, Event.Release(t))
      modifies this
      ensures Represents(After(s, Event.Release(t))) && buffer == old(pc)[t].buffer
    {
      ghost var after := ReleaseDone(s, t, next, head, tail, free, entry);
      var msg := pc[t].slot;
      buffer := pc[t].buffer;
      next := next[msg := free];
      free := Some(msg);
      pc := pc[t := Idle];
    }

    method Expire(t: Tid, ghost s: State)
      requires Represents(s) && Enabled(s, Event.Expire(t))
      modifies this
      ensures Represents(After(s, Event.Expire(t)))
    {
      ghost var after := LeaveDone(s, Event.Expire(t), next, head, tail, free, entry);
      receivers, pc := Remove(receivers, t), pc[t := Failing];
    }

    method Return(t: Tid, ghost s: State)
      requires Represents(s) && Enabled(s, Event.Return(t))
      modifies this
      ensures Represents(After(s, Event.Return(t)))
    {
      ghost var after := LeaveDone(s, Event.Return(t), next, head, tail, free, entry);
      pc := pc[t := Idle];
    }

    /** rt_thread_control or priority inheritance: the wait list is left as it is. */
    method ChangePriority(t: Tid, p: nat, ghost s: State)
      requires Represents(s) && t < |pc|
      modifies `prio
      ensures Represents(After(s, Event.ChangePriority(t, p)))
    {
      StepReachable(s, Event.ChangePriority(t, p));
      prio := prio[t := p];
    }

    /** Move the head of the queue to the free list. */
    method FreeHead(ghost q: seq<Slot>, ghost f: seq<Slot>, ghost links: seq<Option<Slot>>, ghost q0: seq<Slot>)
      requires q != [] && Holds(q) && NoDup(q) && Chained(next, f) && free == First(f) && Apart(q, f)
      requires q[0] in q0 && SparedBut(links, next, q0)
      modifies `next, `head, `tail, `free
      ensures Holds(q[1..]) && Chained(next, [q[0]] + f) && free == First([q[0]] + f)
      ensures SparedBut(links, next, q0)
    {
      MoveFirst(next, q, f);
      var msg := head.value;
      head := next[msg];
      if tail == Some(msg) {
        tail := None;
      }
      next := next[msg := free];
      free := Some(msg);
    }

    /** The loop of rt_mq_control. */
    method FreeQueued(ghost q0: seq<Slot>, ghost f0: seq<Slot>)
      requires Holds(q0) && NoDup(q0) && Chained(next, f0) && free == First(f0) && Apart(q0, f0)
      modifies `next, `head, `tail, `free
      ensures head == None && tail == None
      ensures Chained(next, Reverse(q0) + f0) && free == First(Reverse(q0) + f0)
      ensures SparedBut(old(next), next, q0)
    {
      ghost var q, f := q0, f0;
      while head.Some?
        invariant Holds(q) && NoDup(q) && Chained(next, f) && free == First(f) && Apart(q, f)
        invariant Reverse(q) + f == Reverse(q0) + f0 && Within(q, q0)
        invariant SparedBut(old(next), next, q0)
        decreases |q|
      {
        MoveElements(q, f, q0);
        FreeHead(q, f, old(next), q0);
        f, q := [q[0]] + f, q[1..];
      }
      assert Reverse(q) + f == f;
    }

    /** rt_ipc_list_resume_all, then the loop. */
    method ResetSection(ghost q: seq<Slot>, ghost f: seq<Slot>)
      requires Holds(q) && NoDup(q) && Chained(next, f) && free == First(f) && Apart(q, f) && Threads(receivers, |pc|)
      modifies `next, `head, `tail, `free, `entry, `receivers, `pc
      ensures head == None && tail == None && entry == 0 && receivers == []
      ensures Chained(next, Reverse(q) + f) && free == First(Reverse(q) + f) && SparedBut(old(next), next, q)
      ensures Failed(old(receivers), old(pc), pc)
    {
      pc := ListResumeAll(receivers, pc, Failing);
      receivers := [];
      FreeQueued(q, f);
      entry := 0;
    }

    method Reset(ghost s: State)
      requires Represents(s)
      modifies this
      ensures Represents(After(s, Event.Reset))
    {
      ResetReady(s);
      ResetSection(s.queue, s.free);
      ghost var after := ResetDone(s, old(next), next, free, pc);
    }
  }
}
