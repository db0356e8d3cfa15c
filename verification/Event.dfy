/**
 Event sets (rt_event_send, rt_event_recv in src/ipc.c). Threads wait for all or for any
 of some bits; a send wakes every waiter whose condition now holds, in list order, and a
 waiter may take the bits it received out of the set. Sets of bits are sets of bit numbers.
 */
module EventProtocol {
  import opened Sequences
  import opened WaitList

  type Bits = set<nat>

  /** What a thread waits for: all of `bits` or any of them, and whether to clear what it gets. */
  datatype Request = Request(bits: Bits, all: bool, clear: bool)

  datatype Pc =
    | Idle
    | Blocked(req: Request, wait: Wait)
    | Received(got: Bits)
    | Failing

  datatype Event =
    | Send(bits: Bits)
    | Recv(t: Tid, req: Request, wait: Wait)
    | Expire(t: Tid)
    | Return(t: Tid)
    | ChangePriority(t: Tid, p: nat)     // of any thread, at any time: the list is not sorted again

  datatype State = State(
    bits: Bits, waiters: seq<Tid>, pc: seq<Pc>,
    flag: Flag, prio: seq<nat>, now: nat, stamp: seq<nat>)

  /** The condition of a request holds. */
  predicate Holds(req: Request, bits: Bits) {
    if req.all then req.bits <= bits else req.bits * bits != {}
  }

  /** The bits a thread is given when its condition holds. */
  function Gets(req: Request, bits: Bits): Bits {
    if req.all then req.bits else req.bits * bits
  }

  /** What is left of the set. */
  function Left(req: Request, bits: Bits): Bits {
    if req.clear then bits - Gets(req, bits) else bits
  }

  ghost predicate AllBlocked(q: seq<Tid>, pc: seq<Pc>) {
    forall i | 0 <= i < |q| :: q[i] < |pc| && pc[q[i]].Blocked?
  }

  datatype Walked = Walked(bits: Bits, waiters: seq<Tid>, pc: seq<Pc>)

  /** The walk of rt_event_send along the waiters. */
  ghost function Walk(q: seq<Tid>, bits: Bits, pc: seq<Pc>): (r: Walked)
    requires AllBlocked(q, pc) && NoDup(q)
    ensures |r.pc| == |pc| && r.bits <= bits
    decreases |q|
  {
    if q == [] then Walked(bits, [], pc)
    else
      var t, rest := q[0], q[1..];
      var req := pc[t].req;
      if Holds(req, bits) then
        var pc' := pc[t := Received(Gets(req, bits))];
        assert AllBlocked(rest, pc') by {
          forall i | 0 <= i < |rest| ensures rest[i] < |pc'| && pc'[rest[i]].Blocked? {
            assert rest[i] == q[i + 1] && q[0] != q[i + 1];
          }
        }
        Walk(rest, Left(req, bits), pc')
      else
        var r := Walk(rest, bits, pc);
        Walked(r.bits, [t] + r.waiters, r.pc)
  }

  /** Threads outside the list are not touched. */
  lemma {:induction false} WalkOthers(q: seq<Tid>, bits: Bits, pc: seq<Pc>, t: Tid)
    requires AllBlocked(q, pc) && NoDup(q) && t < |pc| && t !in q
    ensures Walk(q, bits, pc).pc[t] == pc[t]
    decreases |q|
  {
    if q != [] {
      var rest, req := q[1..], pc[q[0]].req;
      assert forall i | 0 <= i < |rest| :: rest[i] == q[i + 1];
      if Holds(req, bits) {
        WalkOthers(rest, Left(req, bits), pc[q[0] := Received(Gets(req, bits))], t);
      } else {
        WalkOthers(rest, bits, pc, t);
      }
    }
  }

  /** Who keeps waiting waits in the old order, unchanged, and in vain: the set only shrinks during the walk. */
  lemma {:induction false} WalkWaiters(q: seq<Tid>, bits: Bits, pc: seq<Pc>)
    requires AllBlocked(q, pc) && NoDup(q)
    ensures var r := Walk(q, bits, pc);
      && Subsequence(r.waiters, q)
      && (forall t :: t in r.waiters ==> t in q && r.pc[t] == pc[t] && !Holds(pc[t].req, r.bits))
      && (forall t :: t in q && t !in r.waiters ==> r.pc[t].Received?)
    decreases |q|
  {
    if q != [] {
      var t, rest := q[0], q[1..];
      var req := pc[t].req;
      assert q == [t] + rest && forall i | 0 <= i < |rest| :: rest[i] == q[i + 1];
      assert t !in rest;
      var r := Walk(q, bits, pc);
      if Holds(req, bits) {
        var pc' := pc[t := Received(Gets(req, bits))];
        assert AllBlocked(rest, pc');
        WalkWaiters(rest, Left(req, bits), pc');
        WalkOthers(rest, Left(req, bits), pc', t);
        SubsequenceMore(r.waiters, t, rest);
      } else {
        WalkWaiters(rest, bits, pc);
        WalkOthers(rest, bits, pc, t);
        assert r.waiters[1..] == Walk(rest, bits, pc).waiters;
      }
    }
  }

  lemma {:induction false} SubsequenceMore(a: seq<Tid>, t: Tid, b: seq<Tid>)
    requires Subsequence(a, b) && t !in b
    ensures Subsequence(a, [t] + b)
  {
    assert ([t] + b)[1..] == b;
    if a != [] {
      SubsequenceIn(a, b);
    }
  }

  lemma {:induction false} SubsequenceIn(a: seq<Tid>, b: seq<Tid>)
    requires Subsequence(a, b)
    ensures forall t :: t in a ==> t in b
    decreases |b|
  {
    if a != [] {
      assert b == [b[0]] + b[1..];
      if a[0] == b[0] {
        assert a == [a[0]] + a[1..];
        SubsequenceIn(a[1..], b[1..]);
      } else {
        SubsequenceIn(a, b[1..]);
      }
    }
  }

  /** What becomes of the first waiter. */
  lemma WalkFirst(q: seq<Tid>, bits: Bits, pc: seq<Pc>)
    requires AllBlocked(q, pc) && NoDup(q) && q != []
    ensures var t, req, r := q[0], pc[q[0]].req, Walk(q, bits, pc);
      && (t in r.waiters <==> !Holds(req, bits))
      && r.pc[t] == if Holds(req, bits) then Received(Gets(req, bits)) else pc[t]
  {
    var t, rest, req := q[0], q[1..], pc[q[0]].req;
    TailDistinct(q);
    if Holds(req, bits) {
      var pc' := pc[t := Received(Gets(req, bits))];
      assert AllBlocked(rest, pc');
      WalkOthers(rest, Left(req, bits), pc', t);
      WalkWaiters(rest, Left(req, bits), pc');
    } else {
      WalkOthers(rest, bits, pc, t);
    }
  }

  /**
   Each waiter is judged by the set that the waiters in front of it have left: it is woken
   exactly if its condition holds for that set, with all it asked for or exactly those of its
   bits that are in it; otherwise nothing happens to it.
   */
  lemma {:induction false} WalkGives(q: seq<Tid>, bits: Bits, pc: seq<Pc>, i: nat)
    requires AllBlocked(q, pc) && NoDup(q) && i < |q|
    ensures AllBlocked(q[..i], pc) && NoDup(q[..i])
    ensures var t, req, left := q[i], pc[q[i]].req, Walk(q[..i], bits, pc).bits;
      && (t in Walk(q, bits, pc).waiters <==> !Holds(req, left))
      && Walk(q, bits, pc).pc[t] == if Holds(req, left) then Received(Gets(req, left)) else pc[t]
    decreases |q|
  {
    if i == 0 {
      WalkFirst(q, bits, pc);
    } else {
      var h, rest, req := q[0], q[1..], pc[q[0]].req;
      TailDistinct(q);
      assert rest[i - 1] == q[i] && q[..i][0] == h && q[..i][1..] == rest[..i - 1];
      if Holds(req, bits) {
        var pc' := pc[h := Received(Gets(req, bits))];
        assert AllBlocked(rest, pc');
        WalkGives(rest, Left(req, bits), pc', i - 1);
      } else {
        WalkGives(rest, bits, pc, i - 1);
      }
    }
  }

  /** So nobody is given bits that were not set, or no bits. */
  lemma {:induction false} WalkGivesSet(q: seq<Tid>, bits: Bits, pc: seq<Pc>, t: Tid)
    requires AllBlocked(q, pc) && NoDup(q) && t in q && t !in Walk(q, bits, pc).waiters && pc[t].req.bits != {}
    ensures t < |pc| && Walk(q, bits, pc).pc[t].Received?
    ensures var req, got := pc[t].req, Walk(q, bits, pc).pc[t].got;
      got <= bits && got != {} && if req.all then got == req.bits else got <= req.bits
    decreases |q|
  {
    var h, rest := q[0], q[1..];
    var req := pc[h].req;
    assert q == [h] + rest && forall i | 0 <= i < |rest| :: rest[i] == q[i + 1];
    if Holds(req, bits) {
      var pc' := pc[h := Received(Gets(req, bits))];
      assert AllBlocked(rest, pc');
      if t == h {
        WalkOthers(rest, Left(req, bits), pc', t);
      } else {
        WalkGivesSet(rest, Left(req, bits), pc', t);
      }
    } else {
      WalkGivesSet(rest, bits, pc, t);
    }
  }

  /** A thread that clears takes its bits away from everybody behind it, and out of the set. */
  lemma {:induction false} WalkClears(q: seq<Tid>, bits: Bits, pc: seq<Pc>, t: Tid)
    requires AllBlocked(q, pc) && NoDup(q) && t in q && t !in Walk(q, bits, pc).waiters && pc[t].req.clear
    ensures Walk(q, bits, pc).pc[t].Received? && Walk(q, bits, pc).pc[t].got !! Walk(q, bits, pc).bits
    decreases |q|
  {
    var h, rest := q[0], q[1..];
    var req := pc[h].req;
    assert q == [h] + rest && forall i | 0 <= i < |rest| :: rest[i] == q[i + 1];
    if Holds(req, bits) {
      var pc' := pc[h := Received(Gets(req, bits))];
      assert AllBlocked(rest, pc');
      if t == h {
        WalkOthers(rest, Left(req, bits), pc', t);
      } else {
        WalkClears(rest, Left(req, bits), pc', t);
      }
    } else {
      WalkClears(rest, bits, pc, t);
    }
  }

  /** So no bit is given to two threads that clear. */
  lemma {:induction false} WalkExclusive(q: seq<Tid>, bits: Bits, pc: seq<Pc>, t: Tid, u: Tid)
    requires AllBlocked(q, pc) && NoDup(q) && t in q && u in q && t != u
    requires t !in Walk(q, bits, pc).waiters && u !in Walk(q, bits, pc).waiters
    requires pc[t].req.clear && pc[u].req.clear && pc[t].req.bits != {} && pc[u].req.bits != {}
    ensures Walk(q, bits, pc).pc[t].Received? && Walk(q, bits, pc).pc[u].Received?
    ensures Walk(q, bits, pc).pc[t].got !! Walk(q, bits, pc).pc[u].got
    decreases |q|
  {
    var h, rest := q[0], q[1..];
    var req := pc[h].req;
    assert q == [h] + rest && forall i | 0 <= i < |rest| :: rest[i] == q[i + 1];
    if Holds(req, bits) {
      var pc', left := pc[h := Received(Gets(req, bits))], Left(req, bits);
      assert AllBlocked(rest, pc');
      if t == h {
        WalkOthers(rest, left, pc', t);
        WalkGivesSet(rest, left, pc', u);
      } else if u == h {
        WalkOthers(rest, left, pc', u);
        WalkGivesSet(rest, left, pc', t);
      } else {
        WalkExclusive(rest, left, pc', t, u);
      }
    } else {
      WalkExclusive(rest, bits, pc, t, u);
    }
  }

  /** When a condition holds, what is given and what is left, bit by bit. */
  lemma ConditionMeans(req: Request, bits: Bits)
    ensures Holds(req, bits) <==>
      if req.all then forall b :: b in req.bits ==> b in bits else exists b :: b in req.bits && b in bits
    ensures Holds(req, bits) ==> forall b :: b in Gets(req, bits) <==> b in req.bits && b in bits
    ensures Holds(req, bits) ==> forall b :: b in Left(req, bits) <==> b in bits && !(req.clear && b in req.bits)
  {
    if b :| b in req.bits && b in bits {
      assert b in req.bits * bits;
    }
  }

  /** Thread `t` was woken by the walk and took bit `b` away. */
  ghost predicate TookAway(q: seq<Tid>, pc: seq<Pc>, r: Walked, t: Tid, b: nat) {
    && t in q && t !in r.waiters && t < |pc| && t < |r.pc|
    && pc[t].Blocked? && pc[t].req.clear && r.pc[t].Received? && b in r.pc[t].got
  }

  /** No bit is lost in a walk: it stays in the set, unless a waiter that clears was given it. */
  lemma {:induction false} WalkKeeps(q: seq<Tid>, bits: Bits, pc: seq<Pc>, b: nat)
    requires AllBlocked(q, pc) && NoDup(q)
    ensures var r := Walk(q, bits, pc);
      b in r.bits <==> b in bits && !exists t :: TookAway(q, pc, r, t, b)
    decreases |q|
  {
    var r := Walk(q, bits, pc);
    if b in r.bits {
      forall t | TookAway(q, pc, r, t, b) ensures false {
        WalkClears(q, bits, pc, t);
      }
    } else if q != [] && b in bits {
      var t := WalkTaker(q, bits, pc, b);
    }
  }

  lemma {:induction false} WalkTaker(q: seq<Tid>, bits: Bits, pc: seq<Pc>, b: nat) returns (t: Tid)
    requires AllBlocked(q, pc) && NoDup(q) && b in bits && b !in Walk(q, bits, pc).bits
    ensures TookAway(q, pc, Walk(q, bits, pc), t, b)
    decreases |q|
  {
    var h, rest, req := q[0], q[1..], pc[q[0]].req;
    TailDistinct(q);
    WalkFirst(q, bits, pc);
    if Holds(req, bits) {
      var pc', left := pc[h := Received(Gets(req, bits))], Left(req, bits);
      assert AllBlocked(rest, pc');
      if b in left {
        t := WalkTaker(rest, left, pc', b);
        assert t in rest && pc'[t] == pc[t];
      } else {
        t := h;
      }
    } else {
      t := WalkTaker(rest, bits, pc, b);
    }
  }

  ghost predicate Initial(s: State) {
    && |s.pc| == |s.prio| == |s.stamp|
    && s.waiters == [] && (forall t | 0 <= t < |s.pc| :: s.pc[t] == Idle)
    && (forall t | 0 <= t < |s.stamp| :: s.stamp[t] < s.now)
  }

  predicate Enabled(s: State, e: Event) {
    match e
    case Send(_) => true
    case Recv(t, _, _) => t < |s.pc| && s.pc[t] == Idle
    case Expire(t) => t < |s.pc| && s.pc[t].Blocked? && s.pc[t].wait.Ticks?
    case Return(t) => t < |s.pc| && (s.pc[t].Received? || s.pc[t] == Failing)
    case ChangePriority(t, _) => t < |s.pc|
  }

  ghost predicate Waiters(s: State) {
    && |s.pc| == |s.prio| == |s.stamp|
    && Waiting(s.waiters, s.prio, s.stamp)
    && (forall t | 0 <= t < |s.pc| :: s.pc[t].Blocked? <==> t in s.waiters)
    && (forall t | 0 <= t < |s.stamp| :: s.stamp[t] < s.now)
  }

  /** Nobody waits for something that is there, and nobody waits for nothing. */
  ghost predicate Unsatisfied(s: State) {
    forall t | 0 <= t < |s.pc| && s.pc[t].Blocked? :: !Holds(s.pc[t].req, s.bits) && s.pc[t].req.bits != {}
  }

  ghost predicate Inv(s: State) { Waiters(s) && Unsatisfied(s) }

  lemma WaitersBlocked(s: State)
    requires Waiters(s)
    ensures AllBlocked(s.waiters, s.pc) && NoDup(s.waiters)
  {
    forall i | 0 <= i < |s.waiters| ensures s.waiters[i] < |s.pc| && s.pc[s.waiters[i]].Blocked? {
      assert s.waiters[i] in s.waiters;
    }
  }

  /** rt_event_send: an empty set is refused. */
  ghost function SendStep(s: State, bits: Bits): State
    requires Waiters(s)
  {
    if bits == {} then s
    else
      WaitersBlocked(s);
      var r := Walk(s.waiters, s.bits + bits, s.pc);
      s.(bits := r.bits, waiters := r.waiters, pc := r.pc)
  }

  /** rt_event_recv. */
  ghost function RecvStep(s: State, t: Tid, req: Request, w: Wait): State
    requires Waiters(s) && t < |s.pc|
  {
    if req.bits == {} then s
    else if Holds(req, s.bits) then
      s.(pc := s.pc[t := Received(s.bits * req.bits)], bits := if req.clear then s.bits - req.bits else s.bits)
    else if w == Ticks(0) then s
    else
      s.(pc := s.pc[t := Blocked(req, w)], waiters := Enqueue(s.flag, s.waiters, s.prio, t),
         stamp := s.stamp[t := s.now], now := s.now + 1)
  }

  ghost function Next(s: State, e: Event): State
    requires Waiters(s) && Enabled(s, e)
  {
    match e
    case Send(bits) => SendStep(s, bits)
    case Recv(t, req, w) => RecvStep(s, t, req, w)
    case Expire(t) => s.(pc := s.pc[t := Failing], waiters := Remove(s.waiters, t))
    case Return(t) => s.(pc := s.pc[t := Idle])
    case ChangePriority(t, p) => s.(prio := s.prio[t := p])
  }

  lemma {:induction false} SubsequenceDistinct(a: seq<Tid>, b: seq<Tid>)
    requires Subsequence(a, b) && NoDup(b)
    ensures NoDup(a) && forall t :: t in a ==> t in b
    decreases |b|
  {
    SubsequenceIn(a, b);
    if a != [] {
      TailDistinct(b);
      if a[0] == b[0] {
        SubsequenceDistinct(a[1..], b[1..]);
        assert a[0] !in a[1..] && forall i | 0 < i < |a| :: a[i] == a[1..][i - 1];
      } else {
        SubsequenceDistinct(a, b[1..]);
      }
    }
  }

  lemma {:induction false} SubsequenceOrdered(flag: Flag, a: seq<Tid>, b: seq<Tid>, prio: seq<nat>, stamp: seq<nat>)
    requires Subsequence(a, b) && Ordered(flag, b, prio, stamp)
    ensures Ordered(flag, a, prio, stamp)
    decreases |b|
  {
    if a != [] {
      TailOrdered(flag, b, prio, stamp);
      if a[0] == b[0] {
        SubsequenceOrdered(flag, a[1..], b[1..], prio, stamp);
        SubsequenceIn(a[1..], b[1..]);
        HeadBefore(flag, a, b, prio, stamp);
      } else {
        SubsequenceOrdered(flag, a, b[1..], prio, stamp);
      }
    }
  }

  lemma HeadBefore(flag: Flag, a: seq<Tid>, b: seq<Tid>, prio: seq<nat>, stamp: seq<nat>)
    requires a != [] && b != [] && a[0] == b[0] && Ordered(flag, b, prio, stamp) && Ordered(flag, a[1..], prio, stamp)
    requires forall t :: t in a[1..] ==> t in b[1..]
    ensures Ordered(flag, a, prio, stamp)
  {
    forall i, j | 0 <= i < j < |a| ensures a[i] < |prio| && a[j] < |prio| && Before(flag, prio, stamp, a[i], a[j]) {
      assert a[j] == a[1..][j - 1] && a[j] in b[1..];
      if i > 0 {
        assert a[i] == a[1..][i - 1];
        assert Before(flag, prio, stamp, a[1..][i - 1], a[1..][j - 1]);
      } else {
        var k :| 0 <= k < |b[1..]| && b[1..][k] == a[j];
        assert Before(flag, prio, stamp, b[0], b[k + 1]);
      }
    }
    forall i | 0 <= i < |a| ensures a[i] < |prio| {
      assert i == 0 || a[i] == a[1..][i - 1];
    }
  }

  lemma SendInv(s: State, bits: Bits)
    requires Inv(s)
    ensures Inv(SendStep(s, bits))
  {
    if bits != {} {
      WaitersBlocked(s);
      var r := Walk(s.waiters, s.bits + bits, s.pc);
      WalkWaiters(s.waiters, s.bits + bits, s.pc);
      SubsequenceDistinct(r.waiters, s.waiters);
      assert forall i | 0 <= i < |r.waiters| :: r.waiters[i] in r.waiters;
      forall t | 0 <= t < |s.pc| && t !in s.waiters ensures r.pc[t] == s.pc[t] {
        WalkOthers(s.waiters, s.bits + bits, s.pc, t);
      }
    }
  }

  lemma RecvInv(s: State, t: Tid, req: Request, w: Wait)
    requires Inv(s) && Enabled(s, Recv(t, req, w))
    ensures Inv(RecvStep(s, t, req, w))
  {
    if req.bits != {} && !Holds(req, s.bits) && w != Ticks(0) {
      EnqueueDistinct(s.flag, s.waiters, s.prio, t);
    }
  }

  lemma StepInv(s: State, e: Event)
    requires Inv(s) && Enabled(s, e)
    ensures Inv(Next(s, e))
  {
    match e
    case Send(bits) => SendInv(s, bits);
    case Recv(t, req, w) => RecvInv(s, t, req, w);
    case Expire(t) => RemoveDistinct(s.waiters, t);
    case Return(t) =>
    case ChangePriority(_, _) =>
  }

  /** Every step keeps the list in order, except a priority change that takes a waiter out of its place. */
  lemma StepOrder(s: State, e: Event)
    requires Inv(s) && Ordered(s.flag, s.waiters, s.prio, s.stamp) && Enabled(s, e)
    ensures var r := Next(s, e);
      Ordered(r.flag, r.waiters, r.prio, r.stamp) <==>
          (e.ChangePriority? ==> InPlace(s.flag, s.waiters, r.prio, s.stamp, e.t))
  {
    match e
    case Send(bits) =>
      if bits != {} {
        WaitersBlocked(s);
        WalkWaiters(s.waiters, s.bits + bits, s.pc);
        SubsequenceOrdered(s.flag, Walk(s.waiters, s.bits + bits, s.pc).waiters, s.waiters, s.prio, s.stamp);
      }
    case Recv(t, req, w) =>
      if req.bits != {} && !Holds(req, s.bits) && w != Ticks(0) {
        EnqueueOrdered(s.flag, s.waiters, s.prio, s.stamp, t, s.now);
      }
    case Expire(t) => RemoveOrdered(s.flag, s.waiters, s.prio, s.stamp, t);
    case Return(t) =>
    case ChangePriority(t, p) => PriorityChange(s.flag, s.waiters, s.prio, s.stamp, t, p);
  }

  ghost predicate Run(trace: seq<State>, events: seq<Event>) {
    && |trace| == |events| + 1
    && Initial(trace[0])
    && forall i | 0 <= i < |events| :: StepAt(trace, events, i)
  }

  ghost predicate StepAt(trace: seq<State>, events: seq<Event>, i: nat)
    requires i < |events| < |trace|
  {
    Enabled(trace[i], events[i]) && (Waiters(trace[i]) ==> trace[i + 1] == Next(trace[i], events[i]))
  }

  /** In every run, after every step: nobody waits whose condition holds. */
  lemma {:induction false} NobodyWaitsInVain(trace: seq<State>, events: seq<Event>, k: nat)
    requires Run(trace, events) && k < |trace|
    ensures Inv(trace[k])
    ensures forall t | 0 <= t < |trace[k].pc| && trace[k].pc[t].Blocked? :: !Holds(trace[k].pc[t].req, trace[k].bits)
  {
    if k > 0 {
      NobodyWaitsInVain(trace, events, k - 1);
      assert StepAt(trace, events, k - 1);
      StepInv(trace[k - 1], events[k - 1]);
    }
  }

  /* What becomes of every bit. */

  /** The request that thread `t` has at event `e`. */
  function RequestOf(s: State, e: Event, t: Tid): Request
    requires t < |s.pc|
  {
    if s.pc[t].Blocked? then s.pc[t].req else if e.Recv? then e.req else Request({}, false, false)
  }

  /** Thread `t` is given bit `b` in this step, and clears. */
  ghost predicate Clears(s: State, e: Event, r: State, t: Tid, b: nat) {
    && t < |s.pc| && t < |r.pc| && !s.pc[t].Received? && r.pc[t].Received? && b in r.pc[t].got
    && RequestOf(s, e, t).clear
  }

  ghost predicate Consumed(s: State, e: Event, r: State, b: nat) {
    exists t :: Clears(s, e, r, t, b)
  }

  lemma SendBits(s: State, bits: Bits, b: nat)
    requires Inv(s) && bits != {}
    ensures var e, r := Send(bits), SendStep(s, bits);
      b in r.bits <==> (b in s.bits || b in bits) && !Consumed(s, e, r, b)
  {
    var e, r := Send(bits), SendStep(s, bits);
    WaitersBlocked(s);
    var q, all := s.waiters, s.bits + bits;
    var w := Walk(q, all, s.pc);
    WalkKeeps(q, all, s.pc, b);
    WalkWaiters(q, all, s.pc);
    forall t | Clears(s, e, r, t, b) ensures TookAway(q, s.pc, w, t, b) {
      if t !in q {
        WalkOthers(q, all, s.pc, t);
      }
    }
    forall t | TookAway(q, s.pc, w, t, b) ensures Clears(s, e, r, t, b) {
    }
  }

  lemma RecvBits(s: State, t: Tid, req: Request, w: Wait, b: nat)
    requires Inv(s) && Enabled(s, Recv(t, req, w))
    ensures var e, r := Recv(t, req, w), RecvStep(s, t, req, w);
      b in r.bits <==> b in s.bits && !Consumed(s, e, r, b)
  {
    var e, r := Recv(t, req, w), RecvStep(s, t, req, w);
    assert forall u | 0 <= u < |s.pc| && u != t :: r.pc[u] == s.pc[u];
    if b in s.bits && b !in r.bits {
      assert Clears(s, e, r, t, b);
    }
  }

  /** A bit is in the set after a step exactly if it was there or is sent, and no thread that clears was given it. */
  lemma StepBits(s: State, e: Event, b: nat)
    requires Inv(s) && Enabled(s, e)
    ensures var r := Next(s, e);
      b in r.bits <==> (b in s.bits || (e.Send? && b in e.bits)) && !Consumed(s, e, r, b)
  {
    match e
    case Send(bits) =>
      if bits != {} {
        SendBits(s, bits, b);
      }
    case Recv(t, req, w) => RecvBits(s, t, req, w, b);
    case _ =>
  }

  /** Bit `b` is not consumed in step `i` of a run. */
  ghost predicate Spared(trace: seq<State>, events: seq<Event>, i: nat, b: nat)
    requires i < |events| < |trace|
  {
    !Consumed(trace[i], events[i], trace[i + 1], b)
  }

  /** Bit `b` was sent in step `i` and has been left alone up to state `k`. */
  ghost predicate SentAt(trace: seq<State>, events: seq<Event>, i: nat, k: nat, b: nat)
    requires k <= |events| < |trace|
  {
    i < k && events[i].Send? && b in events[i].bits && forall j | i <= j < k :: Spared(trace, events, j, b)
  }

  /** In every run: a bit is set exactly if it was sent, or there at first, and no thread that clears got it since. */
  lemma {:induction false} BitHistory(trace: seq<State>, events: seq<Event>, k: nat, b: nat)
    requires Run(trace, events) && k < |trace|
    ensures b in trace[k].bits <==>
      || (b in trace[0].bits && forall j | 0 <= j < k :: Spared(trace, events, j, b))
      || exists i: nat :: SentAt(trace, events, i, k, b)
  {
    if k > 0 {
      var n := k - 1;
      BitHistory(trace, events, n, b);
      NobodyWaitsInVain(trace, events, n);
      assert StepAt(trace, events, n);
      StepBits(trace[n], events[n], b);
      assert Spared(trace, events, n, b) <==> !Consumed(trace[n], events[n], trace[k], b);
      if i: nat :| SentAt(trace, events, i, k, b) {
        assert i < n ==> SentAt(trace, events, i, n, b);
      }
      if b in trace[k].bits {
        if events[n].Send? && b in events[n].bits {
          assert SentAt(trace, events, n, k, b);
        } else if i: nat :| SentAt(trace, events, i, n, b) {
          assert SentAt(trace, events, i, k, b);
        }
      }
    }
  }

  /** A send wakes the first waiter exactly if its condition holds with the bits sent, and gives it what it wants. */
  lemma SendWakesFirst(s: State, bits: Bits)
    requires Inv(s) && bits != {} && s.waiters != []
    ensures var t, r := s.waiters[0], Next(s, Send(bits));
      && t < |s.pc| == |r.pc| && s.pc[t].Blocked?
      && var req := s.pc[t].req;
      && (r.pc[t].Received? <==> Holds(req, s.bits + bits))
      && (r.pc[t].Received? ==> forall b :: b in r.pc[t].got <==> b in req.bits && (b in s.bits || b in bits))
  {
    WaitersBlocked(s);
    WalkFirst(s.waiters, s.bits + bits, s.pc);
    ConditionMeans(s.pc[s.waiters[0]].req, s.bits + bits);
  }

  /** So does each of the others with what those in front of it have left of the set and the bits sent. */
  lemma SendWakes(s: State, bits: Bits, i: nat)
    requires Inv(s) && bits != {} && i < |s.waiters|
    ensures AllBlocked(s.waiters[..i], s.pc) && NoDup(s.waiters[..i])
    ensures var t, r := s.waiters[i], Next(s, Send(bits));
      && t < |s.pc| == |r.pc| && s.pc[t].Blocked?
      && var req, left := s.pc[t].req, Walk(s.waiters[..i], s.bits + bits, s.pc).bits;
      && (r.pc[t].Received? <==> Holds(req, left))
      && (r.pc[t].Received? ==> forall b :: b in r.pc[t].got <==> b in req.bits && b in left)
      && (!r.pc[t].Received? ==> r.pc[t] == s.pc[t])
  {
    WaitersBlocked(s);
    WalkGives(s.waiters, s.bits + bits, s.pc, i);
    ConditionMeans(s.pc[s.waiters[i]].req, Walk(s.waiters[..i], s.bits + bits, s.pc).bits);
  }

  /** What a receive does to the thread: exactly the bits it asked for, a wait for them, or an error. */
  lemma RecvMoves(s: State, t: Tid, req: Request, w: Wait)
    requires Inv(s) && Enabled(s, Recv(t, req, w)) && req.bits != {}
    ensures var r := Next(s, Recv(t, req, w));
      && |r.pc| == |s.pc| && (forall u | 0 <= u < |s.pc| && u != t :: r.pc[u] == s.pc[u])
      && (if Holds(req, s.bits) then r.pc[t].Received? && forall b :: b in r.pc[t].got <==> b in req.bits && b in s.bits
          else r.pc[t] == if w == Ticks(0) then Idle else Blocked(req, w))
  {
    ConditionMeans(req, s.bits);
  }

  /** A timeout fails the thread, a return ends its call, and nothing else changes for anybody. */
  lemma EndMoves(s: State, e: Event, u: Tid)
    requires Inv(s) && Enabled(s, e) && !e.Send? && !e.Recv? && u < |s.pc|
    ensures var r := Next(s, e);
      && |r.pc| == |s.pc| && r.bits == s.bits
      && r.pc[u] == (if e.t != u || e.ChangePriority? then s.pc[u] else if e.Expire? then Failing else Idle)
      && r.prio == (if e.ChangePriority? then s.prio[e.t := e.p] else s.prio)
  {
  }

  /** The call that thread `t` made last. */
  function CallOf(events: seq<Event>, t: Tid): Option<Event> {
    if events == [] then None
    else
      var e := events[|events| - 1];
      if e.Recv? && e.t == t then Some(e) else CallOf(events[..|events| - 1], t)
  }

  /** `p` is a state of the call `c`. */
  predicate Serves(p: Pc, c: Option<Event>) {
    match p
    case Blocked(req, w) => c.Some? && c.value.Recv? && c.value.req == req && c.value.wait == w
    case Received(got) =>
      && c.Some? && c.value.Recv? && got != {}
      && if c.value.req.all then got == c.value.req.bits else got <= c.value.req.bits
    case _ => true
  }

  lemma SendServes(s: State, bits: Bits, u: Tid, c: Option<Event>)
    requires Inv(s) && u < |s.pc| && Serves(s.pc[u], c) && bits != {}
    ensures |SendStep(s, bits).pc| == |s.pc| && Serves(SendStep(s, bits).pc[u], c)
  {
    WaitersBlocked(s);
    var q, all := s.waiters, s.bits + bits;
    WalkWaiters(q, all, s.pc);
    if u !in q {
      WalkOthers(q, all, s.pc, u);
    } else if u !in Walk(q, all, s.pc).waiters {
      WalkGivesSet(q, all, s.pc, u);
    }
  }

  lemma StillServes(s: State, e: Event, u: Tid, c: Option<Event>)
    requires Inv(s) && Enabled(s, e) && u < |s.pc| && Serves(s.pc[u], c)
    ensures |Next(s, e).pc| == |s.pc| && Serves(Next(s, e).pc[u], if e.Recv? && e.t == u then Some(e) else c)
  {
    if e.Send? && e.bits != {} {
      SendServes(s, e.bits, u, c);
    }
  }

  /** In every run: a thread waits for what it asked for last, and has received all of it, or some if any will do. */
  lemma {:induction false} OwnCall(trace: seq<State>, events: seq<Event>, k: nat, t: Tid)
    requires Run(trace, events) && k < |trace| && t < |trace[0].pc|
    ensures |trace[k].pc| == |trace[0].pc| && Serves(trace[k].pc[t], CallOf(events[..k], t))
  {
    if k > 0 {
      OwnCall(trace, events, k - 1, t);
      NobodyWaitsInVain(trace, events, k - 1);
      assert StepAt(trace, events, k - 1);
      StillServes(trace[k - 1], events[k - 1], t, CallOf(events[..k - 1], t));
      assert events[..k][..k - 1] == events[..k - 1];
    }
  }

  /** The list is in order in every run whose priority changes leave the waiters in place: always for FIFO. */
  lemma {:induction false} RunOrder(trace: seq<State>, events: seq<Event>, k: nat)
    requires Run(trace, events) && k < |trace|
    requires forall i | 0 <= i < k && events[i].ChangePriority? :: FittingAt(trace[i], events[i])
    ensures Ordered(trace[k].flag, trace[k].waiters, trace[k].prio, trace[k].stamp)
  {
    if k > 0 {
      RunOrder(trace, events, k - 1);
      NobodyWaitsInVain(trace, events, k - 1);
      assert StepAt(trace, events, k - 1);
      var s, e := trace[k - 1], events[k - 1];
      if e.ChangePriority? {
        assert FittingAt(s, e);
        PriorityChange(s.flag, s.waiters, s.prio, s.stamp, e.t, e.p);
      }
      StepOrder(s, e);
    }
  }

  ghost predicate FittingAt(s: State, e: Event)
    requires e.ChangePriority?
  {
    s.flag == Fifo || (Waiters(s) && e.t < |s.pc| && InPlace(s.flag, s.waiters, s.prio[e.t := e.p], s.stamp, e.t))
  }
}

/** struct rt_event. */
module EventObject {
  import opened Sequences
  import opened WaitList
  import opened EventProtocol

  datatype Outcome = Done | Refused | TimedOut | Suspended

  class EventSet {
    var bits: Bits
    var waiters: seq<Tid>
    var pc: seq<Pc>
    const flag: Flag
    var prio: seq<nat>

    ghost predicate Represents(s: State)
      reads this
    {
      && Inv(s)
      && s.bits == bits && s.waiters == waiters && s.pc == pc && s.flag == flag && s.prio == prio
    }

    constructor (flag: Flag, prio: seq<nat>)
      ensures exists s :: Initial(s) && Represents(s) && s.bits == {} && s.prio == prio && s.flag == flag
    {
      this.flag, this.prio := flag, prio;
      bits, waiters, pc := {}, [], seq(|prio|, _ => Idle);
      new;
      ghost var s := State({}, [], pc, flag, prio, 1, seq(|prio|, _ => 0));
      assert Initial(s) && Represents(s);
    }

    /** The loop of rt_event_send: test each waiter, resume it if its condition holds, go on to the next. */
    method WakeAll()
      requires AllBlocked(waiters, pc) && NoDup(waiters)
      modifies `bits, `waiters, `pc
      ensures Walk(old(waiters), old(bits), old(pc)) == Walked(bits, waiters, pc)
    {
      var q := waiters;
      var kept: seq<Tid> := [];
      for i := 0 to |q|
        invariant AllBlocked(q[i..], pc) && NoDup(q[i..])
        invariant var r := Walk(q[i..], bits, pc);
          Walk(old(waiters), old(bits), old(pc)) == Walked(r.bits, kept + r.waiters, r.pc)
      {
        var t := q[i];
        var req := pc[t].req;
        assert q[i..][0] == t && q[i..][1..] == q[i + 1..];
        ghost var r := Walk(q[i..], bits, pc);
        if Holds(req, bits) {
          pc := pc[t := Received(Gets(req, bits))];
          bits := Left(req, bits);
        } else {
          ghost var rest := Walk(q[i + 1..], bits, pc).waiters;
          assert kept + ([t] + rest) == (kept + [t]) + rest;
          kept := kept + [t];
        }
      }
      waiters := kept;
      assert q[|q|..] == [];
    }

    method Send(set': Bits, ghost s: State) returns (r: Outcome)
      requires Represents(s)
      modifies this
      ensures Represents(SendStep(s, set')) && r == if set' == {} then Refused else Done
    {
      if set' == {} {
        return Refused;
      }
      SendInv(s, set');
      WaitersBlocked(s);
      bits := bits + set';
      if waiters != [] {
        WakeAll();
      }
      r := Done;
    }

    method Recv(t: Tid, req: Request, w: Wait, ghost s: State) returns (r: Outcome, recved: Bits)
      requires Represents(s) && Enabled(s, Event.Recv(t, req, w))
      modifies this
      ensures Represents(RecvStep(s, t, req, w))
      ensures r == if req.bits == {} then Refused else if Holds(req, old(bits)) then Done
                   else if w == Ticks(0) then TimedOut else Suspended
      ensures r == Done ==>
        recved != {} && recved <= old(bits) && recved == if req.all then req.bits else req.bits * old(bits)
    {
      recved := {};
      if req.bits == {} {
        return Refused, recved;
      }
      RecvInv(s, t, req, w);
      if Holds(req, bits) {
        recved := bits * req.bits;
        pc := pc[t := Received(recved)];
        if req.clear {
          bits := bits - req.bits;
        }
        return Done, recved;
      }
      if w == Ticks(0) {
        return TimedOut, recved;
      }
      waiters := ListSuspend(flag, waiters, prio, t);
      pc := pc[t := Blocked(req, w)];
      r := Suspended;
    }

    method Expire(t: Tid, ghost s: State)
      requires Represents(s) && Enabled(s, Event.Expire(t))
      modifies this
      ensures Represents(Next(s, Event.Expire(t)))
    {
      StepInv(s, Event.Expire(t));
      waiters, pc := Remove(waiters, t), pc[t := Failing];
    }

    /** rt_thread_control or priority inheritance: the wait list is left as it is. */
    method ChangePriority(t: Tid, p: nat, ghost s: State)
      requires Represents(s) && t < |pc|
      modifies `prio
      ensures Represents(Next(s, Event.ChangePriority(t, p)))
    {
      StepInv(s, Event.ChangePriority(t, p));
      prio := prio[t := p];
    }
  }
}
