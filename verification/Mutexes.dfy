/**
 Several mutexes at once (rt_mutex_take, rt_mutex_release of src/ipc.c): a thread may hold any
 number of them while it waits for another one. Every mutex remembers the priority its owner
 ran at when it got this mutex, and gives it back on release, whatever else the owner holds.

 `base` is the priority a thread was last given by hand, and `held` the mutexes it owns, in the
 order it got them; neither is in the kernel.
 */
module MutexNesting {
  import opened Sequences
  import opened WaitList
  import MutexProtocol

  datatype Pc =
    | Idle
    | Blocked(m: nat, wait: Wait)
    | Granted            // resumed by a release that made it the owner
    | Failing            // resumed by its timer

  datatype Event =
    | Take(t: Tid, m: nat, wait: Wait)
    | Release(t: Tid, m: nat)
    | Expire(t: Tid)
    | Return(t: Tid)
    | ChangePriority(t: Tid, p: nat)

  /** struct rt_mutex. */
  datatype Lock = Lock(value: nat, owner: Option<Tid>, hold: nat, original: nat, waiters: seq<Tid>, flag: Flag)

  datatype State = State(locks: seq<Lock>, pc: seq<Pc>, prio: seq<nat>, base: seq<nat>, held: seq<seq<nat>>)

  /** A mutex nobody holds. */
  predicate Free(l: Lock) {
    l.value == 1 && l.owner == None && l.hold == 0 && l.waiters == []
  }

  ghost predicate Initial(s: State) {
    && |s.pc| == |s.prio| == |s.held| && s.base == s.prio
    && (forall m | 0 <= m < |s.locks| :: Free(s.locks[m]))
    && (forall t | 0 <= t < |s.pc| :: s.pc[t] == Idle)
    && (forall t | 0 <= t < |s.held| :: s.held[t] == [])
  }

  /** value = 1 iff nobody owns the mutex iff hold = 0; the threads blocked on it wait, each once, and not its owner. */
  ghost predicate LockOk(l: Lock, m: nat, pc: seq<Pc>) {
    && l.value <= 1 && (l.value == 1 <==> l.owner == None) && (l.owner == None <==> l.hold == 0)
    && (l.owner == None ==> l.waiters == [])
    && (l.owner.Some? ==> l.owner.value < |pc| && l.owner.value !in l.waiters)
    && Threads(l.waiters, |pc|) && NoDup(l.waiters)
    && forall t | 0 <= t < |pc| :: t in l.waiters <==> BlockedOn(pc[t], m)
  }

  predicate BlockedOn(pc: Pc, m: nat) {
    pc.Blocked? && pc.m == m
  }

  /** `q` are the mutexes that `t` owns, each once. */
  ghost predicate Holding(t: Tid, q: seq<nat>, locks: seq<Lock>) {
    && NoDup(q) && (forall i | 0 <= i < |q| :: q[i] < |locks|)
    && forall m | 0 <= m < |locks| :: m in q <==> locks[m].owner == Some(t)
  }

  ghost predicate Inv(s: State) {
    && |s.pc| == |s.prio| == |s.base| == |s.held|
    && (forall m | 0 <= m < |s.locks| :: LockOk(s.locks[m], m, s.pc))
    && (forall t | 0 <= t < |s.pc| && s.pc[t].Blocked? :: s.pc[t].m < |s.locks|)
    && (forall t | 0 <= t < |s.held| :: Holding(t, s.held[t], s.locks))
  }

  predicate Enabled(s: State, e: Event) {
    e.t < |s.pc| &&
    match e
    case Take(t, m, _) => m < |s.locks| && s.pc[t] == Idle
    case Release(t, m) => m < |s.locks| && s.pc[t] == Idle
    case Expire(t) => s.pc[t].Blocked? && s.pc[t].wait.Ticks?
    case Return(t) => s.pc[t] == Granted || s.pc[t] == Failing
    case ChangePriority(_, _) => true
  }

  ghost function Next(s: State, e: Event): State
    requires Inv(s) && Enabled(s, e)
  {
    match e
    case Take(t, m, w) =>
      assert LockOk(s.locks[m], m, s.pc);
      var l := s.locks[m];
      if l.owner == Some(t) then s.(locks := s.locks[m := l.(hold := l.hold + 1)])
      else if l.value > 0 then Acquired(s, t, m)
      else if w == Ticks(0) then s
      else BlockStep(s, t, m, w)
    case Release(t, m) =>
      assert LockOk(s.locks[m], m, s.pc);
      var l := s.locks[m];
      if l.owner != Some(t) then s
      else if l.hold > 1 then s.(locks := s.locks[m := l.(hold := l.hold - 1)])
      else HandOver(s, t, m)
    case Expire(t) =>
      var m := s.pc[t].m;
      var l := s.locks[m];
      s.(locks := s.locks[m := l.(waiters := Remove(l.waiters, t))], pc := s.pc[t := Failing])
    case Return(t) => s.(pc := s.pc[t := Idle])
    case ChangePriority(t, p) => s.(prio := s.prio[t := p], base := s.base[t := p])
  }

  ghost function Acquired(s: State, t: Tid, m: nat): State
    requires Inv(s) && t < |s.pc| && m < |s.locks| && s.locks[m].value > 0
  {
    var l := s.locks[m];
    s.(locks := s.locks[m := l.(value := l.value - 1, owner := Some(t), original := s.prio[t], hold := l.hold + 1)],
       held := s.held[t := s.held[t] + [m]])
  }

  /** The owner inherits, and the thread joins the waiters. */
  ghost function BlockStep(s: State, t: Tid, m: nat, w: Wait): State
    requires Inv(s) && t < |s.pc| && m < |s.locks| && s.locks[m].owner.Some?
  {
    assert LockOk(s.locks[m], m, s.pc);
    var l := s.locks[m];
    var prio := MutexProtocol.Inherited(s.prio, l.owner.value, s.prio[t]);
    s.(prio := prio, pc := s.pc[t := Blocked(m, w)],
       locks := s.locks[m := l.(waiters := Enqueue(l.flag, l.waiters, prio, t))])
  }

  /** The last release: the owner's priority goes back to the one it had, and the first waiter owns the mutex. */
  ghost function HandOver(s: State, t: Tid, m: nat): State
    requires Inv(s) && t < |s.pc| && m < |s.locks| && s.locks[m].owner == Some(t)
  {
    assert LockOk(s.locks[m], m, s.pc);
    var l := s.locks[m];
    var prio, held := s.prio[t := l.original], s.held[t := Remove(s.held[t], m)];
    if l.waiters == [] then
      s.(prio := prio, held := held,
         locks := s.locks[m := l.(value := l.value + 1, owner := None, hold := 0,
                                  original := MutexProtocol.NoPriority)])
    else
      var h := l.waiters[0];
      s.(prio := prio, held := held[h := held[h] + [m]], pc := s.pc[h := Granted],
         locks := s.locks[m := l.(owner := Some(h), hold := 1, original := prio[h], waiters := l.waiters[1..])])
  }

  lemma InitialInv(s: State)
    requires Initial(s)
    ensures Inv(s) && Inherited(s) && Rooted(s)
  {
    forall m | 0 <= m < |s.locks| ensures LockOk(s.locks[m], m, s.pc) && Inherits(s.locks[m], s.prio) {
      assert Free(s.locks[m]);
    }
    forall t | 0 <= t < |s.held| ensures Holding(t, s.held[t], s.locks) {
      assert forall m | 0 <= m < |s.locks| :: Free(s.locks[m]);
    }
  }

  /* Inheritance. */

  /** The owner is as urgent as every waiter. */
  ghost predicate Inherits(l: Lock, prio: seq<nat>) {
    l.owner.Some? && l.owner.value < |prio| ==>
      forall x :: x in l.waiters && x < |prio| ==> prio[l.owner.value] <= prio[x]
  }

  ghost predicate Inherited(s: State) {
    forall m | 0 <= m < |s.locks| :: Inherits(s.locks[m], s.prio)
  }

  /** Every waiter for a mutex that `t` owns, other than `except`, may be given `p` as the priority of `t`. */
  ghost predicate OwnedSuit(s: State, t: Tid, p: nat, except: Option<nat>) {
    forall m | 0 <= m < |s.locks| && s.locks[m].owner == Some(t) && except != Some(m) :: Suits(s.locks[m], s.prio, p)
  }

  ghost predicate Suits(l: Lock, prio: seq<nat>, p: nat) {
    forall x :: x in l.waiters && x < |prio| ==> p <= prio[x]
  }

  /** If `t` waits for a mutex, its owner is at least as urgent as `p`. */
  ghost predicate AwaitedSuits(s: State, t: Tid, p: nat)
    requires Inv(s) && t < |s.pc|
  {
    s.pc[t].Blocked? ==>
      var l := s.locks[s.pc[t].m];
      l.owner.Some? && l.owner.value < |s.prio| ==> s.prio[l.owner.value] <= p
  }

  /** What a step must find to keep inheritance: nothing in the kernel tests this. */
  ghost predicate Suitable(s: State, e: Event)
    requires Inv(s) && Enabled(s, e)
  {
    match e
    case Take(t, m, w) =>
      // The owner that is raised waits itself: the owner of that mutex is not raised with it.
      Lends(s, t, m, w) ==> AwaitedSuits(s, s.locks[m].owner.value, s.prio[t])
    case Release(t, m) =>
      // The owner falls back, whoever waits for its other mutexes; and the first waiter takes over as it is.
      LetsGo(s, t, m) ==>
        && OwnedSuit(s, t, s.locks[m].original, Some(m))
        && (s.locks[m].waiters != [] ==> FirstSuits(s.locks[m], s.prio))
    case ChangePriority(t, p) => OwnedSuit(s, t, p, None) && AwaitedSuits(s, t, p)
    case _ => true
  }

  ghost predicate FirstSuits(l: Lock, prio: seq<nat>)
    requires l.waiters != []
  {
    l.waiters[0] < |prio| ==> Suits(l, prio, prio[l.waiters[0]])
  }

  /** A take that blocks and raises the owner. */
  ghost predicate Lends(s: State, t: Tid, m: nat, w: Wait)
    requires Inv(s) && t < |s.pc| && m < |s.locks|
  {
    var l := s.locks[m];
    l.owner.Some? && l.owner != Some(t) && w != Ticks(0) && l.owner.value < |s.prio|
    && s.prio[t] < s.prio[l.owner.value]
  }

  /** A release that lets go of the mutex. */
  ghost predicate LetsGo(s: State, t: Tid, m: nat)
    requires t < |s.pc| && m < |s.locks|
  {
    s.locks[m].owner == Some(t) && s.locks[m].hold == 1
  }

  /** One thread gets another priority: what that means for inheritance of one mutex. */
  lemma LockPrio(l: Lock, prio: seq<nat>, t: Tid, p: nat)
    requires Inherits(l, prio) && t < |prio| && (l.owner.Some? ==> l.owner.value !in l.waiters)
    ensures Inherits(l, prio[t := p]) <==>
      && (l.owner == Some(t) ==> Suits(l, prio, p))
      && (t in l.waiters && l.owner.Some? && l.owner.value < |prio| ==> prio[l.owner.value] <= p)
  {
    var after := prio[t := p];
    assert forall x :: 0 <= x < |prio| && x != t ==> after[x] == prio[x];
    if l.owner == Some(t) && Inherits(l, after) {
      forall x | x in l.waiters && x < |prio| ensures p <= prio[x] {
        assert after[t] <= after[x];
      }
    }
  }

  lemma PriorityExact(s: State, t: Tid, p: nat)
    requires Inv(s) && Inherited(s) && t < |s.pc|
    ensures Inherited(s.(prio := s.prio[t := p])) <==> OwnedSuit(s, t, p, None) && AwaitedSuits(s, t, p)
  {
    var r := s.(prio := s.prio[t := p]);
    forall m | 0 <= m < |s.locks|
      ensures LockOk(s.locks[m], m, s.pc) && Inherits(s.locks[m], s.prio)
      ensures Inherits(r.locks[m], r.prio) <==>
        && (s.locks[m].owner == Some(t) ==> Suits(s.locks[m], s.prio, p))
        && (BlockedOn(s.pc[t], m) ==> AwaitedSuits(s, t, p))
    {
      assert LockOk(s.locks[m], m, s.pc);
      LockPrio(s.locks[m], s.prio, t, p);
    }
    if Inherited(r) {
      assert OwnedSuit(s, t, p, None);
      if s.pc[t].Blocked? {
        assert Inherits(r.locks[s.pc[t].m], r.prio);
      }
    }
  }

  lemma BlockExact(s: State, t: Tid, m: nat, w: Wait)
    requires Inv(s) && Inherited(s) && Enabled(s, Take(t, m, w)) && s.locks[m].owner.Some?
    requires s.locks[m].owner != Some(t) && w != Ticks(0)
    ensures Inherited(BlockStep(s, t, m, w)) <==> Suitable(s, Take(t, m, w))
  {
    var r, l := BlockStep(s, t, m, w), s.locks[m];
    assert LockOk(l, m, s.pc);
    var o := l.owner.value;
    var mid := s.(prio := r.prio);
    if s.prio[t] < s.prio[o] {
      PriorityExact(s, o, s.prio[t]);
      OwnersRise(s, o, s.prio[t]);
    }
    assert Inherits(r.locks[m], r.prio) <==> Inherits(mid.locks[m], mid.prio);
    BlockLocks(mid, r, m);
  }

  /** A more urgent priority suits whoever waits. */
  lemma OwnersRise(s: State, o: Tid, p: nat)
    requires Inherited(s) && o < |s.prio| && p <= s.prio[o]
    ensures OwnedSuit(s, o, p, None)
  {
    forall m | 0 <= m < |s.locks| && s.locks[m].owner == Some(o) ensures Suits(s.locks[m], s.prio, p) {
      assert Inherits(s.locks[m], s.prio);
    }
  }

  lemma BlockLocks(s: State, r: State, m: nat)
    requires |r.locks| == |s.locks| && m < |s.locks| && r.prio == s.prio
    requires forall k | 0 <= k < |s.locks| && k != m :: r.locks[k] == s.locks[k]
    requires Inherits(r.locks[m], r.prio) <==> Inherits(s.locks[m], s.prio)
    ensures Inherited(r) <==> Inherited(s)
  {
    if Inherited(s) {
      forall k | 0 <= k < |r.locks| ensures Inherits(r.locks[k], r.prio) {
        assert Inherits(s.locks[k], s.prio);
      }
    }
    if Inherited(r) {
      forall k | 0 <= k < |s.locks| ensures Inherits(s.locks[k], s.prio) {
        assert Inherits(r.locks[k], r.prio);
      }
    }
  }

  lemma HandOverExact(s: State, t: Tid, m: nat)
    requires Inv(s) && Inherited(s) && Enabled(s, Release(t, m)) && LetsGo(s, t, m)
    ensures Inherited(HandOver(s, t, m)) <==> Suitable(s, Release(t, m))
  {
    var r, l := HandOver(s, t, m), s.locks[m];
    assert LockOk(l, m, s.pc);
    forall k | 0 <= k < |s.locks| && k != m
      ensures Inherits(r.locks[k], r.prio) <==> (s.locks[k].owner == Some(t) ==> Suits(s.locks[k], s.prio, l.original))
    {
      assert LockOk(s.locks[k], k, s.pc) && Inherits(s.locks[k], s.prio);
      LockPrio(s.locks[k], s.prio, t, l.original);
    }
    FirstExact(s, t, m);
    if Inherited(r) {
      assert Inherits(r.locks[m], r.prio);
    }
  }

  lemma FirstExact(s: State, t: Tid, m: nat)
    requires Inv(s) && Inherited(s) && Enabled(s, Release(t, m)) && LetsGo(s, t, m)
    ensures var r, l := HandOver(s, t, m), s.locks[m];
      Inherits(r.locks[m], r.prio) <==> (l.waiters != [] ==> FirstSuits(l, s.prio))
  {
    var r, l := HandOver(s, t, m), s.locks[m];
    assert LockOk(l, m, s.pc);
    if l.waiters != [] {
      TailDistinct(l.waiters);
      if Inherits(r.locks[m], r.prio) {
        forall x | x in l.waiters && x < |s.prio| ensures s.prio[l.waiters[0]] <= s.prio[x] {
          assert x == l.waiters[0] || x in r.locks[m].waiters;
        }
      }
    }
  }

  /** Inheritance survives a step if and only if the step is suitable. */
  lemma StepInherits(s: State, e: Event)
    requires Inv(s) && Enabled(s, e) && Inherited(s)
    ensures Inherited(Next(s, e)) <==> Suitable(s, e)
  {
    match e
    case Take(t, m, w) =>
      var l := s.locks[m];
      assert LockOk(l, m, s.pc) && Inherits(l, s.prio);
      if l.owner.Some? && l.owner != Some(t) && w != Ticks(0) {
        BlockExact(s, t, m, w);
      } else {
        BlockLocks(s, Next(s, e), m);
      }
    case Release(t, m) =>
      assert LockOk(s.locks[m], m, s.pc) && Inherits(s.locks[m], s.prio);
      if LetsGo(s, t, m) {
        HandOverExact(s, t, m);
      } else {
        BlockLocks(s, Next(s, e), m);
      }
    case Expire(t) =>
      var m := s.pc[t].m;
      assert LockOk(s.locks[m], m, s.pc) && Inherits(s.locks[m], s.prio);
      RemoveElements(s.locks[m].waiters, t);
      BlockLocks(s, Next(s, e), m);
    case Return(t) =>
    case ChangePriority(t, p) =>
      PriorityExact(s, t, p);
  }

  /* Each thread's own priority. */

  /** Who holds no mutex runs at its own priority, and who holds some will fall back to it with the first it got. */
  ghost predicate RootedAt(s: State, t: Tid)
    requires Inv(s) && t < |s.pc|
  {
    assert Holding(t, s.held[t], s.locks);
    if s.held[t] == [] then s.prio[t] == s.base[t] else s.locks[s.held[t][0]].original == s.base[t]
  }

  ghost predicate Rooted(s: State)
    requires Inv(s)
  {
    forall t | 0 <= t < |s.pc| :: RootedAt(s, t)
  }

  /** What a step must find to keep this. */
  ghost predicate Grounded(s: State, e: Event)
    requires Inv(s) && Enabled(s, e)
  {
    assert Holding(e.t, s.held[e.t], s.locks);
    match e
    case Release(t, m) =>
      LetsGo(s, t, m) && |s.held[t]| > 1 && s.held[t][0] == m ==> s.locks[s.held[t][1]].original == s.base[t]
    case ChangePriority(t, p) => s.held[t] != [] ==> s.locks[s.held[t][0]].original == p
    case _ => true
  }

  /* Every step keeps the invariant. */

  /** Threads other than waiters of mutex `m` wait as they did. */
  ghost predicate Elsewhere(s: State, r: State, m: nat) {
    && |r.locks| == |s.locks| && |r.pc| == |s.pc|
    && (forall k | 0 <= k < |s.locks| && k != m :: r.locks[k] == s.locks[k])
    && (forall t, k | 0 <= t < |s.pc| && 0 <= k < |s.locks| && k != m ::
          BlockedOn(r.pc[t], k) <==> BlockedOn(s.pc[t], k))
    && (forall t | 0 <= t < |s.pc| && r.pc[t].Blocked? :: r.pc[t].m < |s.locks|)
  }

  /** A step that concerns mutex `m` only. */
  lemma OneLock(s: State, r: State, m: nat)
    requires Inv(s) && Elsewhere(s, r, m) && |r.pc| == |r.prio| == |r.base| == |r.held|
    requires m < |r.locks| ==> LockOk(r.locks[m], m, r.pc)
    requires forall t | 0 <= t < |r.held| :: Holding(t, r.held[t], r.locks)
    ensures Inv(r)
  {
    forall k | 0 <= k < |r.locks| ensures LockOk(r.locks[k], k, r.pc) {
      if k != m {
        assert LockOk(s.locks[k], k, s.pc);
      }
    }
  }

  /** Nobody gets or loses a mutex. */
  lemma SameOwners(s: State, r: State)
    requires Inv(s) && |r.locks| == |s.locks| && r.held == s.held
    requires forall m | 0 <= m < |s.locks| :: r.locks[m].owner == s.locks[m].owner
    ensures forall t | 0 <= t < |r.held| :: Holding(t, r.held[t], r.locks)
  {
    forall t | 0 <= t < |r.held| ensures Holding(t, r.held[t], r.locks) {
      assert Holding(t, s.held[t], s.locks);
    }
  }

  lemma AcquiredInv(s: State, t: Tid, m: nat)
    requires Inv(s) && t < |s.pc| && m < |s.locks| && s.locks[m].value > 0
    ensures Inv(Acquired(s, t, m))
  {
    var r := Acquired(s, t, m);
    assert LockOk(s.locks[m], m, s.pc);
    assert LockOk(r.locks[m], m, r.pc);
    forall u | 0 <= u < |r.held| ensures Holding(u, r.held[u], r.locks) {
      assert Holding(u, s.held[u], s.locks);
      assert m !in s.held[u];
    }
    OneLock(s, r, m);
  }

  lemma BlockInv(s: State, t: Tid, m: nat, w: Wait)
    requires Inv(s) && Enabled(s, Take(t, m, w)) && s.locks[m].owner.Some? && s.locks[m].owner != Some(t)
    ensures Inv(BlockStep(s, t, m, w))
  {
    var r, l := BlockStep(s, t, m, w), s.locks[m];
    assert LockOk(l, m, s.pc);
    EnqueueDistinct(l.flag, l.waiters, r.prio, t);
    assert LockOk(r.locks[m], m, r.pc);
    SameOwners(s, r);
    OneLock(s, r, m);
  }

  lemma HandOverHeld(s: State, t: Tid, m: nat, u: Tid)
    requires Inv(s) && t < |s.pc| && m < |s.locks| && s.locks[m].owner == Some(t) && u < |s.pc|
    ensures var r := HandOver(s, t, m); Holding(u, r.held[u], r.locks)
  {
    var r := HandOver(s, t, m);
    assert LockOk(s.locks[m], m, s.pc) && Holding(u, s.held[u], s.locks);
    RemoveDistinct(s.held[u], m);
    assert forall i | 0 <= i < |s.held[u]| :: s.held[u][i] in s.held[u];
    forall i | 0 <= i < |r.held[u]| ensures r.held[u][i] < |r.locks| {
      assert r.held[u][i] in r.held[u];
    }
  }

  lemma HandOverInv(s: State, t: Tid, m: nat)
    requires Inv(s) && Enabled(s, Release(t, m)) && LetsGo(s, t, m)
    ensures Inv(HandOver(s, t, m))
  {
    var r, l := HandOver(s, t, m), s.locks[m];
    assert LockOk(l, m, s.pc);
    if l.waiters != [] {
      TailDistinct(l.waiters);
    }
    assert LockOk(r.locks[m], m, r.pc);
    forall u | 0 <= u < |r.held| ensures Holding(u, r.held[u], r.locks) {
      HandOverHeld(s, t, m, u);
    }
    OneLock(s, r, m);
  }

  lemma StepInv(s: State, e: Event)
    requires Inv(s) && Enabled(s, e)
    ensures Inv(Next(s, e))
  {
    match e
    case Take(t, m, w) =>
      var l := s.locks[m];
      assert LockOk(l, m, s.pc);
      if l.owner == Some(t) {
        SameOwners(s, Next(s, e));
        OneLock(s, Next(s, e), m);
      } else if l.value > 0 {
        AcquiredInv(s, t, m);
      } else if w != Ticks(0) {
        BlockInv(s, t, m, w);
      }
    case Release(t, m) =>
      var l := s.locks[m];
      assert LockOk(l, m, s.pc);
      if LetsGo(s, t, m) {
        HandOverInv(s, t, m);
      } else {
        SameOwners(s, Next(s, e));
        OneLock(s, Next(s, e), m);
      }
    case Expire(t) =>
      var m := s.pc[t].m;
      assert LockOk(s.locks[m], m, s.pc);
      RemoveDistinct(s.locks[m].waiters, t);
      SameOwners(s, Next(s, e));
      OneLock(s, Next(s, e), m);
    case Return(t) =>
      SameOwners(s, Next(s, e));
      OneLock(s, Next(s, e), |s.locks|);
    case ChangePriority(_, _) =>
  }

  /* ... and a thread's own priority exactly if it is grounded. */

  /** A thread that holds what it held, whose mutexes remember what they did, is rooted as it was. */
  lemma SameRoot(s: State, r: State, t: Tid)
    requires Inv(s) && Inv(r) && t < |s.pc| == |r.pc| && r.held[t] == s.held[t] && r.base[t] == s.base[t]
    requires |r.locks| == |s.locks| && forall m | 0 <= m < |s.locks| && m in s.held[t] ::
        r.locks[m].original == s.locks[m].original
    requires s.held[t] == [] ==> r.prio[t] == s.prio[t]
    ensures RootedAt(r, t) <==> RootedAt(s, t)
  {
    assert Holding(t, s.held[t], s.locks);
    if s.held[t] != [] {
      assert s.held[t][0] in s.held[t];
    }
  }

  lemma AcquiredRoot(s: State, t: Tid, m: nat)
    requires Inv(s) && Rooted(s) && t < |s.pc| && m < |s.locks| && s.locks[m].value > 0
    ensures Inv(Acquired(s, t, m)) && Rooted(Acquired(s, t, m))
  {
    var r := Acquired(s, t, m);
    AcquiredInv(s, t, m);
    assert LockOk(s.locks[m], m, s.pc);
    forall u | 0 <= u < |r.pc| ensures RootedAt(r, u) {
      assert RootedAt(s, u) && Holding(u, s.held[u], s.locks);
      if u != t {
        SameRoot(s, r, u);
      }
    }
  }

  lemma BlockRoot(s: State, t: Tid, m: nat, w: Wait)
    requires Inv(s) && Rooted(s) && Enabled(s, Take(t, m, w)) && s.locks[m].owner.Some?
    requires s.locks[m].owner != Some(t)
    ensures Inv(BlockStep(s, t, m, w)) && Rooted(BlockStep(s, t, m, w))
  {
    var r := BlockStep(s, t, m, w);
    BlockInv(s, t, m, w);
    assert LockOk(s.locks[m], m, s.pc);
    forall u | 0 <= u < |r.pc| ensures RootedAt(r, u) {
      assert RootedAt(s, u) && Holding(u, s.held[u], s.locks);
      SameRoot(s, r, u);
    }
  }

  /** The thread that lets go. */
  lemma HandOverRootOwner(s: State, t: Tid, m: nat)
    requires Inv(s) && Rooted(s) && Enabled(s, Release(t, m)) && LetsGo(s, t, m) && Inv(HandOver(s, t, m))
    ensures RootedAt(HandOver(s, t, m), t) <==> Grounded(s, Release(t, m))
  {
    var r, q := HandOver(s, t, m), s.held[t];
    assert LockOk(s.locks[m], m, s.pc) && Holding(t, q, s.locks) && RootedAt(s, t);
    assert r.held[t] == Remove(q, m) && m in q;
    var i := IndexOf(q, m);
    if q[0] == m {
      assert i == 0;
      assert |q| > 1 ==> q[1] != m;
    } else {
      assert r.held[t][0] == q[0];
    }
  }

  /** Anybody else, the new owner included. */
  lemma HandOverRootOther(s: State, t: Tid, m: nat, u: Tid)
    requires Inv(s) && Rooted(s) && Enabled(s, Release(t, m)) && LetsGo(s, t, m) && Inv(HandOver(s, t, m))
    requires u < |s.pc| && u != t
    ensures RootedAt(HandOver(s, t, m), u)
  {
    var r := HandOver(s, t, m);
    assert LockOk(s.locks[m], m, s.pc) && Holding(u, s.held[u], s.locks) && RootedAt(s, u);
    if r.held[u] == s.held[u] {
      SameRoot(s, r, u);
    } else if s.held[u] != [] {
      assert s.held[u][0] in s.held[u];
    }
  }

  lemma HandOverRoot(s: State, t: Tid, m: nat)
    requires Inv(s) && Rooted(s) && Enabled(s, Release(t, m)) && LetsGo(s, t, m)
    ensures Inv(HandOver(s, t, m))
    ensures Rooted(HandOver(s, t, m)) <==> Grounded(s, Release(t, m))
  {
    HandOverInv(s, t, m);
    HandOverRootOwner(s, t, m);
    forall u | 0 <= u < |s.pc| && u != t ensures RootedAt(HandOver(s, t, m), u) {
      HandOverRootOther(s, t, m, u);
    }
  }

  lemma ChangeRoot(s: State, t: Tid, p: nat)
    requires Inv(s) && Rooted(s) && t < |s.pc|
    ensures var r := Next(s, ChangePriority(t, p)); Inv(r) && (Rooted(r) <==> Grounded(s, ChangePriority(t, p)))
  {
    var r := Next(s, ChangePriority(t, p));
    forall u | 0 <= u < |s.pc| && u != t ensures RootedAt(r, u) {
      assert RootedAt(s, u);
      SameRoot(s, r, u);
    }
    assert RootedAt(r, t) <==> Grounded(s, ChangePriority(t, p));
  }

  /** Own priorities survive a step if and only if it is grounded. */
  lemma StepRooted(s: State, e: Event)
    requires Inv(s) && Enabled(s, e) && Rooted(s)
    ensures Inv(Next(s, e)) && (Rooted(Next(s, e)) <==> Grounded(s, e))
  {
    StepInv(s, e);
    var r := Next(s, e);
    if e.ChangePriority? {
      ChangeRoot(s, e.t, e.p);
    } else if e.Take? && s.locks[e.m].owner != Some(e.t) && s.locks[e.m].value > 0 {
      AcquiredRoot(s, e.t, e.m);
    } else if e.Take? && s.locks[e.m].owner != Some(e.t) && e.wait != Ticks(0) {
      assert LockOk(s.locks[e.m], e.m, s.pc);
      BlockRoot(s, e.t, e.m, e.wait);
    } else if e.Release? && LetsGo(s, e.t, e.m) {
      HandOverRoot(s, e.t, e.m);
    } else {
      forall u | 0 <= u < |s.pc| ensures RootedAt(r, u) {
        assert RootedAt(s, u);
        SameRoot(s, r, u);
      }
    }
  }

  /* What each step does, seen from the threads. */

  /** Thread `t` gets mutex `m`, or gets it once more, at once. */
  predicate GetsIt(s: State, t: Tid, m: nat)
    requires m < |s.locks|
  {
    s.locks[m].owner == None || s.locks[m].owner == Some(t)
  }

  /** Thread `u` stands at `q` after the event. */
  ghost predicate Moves(s: State, e: Event, u: Tid, q: Pc)
    requires Enabled(s, e) && u < |s.pc|
  {
    if e.t != u then
      q == if e.Release? && LetsGo(s, e.t, e.m) && s.locks[e.m].waiters != [] && s.locks[e.m].waiters[0] == u
           then Granted else s.pc[u]
    else match e
      case Take(_, m, w) => q == if GetsIt(s, u, m) || w == Ticks(0) then Idle else Blocked(m, w)
      case Expire(_) => q == Failing
      case ChangePriority(_, _) => q == s.pc[u]
      case _ => q == Idle
  }

  /** Thread `u` runs at priority `p` after the event: a priority lent, given back, set by hand, or the same. */
  ghost predicate Runs(s: State, e: Event, u: Tid, p: nat)
    requires Enabled(s, e) && u < |s.prio| && e.t < |s.prio|
  {
    match e
    case Take(t, m, w) =>
      p == if !GetsIt(s, t, m) && w != Ticks(0) && s.locks[m].owner == Some(u) && s.prio[t] < s.prio[u] then s.prio[t]
           else s.prio[u]
    case Release(t, m) => p == if u == t && LetsGo(s, t, m) then s.locks[m].original else s.prio[u]
    case ChangePriority(t, n) => p == if u == t then n else s.prio[u]
    case _ => p == s.prio[u]
  }

  lemma ThreadMoves(s: State, e: Event, u: Tid)
    requires Inv(s) && Enabled(s, e) && u < |s.pc|
    ensures var r := Next(s, e); |r.pc| == |r.prio| == |s.pc| && Moves(s, e, u, r.pc[u]) && Runs(s, e, u, r.prio[u])
  {
    if e.Take? {
      TakeMoves(s, e, u);
    } else if e.Release? {
      ReleaseMoves(s, e, u);
    }
  }

  lemma TakeMoves(s: State, e: Event, u: Tid)
    requires Inv(s) && Enabled(s, e) && u < |s.pc| && e.Take?
    ensures var r := Next(s, e); |r.pc| == |r.prio| == |s.pc| && Moves(s, e, u, r.pc[u]) && Runs(s, e, u, r.prio[u])
  {
    assert LockOk(s.locks[e.m], e.m, s.pc);
  }

  lemma ReleaseMoves(s: State, e: Event, u: Tid)
    requires Inv(s) && Enabled(s, e) && u < |s.pc| && e.Release?
    ensures var r := Next(s, e); |r.pc| == |r.prio| == |s.pc| && Moves(s, e, u, r.pc[u]) && Runs(s, e, u, r.prio[u])
  {
    assert LockOk(s.locks[e.m], e.m, s.pc);
    if s.locks[e.m].waiters != [] {
      assert s.locks[e.m].waiters[0] in s.locks[e.m].waiters;
    }
  }

  /* Whole runs. */

  ghost predicate Run(trace: seq<State>, events: seq<Event>) {
    && |trace| == |events| + 1
    && Initial(trace[0])
    && forall i | 0 <= i < |events| :: StepAt(trace, events, i)
  }

  ghost predicate StepAt(trace: seq<State>, events: seq<Event>, i: nat)
    requires i < |events| < |trace|
  {
    Enabled(trace[i], events[i]) && (Inv(trace[i]) ==> trace[i + 1] == Next(trace[i], events[i]))
  }

  lemma {:induction false} RunInv(trace: seq<State>, events: seq<Event>, k: nat)
    requires Run(trace, events) && k < |trace|
    ensures Inv(trace[k])
  {
    if k == 0 {
      InitialInv(trace[0]);
    } else {
      RunInv(trace, events, k - 1);
      assert StepAt(trace, events, k - 1);
      StepInv(trace[k - 1], events[k - 1]);
    }
  }

  /** In every run: a mutex has one owner, which does not wait for it, and a thread waits for one mutex only. */
  lemma Exclusion(trace: seq<State>, events: seq<Event>, k: nat, t: Tid, m: nat, n: nat)
    requires Run(trace, events) && k < |trace| && t < |trace[k].held| && m < |trace[k].locks| && n < |trace[k].locks|
    ensures m in trace[k].held[t] <==> trace[k].locks[m].owner == Some(t)
    ensures t in trace[k].locks[m].waiters ==> m !in trace[k].held[t]
    ensures t in trace[k].locks[m].waiters && t in trace[k].locks[n].waiters ==> m == n
  {
    RunInv(trace, events, k);
    var s := trace[k];
    assert LockOk(s.locks[m], m, s.pc) && LockOk(s.locks[n], n, s.pc) && Holding(t, s.held[t], s.locks);
  }

  /** The step from `s` is suitable. */
  ghost predicate Suited(s: State, e: Event) {
    Inv(s) && Enabled(s, e) ==> Suitable(s, e)
  }

  lemma {:induction false} Lasting(trace: seq<State>, events: seq<Event>, k: nat)
    requires Run(trace, events) && k < |trace| && forall i | 0 <= i < k :: Suited(trace[i], events[i])
    ensures Inv(trace[k]) && Inherited(trace[k])
  {
    RunInv(trace, events, k);
    if k == 0 {
      InitialInv(trace[0]);
    } else {
      Lasting(trace, events, k - 1);
      assert StepAt(trace, events, k - 1) && Suited(trace[k - 1], events[k - 1]);
      StepInherits(trace[k - 1], events[k - 1]);
    }
  }

  /** Every owner is as urgent as everybody waiting, in all states of a run, if and only if all steps are suitable. */
  lemma RunInherits(trace: seq<State>, events: seq<Event>)
    requires Run(trace, events)
    ensures (forall k | 0 <= k < |trace| :: Inherited(trace[k])) <==>
      (forall i | 0 <= i < |events| :: Suited(trace[i], events[i]))
  {
    if forall i | 0 <= i < |events| :: Suited(trace[i], events[i]) {
      forall k | 0 <= k < |trace| ensures Inherited(trace[k]) {
        Lasting(trace, events, k);
      }
    }
    if forall k | 0 <= k < |trace| :: Inherited(trace[k]) {
      forall i | 0 <= i < |events| ensures Suited(trace[i], events[i]) {
        RunInv(trace, events, i);
        assert StepAt(trace, events, i) && Inherited(trace[i]) && Inherited(trace[i + 1]);
        StepInherits(trace[i], events[i]);
      }
    }
  }

  /** The step from `s` leaves own priorities within reach. */
  ghost predicate Secured(s: State, e: Event) {
    Inv(s) && Enabled(s, e) ==> Grounded(s, e)
  }

  ghost predicate RootedState(s: State) {
    Inv(s) && Rooted(s)
  }

  lemma {:induction false} Rooting(trace: seq<State>, events: seq<Event>, k: nat)
    requires Run(trace, events) && k < |trace| && forall i | 0 <= i < k :: Secured(trace[i], events[i])
    ensures RootedState(trace[k])
  {
    if k == 0 {
      InitialInv(trace[0]);
    } else {
      Rooting(trace, events, k - 1);
      assert StepAt(trace, events, k - 1) && Secured(trace[k - 1], events[k - 1]);
      StepRooted(trace[k - 1], events[k - 1]);
    }
  }

  /** Threads have, or fall back to, their own priorities in all states if and only if all steps are grounded. */
  lemma RunRooted(trace: seq<State>, events: seq<Event>)
    requires Run(trace, events)
    ensures (forall k | 0 <= k < |trace| :: RootedState(trace[k])) <==>
      (forall i | 0 <= i < |events| :: Secured(trace[i], events[i]))
  {
    if forall i | 0 <= i < |events| :: Secured(trace[i], events[i]) {
      forall k | 0 <= k < |trace| ensures RootedState(trace[k]) {
        Rooting(trace, events, k);
      }
    }
    if forall k | 0 <= k < |trace| :: RootedState(trace[k]) {
      forall i | 0 <= i < |events| ensures Secured(trace[i], events[i]) {
        assert StepAt(trace, events, i) && RootedState(trace[i]) && RootedState(trace[i + 1]);
        StepRooted(trace[i], events[i]);
      }
    }
  }

  /** The mutex let go is the one got last, and priorities are changed by hand only without a mutex. */
  ghost predicate LastFirst(s: State, e: Event) {
    e.t < |s.pc| <= |s.held| ==>
      && (e.Release? && e.m < |s.locks| && LetsGo(s, e.t, e.m) ==>
            s.held[e.t] != [] ==> s.held[e.t][|s.held[e.t]| - 1] == e.m)
      && (e.ChangePriority? ==> s.held[e.t] == [])
  }

  /** In every run in which mutexes are let go in reverse order, who holds none runs at its own priority. */
  lemma ReverseRestores(trace: seq<State>, events: seq<Event>, k: nat, t: Tid)
    requires Run(trace, events) && k < |trace| && forall i | 0 <= i < k :: LastFirst(trace[i], events[i])
    requires t < |trace[k].held| && trace[k].held[t] == []
    ensures |trace[k].prio| == |trace[k].base| == |trace[k].held| && trace[k].prio[t] == trace[k].base[t]
  {
    forall i | 0 <= i < k ensures Secured(trace[i], events[i]) {
      assert LastFirst(trace[i], events[i]) && StepAt(trace, events, i);
      RunInv(trace, events, i);
      assert Holding(events[i].t, trace[i].held[events[i].t], trace[i].locks);
    }
    Rooting(trace, events, k);
    assert RootedAt(trace[k], t);
  }

  /* Without nesting. */

  /** A thread takes a mutex only while it holds no other, and no priority is changed by hand. */
  ghost predicate Modest(s: State, e: Event) {
    !e.ChangePriority? && (e.Take? && e.t < |s.held| && e.m < |s.locks| ==>
        s.held[e.t] == [] || s.locks[e.m].owner == Some(e.t))
  }

  /** The waiters stand in order of urgency. */
  ghost predicate Sorted(q: seq<Tid>, prio: seq<nat>) {
    Threads(q, |prio|) && forall i, j | 0 <= i < j < |q| :: prio[q[i]] <= prio[q[j]]
  }

  ghost predicate LockSorted(l: Lock, prio: seq<nat>) {
    l.flag.Prio? && Sorted(l.waiters, prio)
  }

  /** Nobody holds two mutexes, nor one and waits for another. */
  ghost predicate Single(q: seq<nat>, pc: Pc) {
    |q| <= 1 && (pc.Blocked? ==> q == [])
  }

  ghost predicate Unnested(s: State)
    requires Inv(s)
  {
    && (forall m | 0 <= m < |s.locks| :: LockSorted(s.locks[m], s.prio))
    && (forall t | 0 <= t < |s.pc| :: Single(s.held[t], s.pc[t]))
  }

  lemma UnnestedSuitable(s: State, e: Event)
    requires Inv(s) && Enabled(s, e) && Unnested(s) && Modest(s, e)
    ensures Suitable(s, e)
  {
    if e.Take? && Lends(s, e.t, e.m, e.wait) {
      var o := s.locks[e.m].owner.value;
      assert Holding(o, s.held[o], s.locks) && Single(s.held[o], s.pc[o]);
    }
    if e.Release? && LetsGo(s, e.t, e.m) {
      assert Holding(e.t, s.held[e.t], s.locks) && Single(s.held[e.t], s.pc[e.t]) && LockSorted(s.locks[e.m], s.prio);
      assert forall k | 0 <= k < |s.locks| && s.locks[k].owner == Some(e.t) :: k == s.held[e.t][0];
    }
  }

  /** Priorities of threads that do not wait are no matter to the order. */
  lemma OrderElsewhere(s: State, t: Tid, p: nat, m: nat)
    requires Inv(s) && Unnested(s) && t < |s.pc| && !s.pc[t].Blocked? && m < |s.locks|
    ensures LockSorted(s.locks[m], s.prio[t := p])
  {
    var q := s.locks[m].waiters;
    assert LockOk(s.locks[m], m, s.pc) && LockSorted(s.locks[m], s.prio);
    assert forall i | 0 <= i < |q| :: q[i] in q && s.prio[t := p][q[i]] == s.prio[q[i]];
  }

  lemma EnqueueSorted(q: seq<Tid>, prio: seq<nat>, t: Tid)
    requires Sorted(q, prio) && t < |prio|
    ensures Sorted(Enqueue(Prio, q, prio, t), prio)
  {
    InsertSorted(q, prio, t, Position(q, prio, t));
  }

  lemma InsertSorted(q: seq<Tid>, prio: seq<nat>, t: Tid, i: nat)
    requires Sorted(q, prio) && t < |prio| && i <= |q|
    requires (forall k | 0 <= k < i :: prio[q[k]] <= prio[t]) && (i < |q| ==> prio[t] < prio[q[i]])
    ensures Sorted(q[..i] + [t] + q[i..], prio)
  {
    var r := q[..i] + [t] + q[i..];
    assert forall k | 0 <= k < |r| :: r[k] == if k < i then q[k] else if k == i then t else q[k - 1];
    forall a, b | 0 <= a < b < |r| ensures prio[r[a]] <= prio[r[b]] {
      if a == i && b > i + 1 {
        assert prio[q[i]] <= prio[q[b - 1]];
      }
    }
  }

  lemma BlockUnnested(s: State, t: Tid, m: nat, w: Wait)
    requires Inv(s) && Unnested(s) && Enabled(s, Take(t, m, w)) && s.locks[m].owner.Some?
    requires s.locks[m].owner != Some(t) && s.held[t] == []
    ensures Inv(BlockStep(s, t, m, w)) && Unnested(BlockStep(s, t, m, w))
  {
    var r, o := BlockStep(s, t, m, w), s.locks[m].owner.value;
    BlockInv(s, t, m, w);
    assert LockOk(s.locks[m], m, s.pc) && Holding(o, s.held[o], s.locks) && Single(s.held[o], s.pc[o]);
    forall k | 0 <= k < |s.locks| ensures LockSorted(r.locks[k], r.prio) {
      assert LockSorted(s.locks[k], s.prio);
      OrderElsewhere(s, o, s.prio[t], k);
      assert LockSorted(s.locks[k], r.prio);
      EnqueueSorted(s.locks[k].waiters, r.prio, t);
    }
    forall u | 0 <= u < |s.pc| ensures Single(r.held[u], r.pc[u]) {
      assert Single(s.held[u], s.pc[u]);
    }
  }

  lemma HandOverUnnested(s: State, t: Tid, m: nat)
    requires Inv(s) && Unnested(s) && Enabled(s, Release(t, m)) && LetsGo(s, t, m)
    ensures Inv(HandOver(s, t, m)) && Unnested(HandOver(s, t, m))
  {
    var r := HandOver(s, t, m);
    HandOverInv(s, t, m);
    assert LockOk(s.locks[m], m, s.pc) && Holding(t, s.held[t], s.locks);
    forall k | 0 <= k < |s.locks| ensures LockSorted(r.locks[k], r.prio) {
      OrderElsewhere(s, t, s.locks[m].original, k);
    }
    forall u | 0 <= u < |s.pc| ensures Single(r.held[u], r.pc[u]) {
      assert Single(s.held[u], s.pc[u]);
    }
  }

  lemma ExpireUnnested(s: State, t: Tid)
    requires Inv(s) && Unnested(s) && Enabled(s, Expire(t))
    ensures var r := Next(s, Expire(t)); Inv(r) && Unnested(r)
  {
    StepInv(s, Expire(t));
    var r, m := Next(s, Expire(t)), s.pc[t].m;
    forall k | 0 <= k < |s.locks| ensures LockSorted(r.locks[k], r.prio) {
      assert LockSorted(s.locks[k], s.prio);
    }
    forall u | 0 <= u < |s.pc| ensures Single(r.held[u], r.pc[u]) {
      assert Single(s.held[u], s.pc[u]);
    }
  }

  lemma StepUnnested(s: State, e: Event)
    requires Inv(s) && Enabled(s, e) && Unnested(s) && Modest(s, e)
    ensures Inv(Next(s, e)) && Unnested(Next(s, e))
  {
    StepInv(s, e);
    var r := Next(s, e);
    if e.Expire? {
      ExpireUnnested(s, e.t);
    } else if e.Release? && LetsGo(s, e.t, e.m) {
      HandOverUnnested(s, e.t, e.m);
    } else if e.Take? && s.locks[e.m].owner.Some? && s.locks[e.m].owner != Some(e.t) && e.wait != Ticks(0) {
      BlockUnnested(s, e.t, e.m, e.wait);
    } else {
      forall k | 0 <= k < |s.locks| ensures LockSorted(r.locks[k], r.prio) {
        assert LockSorted(s.locks[k], s.prio);
      }
      forall u | 0 <= u < |s.pc| ensures Single(r.held[u], r.pc[u]) {
        assert Single(s.held[u], s.pc[u]);
      }
    }
  }

  lemma {:induction false} RunUnnested(trace: seq<State>, events: seq<Event>, k: nat)
    requires Run(trace, events) && k < |trace| && forall m | 0 <= m < |trace[0].locks| :: trace[0].locks[m].flag.Prio?
    requires forall i | 0 <= i < k :: Modest(trace[i], events[i])
    ensures Inv(trace[k]) && Unnested(trace[k]) && Inherited(trace[k])
  {
    if k == 0 {
      InitialInv(trace[0]);
      assert forall m | 0 <= m < |trace[0].locks| :: Free(trace[0].locks[m]);
    } else {
      RunUnnested(trace, events, k - 1);
      assert StepAt(trace, events, k - 1) && Modest(trace[k - 1], events[k - 1]);
      StepUnnested(trace[k - 1], events[k - 1]);
      UnnestedSuitable(trace[k - 1], events[k - 1]);
      StepInherits(trace[k - 1], events[k - 1]);
    }
  }

  /** Any number of PRIO mutexes: as long as nobody takes one while it holds another, every owner inherits. */
  lemma OneAtATime(trace: seq<State>, events: seq<Event>, k: nat, m: nat, t: Tid)
    requires Run(trace, events) && k < |trace| && forall m | 0 <= m < |trace[0].locks| :: trace[0].locks[m].flag.Prio?
    requires forall i | 0 <= i < k :: Modest(trace[i], events[i])
    requires m < |trace[k].locks| && t in trace[k].locks[m].waiters
    ensures var s := trace[k];
      && s.locks[m].owner.Some? && s.locks[m].owner.value < |s.prio| && t < |s.prio|
      && s.prio[s.locks[m].owner.value] <= s.prio[t]
  {
    RunUnnested(trace, events, k);
    assert LockOk(trace[k].locks[m], m, trace[k].pc) && Inherits(trace[k].locks[m], trace[k].prio);
  }

  /* One mutex. */

  function OnePc(pc: MutexProtocol.Pc): Pc {
    match pc
    case Idle => Idle
    case Blocked(w) => Blocked(0, w)
    case Granted => Granted
    case Failing => Failing
  }

  /** The only mutex, and those who hold it. */
  ghost function One(s: MutexProtocol.State): (r: State)
    ensures |r.locks| == 1 && |r.pc| == |r.held| == |s.pc|
    ensures forall t | 0 <= t < |s.pc| :: r.pc[t] == OnePc(s.pc[t])
    ensures forall t | 0 <= t < |s.pc| :: r.held[t] == if s.owner == Some(t) then [0] else []
  {
    State([Lock(s.value, s.owner, s.hold, s.original, s.waiters, s.flag)],
      seq(|s.pc|, t requires 0 <= t < |s.pc| => OnePc(s.pc[t])), s.prio, s.base,
      seq(|s.pc|, t requires 0 <= t < |s.pc| => if s.owner == Some(t) then [0] else []))
  }

  function OneEvent(e: MutexProtocol.Event): Event {
    match e
    case Take(t, w) => Take(t, 0, w)
    case Release(t) => Release(t, 0)
    case Expire(t) => Expire(t)
    case Return(t) => Return(t)
  }

  lemma OneInv(s: MutexProtocol.State)
    requires MutexProtocol.Inv(s)
    ensures Inv(One(s))
  {
    OrderedDistinct(s.flag, s.waiters, s.base, s.stamp);
    assert LockOk(One(s).locks[0], 0, One(s).pc);
  }

  ghost predicate Matches(a: State, s: MutexProtocol.State) {
    && a.locks == [Lock(s.value, s.owner, s.hold, s.original, s.waiters, s.flag)]
    && |a.pc| == |a.held| == |s.pc| && a.prio == s.prio && a.base == s.base
    && (forall t | 0 <= t < |s.pc| :: a.pc[t] == OnePc(s.pc[t]))
    && (forall t | 0 <= t < |s.pc| :: a.held[t] == if s.owner == Some(t) then [0] else [])
  }

  lemma MatchesOne(a: State, s: MutexProtocol.State)
    requires Matches(a, s)
    ensures a == One(s)
  {
    assert a.pc == One(s).pc && a.held == One(s).held;
  }

  lemma OneTake(a: State, s: MutexProtocol.State, t: Tid, w: Wait)
    requires MutexProtocol.Inv(s) && MutexProtocol.Enabled(s, MutexProtocol.Take(t, w)) && Inv(a) && Matches(a, s)
    ensures Matches(Next(a, Take(t, 0, w)), MutexProtocol.TakeStep(s, t, w))
  {
    assert LockOk(a.locks[0], 0, a.pc);
    if s.owner == None {
      assert a.held[t] + [0] == [0];
    }
  }

  lemma OneRelease(a: State, s: MutexProtocol.State, t: Tid)
    requires MutexProtocol.Inv(s) && MutexProtocol.Enabled(s, MutexProtocol.Release(t)) && Inv(a) && Matches(a, s)
    ensures Matches(Next(a, Release(t, 0)), MutexProtocol.ReleaseStep(s, t))
  {
    assert LockOk(a.locks[0], 0, a.pc);
    if s.owner == Some(t) && s.hold == 1 {
      OneHandOver(a, s, t);
    }
  }

  lemma OneHandOver(a: State, s: MutexProtocol.State, t: Tid)
    requires MutexProtocol.Shaped(s) && Inv(a) && Matches(a, s) && t < |s.pc| && s.owner == Some(t) && s.depth[t] > 0
    ensures Matches(HandOver(a, t, 0), MutexProtocol.HandOver(s, t))
  {
    assert Remove(a.held[t], 0) == [];
    if s.waiters == [] {
      OneFreed(a, s, t, HandOver(a, t, 0), MutexProtocol.HandOver(s, t));
    } else {
      var r := HandedIs(a, t, s.waiters[0]);
      OneHanded(a, s, t, s.waiters[0], r, MutexProtocol.HandOver(s, t));
    }
  }

  /** Nobody waits. */
  lemma OneFreed(a: State, s: MutexProtocol.State, t: Tid, r: State, b: MutexProtocol.State)
    requires Matches(a, s) && t < |s.pc| == |s.prio| && s.owner == Some(t)
    requires r.base == a.base && r.prio == a.prio[t := s.original] && r.pc == a.pc && r.held == a.held[t := []]
    requires r.locks == [Lock(s.value + 1, None, 0, MutexProtocol.NoPriority, s.waiters, s.flag)]
    requires b.base == s.base && b.prio == s.prio[t := s.original] && b.pc == s.pc && b.waiters == s.waiters
    requires b.value == s.value + 1 && b.owner == None && b.hold == 0 && b.original == MutexProtocol.NoPriority
    requires b.flag == s.flag
    ensures Matches(r, b)
  {
  }

  /** Somebody waits. */
  lemma OneHanded(a: State, s: MutexProtocol.State, t: Tid, h: Tid, r: State, b: MutexProtocol.State)
    requires Matches(a, s) && t < |s.pc| == |s.prio| && s.owner == Some(t) && h < |s.pc| && h != t && s.waiters != []
    requires r.base == a.base && r.prio == a.prio[t := s.original] && r.pc == a.pc[h := Granted]
    requires r.locks == [a.locks[0].(owner := Some(h), hold := 1, original := r.prio[h], waiters := s.waiters[1..])]
    requires r.held == a.held[t := []][h := a.held[t := []][h] + [0]]
    requires b.base == s.base && b.prio == s.prio[t := s.original] && b.pc == s.pc[h := MutexProtocol.Granted]
    requires b.value == s.value && b.owner == Some(h) && b.hold == 1 && b.original == b.prio[h]
    requires b.waiters == s.waiters[1..] && b.flag == s.flag
    ensures Matches(r, b)
  {
    Moved(a.held, t, h, r.held);
  }

  lemma HandedIs(a: State, t: Tid, h: Tid) returns (r: State)
    requires Inv(a) && t < |a.pc| && |a.locks| == 1 && a.locks[0].owner == Some(t) && Remove(a.held[t], 0) == []
    requires a.locks[0].waiters != [] && h == a.locks[0].waiters[0]
    ensures r == HandOver(a, t, 0) && h < |a.pc| && h != t && r.base == a.base
    ensures r.prio == a.prio[t := a.locks[0].original] && r.pc == a.pc[h := Granted]
    ensures r.locks == [a.locks[0].(owner := Some(h), hold := 1, original := r.prio[h],
                                    waiters := a.locks[0].waiters[1..])]
    ensures r.held == a.held[t := []][h := a.held[t := []][h] + [0]]
  {
    assert LockOk(a.locks[0], 0, a.pc);
    assert h in a.locks[0].waiters;
    r := HandOver(a, t, 0);
  }

  /** What was held by `t` is held by `h`. */
  lemma Moved(held: seq<seq<nat>>, t: Tid, h: Tid, held': seq<seq<nat>>)
    requires t < |held| && h < |held| && h != t && held' == held[t := []][h := held[t := []][h] + [0]]
    requires forall u | 0 <= u < |held| :: held[u] == if u == t then [0] else []
    ensures |held'| == |held| && forall u | 0 <= u < |held| :: held'[u] == if u == h then [0] else []
  {
    assert held[h] + [0] == [0];
  }

  lemma OneExpire(a: State, s: MutexProtocol.State, t: Tid)
    requires MutexProtocol.Inv(s) && MutexProtocol.Enabled(s, MutexProtocol.Expire(t)) && Inv(a) && Matches(a, s)
    ensures Enabled(a, Expire(t)) && Matches(Next(a, Expire(t)), MutexProtocol.Next(s, MutexProtocol.Expire(t)))
  {
    assert a.pc[t] == OnePc(s.pc[t]);
  }

  lemma OneStep(a: State, s: MutexProtocol.State, e: MutexProtocol.Event) returns (b: State)
    requires MutexProtocol.Inv(s) && MutexProtocol.Enabled(s, e) && Inv(a) && Matches(a, s)
    ensures Enabled(a, OneEvent(e)) && b == Next(a, OneEvent(e)) && Matches(b, MutexProtocol.Next(s, e))
  {
    assert a.pc[e.t] == OnePc(s.pc[e.t]);
    match e {
      case Take(t, w) => OneTake(a, s, t, w);
      case Release(t) => OneRelease(a, s, t);
      case Expire(t) => OneExpire(a, s, t);
      case Return(_) =>
    }
    b := Next(a, OneEvent(e));
  }

  /** With one mutex, the steps are those of MutexProtocol. */
  lemma OneMutex(s: MutexProtocol.State, e: MutexProtocol.Event)
    requires MutexProtocol.Inv(s) && MutexProtocol.Enabled(s, e)
    ensures Inv(One(s)) && Enabled(One(s), OneEvent(e))
    ensures Next(One(s), OneEvent(e)) == One(MutexProtocol.Next(s, e))
  {
    OneInv(s);
    var b := OneStep(One(s), s, e);
    MatchesOne(b, MutexProtocol.Next(s, e));
  }

  /* Runs that fail. */

  /** The state at the end of some run. */
  ghost predicate Reachable(s: State) {
    exists trace, events :: Run(trace, events) && trace[|events|] == s
  }

  lemma Go(s: State, e: Event) returns (r: State)
    requires Reachable(s) && Enabled(s, e)
    ensures Inv(s) && r == Next(s, e) && Reachable(r)
  {
    var trace, events :| Run(trace, events) && trace[|events|] == s;
    RunInv(trace, events, |events|);
    r := Next(s, e);
    var trace', events' := trace + [r], events + [e];
    forall i | 0 <= i < |events'| ensures StepAt(trace', events', i) {
      assert i < |events| ==> StepAt(trace, events, i);
    }
    assert Run(trace', events') && trace'[|events'|] == r;
  }

  /** Two PRIO mutexes and some threads. */
  lemma TwoFree(base: seq<nat>) returns (s: State)
    ensures Reachable(s) && |s.locks| == 2 && Free(s.locks[0]) && Free(s.locks[1])
    ensures s.locks[0].flag == s.locks[1].flag == Prio && s.base == s.prio == base && |s.pc| == |s.held| == |base|
    ensures forall t | 0 <= t < |base| :: s.pc[t] == Idle && s.held[t] == []
  {
    var l := Lock(1, None, 0, MutexProtocol.NoPriority, [], Prio);
    s := State([l, l], seq(|base|, _ => Idle), base, base, seq(|base|, _ => []));
    assert Run([s], []);
  }

  lemma GoTake(s: State, t: Tid, m: nat) returns (r: State)
    requires Reachable(s) && Enabled(s, Take(t, m, Forever)) && s.locks[m].owner == None
    ensures Reachable(r) && Inv(s) && s.locks[m].value > 0 && r == Acquired(s, t, m) && r.locks[m].hold == 1
  {
    r := Go(s, Take(t, m, Forever));
    assert LockOk(s.locks[m], m, s.pc);
  }

  lemma GoBlock(s: State, t: Tid, m: nat) returns (r: State)
    requires Reachable(s) && Enabled(s, Take(t, m, Forever)) && s.locks[m].owner.Some? && s.locks[m].owner != Some(t)
    ensures Reachable(r) && Inv(s) && r == BlockStep(s, t, m, Forever)
  {
    r := Go(s, Take(t, m, Forever));
    assert LockOk(s.locks[m], m, s.pc);
  }

  /** Nobody waits yet. */
  lemma GoWait(s: State, t: Tid, m: nat, o: Tid) returns (r: State)
    requires Reachable(s) && Enabled(s, Take(t, m, Forever)) && s.locks[m].owner == Some(o) && o != t
    requires s.locks[m].waiters == []
    ensures Reachable(r) && o < |s.prio| && t < |s.prio| && Waits(s, t, m, o, r)
  {
    r := GoBlock(s, t, m);
    BlockFirst(s, t, m, o);
  }

  /** Thread `t` has become the only one that waits for the mutex of `o`. */
  ghost predicate Waits(s: State, t: Tid, m: nat, o: Tid, r: State)
    requires t < |s.prio| && o < |s.prio| && m < |s.locks| && t < |s.pc|
  {
    && r.locks == s.locks[m := s.locks[m].(waiters := [t])] && r.pc == s.pc[t := Blocked(m, Forever)]
    && r.prio == MutexProtocol.Inherited(s.prio, o, s.prio[t]) && r.base == s.base && r.held == s.held
  }

  lemma BlockFirst(s: State, t: Tid, m: nat, o: Tid)
    requires Inv(s) && Enabled(s, Take(t, m, Forever)) && s.locks[m].owner == Some(o) && s.locks[m].waiters == []
    ensures o < |s.prio| && Waits(s, t, m, o, BlockStep(s, t, m, Forever))
  {
    assert LockOk(s.locks[m], m, s.pc);
    EnqueueFirst(s.locks[m].flag, s.locks[m].waiters, MutexProtocol.Inherited(s.prio, o, s.prio[t]), t);
  }

  lemma EnqueueFirst(flag: Flag, q: seq<Tid>, prio: seq<nat>, t: Tid)
    requires t < |prio| && |q| == 0
    ensures Enqueue(flag, q, prio, t) == [t]
  {
    Only(Enqueue(flag, q, prio, t), t);
  }

  lemma Only(q: seq<Tid>, t: Tid)
    requires |q| == 1 && t in q
    ensures q == [t]
  {
  }

  lemma GoRelease(s: State, t: Tid, m: nat) returns (r: State)
    requires Reachable(s) && Enabled(s, Release(t, m)) && LetsGo(s, t, m)
    ensures Reachable(r) && Inv(s) && r == HandOver(s, t, m)
  {
    r := Go(s, Release(t, m));
  }

  /** A thread of priority 9 takes two mutexes; one of priority 1 waits for the first. */
  lemma NestedLosesInheritance() returns (s: State)
    ensures Reachable(s) && |s.locks| == 2 && |s.prio| == 2
    ensures s.locks[0].owner == Some(0) && 1 in s.locks[0].waiters && s.locks[1].owner == None
    ensures s.prio[1] == 1 && s.prio[0] == 9
  {
    s := TwoFree([9, 1]);
    s := GoTake(s, 0, 0);
    s := GoTake(s, 0, 1);
    s := GoWait(s, 1, 0, 0);
    s := GoRelease(s, 0, 1);
  }

  /** A thread of priority 9 owns one mutex, and the owner of the other, of priority 5, waits for it. */
  lemma ChainOfTwo() returns (s: State)
    ensures Reachable(s) && |s.locks| == 2 && |s.pc| == 3 && s.prio == [5, 5, 1]
    ensures s.locks[0].owner == Some(0) && s.locks[0].waiters == [1]
    ensures s.locks[1].owner == Some(1) && s.locks[1].waiters == [] && s.pc[2] == Idle
  {
    s := TwoFree([9, 5, 1]);
    s := GoTake(s, 0, 0);
    s := GoTake(s, 1, 1);
    s := GoWait(s, 1, 0, 0);
  }

  /** A thread of priority 1 that waits for the other raises the second thread, and not the first. */
  lemma ChainLosesInheritance() returns (s: State)
    ensures Reachable(s) && |s.locks| == 2 && |s.prio| == 3
    ensures s.locks[0].owner == Some(0) && 1 in s.locks[0].waiters
    ensures s.locks[1].owner == Some(1) && 2 in s.locks[1].waiters
    ensures s.prio == [5, 1, 1]
  {
    s := ChainOfTwo();
    s := GoWait(s, 2, 1, 1);
  }

  /** Two mutexes let go in the order they were taken: the thread keeps a priority it was only lent. */
  lemma LentForGood() returns (s: State)
    ensures Reachable(s) && |s.locks| == 2 && |s.prio| == |s.held| == 2 && s.base == [9, 1]
    ensures s.held[0] == [] && s.prio[0] == 1
  {
    s := TwoFree([9, 1]);
    s := GoTake(s, 0, 0);
    s := GoWait(s, 1, 0, 0);
    s := GoTake(s, 0, 1);
    assert s.held[0] == [0, 1];
    s := GoRelease(s, 0, 0);
    s := FallsBack(s);
  }

  lemma FallsBack(s: State) returns (r: State)
    requires Reachable(s) && |s.locks| == 2 && |s.prio| == |s.held| == |s.pc| == 2 && s.base == [9, 1]
    requires s.locks[1].owner == Some(0) && s.locks[1].hold == 1 && s.locks[1].original == 1
    requires s.locks[1].waiters == [] && s.held[0] == [1] && s.pc[0] == Idle
    ensures Reachable(r) && |r.locks| == 2 && |r.prio| == |r.held| == 2 && r.base == [9, 1]
    ensures r.held[0] == [] && r.prio[0] == 1
  {
    r := GoRelease(s, 0, 1);
  }
}

/** struct rt_mutex, several of them, and the current priorities of the threads. */
module MutexTable {
  import opened Sequences
  import opened WaitList
  import opened MutexNesting
  import MutexProtocol

  datatype Outcome = Done | TimedOut | Suspended | NotOwner

  class Mutexes {
    var locks: seq<Lock>
    var pc: seq<Pc>
    var prio: seq<nat>

    /** The mutexes and threads are in state `s`. */
    ghost predicate Represents(s: State)
      reads this
    {
      Inv(s) && s.locks == locks && s.pc == pc && s.prio == prio
    }

    constructor (flags: seq<Flag>, prio: seq<nat>)
      ensures exists s :: Initial(s) && Represents(s) && s.base == prio && |s.locks| == |flags|
    {
      locks := seq(|flags|, i requires 0 <= i < |flags| => Lock(1, None, 0, MutexProtocol.NoPriority, [], flags[i]));
      pc, this.prio := seq(|prio|, _ => Idle), prio;
      new;
      ghost var s := State(locks, pc, prio, prio, seq(|prio|, _ => []));
      assert Initial(s);
      InitialInv(s);
      assert Represents(s);
    }

    method Take(t: Tid, m: nat, w: Wait, ghost s: State) returns (r: Outcome)
      requires Represents(s) && Enabled(s, Event.Take(t, m, w))
      modifies this
      ensures Represents(Next(s, Event.Take(t, m, w)))
      ensures r == if old(locks)[m].owner == Some(t) || old(locks)[m].owner == None then Done
                   else if w == Ticks(0) then TimedOut else Suspended
    {
      StepInv(s, Event.Take(t, m, w));
      var l := locks[m];
      assert LockOk(l, m, pc);
      if l.owner == Some(t) {
        locks := locks[m := l.(hold := l.hold + 1)];
      } else if l.value > 0 {
        locks := locks[m := l.(value := l.value - 1, owner := Some(t), original := prio[t], hold := l.hold + 1)];
      } else if w == Ticks(0) {
        return TimedOut;
      } else {
        if prio[t] < prio[l.owner.value] {
          prio := prio[l.owner.value := prio[t]];
        }
        var q := ListSuspend(l.flag, l.waiters, prio, t);
        locks, pc := locks[m := l.(waiters := q)], pc[t := Blocked(m, w)];
        return Suspended;
      }
      r := Done;
    }

    method Release(t: Tid, m: nat, ghost s: State) returns (r: Outcome)
      requires Represents(s) && Enabled(s, Event.Release(t, m))
      modifies this
      ensures Represents(Next(s, Event.Release(t, m)))
      ensures r == if old(locks)[m].owner == Some(t) then Done else NotOwner
    {
      StepInv(s, Event.Release(t, m));
      var l := locks[m];
      assert LockOk(l, m, pc);
      if l.owner != Some(t) {
        return NotOwner;
      }
      l := l.(hold := l.hold - 1);
      if l.hold == 0 {
        prio := prio[t := l.original];
        if l.waiters != [] {
          var h := l.waiters[0];
          l := l.(owner := Some(h), original := prio[h], hold := l.hold + 1, waiters := l.waiters[1..]);
          pc := pc[h := Granted];
        } else {
          l := l.(value := l.value + 1, owner := None, original := MutexProtocol.NoPriority);
        }
      }
      locks := locks[m := l];
      r := Done;
    }

    method Expire(t: Tid, ghost s: State)
      requires Represents(s) && Enabled(s, Event.Expire(t))
      modifies this
      ensures Represents(Next(s, Event.Expire(t)))
    {
      StepInv(s, Event.Expire(t));
      var l := locks[pc[t].m];
      locks := locks[pc[t].m := l.(waiters := Remove(l.waiters, t))];
      pc := pc[t := Failing];
    }

    method Return(t: Tid, ghost s: State) returns (r: Outcome)
      requires Represents(s) && Enabled(s, Event.Return(t))
      modifies this
      ensures Represents(Next(s, Event.Return(t)))
      ensures r == if old(pc)[t] == Granted then Done else TimedOut
    {
      StepInv(s, Event.Return(t));
      r := if pc[t] == Granted then Done else TimedOut;
      pc := pc[t := Idle];
    }

    /** rt_thread_control(RT_THREAD_CTRL_CHANGE_PRIORITY). */
    method ChangePriority(t: Tid, p: nat, ghost s: State)
      requires Represents(s) && Enabled(s, Event.ChangePriority(t, p))
      modifies this
      ensures Represents(Next(s, Event.ChangePriority(t, p)))
    {
      StepInv(s, Event.ChangePriority(t, p));
      prio := prio[t := p];
    }
  }
}
