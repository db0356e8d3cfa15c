/**
 Mutexes with priority inheritance (rt_mutex_take, rt_mutex_release), one mutex and any
 number of threads. One step is one interrupt-disabled section; between steps any thread
 may run, and a timed wait may expire.

 `base` is the priority each thread has of its own, `prio` the one it currently runs at.
 */
module MutexProtocol {
  import opened Sequences
  import opened WaitList

  datatype Pc =
    | Idle
    | Blocked(wait: Wait)
    | Granted            // resumed by a release that made it the owner
    | Failing            // resumed by its timer

  datatype Event =
    | Take(t: Tid, wait: Wait)
    | Release(t: Tid)
    | Expire(t: Tid)
    | Return(t: Tid)

  /** The original priority of a mutex nobody owns. */
  const NoPriority: nat := 0xff

  datatype State = State(
    value: nat, owner: Option<Tid>, hold: nat, original: nat,
    waiters: seq<Tid>,
    pc: seq<Pc>,
    flag: Flag, base: seq<nat>, prio: seq<nat>, now: nat, stamp: seq<nat>,
    depth: seq<nat>,            // takes that succeeded minus releases that did, by thread
    since: seq<Tid>)            // the threads that have blocked since the mutex last got an owner

  ghost predicate Initial(s: State) {
    && |s.pc| == |s.base| == |s.stamp| == |s.depth|
    && s.value == 1 && s.owner == None && s.hold == 0 && s.original == NoPriority
    && s.waiters == [] && s.since == [] && s.prio == s.base
    && (forall t | 0 <= t < |s.pc| :: s.pc[t] == Idle)
    && (forall t | 0 <= t < |s.depth| :: s.depth[t] == 0)
    && (forall t | 0 <= t < |s.stamp| :: s.stamp[t] < s.now)
  }

  predicate Enabled(s: State, e: Event) {
    e.t < |s.pc| &&
    match e
    case Take(t, _) => s.pc[t] == Idle
    case Release(t) => s.pc[t] == Idle
    case Expire(t) => s.pc[t].Blocked? && s.pc[t].wait.Ticks?
    case Return(t) => s.pc[t] == Granted || s.pc[t] == Failing
  }

  /** What the steps below need in order to be well defined. */
  ghost predicate Shaped(s: State) {
    && |s.pc| == |s.prio| == |s.base| == |s.stamp| == |s.depth|
    && Threads(s.waiters, |s.pc|)
    && (s.owner.Some? ==> s.owner.value < |s.pc|)
    && (s.value == 0 ==> s.owner.Some?)
    && (s.owner.Some? ==> s.hold > 0)
  }

  /** The thread runs at the more urgent of its own priority and `p`. */
  function Inherited(prio: seq<nat>, o: Tid, p: nat): (r: seq<nat>)
    requires o < |prio|
  {
    if p < prio[o] then prio[o := p] else prio
  }

  ghost function TakeStep(s: State, t: Tid, w: Wait): State
    requires Shaped(s) && t < |s.pc|
  {
    if s.owner == Some(t) then s.(hold := s.hold + 1, depth := s.depth[t := s.depth[t] + 1])
    else if s.value > 0 then
      s.(value := s.value - 1, owner := Some(t), original := s.prio[t], hold := s.hold + 1,
         depth := s.depth[t := s.depth[t] + 1], since := [])
    else if w == Ticks(0) then s
    else
      s.(prio := Inherited(s.prio, s.owner.value, s.prio[t]),
         waiters := Enqueue(s.flag, s.waiters, Inherited(s.prio, s.owner.value, s.prio[t]), t),
         pc := s.pc[t := Blocked(w)],
         stamp := s.stamp[t := s.now], now := s.now + 1, since := s.since + [t])
  }

  /** The owner lets go once more than it holds: give its priority back and hand over. */
  ghost function HandOver(s: State, t: Tid): State
    requires Shaped(s) && t < |s.pc| && s.depth[t] > 0
  {
    var prio := s.prio[t := s.original];
    var depth := s.depth[t := s.depth[t] - 1];
    if s.waiters == [] then
      s.(prio := prio, depth := depth, value := s.value + 1, owner := None, hold := 0, original := NoPriority,
          since := [])
    else
      var h := s.waiters[0];
      s.(prio := prio, depth := depth[h := depth[h] + 1], owner := Some(h), hold := 1, original := prio[h],
         waiters := s.waiters[1..], pc := s.pc[h := Granted], since := [])
  }

  ghost function ReleaseStep(s: State, t: Tid): State
    requires Shaped(s) && t < |s.pc| && (s.owner == Some(t) ==> s.depth[t] > 0)
  {
    if s.owner != Some(t) then s
    else if s.hold > 1 then s.(hold := s.hold - 1, depth := s.depth[t := s.depth[t] - 1])
    else HandOver(s, t)
  }

  ghost function Next(s: State, e: Event): State
    requires Shaped(s) && Enabled(s, e) && (s.owner == Some(e.t) ==> s.depth[e.t] > 0)
  {
    match e
    case Take(t, w) => TakeStep(s, t, w)
    case Release(t) => ReleaseStep(s, t)
    case Expire(t) => s.(pc := s.pc[t := Failing], waiters := Remove(s.waiters, t))
    case Return(t) => s.(pc := s.pc[t := Idle])
  }

  /** value = 1 iff nobody owns the mutex iff hold = 0, and then nobody waits. */
  ghost predicate Ownership(s: State)
    requires Shaped(s)
  {
    && s.value <= 1
    && (s.value == 1 <==> s.owner == None) && (s.owner == None <==> s.hold == 0)
    && (s.owner == None ==> s.waiters == [] && s.original == NoPriority)
    && (s.owner.Some? ==> !s.pc[s.owner.value].Blocked?)
    && (forall t | 0 <= t < |s.pc| && s.pc[t] == Granted :: s.owner == Some(t))
    && forall t | 0 <= t < |s.pc| :: s.depth[t] == if s.owner == Some(t) then s.hold else 0
  }

  ghost predicate Waiters(s: State)
    requires Shaped(s)
  {
    && (forall t | 0 <= t < |s.pc| :: s.pc[t].Blocked? <==> t in s.waiters)
    && Ordered(s.flag, s.waiters, s.base, s.stamp)
    && (forall t | 0 <= t < |s.stamp| :: s.stamp[t] < s.now)
  }

  /** The most urgent of `p` and the priorities of the threads in `q`. */
  ghost function MostUrgent(p: nat, q: seq<Tid>, base: seq<nat>): (r: nat)
    requires Threads(q, |base|)
  {
    if q == [] then p
    else
      var r := MostUrgent(p, q[..|q| - 1], base);
      if base[q[|q| - 1]] < r then base[q[|q| - 1]] else r
  }

  /**
   Who runs at which priority: the owner at the most urgent of its own and those of the
   threads that have blocked since it became the owner, whether they still wait or not,
   and everybody else at their own.
   */
  ghost predicate Priorities(s: State)
    requires Shaped(s)
  {
    && Threads(s.since, |s.base|)
    && (forall t | 0 <= t < |s.pc| && s.owner != Some(t) :: s.prio[t] == s.base[t])
    && (s.owner.Some? ==> s.original == s.base[s.owner.value]
                          && s.prio[s.owner.value] == MostUrgent(s.base[s.owner.value], s.since, s.base))
  }

  /** A waiter has either blocked since the owner got the mutex, or was behind it in the list. */
  ghost predicate Outranked(s: State)
    requires Shaped(s)
  {
    s.flag.Prio? && s.owner.Some? ==>
      forall t :: t in s.waiters ==> t in s.since || s.base[s.owner.value] <= s.base[t]
  }

  ghost predicate Inv(s: State) {
    Shaped(s) && Ownership(s) && Waiters(s) && Priorities(s) && Outranked(s)
  }

  lemma MostUrgentBounds(p: nat, q: seq<Tid>, base: seq<nat>)
    requires Threads(q, |base|)
    ensures MostUrgent(p, q, base) <= p
    ensures forall t :: t in q ==> MostUrgent(p, q, base) <= base[t]
  {
    if q != [] {
      MostUrgentBounds(p, q[..|q| - 1], base);
      assert q == q[..|q| - 1] + [q[|q| - 1]];
    }
  }

  lemma InitialInv(s: State)
    requires Initial(s)
    ensures Inv(s)
  {
  }

  lemma BlockWaiters(s: State, t: Tid, w: Wait)
    requires Inv(s) && Enabled(s, Take(t, w)) && s.owner.Some? && s.owner != Some(t) && w != Ticks(0)
    ensures Shaped(TakeStep(s, t, w)) && Waiters(TakeStep(s, t, w))
  {
    var o := s.owner.value;
    var prio := Inherited(s.prio, o, s.prio[t]);
    var r := TakeStep(s, t, w);
    SamePosition(s.waiters, s.base, prio, t);
    assert r.waiters == Enqueue(s.flag, s.waiters, s.base, t);
    EnqueueOrdered(s.flag, s.waiters, s.base, s.stamp, t, s.now);
  }

  lemma BlockInv(s: State, t: Tid, w: Wait)
    requires Inv(s) && Enabled(s, Take(t, w)) && s.owner.Some? && s.owner != Some(t) && w != Ticks(0)
    ensures Inv(TakeStep(s, t, w))
  {
    BlockWaiters(s, t, w);
    var r := TakeStep(s, t, w);
    assert r.since[..|r.since| - 1] == s.since;
    assert forall x :: x in r.waiters ==> x == t || x in s.waiters;
    assert forall x :: x in s.since || x == t ==> x in r.since;
  }

  /** Only the priorities of the waiting threads decide where a thread goes. */
  lemma SamePosition(q: seq<Tid>, base: seq<nat>, prio: seq<nat>, t: Tid)
    requires Threads(q, |base|) && |prio| == |base| && t < |base| && prio[t] == base[t]
    requires forall i | 0 <= i < |q| :: prio[q[i]] == base[q[i]]
    ensures Position(q, prio, t) == Position(q, base, t)
  {
  }

  lemma TakeInv(s: State, t: Tid, w: Wait)
    requires Inv(s) && Enabled(s, Take(t, w))
    ensures Inv(TakeStep(s, t, w))
  {
    if s.owner != Some(t) && s.value == 0 && w != Ticks(0) {
      BlockInv(s, t, w);
    }
  }

  lemma HandOverInv(s: State, t: Tid)
    requires Inv(s) && Enabled(s, Release(t)) && s.owner == Some(t) && s.hold == 1
    ensures Inv(HandOver(s, t))
  {
    if s.waiters != [] {
      TailOrdered(s.flag, s.waiters, s.base, s.stamp);
      var r := HandOver(s, t);
      forall x | s.flag.Prio? && x in r.waiters ensures s.base[s.waiters[0]] <= s.base[x] {
        var i :| 0 < i < |s.waiters| && s.waiters[i] == x;
        assert Before(s.flag, s.base, s.stamp, s.waiters[0], s.waiters[i]);
      }
    }
  }

  lemma ExpireInv(s: State, t: Tid)
    requires Inv(s) && Enabled(s, Expire(t))
    ensures Inv(s.(pc := s.pc[t := Failing], waiters := Remove(s.waiters, t)))
  {
    RemoveOrdered(s.flag, s.waiters, s.base, s.stamp, t);
  }

  /** Every section and every timeout keeps the invariant. */
  lemma StepInv(s: State, e: Event)
    requires Inv(s) && Enabled(s, e)
    ensures Inv(Next(s, e))
  {
    match e
    case Take(t, w) => TakeInv(s, t, w);
    case Release(t) =>
      if s.owner == Some(t) && s.hold == 1 {
        HandOverInv(s, t);
      }
    case Expire(t) => ExpireInv(s, t);
    case Return(t) =>
  }

  ghost predicate Run(trace: seq<State>, events: seq<Event>) {
    && |trace| == |events| + 1
    && Initial(trace[0])
    && forall i | 0 <= i < |events| :: StepAt(trace, events, i)
  }

  ghost predicate StepAt(trace: seq<State>, events: seq<Event>, i: nat)
    requires i < |events| < |trace|
  {
    Stepped(trace[i], events[i], trace[i + 1])
  }

  ghost predicate Stepped(s: State, e: Event, r: State) {
    && Shaped(s) && Enabled(s, e) && (s.owner == Some(e.t) ==> s.depth[e.t] > 0)
    && r == Next(s, e)
  }

  lemma {:induction false} RunInv(trace: seq<State>, events: seq<Event>, k: nat)
    requires Run(trace, events) && k < |trace|
    ensures Inv(trace[k])
  {
    if k == 0 {
      InitialInv(trace[0]);
    } else {
      RunInv(trace, events, k - 1);
      assert StepAt(trace, events, k - 1);
      StepInv(trace[k - 1], events[k - 1]);
    }
  }

  /* What each step does, seen from the threads. */

  /** Thread `t` gets the mutex, or gets it once more, at once. */
  predicate GetsIt(s: State, e: Event, t: Tid) {
    e.Take? && e.t == t && (s.owner == None || s.owner == Some(t))
  }

  /** Thread `t` gives the mutex back once. */
  predicate GivesBack(s: State, e: Event, t: Tid) {
    e.Release? && e.t == t && s.owner == Some(t)
  }

  /** Thread `t` is handed the mutex by the owner's last release. */
  predicate IsHanded(s: State, e: Event, t: Tid) {
    e.Release? && s.owner == Some(e.t) && s.hold == 1 && s.waiters != [] && s.waiters[0] == t
  }

  /** Thread `u` stands at `q` after the event. */
  ghost predicate Moves(s: State, e: Event, u: Tid, q: Pc)
    requires u < |s.pc|
  {
    if e.t != u then q == if IsHanded(s, e, u) then Granted else s.pc[u]
    else match e
      case Take(_, w) => q == if GetsIt(s, e, u) || w == Ticks(0) then Idle else Blocked(w)
      case Expire(_) => q == Failing
      case _ => q == Idle
  }

  /** Thread `u` runs at priority `p` after the event. */
  ghost predicate Runs(s: State, e: Event, u: Tid, p: nat)
    requires u < |s.prio| && e.t < |s.prio|
  {
    if e.Take? && !GetsIt(s, e, e.t) && e.wait != Ticks(0) && s.owner == Some(u) && s.prio[e.t] < s.prio[u] then
      p == s.prio[e.t]
    else if GivesBack(s, e, u) && s.hold == 1 then p == s.original
    else p == s.prio[u]
  }

  lemma ThreadMoves(s: State, e: Event, u: Tid)
    requires Inv(s) && Enabled(s, e) && u < |s.pc|
    ensures var r := Next(s, e);
      && |r.pc| == |r.prio| == |s.pc| && r.base == s.base
      && Moves(s, e, u, r.pc[u]) && Runs(s, e, u, r.prio[u])
  {
    if e.Take? {
      TakeMoves(s, e, u);
    } else if e.Release? {
      ReleaseMoves(s, e, u);
    }
  }

  lemma TakeMoves(s: State, e: Event, u: Tid)
    requires Inv(s) && Enabled(s, e) && u < |s.pc| && e.Take?
    ensures var r := Next(s, e); Moves(s, e, u, r.pc[u]) && Runs(s, e, u, r.prio[u])
  {
  }

  lemma ReleaseMoves(s: State, e: Event, u: Tid)
    requires Inv(s) && Enabled(s, e) && u < |s.pc| && e.Release?
    ensures var r := Next(s, e); Moves(s, e, u, r.pc[u]) && Runs(s, e, u, r.prio[u])
  {
    if s.waiters != [] {
      assert s.waiters[0] in s.waiters;
    }
  }

  /** How often thread `t` has got the mutex, by its own takes or handed over, less how often it gave it back. */
  ghost function Entered(trace: seq<State>, events: seq<Event>, k: nat, t: Tid): int
    requires k <= |events| < |trace|
  {
    if k == 0 then 0
    else
      var s, e := trace[k - 1], events[k - 1];
      Entered(trace, events, k - 1, t) + (if GetsIt(s, e, t) || IsHanded(s, e, t) then 1 else 0)
      - (if GivesBack(s, e, t) then 1 else 0)
  }

  lemma DepthStep(s: State, e: Event, t: Tid)
    requires Inv(s) && Enabled(s, e) && t < |s.pc|
    ensures |Next(s, e).depth| == |s.pc| && Next(s, e).depth[t] ==
      s.depth[t] + (if GetsIt(s, e, t) || IsHanded(s, e, t) then 1 else 0) - (if GivesBack(s, e, t) then 1 else 0)
  {
    if s.waiters != [] {
      assert s.waiters[0] in s.waiters;
    }
  }

  /** In every run: hold is what the owner has got and not given back, and nobody else has anything left. */
  lemma {:induction false} HoldCounted(trace: seq<State>, events: seq<Event>, k: nat, t: Tid)
    requires Run(trace, events) && k < |trace| && t < |trace[0].pc|
    ensures |trace[k].pc| == |trace[k].depth| == |trace[0].pc|
    ensures Entered(trace, events, k, t) == trace[k].depth[t]
    ensures Entered(trace, events, k, t) == if trace[k].owner == Some(t) then trace[k].hold else 0
  {
    RunInv(trace, events, k);
    if k > 0 {
      HoldCounted(trace, events, k - 1, t);
      RunInv(trace, events, k - 1);
      assert StepAt(trace, events, k - 1);
      DepthStep(trace[k - 1], events[k - 1], t);
    }
  }

  /** The waiting time thread `t` asked for last. */
  function AskedFor(events: seq<Event>, t: Tid): Option<Wait> {
    if events == [] then None
    else
      var e := events[|events| - 1];
      if e.Take? && e.t == t then Some(e.wait) else AskedFor(events[..|events| - 1], t)
  }

  /** In every run: own priorities never change, and a blocked thread waits as long as its own last call said. */
  lemma {:induction false} OwnCall(trace: seq<State>, events: seq<Event>, k: nat, t: Tid)
    requires Run(trace, events) && k < |trace| && t < |trace[0].pc|
    ensures |trace[k].pc| == |trace[0].pc| && trace[k].base == trace[0].base
    ensures trace[k].pc[t].Blocked? ==> AskedFor(events[..k], t) == Some(trace[k].pc[t].wait)
  {
    if k > 0 {
      OwnCall(trace, events, k - 1, t);
      RunInv(trace, events, k - 1);
      assert StepAt(trace, events, k - 1);
      ThreadMoves(trace[k - 1], events[k - 1], t);
      assert events[..k][..k - 1] == events[..k - 1];
    }
  }

  /** In every run: at most one thread is inside, as deep as the mutex says, and it is not waiting. */
  lemma MutualExclusion(trace: seq<State>, events: seq<Event>, k: nat, t: Tid, u: Tid)
    requires Run(trace, events) && k < |trace| && t < |trace[k].depth| && u < |trace[k].depth|
    requires trace[k].depth[t] > 0 && trace[k].depth[u] > 0
    ensures t == u && trace[k].owner == Some(t) && trace[k].hold == trace[k].depth[t] && t !in trace[k].waiters
  {
    RunInv(trace, events, k);
  }

  /** In every run of a mutex with the PRIO flag: the owner is as urgent as everybody waiting for it. */
  lemma OwnerInherits(trace: seq<State>, events: seq<Event>, k: nat, t: Tid)
    requires Run(trace, events) && k < |trace| && trace[k].flag.Prio? && t in trace[k].waiters
    ensures trace[k].owner.Some? && trace[k].owner.value < |trace[k].prio| && t < |trace[k].prio|
    ensures trace[k].prio[trace[k].owner.value] <= trace[k].prio[t]
  {
    RunInv(trace, events, k);
    var s := trace[k];
    MostUrgentBounds(s.base[s.owner.value], s.since, s.base);
  }

  /** In every run: a thread that does not own the mutex runs at the priority it began with. */
  lemma PriorityRestored(trace: seq<State>, events: seq<Event>, k: nat, t: Tid)
    requires Run(trace, events) && k < |trace| && t < |trace[k].depth| && trace[k].depth[t] == 0
    ensures |trace[k].prio| == |trace[0].prio| == |trace[k].depth| && trace[k].prio[t] == trace[0].prio[t]
  {
    RunInv(trace, events, k);
    ThreadsSame(trace, events, k);
    OwnCall(trace, events, k, t);
  }

  lemma {:induction false} ThreadsSame(trace: seq<State>, events: seq<Event>, k: nat)
    requires Run(trace, events) && k < |trace|
    ensures |trace[k].pc| == |trace[0].pc|
  {
    if k > 0 {
      ThreadsSame(trace, events, k - 1);
      assert StepAt(trace, events, k - 1);
    }
  }

  /** A full release hands the mutex to the waiter that comes before every other one. */
  lemma HandOverToFirst(s: State, t: Tid, other: Tid)
    requires Inv(s) && Enabled(s, Release(t)) && s.owner == Some(t) && s.hold == 1 && other in s.waiters
    ensures var r := Next(s, Release(t));
      && r.owner.Some? && r.owner.value in s.waiters && r.pc[r.owner.value] == Granted && r.hold == 1
      && (other == r.owner.value || Before(s.flag, s.base, s.stamp, r.owner.value, other))
      && (other in r.waiters <==> other != r.owner.value)
      && r.prio[t] == s.base[t]
  {
    TailOrdered(s.flag, s.waiters, s.base, s.stamp);
    var i :| 0 <= i < |s.waiters| && s.waiters[i] == other;
    if i > 0 {
      assert Before(s.flag, s.base, s.stamp, s.waiters[0], s.waiters[i]);
    }
  }

  /** The owner is as urgent as every waiter. */
  ghost predicate Inherits(s: State)
    requires Inv(s)
  {
    s.owner.Some? ==> forall t :: t in s.waiters ==> s.prio[s.owner.value] <= s.prio[t]
  }

  /**
   Without the PRIO flag a hand-over does not look at the remaining waiters: inheritance
   survives it exactly if the first thread of the list is as urgent as the others.
   */
  lemma HandOverInherits(s: State, t: Tid)
    requires Inv(s) && Enabled(s, Release(t)) && s.owner == Some(t) && s.hold == 1 && s.waiters != []
    ensures Inv(HandOver(s, t))
    ensures Inherits(HandOver(s, t)) <==> forall x :: x in s.waiters ==> s.base[s.waiters[0]] <= s.base[x]
  {
    HandOverInv(s, t);
    TailOrdered(s.flag, s.waiters, s.base, s.stamp);
    var r := HandOver(s, t);
    assert r.prio[s.waiters[0]] == s.base[s.waiters[0]];
    if Inherits(r) {
      forall x | x in s.waiters ensures s.base[s.waiters[0]] <= s.base[x] {
        assert x == s.waiters[0] || x in r.waiters;
      }
    }
  }

  /** No other step loses inheritance, whatever the flag. */
  lemma InheritanceKept(s: State, e: Event)
    requires Inv(s) && Enabled(s, e) && Inherits(s)
    requires e.Release? ==> s.owner != Some(e.t) || s.hold > 1 || s.waiters == []
    ensures Inv(Next(s, e)) && Inherits(Next(s, e))
  {
    StepInv(s, e);
    if e.Expire? {
      RemoveOrdered(s.flag, s.waiters, s.base, s.stamp, e.t);
    }
  }

  /** The state at the end of some run. */
  ghost predicate Reachable(s: State) {
    exists trace, events :: Run(trace, events) && trace[|events|] == s
  }

  lemma ReachableInv(s: State)
    requires Reachable(s)
    ensures Inv(s)
  {
    var trace, events :| Run(trace, events) && trace[|events|] == s;
    RunInv(trace, events, |events|);
  }

  lemma StepReachable(s: State, e: Event) returns (r: State)
    requires Reachable(s) && Enabled(s, e)
    ensures Inv(s) && r == Next(s, e) && Reachable(r)
  {
    ReachableInv(s);
    r := Next(s, e);
    var trace, events :| Run(trace, events) && trace[|events|] == s;
    var trace', events' := trace + [r], events + [e];
    forall i | 0 <= i < |events'| ensures StepAt(trace', events', i) {
      if i < |events| {
        assert StepAt(trace, events, i);
      }
    }
    assert Run(trace', events') && trace'[|events'|] == r;
  }

  /** Thread 0 owns a FIFO mutex, and the threads of `q` wait in this order. */
  ghost predicate FifoQueue(s: State, q: seq<Tid>) {
    && s.flag == Fifo && s.base == [9, 5, 1] && |s.pc| == 3
    && s.owner == Some(0) && s.hold == 1 && s.waiters == q && s.pc[0] == Idle
    && forall t | 0 <= t < 3 && t !in q :: s.pc[t] == Idle
  }

  lemma FifoTake(s: State) returns (r: State)
    requires Initial(s) && s.base == [9, 5, 1] && s.flag == Fifo
    ensures Reachable(r) && FifoQueue(r, [])
  {
    assert Run([s], []);
    assert Reachable(s);
    r := StepReachable(s, Take(0, Forever));
  }

  lemma FifoWait(s: State, q: seq<Tid>, t: Tid) returns (r: State)
    requires Reachable(s) && FifoQueue(s, q) && 0 < t < 3 && t !in q
    ensures Reachable(r) && FifoQueue(r, q + [t])
  {
    r := StepReachable(s, Take(t, Forever));
  }

  /** Some run of a FIFO mutex leaves the owner less urgent than a thread that waits for it. */
  lemma FifoLosesInheritance(s0: State) returns (s: State)
    requires Initial(s0) && s0.base == [9, 5, 1] && s0.flag == Fifo
    ensures Reachable(s) && s.owner == Some(1) && s.waiters == [2]
    ensures |s.prio| == 3 && s.prio[2] < s.prio[1]
  {
    s := FifoTake(s0);
    s := FifoWait(s, [], 1);
    s := FifoWait(s, [1], 2);
    s := StepReachable(s, Release(0));
  }
}

/** struct rt_mutex, and the current priorities of the threads. */
module MutexObject {
  import opened Sequences
  import opened WaitList
  import opened MutexProtocol

  datatype Outcome = Done | TimedOut | Suspended | NotOwner

  class Mutex {
    var value: nat
    var owner: Option<Tid>
    var hold: nat
    var original: nat
    var waiters: seq<Tid>
    var pc: seq<Pc>
    var prio: seq<nat>
    const flag: Flag

    /** The mutex is in state `s`. */
    ghost predicate Represents(s: State)
      reads this
    {
      && Inv(s)
      && s.value == value && s.owner == owner && s.hold == hold && s.original == original
      && s.waiters == waiters && s.pc == pc && s.prio == prio && s.flag == flag
    }

    constructor (flag: Flag, prio: seq<nat>)
      ensures exists s :: Initial(s) && Represents(s) && s.base == prio
      ensures this.flag == flag && this.prio == prio
    {
      this.flag, this.prio := flag, prio;
      value, owner, hold, original := 1, None, 0, NoPriority;
      waiters, pc := [], seq(|prio|, _ => Idle);
      new;
      ghost var s := State(1, None, 0, NoPriority, [], pc, flag, prio, prio, 1, seq(|prio|, _ => 0),
                           seq(|prio|, _ => 0), []);
      InitialInv(s);
      assert Represents(s);
    }

    /** rt_thread_control(RT_THREAD_CTRL_CHANGE_PRIORITY), as far as the mutex is concerned. */
    method ChangePriority(t: Tid, p: nat)
      requires t < |prio|
      modifies `prio
      ensures prio == old(prio)[t := p]
    {
      prio := prio[t := p];
    }

    /** Wait for the mutex, lending the owner this thread's priority. */
    method Block(t: Tid, w: Wait)
      requires owner.Some? && owner.value < |prio| && t < |prio| && |pc| == |prio| && Threads(waiters, |prio|)
      modifies `prio, `waiters, `pc
      ensures prio == Inherited(old(prio), owner.value, old(prio)[t])
      ensures waiters == Enqueue(flag, old(waiters), prio, t) && pc == old(pc)[t := Blocked(w)]
    {
      if prio[t] < prio[owner.value] {
        ChangePriority(owner.value, prio[t]);
      }
      waiters := ListSuspend(flag, waiters, prio, t);
      pc := pc[t := Blocked(w)];
    }

    method Take(t: Tid, w: Wait, ghost s: State) returns (r: Outcome)
      requires Represents(s) && Enabled(s, Event.Take(t, w))
      modifies this
      ensures Represents(Next(s, Event.Take(t, w)))
      ensures r == if old(owner) == Some(t) || old(owner) == None then Done
                   else if w == Ticks(0) then TimedOut else Suspended
    {
      TakeInv(s, t, w);
      if owner == Some(t) {
        hold := hold + 1;
      } else if value > 0 {
        value := value - 1;
        owner := Some(t);
        original := prio[t];
        hold := hold + 1;
      } else if w == Ticks(0) {
        return TimedOut;
      } else {
        Block(t, w);
        return Suspended;
      }
      r := Done;
    }

    method Release(t: Tid, ghost s: State) returns (r: Outcome)
      requires Represents(s) && Enabled(s, Event.Release(t))
      modifies this
      ensures Represents(Next(s, Event.Release(t)))
      ensures r == if old(owner) == Some(t) then Done else NotOwner
    {
      StepInv(s, Event.Release(t));
      if owner != Some(t) {
        return NotOwner;
      }
      hold := hold - 1;
      if hold == 0 {
        if original != prio[t] {
          ChangePriority(t, original);
        }
        if waiters != [] {
          var h := waiters[0];
          owner, original, hold := Some(h), prio[h], hold + 1;
          waiters, pc := waiters[1..], pc[h := Granted];
        } else {
          value, owner, original := value + 1, None, NoPriority;
        }
      }
      r := Done;
    }

    method Expire(t: Tid, ghost s: State)
      requires Represents(s) && Enabled(s, Event.Expire(t))
      modifies this
      ensures Represents(Next(s, Event.Expire(t)))
    {
      ExpireInv(s, t);
      waiters, pc := Remove(waiters, t), pc[t := Failing];
    }

    /** rt_mutex_take returns to a thread that was resumed, with or without the mutex. */
    method Return(t: Tid, ghost s: State) returns (r: Outcome)
      requires Represents(s) && Enabled(s, Event.Return(t))
      modifies this
      ensures Represents(Next(s, Event.Return(t)))
      ensures r == if old(pc)[t] == Granted then Done else TimedOut
    {
      StepInv(s, Event.Return(t));
      r := if pc[t] == Granted then Done else TimedOut;
      pc := pc[t := Idle];
    }
  }
}
