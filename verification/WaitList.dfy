/**
 The list of threads blocked on an IPC object, as rt_ipc_list_suspend and
 rt_ipc_list_resume keep it. Every semaphore, mutex, event, mailbox and message
 queue of the kernel blocks its threads on such a list.

 Threads are numbers; `prio` holds the current priority of each thread (a smaller
 number is more urgent) and `stamp` the moment each thread last joined a list.
 The stamp is not in the kernel: it is what "first in, first out" is measured against.
 */
module WaitList {
  import opened Sequences

  type Tid = nat

  datatype Flag = Fifo | Prio

  /** A waiting time: forever (negative in the kernel), or what is left of it in ticks. */
  datatype Wait = Forever | Ticks(left: nat)

  /** What is left of a waiting time. */
  predicate NoLonger(w: Wait, asked: Wait) {
    match asked
    case Forever => w == Forever
    case Ticks(n) => w.Ticks? && w.left <= n
  }

  /** The time a woken thread waits for again, `left` of it remaining on the clock. */
  function Remaining(w: Wait, left: nat): (r: Wait)
    ensures NoLonger(r, w) && (w.Ticks? && left <= w.left ==> r == Ticks(left))
  {
    match w
    case Forever => Forever
    case Ticks(n) => Ticks(if left <= n then left else n)
  }

  ghost predicate Threads(q: seq<Tid>, n: nat) {
    forall i | 0 <= i < |q| :: q[i] < n
  }

  /** `a` is to be resumed before `b`. */
  predicate Before(flag: Flag, prio: seq<nat>, stamp: seq<nat>, a: Tid, b: Tid)
    requires a < |prio| == |stamp| && b < |prio|
  {
    match flag
    case Fifo => stamp[a] < stamp[b]
    case Prio => prio[a] < prio[b] || (prio[a] == prio[b] && stamp[a] < stamp[b])
  }

  /** The order every list is kept in: arrival, or urgency with arrival among equals. */
  ghost predicate Ordered(flag: Flag, q: seq<Tid>, prio: seq<nat>, stamp: seq<nat>) {
    && |prio| == |stamp|
    && Threads(q, |prio|)
    && forall i, j | 0 <= i < j < |q| :: Before(flag, prio, stamp, q[i], q[j])
  }

  /** Some threads, each once: what a list is whatever happens to the priorities of its threads. */
  ghost predicate Waiting(q: seq<Tid>, prio: seq<nat>, stamp: seq<nat>) {
    |prio| == |stamp| && Threads(q, |prio|) && NoDup(q)
  }

  /** The index in front of the first thread less urgent than `t`. */
  function Position(q: seq<Tid>, prio: seq<nat>, t: Tid): (i: nat)
    requires Threads(q, |prio|) && t < |prio|
    ensures i <= |q|
    ensures forall k | 0 <= k < i :: prio[q[k]] <= prio[t]
    ensures i < |q| ==> prio[t] < prio[q[i]]
  {
    if q == [] then 0
    else if prio[t] < prio[q[0]] then 0
    else
      var rest := q[1..];
      assert forall k | 0 < k < |q| :: q[k] == rest[k - 1];
      1 + Position(rest, prio, t)
  }

  function Enqueue(flag: Flag, q: seq<Tid>, prio: seq<nat>, t: Tid): (r: seq<Tid>)
    requires Threads(q, |prio|) && t < |prio|
    ensures |r| == |q| + 1
    ensures forall x :: x in r <==> x in q || x == t
  {
    var i := if flag.Fifo? then |q| else Position(q, prio, t);
    assert q == q[..i] + q[i..];
    q[..i] + [t] + q[i..]
  }

  /** The scan of rt_ipc_list_suspend: walk until a less urgent thread is met. */
  method ListSuspend(flag: Flag, q: seq<Tid>, prio: seq<nat>, t: Tid) returns (r: seq<Tid>)
    requires Threads(q, |prio|) && t < |prio|
    ensures r == Enqueue(flag, q, prio, t)
  {
    if flag.Fifo? {
      assert q[|q|..] == [];
      return q + [t];
    }
    var n := 0;
    while n < |q| && prio[q[n]] <= prio[t]
      invariant n <= |q|
      invariant forall k | 0 <= k < n :: prio[q[k]] <= prio[t]
    {
      n := n + 1;
    }
    assert n == Position(q, prio, t);
    r := q[..n] + [t] + q[n..];
  }

  /** rt_ipc_list_resume_all: resume the head with an error until the list is empty. */
  method ListResumeAll<Pc>(q: seq<Tid>, pc: seq<Pc>, failing: Pc) returns (r: seq<Pc>)
    requires Threads(q, |pc|)
    ensures |r| == |pc|
    ensures forall t | 0 <= t < |pc| :: r[t] == if t in q then failing else pc[t]
  {
    r := pc;
    for i := 0 to |q|
      invariant |r| == |pc|
      invariant forall t | 0 <= t < |pc| :: r[t] == if t in q[..i] then failing else pc[t]
    {
      r := r[q[i] := failing];
      assert q[..i + 1] == q[..i] + [q[i]];
    }
    assert q[..|q|] == q;
  }

  lemma OrderedDistinct(flag: Flag, q: seq<Tid>, prio: seq<nat>, stamp: seq<nat>)
    requires Ordered(flag, q, prio, stamp)
    ensures NoDup(q)
  {
    forall i, j | 0 <= i < j < |q| ensures q[i] != q[j] {
      assert Before(flag, prio, stamp, q[i], q[j]);
    }
  }

  lemma CutOrdered(flag: Flag, q: seq<Tid>, prio: seq<nat>, stamp: seq<nat>, i: nat)
    requires Ordered(flag, q, prio, stamp) && i < |q|
    ensures Ordered(flag, q[..i] + q[i + 1..], prio, stamp)
  {
    var r := q[..i] + q[i + 1..];
    assert forall k | 0 <= k < |r| :: r[k] == if k < i then q[k] else q[k + 1];
  }

  /** Removing any thread keeps the order of the others, and leaves no copy behind. */
  lemma {:induction false} RemoveOrdered(flag: Flag, q: seq<Tid>, prio: seq<nat>, stamp: seq<nat>, t: Tid)
    requires Ordered(flag, q, prio, stamp)
    ensures Ordered(flag, Remove(q, t), prio, stamp)
    ensures forall x :: x in Remove(q, t) <==> x in q && x != t
  {
    OrderedDistinct(flag, q, prio, stamp);
    RemoveElements(q, t);
    if t in q {
      CutOrdered(flag, q, prio, stamp, IndexOf(q, t));
    }
  }

  /** A thread that joins last lands behind every thread it does not outrank. */
  lemma EnqueueOrdered(flag: Flag, q: seq<Tid>, prio: seq<nat>, stamp: seq<nat>, t: Tid, now: nat)
    requires Ordered(flag, q, prio, stamp)
    requires t < |prio| && t !in q
    requires forall i | 0 <= i < |q| :: stamp[q[i]] < now
    ensures Ordered(flag, Enqueue(flag, q, prio, t), prio, stamp[t := now])
  {
    var i := if flag.Fifo? then |q| else Position(q, prio, t);
    var r := Enqueue(flag, q, prio, t);
    var st := stamp[t := now];
    assert r == q[..i] + [t] + q[i..];
    StampElsewhere(flag, q, prio, stamp, t, now);
    forall a, b | 0 <= a < b < |r| ensures Before(flag, prio, st, r[a], r[b]) {
      EnqueuedBefore(flag, q, prio, st, t, i, a, b);
    }
  }

  /** Behind `i` threads that are not less urgent, and in front of less urgent ones, `t` is in its place. */
  lemma EnqueuedBefore(flag: Flag, q: seq<Tid>, prio: seq<nat>, stamp: seq<nat>, t: Tid, i: nat, a: nat, b: nat)
    requires Ordered(flag, q, prio, stamp) && t < |prio| && i <= |q| && a < b <= |q|
    requires forall k | 0 <= k < |q| :: stamp[q[k]] < stamp[t]
    requires if flag.Fifo? then i == |q|
             else (forall k | 0 <= k < i :: prio[q[k]] <= prio[t]) && (i < |q| ==> prio[t] < prio[q[i]])
    ensures var r := q[..i] + [t] + q[i..]; r[a] < |prio| && r[b] < |prio| && Before(flag, prio, stamp, r[a], r[b])
  {
    var x, y := if a < i then a else a - 1, if b < i then b else b - 1;
    if a != i && b != i {
      assert Before(flag, prio, stamp, q[x], q[y]);
    } else if a == i && flag.Prio? {
      assert y == i || Before(flag, prio, stamp, q[i], q[y]);
    }
  }

  lemma EnqueueDistinct(flag: Flag, q: seq<Tid>, prio: seq<nat>, t: Tid)
    requires Threads(q, |prio|) && NoDup(q) && t < |prio| && t !in q
    ensures NoDup(Enqueue(flag, q, prio, t)) && Threads(Enqueue(flag, q, prio, t), |prio|)
  {
    var i, r := if flag.Fifo? then |q| else Position(q, prio, t), Enqueue(flag, q, prio, t);
    assert forall k | 0 <= k < |r| :: r[k] == if k < i then q[k] else if k == i then t else q[k - 1];
  }

  /** Thread `t` stands between its neighbours as its priority demands. */
  ghost predicate InPlace(flag: Flag, q: seq<Tid>, prio: seq<nat>, stamp: seq<nat>, t: Tid)
    requires |prio| == |stamp| && Threads(q, |prio|) && t < |prio|
  {
    t in q ==>
      var i := IndexOf(q, t);
      && (i > 0 ==> Before(flag, prio, stamp, q[i - 1], t))
      && (i + 1 < |q| ==> Before(flag, prio, stamp, t, q[i + 1]))
  }

  /**
   A thread gets another priority while the list stays as it is (src/thread.c does not
   re-sort the lists of suspended threads). The list stays in order exactly if the thread
   still fits between its neighbours; so it always does for FIFO lists.
   */
  lemma PriorityChange(flag: Flag, q: seq<Tid>, prio: seq<nat>, stamp: seq<nat>, t: Tid, p: nat)
    requires Ordered(flag, q, prio, stamp) && t < |prio|
    ensures Ordered(flag, q, prio[t := p], stamp) <==> InPlace(flag, q, prio[t := p], stamp, t)
    ensures flag == Fifo || t !in q ==> InPlace(flag, q, prio[t := p], stamp, t)
  {
    var prio' := prio[t := p];
    OrderedDistinct(flag, q, prio, stamp);
    if flag == Fifo && t in q {
      var i := IndexOf(q, t);
      assert i > 0 ==> Before(flag, prio, stamp, q[i - 1], q[i]);
      assert i + 1 < |q| ==> Before(flag, prio, stamp, q[i], q[i + 1]);
    }
    if InPlace(flag, q, prio', stamp, t) {
      forall a, b | 0 <= a < b < |q| ensures Before(flag, prio', stamp, q[a], q[b]) {
        assert q[a] in q && q[b] in q;
        InPlaceEverywhere(flag, q, prio, stamp, t, p, a, b);
      }
    }
  }

  lemma InPlaceEverywhere(flag: Flag, q: seq<Tid>, prio: seq<nat>, stamp: seq<nat>, t: Tid, p: nat, a: nat, b: nat)
    requires Ordered(flag, q, prio, stamp) && t < |prio| && a < b < |q|
    requires InPlace(flag, q, prio[t := p], stamp, t)
    ensures Before(flag, prio[t := p], stamp, q[a], q[b])
  {
    OrderedDistinct(flag, q, prio, stamp);
    assert Before(flag, prio, stamp, q[a], q[b]);
    if q[a] == t {
      assert a == IndexOf(q, t);
      assert a + 1 == b || Before(flag, prio, stamp, q[a + 1], q[b]);
    } else if q[b] == t {
      assert b == IndexOf(q, t);
      assert a + 1 == b || Before(flag, prio, stamp, q[a], q[b - 1]);
    }
  }

  lemma TailOrdered(flag: Flag, q: seq<Tid>, prio: seq<nat>, stamp: seq<nat>)
    requires q != [] && Ordered(flag, q, prio, stamp)
    ensures Ordered(flag, q[1..], prio, stamp)
    ensures forall x :: x in q <==> x == q[0] || x in q[1..]
    ensures q[0] !in q[1..]
  {
    assert q == [q[0]] + q[1..];
    OrderedDistinct(flag, q, prio, stamp);
  }

  lemma StampElsewhere(flag: Flag, q: seq<Tid>, prio: seq<nat>, stamp: seq<nat>, t: Tid, now: nat)
    requires t < |prio| && t !in q && Ordered(flag, q, prio, stamp)
    ensures Ordered(flag, q, prio, stamp[t := now])
  {
    var st := stamp[t := now];
    assert forall i | 0 <= i < |q| :: st[q[i]] == stamp[q[i]];
    forall i, j | 0 <= i < j < |q| ensures Before(flag, prio, st, q[i], q[j]) {
      assert Before(flag, prio, stamp, q[i], q[j]);
    }
  }

  /** How many elements satisfy `f`. */
  ghost function Count<T>(s: seq<T>, f: T -> bool): (n: nat)
    ensures n <= |s|
  {
    if s == [] then 0
    else Count(s[..|s| - 1], f) + (if f(s[|s| - 1]) then 1 else 0)
  }

  lemma CountUpdate<T>(s: seq<T>, f: T -> bool, i: nat, x: T)
    requires i < |s|
    ensures Count(s[i := x], f) + (if f(s[i]) then 1 else 0) == Count(s, f) + (if f(x) then 1 else 0)
  {
    var last := |s| - 1;
    if i < last {
      CountUpdate(s[..last], f, i, x);
      assert s[i := x][..last] == s[..last][i := x];
    } else {
      assert s[i := x][..last] == s[..last];
    }
  }

  lemma CountZero<T>(s: seq<T>, f: T -> bool)
    requires forall i | 0 <= i < |s| :: !f(s[i])
    ensures Count(s, f) == 0
  {
    if s != [] {
      assert forall i | 0 <= i < |s| - 1 :: s[..|s| - 1][i] == s[i];
      CountZero(s[..|s| - 1], f);
    }
  }

  /** The sum of `f` over all elements. */
  ghost function Total<T>(s: seq<T>, f: T -> nat): (n: nat) {
    if s == [] then 0 else Total(s[..|s| - 1], f) + f(s[|s| - 1])
  }

  lemma TotalUpdate<T>(s: seq<T>, f: T -> nat, i: nat, x: T)
    requires i < |s|
    ensures Total(s[i := x], f) + f(s[i]) == Total(s, f) + f(x)
  {
    var last := |s| - 1;
    if i < last {
      TotalUpdate(s[..last], f, i, x);
      assert s[i := x][..last] == s[..last][i := x];
    } else {
      assert s[i := x][..last] == s[..last];
    }
  }

  lemma TotalFewer<T>(s: seq<T>, s': seq<T>, f: T -> nat)
    requires |s'| == |s| && forall i | 0 <= i < |s| :: f(s'[i]) <= f(s[i])
    ensures Total(s', f) <= Total(s, f)
  {
    if s != [] {
      var last := |s| - 1;
      assert f(s'[last]) <= f(s[last]);
      assert forall i | 0 <= i < last :: s[..last][i] == s[i] && s'[..last][i] == s'[i];
      TotalFewer(s[..last], s'[..last], f);
    }
  }

  lemma TotalAtMost<T>(s: seq<T>, f: T -> nat, b: nat)
    requires forall i | 0 <= i < |s| :: f(s[i]) <= b
    ensures Total(s, f) <= b * |s|
  {
    if s != [] {
      var last := |s| - 1;
      assert forall i | 0 <= i < last :: s[..last][i] == s[i];
      TotalAtMost(s[..last], f, b);
      assert b * |s| == b * last + b;
    }
  }
}
