/**
 Hard timers (src/timer.c): a skip list of timers ordered by deadline. The kernel keeps
 deadlines as 32-bit ticks that wrap around; here every timer also has its true deadline,
 and the comparison of wrapped ticks is proved to agree with it.

 rt_timer_start takes the timer off the list, computes its deadline with interrupts enabled,
 and lists it in a second section; rt_timer_stop clears the flag behind its section. These
 are steps of their own, with ticks and other threads in between.

 Row 0 is the sparsest row of the skip list, the last row holds every listed timer.
 */
module TimerRows {
  import opened Sequences
  import opened WaitList
  import opened Bits

  type TimerId = nat

  /** One more than RT_TICK_MAX, and half of RT_TICK_MAX. */
  const Wrap: int := 0x1_0000_0000
  const Half: int := 0x7fff_ffff

  /** The 32-bit tick of a true time. */
  function Tick(n: nat): (r: nat)
    ensures r < Wrap
  {
    n % Wrap
  }

  /** Addition of 32-bit ticks. */
  function Plus(a: nat, b: nat): (r: nat)
    ensures r < Wrap
  {
    (a + b) % Wrap
  }

  /** Subtraction of 32-bit ticks. */
  function Minus(a: nat, b: nat): (r: nat)
    ensures r < Wrap
  {
    (a - b) % Wrap
  }

  /** The tests of rt_timer_start see whether a listed deadline is that of the new timer, or later. */
  predicate Told(listed: nat, added: nat) {
    var m := Minus(Tick(listed), Tick(added));
    (m == 0 <==> listed == added) && (0 < m < Half <==> added < listed)
  }

  /** They do exactly if the listed deadline is less than Half after the new one and at most Half + 2 before it. */
  lemma ComparisonExact(listed: nat, added: nat)
    requires -Wrap < listed - added < Wrap
    ensures Told(listed, added) <==> -(Half + 2) <= listed - added < Half
  {
    MinusWrapped(listed, added);
  }

  lemma MinusWrapped(a: nat, b: nat)
    requires -Wrap < a - b < Wrap
    ensures Minus(Tick(a), Tick(b)) == if a >= b then a - b else a - b + Wrap
  {
    var x, y := a % Wrap, b % Wrap;
    assert (x - y - (a - b)) % Wrap == 0 by {
      assert a == a / Wrap * Wrap + x && b == b / Wrap * Wrap + y;
      assert x - y - (a - b) == (b / Wrap - a / Wrap) * Wrap;
    }
  }

  /** The test of rt_timer_check is right exactly for deadlines less than Half past and at most Half + 2 ahead. */
  lemma ExpiryExact(now: nat, due: nat)
    requires -Wrap < now - due < Wrap
    ensures (Minus(Tick(now), Tick(due)) < Half <==> due <= now) <==> -(Half + 2) <= now - due < Half
  {
    MinusWrapped(now, due);
  }

  /**
   A timer `late` ticks overdue and one due in `n` ticks are told apart, whichever of them is
   listed first, exactly if the two together are less than Half.
   */
  lemma SlackExact(now: nat, late: nat, n: nat)
    requires late <= now && late <= Half && n <= Half
    ensures Told(now - late, now + n) && Told(now + n, now - late) <==> late + n < Half
  {
    ComparisonExact(now - late, now + n);
    ComparisonExact(now + n, now - late);
  }

  datatype Op =
    | StartTimer(u: TimerId)
    | StopTimer(u: TimerId)
    | SetTime(u: TimerId, n: nat)
    | SetPeriodic(u: TimerId, on: bool)

  /** How far a call of rt_timer_start or rt_timer_stop with interrupts enabled has come. */
  datatype Phase = Rest | Unlisted | Armed | Stopping

  datatype State = State(
    rows: seq<seq<TimerId>>,
    init: seq<nat>, periodic: seq<bool>, active: seq<bool>,
    due: seq<nat>,                 // true deadlines
    since: seq<nat>,               // when the timers were listed
    phase: seq<Phase>,
    time: nat,                     // true time
    slack: nat,                    // how late a timer may be listed, in ticks
    order: nat, stamp: seq<nat>,   // the order in which the timers were listed
    random: nat, bits: nat,        // for the heights of the skip list
    firing: Option<TimerId>)       // the timer whose timeout function runs

  function Last(rows: seq<seq<TimerId>>): seq<TimerId>
    requires rows != []
  {
    rows[|rows| - 1]
  }

  function Bottom(s: State): seq<TimerId>
    requires s.rows != []
  {
    Last(s.rows)
  }

  ghost predicate Absent(rows: seq<seq<TimerId>>, t: TimerId) {
    rows == [] || (t !in rows[0] && Absent(rows[1..], t))
  }

  /** `b` has the elements of `a` but for `t`. */
  ghost predicate Lost(a: seq<TimerId>, b: seq<TimerId>, t: TimerId) {
    forall x :: x in b <==> x in a && x != t
  }

  ghost predicate Within(a: seq<TimerId>, b: seq<TimerId>) {
    forall x :: x in a ==> x in b
  }

  /** Every row is in order of deadline, first come first in among equals, and part of the row below. */
  ghost predicate RowsOk(rows: seq<seq<TimerId>>, due: seq<nat>, stamp: seq<nat>) {
    && rows != []
    && Ordered(Prio, rows[0], due, stamp)
    && (|rows| > 1 ==> Within(rows[0], rows[1]) && RowsOk(rows[1..], due, stamp))
  }

  ghost predicate Sized(s: State) {
    && |s.due| == |s.stamp| == |s.active| == |s.init| == |s.periodic| == |s.since| == |s.phase|
    && s.bits > 0 && s.slack + 1 < Half
  }

  predicate Listed(s: State, t: TimerId)
    requires t < |s.active| && t < |s.phase|
  {
    s.active[t] && s.firing != Some(t) && s.phase[t] == Rest
  }

  /** Exactly the active timers are listed, but for the one that fires and those a call is about to list or stop. */
  ghost predicate Listing(s: State)
    requires Sized(s) && s.rows != []
  {
    forall t | 0 <= t < |s.active| :: t in Bottom(s) <==> s.active[t] && s.firing != Some(t) && s.phase[t] == Rest
  }

  /**
   No listed deadline is so far off that the comparisons of wrapped ticks could fail, and
   none has passed before the last tick unless the timer was listed too late for it.
   */
  ghost predicate InWindow(s: State, t: TimerId)
    requires Sized(s) && t < |s.due|
  {
    && s.time <= s.due[t] + s.slack + 1 && s.due[t] + s.slack < s.time + Half
    && s.since[t] <= s.time && (s.time <= s.due[t] || s.time <= s.since[t] + 1)
  }

  ghost predicate Window(s: State)
    requires Sized(s)
  {
    && (forall t | 0 <= t < |s.active| && s.active[t] && s.firing != Some(t) && s.phase[t] == Rest :: InWindow(s, t))
    && (forall t | 0 <= t < |s.phase| && s.phase[t] == Armed :: s.due[t] + s.slack < s.time + Half)
  }

  ghost predicate Inv(s: State) {
    && Sized(s) && RowsOk(s.rows, s.due, s.stamp) && Listing(s) && Window(s)
    && (forall t | 0 <= t < |s.stamp| :: s.stamp[t] < s.order)
  }

  /** _rt_timer_remove: out of every row. */
  ghost function RemoveRows(rows: seq<seq<TimerId>>, t: TimerId): (r: seq<seq<TimerId>>)
    ensures |r| == |rows|
  {
    if rows == [] then [] else [Remove(rows[0], t)] + RemoveRows(rows[1..], t)
  }

  ghost function InsertRow(row: seq<TimerId>, due: seq<nat>, t: TimerId, joins: bool): seq<TimerId>
    requires t < |due| && Threads(row, |due|)
  {
    if joins then Enqueue(Prio, row, due, t) else row
  }

  ghost predicate RowsThreads(rows: seq<seq<TimerId>>, n: nat) {
    rows == [] || (Threads(rows[0], n) && RowsThreads(rows[1..], n))
  }

  /** The rows with `t` added to the `h` lowest ones, behind every timer that is not later. */
  ghost function InsertRows(rows: seq<seq<TimerId>>, due: seq<nat>, t: TimerId, h: nat): (r: seq<seq<TimerId>>)
    requires t < |due| && RowsThreads(rows, |due|)
    ensures |r| == |rows|
  {
    if rows == [] then []
    else [InsertRow(rows[0], due, t, |rows| <= h)] + InsertRows(rows[1..], due, t, h)
  }

  /** How many rows a new timer joins; RT_TIMER_SKIP_LIST_MASK has `bits` bits. */
  function Height(tst: nat, bits: nat, levels: nat): (h: nat)
    requires levels > 0 && bits > 0
    ensures 1 <= h <= levels
    decreases levels
  {
    if levels == 1 || Low(tst, bits) != 0 then 1
    else 1 + Height(High(tst, Mask(bits - 1)), bits, levels - 1)
  }

  function NextHeight(s: State): (h: nat)
    requires s.rows != [] && s.bits > 0
    ensures 1 <= h <= |s.rows|
  {
    Height(Plus(s.random, 1), s.bits, |s.rows|)
  }

  /** The first section of rt_timer_start: the timer leaves the list. */
  ghost function UnlistStep(s: State, t: TimerId): (r: State)
    requires Inv(s) && t < |s.due| && s.phase[t] == Rest && s.firing != Some(t)
    ensures Inv(r)
  {
    RemoveRowsOk(s.rows, s.due, s.stamp, t);
    s.(rows := RemoveRows(s.rows, t), active := s.active[t := false], phase := s.phase[t := Unlisted])
  }

  /** Between the sections: the deadline, from the tick of this moment. */
  ghost function ArmStep(s: State, t: TimerId): (r: State)
    requires Inv(s) && t < |s.due| && s.phase[t] == Unlisted && s.init[t] + s.slack < Half
    ensures Inv(r)
  {
    AbsentRows(s.rows, s.due, s.stamp, t);
    DueElsewhereRows(s.rows, s.due, s.stamp, t, s.time + s.init[t]);
    s.(due := s.due[t := s.time + s.init[t]], phase := s.phase[t := Armed])
  }

  /** The rows after `t` was listed. */
  ghost function ListedRows(s: State, t: TimerId): (r: seq<seq<TimerId>>)
    requires Inv(s) && t < |s.due|
  {
    RowsAreThreads(s.rows, s.due, s.stamp);
    InsertRows(s.rows, s.due, t, NextHeight(s))
  }

  /** The second section of rt_timer_start: every row stays sorted by true deadline and part of the row below. */
  ghost function ListStep(s: State, t: TimerId): (r: State)
    requires Inv(s) && t < |s.due| && s.phase[t] == Armed && s.firing != Some(t) && s.time <= s.due[t] + s.slack
    ensures Inv(r)
  {
    AbsentRows(s.rows, s.due, s.stamp, t);
    RowsAreThreads(s.rows, s.due, s.stamp);
    InsertRowsOk(s.rows, s.due, s.stamp, t, s.order, NextHeight(s));
    s.(rows := ListedRows(s, t), stamp := s.stamp[t := s.order], order := s.order + 1, since := s.since[t := s.time],
       active := s.active[t := true], phase := s.phase[t := Rest], random := Plus(s.random, 1))
  }

  /** rt_timer_start with interrupts disabled: the three in one step. */
  ghost function StartStep(s: State, t: TimerId): (r: State)
    requires Inv(s) && OpOk(s, StartTimer(t))
    ensures Inv(r)
    ensures r == s.(rows := r.rows, stamp := s.stamp[t := s.order], order := s.order + 1, active := s.active[t := true],
                    due := s.due[t := s.time + s.init[t]], since := s.since[t := s.time], random := Plus(s.random, 1))
  {
    var r := ListStep(ArmStep(UnlistStep(s, t), t), t);
    assert r.active == s.active[t := true] && r.phase == s.phase;
    r
  }

  /** rt_timer_stop with interrupts disabled. */
  ghost function StopStep(s: State, t: TimerId): (r: State)
    requires Inv(s) && t < |s.due|
    ensures Inv(r)
  {
    RemoveRowsOk(s.rows, s.due, s.stamp, t);
    if s.active[t] then s.(rows := RemoveRows(s.rows, t), active := s.active[t := false]) else s
  }

  /** The section of rt_timer_stop: the timer leaves the list, its flag is cleared later. */
  ghost function PullStep(s: State, t: TimerId): (r: State)
    requires Inv(s) && t < |s.due| && s.phase[t] == Rest
    ensures Inv(r)
  {
    RemoveRowsOk(s.rows, s.due, s.stamp, t);
    s.(rows := RemoveRows(s.rows, t), phase := s.phase[t := Stopping])
  }

  ghost function ClearStep(s: State, t: TimerId): (r: State)
    requires Inv(s) && t < |s.due| && s.phase[t] == Stopping
    ensures Inv(r)
  {
    s.(active := s.active[t := false], phase := s.phase[t := Rest])
  }

  /**
   What a caller may do: a timer it starts is short enough, does not fire and is not just being started or
   stopped.
   */
  ghost predicate OpOk(s: State, op: Op)
    requires Sized(s)
  {
    && op.u < |s.due|
    && (op.StartTimer? ==> s.init[op.u] + s.slack < Half && s.firing != Some(op.u) && s.phase[op.u] == Rest)
  }

  ghost function OpStep(s: State, op: Op): (r: State)
    requires Inv(s) && OpOk(s, op)
    ensures Inv(r)
  {
    match op
    case StartTimer(u) => StartStep(s, u)
    case StopTimer(u) => StopStep(s, u)
    case SetTime(u, n) => s.(init := s.init[u := n])
    case SetPeriodic(u, on) => s.(periodic := s.periodic[u := on])
  }

  /** A timer that is not in the last row is in no row. */
  lemma {:induction false} AbsentRows(rows: seq<seq<TimerId>>, due: seq<nat>, stamp: seq<nat>, t: TimerId)
    requires RowsOk(rows, due, stamp) && t !in Last(rows)
    ensures Absent(rows, t)
  {
    if |rows| > 1 {
      AbsentRows(rows[1..], due, stamp, t);
    } else {
      assert rows[1..] == [];
    }
  }

  lemma {:induction false} RowsAreThreads(rows: seq<seq<TimerId>>, due: seq<nat>, stamp: seq<nat>)
    requires RowsOk(rows, due, stamp)
    ensures RowsThreads(rows, |due|)
  {
    if |rows| > 1 {
      RowsAreThreads(rows[1..], due, stamp);
    } else {
      assert rows[1..] == [];
    }
  }

  lemma {:induction false} RemoveRowsOk(rows: seq<seq<TimerId>>, due: seq<nat>, stamp: seq<nat>, t: TimerId)
    requires RowsOk(rows, due, stamp)
    ensures RowsOk(RemoveRows(rows, t), due, stamp)
    ensures Absent(RemoveRows(rows, t), t) && Lost(Last(rows), Last(RemoveRows(rows, t)), t)
    ensures Lost(rows[0], RemoveRows(rows, t)[0], t)
  {
    var r := RemoveRows(rows, t);
    RemoveOrdered(Prio, rows[0], due, stamp, t);
    if |rows| > 1 {
      RemoveRowsOk(rows[1..], due, stamp, t);
      assert r[1..] == RemoveRows(rows[1..], t);
      assert Last(rows) == Last(rows[1..]) && Last(r) == Last(r[1..]);
    } else {
      assert r[1..] == [];
    }
  }

  /** A row without `t` does not care about the deadline of `t`. */
  lemma DueElsewhere(row: seq<TimerId>, due: seq<nat>, stamp: seq<nat>, t: TimerId, d: nat)
    requires Ordered(Prio, row, due, stamp) && t < |due| && t !in row
    ensures Ordered(Prio, row, due[t := d], stamp)
  {
    var due' := due[t := d];
    forall i, j | 0 <= i < j < |row| ensures Before(Prio, due', stamp, row[i], row[j]) {
      assert Before(Prio, due, stamp, row[i], row[j]);
      assert row[i] in row && row[j] in row;
    }
  }

  lemma InsertRowOk(row: seq<TimerId>, due: seq<nat>, stamp: seq<nat>, t: TimerId, order: nat, joins: bool)
    requires Ordered(Prio, row, due, stamp) && t < |due| && t !in row
      && (forall u | 0 <= u < |stamp| :: stamp[u] < order)
    ensures Ordered(Prio, InsertRow(row, due, t, joins), due, stamp[t := order])
    ensures forall x :: x in InsertRow(row, due, t, joins) <==> (joins && x == t) || x in row
  {
    if joins {
      EnqueueOrdered(Prio, row, due, stamp, t, order);
    } else {
      StampElsewhere(Prio, row, due, stamp, t, order);
    }
  }

  lemma {:induction false} InsertRowsOk(rows: seq<seq<TimerId>>, due: seq<nat>, stamp: seq<nat>, t: TimerId,
                                        order: nat, h: nat)
    requires RowsOk(rows, due, stamp) && RowsThreads(rows, |due|) && t < |due| && h >= 1
    requires Absent(rows, t) && (forall u | 0 <= u < |stamp| :: stamp[u] < order)
    ensures RowsOk(InsertRows(rows, due, t, h), due, stamp[t := order])
    ensures forall x :: x in Last(InsertRows(rows, due, t, h)) <==> x == t || x in Last(rows)
    ensures forall x :: x in InsertRows(rows, due, t, h)[0] <==> (|rows| <= h && x == t) || x in rows[0]
  {
    var r := InsertRows(rows, due, t, h);
    InsertRowOk(rows[0], due, stamp, t, order, |rows| <= h);
    if |rows| > 1 {
      InsertRowsOk(rows[1..], due, stamp, t, order, h);
      assert r[1..] == InsertRows(rows[1..], due, t, h);
      assert Last(rows) == Last(rows[1..]) && Last(r) == Last(r[1..]);
      assert Within(r[0], r[1]);
    } else {
      assert r[1..] == [];
    }
  }

  /** Rows without `t` do not care about the deadline of `t`. */
  lemma {:induction false} DueElsewhereRows(rows: seq<seq<TimerId>>, due: seq<nat>, stamp: seq<nat>, t: TimerId, d: nat)
    requires RowsOk(rows, due, stamp) && t < |due| && Absent(rows, t)
    ensures RowsOk(rows, due[t := d], stamp)
  {
    DueElsewhere(rows[0], due, stamp, t, d);
    if |rows| > 1 {
      DueElsewhereRows(rows[1..], due, stamp, t, d);
    }
  }

  /** The listed timers whose deadline has been reached. */
  ghost function DueSet(s: State): set<TimerId>
    requires Sized(s)
  {
    set t | 0 <= t < |s.due| && s.active[t] && s.firing != Some(t) && s.phase[t] == Rest && s.due[t] <= s.time
  }

  /** The time of every timer is short enough. */
  ghost predicate Timed(s: State) {
    forall t | 0 <= t < |s.init| :: s.init[t] + s.slack < Half
  }

  /** What timeout functions depend on: the number of timers, those just being started or stopped, and the slack. */
  datatype Terms = Terms(n: nat, busy: set<TimerId>, slack: nat)

  ghost function TermsOf(s: State): Terms {
    Terms(|s.phase|, (set t | 0 <= t < |s.phase| && s.phase[t] != Rest), s.slack)
  }

  /**
   What a timeout function may do: anything but start its own timer, or one that a thread is just starting or
   stopping.
   */
  ghost predicate CallbackOk(op: Op, t: TimerId, k: Terms) {
    op.u < k.n && (op.StartTimer? ==> op.u != t && op.u !in k.busy) && (op.SetTime? ==> op.n + k.slack < Half)
  }

  ghost predicate AllOk(ops: seq<Op>, t: TimerId, k: Terms) {
    forall i | 0 <= i < |ops| :: CallbackOk(ops[i], t, k)
  }

  predicate Mentions(ops: seq<Op>, u: TimerId) {
    exists i :: 0 <= i < |ops| && ops[i].u == u
  }

  /** Nothing has happened to timer `u`. */
  ghost predicate Same(s: State, r: State, u: TimerId)
    requires Sized(s) && Sized(r) && |r.due| == |s.due| && u < |s.due|
  {
    && r.init[u] == s.init[u] && r.periodic[u] == s.periodic[u] && r.active[u] == s.active[u]
    && r.phase[u] == s.phase[u]
    && r.due[u] == s.due[u] && r.since[u] == s.since[u] && r.stamp[u] == s.stamp[u]
  }

  /** A timer listed since the last tick is not due before this one: so it is while timeout functions run. */
  ghost predicate Prompt(s: State)
    requires Sized(s)
  {
    forall t | 0 <= t < |s.due| && s.active[t] && s.firing != Some(t) && s.phase[t] == Rest && s.since[t] == s.time ::
      s.due[t] >= s.time
  }

  /** What the timeout functions leave alone: the time, and timers that a thread is just starting or stopping. */
  ghost predicate Carried(s: State, r: State)
    requires Sized(s) && Sized(r)
  {
    && |r.due| == |s.due| && r.time == s.time && r.slack == s.slack && r.phase == s.phase && TermsOf(r) == TermsOf(s)
    && (Prompt(s) ==> Prompt(r))
    && forall u | 0 <= u < |s.due| && s.phase[u] != Rest :: r.due[u] == s.due[u]
  }

  lemma CarriedTrans(a: State, b: State, c: State)
    requires Sized(a) && Sized(b) && Sized(c) && Carried(a, b) && Carried(b, c)
    ensures Carried(a, c)
  {
  }

  /** One operation of a timeout function. */
  lemma OpGoes(s: State, op: Op)
    requires Inv(s) && Timed(s) && s.firing.Some? && CallbackOk(op, s.firing.value, TermsOf(s))
    ensures OpOk(s, op)
    ensures var r := OpStep(s, op);
      Timed(r) && r.firing == s.firing && Carried(s, r)
  {
  }

  lemma OpSame(s: State, op: Op, u: TimerId)
    requires Inv(s) && OpOk(s, op) && u < |s.due| && u != op.u
    ensures Same(s, OpStep(s, op), u)
  {
  }

  /** A timeout function running on behalf of the firing timer. */
  ghost function Callback(s: State, ops: seq<Op>): (r: State)
    requires Inv(s) && Timed(s) && s.firing.Some? && AllOk(ops, s.firing.value, TermsOf(s))
    ensures Inv(r) && Timed(r) && r.firing == s.firing && Carried(s, r)
    decreases |ops|
  {
    if ops == [] then s
    else
      var op := ops[0];
      assert CallbackOk(op, s.firing.value, TermsOf(s));
      OpGoes(s, op);
      assert forall i | 0 <= i < |ops[1..]| :: ops[1..][i] == ops[i + 1];
      var r := Callback(OpStep(s, op), ops[1..]);
      CarriedTrans(s, OpStep(s, op), r);
      r
  }

  lemma {:induction false} CallbackSame(s: State, ops: seq<Op>, u: TimerId)
    requires Inv(s) && Timed(s) && s.firing.Some? && AllOk(ops, s.firing.value, TermsOf(s)) && u < |s.due|
      && !Mentions(ops, u)
    ensures Same(s, Callback(s, ops), u)
    decreases |ops|
  {
    if ops != [] {
      var op := ops[0];
      assert CallbackOk(op, s.firing.value, TermsOf(s));
      OpGoes(s, op);
      OpSame(s, op, u);
      assert forall i | 0 <= i < |ops[1..]| :: ops[1..][i] == ops[i + 1];
      CallbackSame(OpStep(s, op), ops[1..], u);
    }
  }

  /** The first timer leaves the rows, and its timeout function is called. */
  ghost function FireBegin(s: State): (r: State)
    requires Inv(s) && s.firing == None && Bottom(s) != []
    ensures Inv(r) && r == s.(rows := r.rows, firing := Some(Bottom(s)[0]))
  {
    var t := Bottom(s)[0];
    RemoveRowsOk(s.rows, s.due, s.stamp, t);
    FirstActive(s);
    s.(rows := RemoveRows(s.rows, t), firing := Some(t))
  }

  /** The first timer of the bottom row is listed and comes before every other one. */
  lemma FirstActive(s: State)
    requires Inv(s) && Bottom(s) != []
    ensures Bottom(s)[0] < |s.due| && Listed(s, Bottom(s)[0])
    ensures forall u | 0 <= u < |s.due| && Listed(s, u) && u != Bottom(s)[0] ::
      Before(Prio, s.due, s.stamp, Bottom(s)[0], u)
  {
    RowOk(s.rows, s.due, s.stamp, |s.rows| - 1);
    var q := Bottom(s);
    forall u | 0 <= u < |s.due| && Listed(s, u) && u != q[0] ensures Before(Prio, s.due, s.stamp, q[0], u) {
      assert u in q;
      var i :| 0 <= i < |q| && q[i] == u;
      assert Before(Prio, s.due, s.stamp, q[0], q[i]);
    }
  }

  lemma {:induction false} RowOk(rows: seq<seq<TimerId>>, due: seq<nat>, stamp: seq<nat>, l: nat)
    requires RowsOk(rows, due, stamp) && l < |rows|
    ensures Ordered(Prio, rows[l], due, stamp)
    ensures l + 1 < |rows| ==> Within(rows[l], rows[l + 1])
  {
    if l > 0 {
      RowOk(rows[1..], due, stamp, l - 1);
    }
  }

  /** Two sorted lists with the same first element: the rest is contained as well. */
  lemma SameFirst(a: seq<TimerId>, b: seq<TimerId>, due: seq<nat>, stamp: seq<nat>)
    requires Ordered(Prio, a, due, stamp) && Within(a, b) && a != [] && b != [] && a[0] == b[0]
    ensures Within(a[1..], b[1..])
  {
    OrderedDistinct(Prio, a, due, stamp);
    assert b == [b[0]] + b[1..];
    forall x | x in a[1..] ensures x in b[1..] {
      var i :| 0 < i < |a| && a[i] == x;
      assert x in b && x != b[0];
    }
  }

  /** The first element of the longer list is earlier than everything in the shorter one. */
  lemma FirstElsewhere(a: seq<TimerId>, b: seq<TimerId>, due: seq<nat>, stamp: seq<nat>)
    requires Ordered(Prio, a, due, stamp) && Ordered(Prio, b, due, stamp) && Within(a, b) && a != [] && b != []
    requires a[0] != b[0]
    ensures Within(a, b[1..])
  {
    assert b == [b[0]] + b[1..];
    assert a[0] in b;
    var k :| 0 < k < |b| && b[k] == a[0];
    assert Before(Prio, due, stamp, b[0], b[k]);
    forall x | x in a ensures x in b[1..] {
      var i :| 0 <= i < |a| && a[i] == x;
      assert i == 0 || Before(Prio, due, stamp, a[0], a[i]);
      assert x in b && x != b[0];
    }
  }

  lemma {:induction false} SortedSubsequence(a: seq<TimerId>, b: seq<TimerId>, due: seq<nat>, stamp: seq<nat>)
    requires Ordered(Prio, a, due, stamp) && Ordered(Prio, b, due, stamp) && Within(a, b)
    ensures Subsequence(a, b)
    decreases |b|
  {
    if a != [] {
      assert a[0] in b;
      TailOrdered(Prio, b, due, stamp);
      if a[0] == b[0] {
        TailOrdered(Prio, a, due, stamp);
        SameFirst(a, b, due, stamp);
        SortedSubsequence(a[1..], b[1..], due, stamp);
      } else {
        FirstElsewhere(a, b, due, stamp);
        SortedSubsequence(a, b[1..], due, stamp);
      }
    }
  }

  /** Every upper row is a subsequence of the row below. */
  lemma RowsNested(s: State, l: nat)
    requires Inv(s) && l + 1 < |s.rows|
    ensures Subsequence(s.rows[l], s.rows[l + 1])
  {
    RowOk(s.rows, s.due, s.stamp, l);
    RowOk(s.rows, s.due, s.stamp, l + 1);
    SortedSubsequence(s.rows[l], s.rows[l + 1], s.due, s.stamp);
  }

  /** Back from the timeout function: a periodic timer that is still active starts again. */
  ghost function FireEnd(s: State): (r: State)
    requires Inv(s) && Timed(s) && s.firing.Some? && s.firing.value < |s.due| && s.phase[s.firing.value] == Rest
    ensures Inv(r) && Timed(r) && r.firing == None && Carried(s, r)
  {
    var t := s.firing.value;
    var idle := s.(active := s.active[t := false], firing := None);
    assert Inv(idle) && Carried(s, idle);
    if s.periodic[t] && s.active[t] then
      StartCarried(idle, t);
      CarriedTrans(s, idle, StartStep(idle, t));
      StartStep(idle, t)
    else idle
  }

  lemma StartCarried(s: State, t: TimerId)
    requires Inv(s) && OpOk(s, StartTimer(t))
    ensures Carried(s, StartStep(s, t))
  {
    var r := StartStep(s, t);
    assert TermsOf(r) == TermsOf(s);
  }

  lemma FireEndSame(s: State, u: TimerId)
    requires Inv(s) && Timed(s) && s.firing.Some? && s.firing.value < |s.due| && s.phase[s.firing.value] == Rest
    requires u < |s.due| && u != s.firing.value
    ensures Same(s, FireEnd(s), u)
  {
  }

  /** The timeout functions: what each timer does when it fires. */
  ghost predicate CallbacksOk(cbs: seq<seq<Op>>, k: Terms) {
    |cbs| == k.n && forall t | 0 <= t < k.n :: AllOk(cbs[t], t, k)
  }

  /** A state in which rt_timer_check may look at the list. */
  ghost predicate Quiet(s: State) {
    Inv(s) && Timed(s) && s.firing == None
  }

  /** The state in which the timeout function of the first timer returns. */
  ghost function Called(s: State, cbs: seq<seq<Op>>): (r: State)
    requires Quiet(s) && Bottom(s) != [] && CallbacksOk(cbs, TermsOf(s))
    ensures Inv(r) && Timed(r) && r.firing == Some(Bottom(s)[0]) && Carried(s, r)
    ensures Bottom(s)[0] < |s.due| && r.phase[Bottom(s)[0]] == Rest
  {
    FirstActive(s);
    var t, b := Bottom(s)[0], FireBegin(s);
    assert Carried(s, b);
    var r := Callback(b, cbs[t]);
    CarriedTrans(s, b, r);
    r
  }

  /** The timeout function of `t` does something to `u`. */
  ghost predicate Touches(cbs: seq<seq<Op>>, t: TimerId, u: TimerId) {
    t < |cbs| && Mentions(cbs[t], u)
  }

  lemma CalledSame(s: State, cbs: seq<seq<Op>>, u: TimerId)
    requires Quiet(s) && Bottom(s) != [] && CallbacksOk(cbs, TermsOf(s)) && u < |s.due|
      && !Touches(cbs, Bottom(s)[0], u)
    ensures Same(s, Called(s, cbs), u)
  {
    FirstActive(s);
    assert Carried(s, FireBegin(s));
    CallbackSame(FireBegin(s), cbs[Bottom(s)[0]], u);
  }

  /** One turn of the loop of rt_timer_check. */
  ghost function Fire(s: State, cbs: seq<seq<Op>>): (r: State)
    requires Quiet(s) && Bottom(s) != [] && CallbacksOk(cbs, TermsOf(s))
    ensures Quiet(r) && Carried(s, r)
  {
    var a := Called(s, cbs);
    CarriedTrans(s, a, FireEnd(a));
    FireEnd(a)
  }

  /** `t` was first in `s` and due, and firing it led to `r`. */
  ghost predicate Fired(s: State, cbs: seq<seq<Op>>, t: TimerId, r: State) {
    && Quiet(s) && CallbacksOk(cbs, TermsOf(s))
    && Bottom(s) != [] && t == Bottom(s)[0] && t in DueSet(s) && r == Fire(s, cbs)
  }

  ghost predicate FiredAt(states: seq<State>, cbs: seq<seq<Op>>, fired: seq<TimerId>, i: nat)
    requires i < |fired| < |states|
  {
    Fired(states[i], cbs, fired[i], states[i + 1])
  }

  /** Turns of the loop of rt_timer_check: `states` before and after each, `fired` the timers they fired. */
  ghost predicate Fires(states: seq<State>, cbs: seq<seq<Op>>, fired: seq<TimerId>) {
    && |states| == |fired| + 1
    && Quiet(states[0]) && CallbacksOk(cbs, TermsOf(states[0]))
    && forall i | 0 <= i < |fired| :: FiredAt(states, cbs, fired, i)
  }

  /** rt_timer_check goes on until no listed timer is due. */
  ghost predicate Checks(states: seq<State>, cbs: seq<seq<Op>>, fired: seq<TimerId>) {
    Fires(states, cbs, fired) && Sized(states[|fired|]) && DueSet(states[|fired|]) == {}
  }

  lemma {:induction false} FiresQuiet(states: seq<State>, cbs: seq<seq<Op>>, fired: seq<TimerId>, i: nat)
    requires Fires(states, cbs, fired) && i < |states|
    ensures Quiet(states[i]) && Carried(states[0], states[i])
  {
    if i > 0 {
      FiresQuiet(states, cbs, fired, i - 1);
      assert FiredAt(states, cbs, fired, i - 1);
    }
  }

  /* Timers of zero ticks, and when the check ends. */

  /** A periodic timer of zero ticks whose timeout function leaves it alone is due again as soon as it has fired. */
  lemma ZeroPeriodStaysDue(s: State, cbs: seq<seq<Op>>)
    requires Quiet(s) && Bottom(s) != [] && CallbacksOk(cbs, TermsOf(s)) && Bottom(s)[0] in DueSet(s)
    requires var t := Bottom(s)[0]; s.periodic[t] && s.init[t] == 0 && !Mentions(cbs[t], t)
    ensures var t, r := Bottom(s)[0], Fire(s, cbs); t in DueSet(r) && r.periodic[t] && r.init[t] == 0
  {
    var t, a := Bottom(s)[0], Called(s, cbs);
    CalledSame(s, cbs, t);
  }

  /** No timeout function does anything. */
  ghost predicate Silent(cbs: seq<seq<Op>>) {
    forall t | 0 <= t < |cbs| :: cbs[t] == []
  }

  /** A timer for which rt_timer_check would not end. */
  ghost predicate Endless(s: State)
    requires Sized(s)
  {
    exists t :: t in DueSet(s) && s.periodic[t] && s.init[t] == 0
  }

  lemma FireSilent(s: State, cbs: seq<seq<Op>>)
    requires Quiet(s) && Bottom(s) != [] && CallbacksOk(cbs, TermsOf(s)) && Bottom(s)[0] in DueSet(s) && Silent(cbs)
    ensures var t, r := Bottom(s)[0], Fire(s, cbs);
      && r.init == s.init && r.periodic == s.periodic
      && DueSet(r) == if s.periodic[t] && s.init[t] == 0 then DueSet(s) else DueSet(s) - {t}
  {
    var t, a, r := Bottom(s)[0], Called(s, cbs), Fire(s, cbs);
    assert a == FireBegin(s);
    forall u: nat ensures u in DueSet(r) <==> u in DueSet(s) && (u != t || (s.periodic[t] && s.init[t] == 0)) {
      if u < |s.due| && u != t {
        FireEndSame(a, u);
      }
    }
  }

  lemma EndlessFired(s: State, cbs: seq<seq<Op>>, r: State)
    requires Quiet(s) && Bottom(s) != [] && CallbacksOk(cbs, TermsOf(s)) && Bottom(s)[0] in DueSet(s) && Silent(cbs)
    requires Endless(s) && r == Fire(s, cbs)
    ensures Endless(r)
  {
    FireSilent(s, cbs);
    var t :| t in DueSet(s) && s.periodic[t] && s.init[t] == 0;
    assert t in DueSet(r);
  }

  lemma {:induction false} EndlessForever(states: seq<State>, cbs: seq<seq<Op>>, fired: seq<TimerId>, i: nat)
    requires Fires(states, cbs, fired) && Silent(cbs) && i < |states| && Endless(states[0])
    ensures Sized(states[i]) && Endless(states[i])
  {
    if i > 0 {
      EndlessForever(states, cbs, fired, i - 1);
      assert FiredAt(states, cbs, fired, i - 1);
      EndlessFired(states[i - 1], cbs, states[i]);
    }
  }

  /** Turns of the loop, continued to the end of the check. */
  lemma {:induction false} SilentCheck(begun: seq<State>, cbs: seq<seq<Op>>, so: seq<TimerId>)
    returns (states: seq<State>, fired: seq<TimerId>)
    requires Fires(begun, cbs, so) && Silent(cbs) && Sized(begun[|so|]) && !Endless(begun[|so|])
    ensures Checks(states, cbs, fired) && states[0] == begun[0]
    decreases DueSet(begun[|so|])
  {
    var s := begun[|so|];
    FiresQuiet(begun, cbs, so, |so|);
    if DueSet(s) == {} {
      states, fired := begun, so;
    } else {
      FirstDue(s);
      FireSilent(s, cbs);
      var t := Bottom(s)[0];
      assert !(s.periodic[t] && s.init[t] == 0);
      FiresAppend(begun, cbs, so, t, Fire(s, cbs));
      states, fired := SilentCheck(begun + [Fire(s, cbs)], cbs, so + [t]);
    }
  }

  /**
   With timeout functions that do nothing, rt_timer_check ends if and only if no due timer is periodic with
   zero ticks.
   */
  lemma CheckEnds(s: State, cbs: seq<seq<Op>>)
    requires Quiet(s) && CallbacksOk(cbs, TermsOf(s)) && Silent(cbs)
    ensures (exists states, fired :: Checks(states, cbs, fired) && states[0] == s) <==> !Endless(s)
  {
    if !Endless(s) {
      assert Fires([s], cbs, []);
      var states, fired := SilentCheck([s], cbs, []);
    } else {
      forall states, fired | Fires(states, cbs, fired) && states[0] == s ensures !Checks(states, cbs, fired) {
        EndlessForever(states, cbs, fired, |fired|);
      }
    }
  }

  /* Checks whose timeout functions start no timer of zero ticks. */

  ghost function Zero(s: State): set<TimerId> { set t | 0 <= t < |s.init| && s.init[t] == 0 }

  ghost predicate Calm(op: Op, zero: set<TimerId>) {
    && (op.StartTimer? ==> op.u !in zero)
    && (op.SetTime? ==> op.n > 0)
    && (op.SetPeriodic? && op.on ==> op.u !in zero)
  }

  ghost predicate AllCalm(ops: seq<Op>, zero: set<TimerId>) {
    forall i | 0 <= i < |ops| :: Calm(ops[i], zero)
  }

  /** No periodic timer has zero ticks. */
  ghost predicate Paced(s: State)
    requires Sized(s)
  {
    forall t | 0 <= t < |s.init| && s.periodic[t] :: s.init[t] > 0
  }

  ghost predicate Steady(s: State, cbs: seq<seq<Op>>) {
    Sized(s) && Paced(s) && forall t | 0 <= t < |cbs| :: AllCalm(cbs[t], Zero(s))
  }

  /** From `s` to `r` no timer became due, and the due ones kept their deadlines and their order. */
  ghost predicate Kept(s: State, r: State)
    requires Sized(s) && Sized(r)
  {
    && |r.due| == |s.due| && DueSet(r) <= DueSet(s) && Zero(r) <= Zero(s)
    && forall u | u in DueSet(r) :: r.due[u] == s.due[u] && r.stamp[u] == s.stamp[u] && r.since[u] == s.since[u]
  }

  lemma KeptTrans(a: State, b: State, c: State)
    requires Sized(a) && Sized(b) && Sized(c) && Kept(a, b) && Kept(b, c)
    ensures Kept(a, c)
  {
  }

  lemma OpKept(s: State, op: Op)
    requires Inv(s) && Timed(s) && s.firing.Some? && CallbackOk(op, s.firing.value, TermsOf(s))
    requires Paced(s) && Calm(op, Zero(s))
    ensures OpOk(s, op) && Kept(s, OpStep(s, op)) && Paced(OpStep(s, op))
  {
    OpGoes(s, op);
  }

  lemma {:induction false} CallbackKept(s: State, ops: seq<Op>)
    requires Inv(s) && Timed(s) && s.firing.Some? && AllOk(ops, s.firing.value, TermsOf(s))
    requires Paced(s) && AllCalm(ops, Zero(s))
    ensures Kept(s, Callback(s, ops)) && Paced(Callback(s, ops))
    decreases |ops|
  {
    if ops != [] {
      var op := ops[0];
      assert CallbackOk(op, s.firing.value, TermsOf(s)) && Calm(op, Zero(s));
      OpGoes(s, op);
      OpKept(s, op);
      assert forall i | 0 <= i < |ops[1..]| :: ops[1..][i] == ops[i + 1];
      CallbackKept(OpStep(s, op), ops[1..]);
      KeptTrans(s, OpStep(s, op), Callback(s, ops));
    }
  }

  lemma FireEndKept(s: State)
    requires Inv(s) && Timed(s) && s.firing.Some? && s.firing.value < |s.due| && s.phase[s.firing.value] == Rest
      && Paced(s)
    ensures Kept(s, FireEnd(s)) && Paced(FireEnd(s)) && s.firing.value !in DueSet(FireEnd(s))
  {
    var t, r := s.firing.value, FireEnd(s);
    assert r.init == s.init;
    forall u | u in DueSet(r) ensures u in DueSet(s) && Same(s, r, u) {
      FireEndSame(s, u);
    }
  }

  lemma FireKept(s: State, cbs: seq<seq<Op>>)
    requires Quiet(s) && Bottom(s) != [] && CallbacksOk(cbs, TermsOf(s)) && Steady(s, cbs)
    ensures Kept(s, Fire(s, cbs)) && Steady(Fire(s, cbs), cbs) && Bottom(s)[0] !in DueSet(Fire(s, cbs))
  {
    FirstActive(s);
    var t, b, a, r := Bottom(s)[0], FireBegin(s), Called(s, cbs), Fire(s, cbs);
    assert Kept(s, b) && AllCalm(cbs[t], Zero(b));
    CallbackKept(b, cbs[t]);
    FireEndKept(a);
    KeptTrans(b, a, r);
    KeptTrans(s, b, r);
    forall u | 0 <= u < |cbs| ensures AllCalm(cbs[u], Zero(r)) {
      assert AllCalm(cbs[u], Zero(s));
    }
  }

  lemma {:induction false} SteadyCheck(begun: seq<State>, cbs: seq<seq<Op>>, so: seq<TimerId>)
    returns (states: seq<State>, fired: seq<TimerId>)
    requires Fires(begun, cbs, so) && Steady(begun[|so|], cbs)
    ensures Checks(states, cbs, fired) && states[0] == begun[0]
    decreases DueSet(begun[|so|])
  {
    var s := begun[|so|];
    FiresQuiet(begun, cbs, so, |so|);
    if DueSet(s) == {} {
      states, fired := begun, so;
    } else {
      FirstDue(s);
      FireKept(s, cbs);
      FiresAppend(begun, cbs, so, Bottom(s)[0], Fire(s, cbs));
      states, fired := SteadyCheck(begun + [Fire(s, cbs)], cbs, so + [Bottom(s)[0]]);
    }
  }

  /** Whatever timeout functions do otherwise, the check ends if they start no timer of zero ticks. */
  lemma SteadyEnds(s: State, cbs: seq<seq<Op>>) returns (states: seq<State>, fired: seq<TimerId>)
    requires Quiet(s) && CallbacksOk(cbs, TermsOf(s)) && Steady(s, cbs)
    ensures Checks(states, cbs, fired) && states[0] == s
  {
    assert Fires([s], cbs, []);
    states, fired := SteadyCheck([s], cbs, []);
  }

  lemma {:induction false} FiresKept(states: seq<State>, cbs: seq<seq<Op>>, fired: seq<TimerId>, i: nat, j: nat)
    requires Fires(states, cbs, fired) && Steady(states[0], cbs) && i <= j < |states|
    ensures Quiet(states[i]) && Quiet(states[j]) && Steady(states[j], cbs) && Kept(states[i], states[j])
    decreases j
  {
    FiresSteady(states, cbs, fired, j);
    if i < j {
      FiresKept(states, cbs, fired, i, j - 1);
      FiredKept(states, cbs, fired, j - 1);
      KeptTrans(states[i], states[j - 1], states[j]);
    }
  }

  lemma FiredKept(states: seq<State>, cbs: seq<seq<Op>>, fired: seq<TimerId>, i: nat)
    requires Fires(states, cbs, fired) && Steady(states[0], cbs) && i < |fired|
    ensures Quiet(states[i]) && Quiet(states[i + 1]) && Kept(states[i], states[i + 1])
      && fired[i] !in DueSet(states[i + 1])
  {
    FiresSteady(states, cbs, fired, i);
    assert FiredAt(states, cbs, fired, i);
    FireKept(states[i], cbs);
  }

  lemma {:induction false} FiresSteady(states: seq<State>, cbs: seq<seq<Op>>, fired: seq<TimerId>, i: nat)
    requires Fires(states, cbs, fired) && Steady(states[0], cbs) && i < |states|
    ensures Quiet(states[i]) && Steady(states[i], cbs)
  {
    if i > 0 {
      FiresSteady(states, cbs, fired, i - 1);
      FiredSteady(states, cbs, fired, i - 1);
    }
  }

  lemma FiredSteady(states: seq<State>, cbs: seq<seq<Op>>, fired: seq<TimerId>, i: nat)
    requires Fires(states, cbs, fired) && i < |fired| && Steady(states[i], cbs)
    ensures Quiet(states[i + 1]) && Steady(states[i + 1], cbs)
  {
    assert FiredAt(states, cbs, fired, i);
    FireKept(states[i], cbs);
  }

  /** One more turn of the loop. */
  lemma FiresAppend(states: seq<State>, cbs: seq<seq<Op>>, fired: seq<TimerId>, t: TimerId, r: State)
    requires Fires(states, cbs, fired) && Fired(states[|fired|], cbs, t, r)
    ensures Fires(states + [r], cbs, fired + [t])
  {
    var states', fired' := states + [r], fired + [t];
    forall i | 0 <= i < |fired'| ensures FiredAt(states', cbs, fired', i) {
      if i < |fired| {
        assert FiredAt(states, cbs, fired, i);
      }
    }
  }

  /** The first timer of the list is due if any is. */
  lemma FirstDue(s: State)
    requires Inv(s)
    ensures DueSet(s) != {} ==> Bottom(s) != []
    ensures Bottom(s) != [] ==> (DueSet(s) != {} <==> Bottom(s)[0] in DueSet(s))
  {
    if DueSet(s) != {} {
      var u :| u in DueSet(s);
      assert u in Bottom(s);
      FirstEarliest(s, u);
    }
  }

  /** Where a whole check goes on, and where it ends. */
  lemma NextTurn(states: seq<State>, cbs: seq<seq<Op>>, fired: seq<TimerId>, n: nat)
    requires Checks(states, cbs, fired) && n <= |fired|
    ensures Quiet(states[n]) && CallbacksOk(cbs, TermsOf(states[n]))
    ensures n < |fired| <==> Bottom(states[n]) != [] && Bottom(states[n])[0] in DueSet(states[n])
    ensures n < |fired| ==> fired[n] == Bottom(states[n])[0] && states[n + 1] == Fire(states[n], cbs)
  {
    FiresQuiet(states, cbs, fired, n);
    FirstDue(states[n]);
    if n < |fired| {
      assert FiredAt(states, cbs, fired, n);
    }
  }

  lemma FirstEarliest(s: State, u: TimerId)
    requires Inv(s) && u in DueSet(s) && Bottom(s) != []
    ensures Bottom(s)[0] in DueSet(s)
    ensures u != Bottom(s)[0] ==> Before(Prio, s.due, s.stamp, Bottom(s)[0], u)
  {
    FirstActive(s);
    assert Listed(s, u);
  }

  /** A timer in the list fires only if it was due when the check began. */
  lemma CheckFires(states: seq<State>, cbs: seq<seq<Op>>, fired: seq<TimerId>, i: nat)
    requires Fires(states, cbs, fired) && Steady(states[0], cbs) && i < |fired|
    ensures Quiet(states[0]) && fired[i] in DueSet(states[0])
  {
    FiresKept(states, cbs, fired, 0, i);
    assert FiredAt(states, cbs, fired, i);
  }

  /** In order of deadline, and in the order they were started among equal deadlines; so no timer fires twice. */
  lemma CheckOrdered(states: seq<State>, cbs: seq<seq<Op>>, fired: seq<TimerId>)
    requires Fires(states, cbs, fired) && Steady(states[0], cbs)
    ensures Ordered(Prio, fired, states[0].due, states[0].stamp)
  {
    var s := states[0];
    forall i | 0 <= i < |fired| ensures fired[i] < |s.due| {
      CheckFires(states, cbs, fired, i);
    }
    forall i, j | 0 <= i < j < |fired| ensures Before(Prio, s.due, s.stamp, fired[i], fired[j]) {
      FiredBefore(states, cbs, fired, i, j);
    }
  }

  lemma FiredBefore(states: seq<State>, cbs: seq<seq<Op>>, fired: seq<TimerId>, i: nat, j: nat)
    requires Fires(states, cbs, fired) && Steady(states[0], cbs) && i < j < |fired|
    ensures Quiet(states[0]) && fired[i] in DueSet(states[0]) && fired[j] in DueSet(states[0])
    ensures Before(Prio, states[0].due, states[0].stamp, fired[i], fired[j])
  {
    FiresKept(states, cbs, fired, 0, i);
    FiresKept(states, cbs, fired, i, j);
    NotAgain(states, cbs, fired, i, j);
    assert FiredAt(states, cbs, fired, i) && FiredAt(states, cbs, fired, j);
    FirstEarliest(states[i], fired[j]);
  }

  lemma NotAgain(states: seq<State>, cbs: seq<seq<Op>>, fired: seq<TimerId>, i: nat, j: nat)
    requires Fires(states, cbs, fired) && Steady(states[0], cbs) && i < j < |fired|
    ensures Sized(states[j]) && fired[i] !in DueSet(states[j])
  {
    FiredKept(states, cbs, fired, i);
    FiresKept(states, cbs, fired, i + 1, j);
  }

  /** A timer that is due fires, unless the timeout function of a timer that did fire has touched it. */
  lemma {:induction false} CheckComplete(states: seq<State>, cbs: seq<seq<Op>>, fired: seq<TimerId>, u: TimerId, i: nat)
    requires Checks(states, cbs, fired) && i <= |fired| && Sized(states[i]) && u in DueSet(states[i])
    ensures exists j :: i <= j < |fired| && (fired[j] == u || Touches(cbs, fired[j], u))
    decreases |fired| - i
  {
    if i < |fired| && fired[i] != u && !Touches(cbs, fired[i], u) {
      assert FiredAt(states, cbs, fired, i);
      FireSpares(states[i], cbs, u);
      CheckComplete(states, cbs, fired, u, i + 1);
    }
  }

  lemma FireSpares(s: State, cbs: seq<seq<Op>>, u: TimerId)
    requires Quiet(s) && Bottom(s) != [] && CallbacksOk(cbs, TermsOf(s)) && u in DueSet(s) && u != Bottom(s)[0]
    requires !Touches(cbs, Bottom(s)[0], u)
    ensures u in DueSet(Fire(s, cbs))
  {
    CalledSame(s, cbs, u);
    FireEndSame(Called(s, cbs), u);
  }

  /**
   After its timeout function a periodic timer that is still active is due one period later, and any other is
   stopped.
   */
  lemma Rearmed(s: State, cbs: seq<seq<Op>>)
    requires Quiet(s) && Bottom(s) != [] && CallbacksOk(cbs, TermsOf(s))
    ensures var t, called, r := Bottom(s)[0], Called(s, cbs), Fire(s, cbs);
      if called.periodic[t] && called.active[t] then Listed(r, t) && r.due[t] == s.time + called.init[t]
      else !r.active[t]
  {
  }

  /* Whole runs. */

  datatype Event =
    | Do(op: Op)             // with interrupts disabled
    | Unlist(u: TimerId)     // rt_timer_start, in its three parts
    | Arm(u: TimerId)
    | Enlist(u: TimerId)
    | Pull(u: TimerId)       // rt_timer_stop, in its two parts
    | Clear(u: TimerId)
    | Interrupt(cbs: seq<seq<Op>>, states: seq<State>, fired: seq<TimerId>)

  ghost predicate Initial(s: State) {
    && Sized(s) && Timed(s) && s.firing == None && s.order > 0
    && s.rows != [] && (forall l | 0 <= l < |s.rows| :: s.rows[l] == [])
    && (forall t | 0 <= t < |s.due| :: !s.active[t] && s.phase[t] == Rest && s.stamp[t] == 0)
  }

  /** Between two interrupts: a listed timer is not yet due, or was listed after its deadline since the last tick. */
  ghost predicate Settled(s: State) {
    && Quiet(s)
    && forall t | 0 <= t < |s.due| && s.active[t] && s.firing != Some(t) && s.phase[t] == Rest ::
         s.time <= s.due[t] + s.slack && (s.time < s.due[t] || s.since[t] == s.time)
  }

  ghost function Ticked(s: State): (r: State)
    requires Settled(s)
    ensures Quiet(r) && Prompt(r)
  {
    s.(time := s.time + 1)
  }

  /** One step: a call of a thread or a part of one, or the tick interrupt with its check of the timers. */
  ghost predicate Step(s: State, e: Event, r: State)
    requires Settled(s)
  {
    match e
    case Do(op) => OpOk(s, op) && (op.SetTime? ==> op.n + s.slack < Half) && r == OpStep(s, op)
    case Unlist(u) => u < |s.due| && s.phase[u] == Rest && r == UnlistStep(s, u)
    case Arm(u) => u < |s.due| && s.phase[u] == Unlisted && r == ArmStep(s, u)
    case Enlist(u) => u < |s.due| && s.phase[u] == Armed && s.time <= s.due[u] + s.slack && r == ListStep(s, u)
    case Pull(u) => u < |s.due| && s.phase[u] == Rest && r == PullStep(s, u)
    case Clear(u) => u < |s.due| && s.phase[u] == Stopping && r == ClearStep(s, u)
    case Interrupt(cbs, states, fired) =>
      Checks(states, cbs, fired) && states[0] == Ticked(s) && states[|fired|] == r
  }

  lemma StepSettled(s: State, e: Event, r: State)
    requires Settled(s) && Step(s, e, r)
    ensures Settled(r) && (e.Interrupt? ==> DueSet(r) == {})
  {
    match e {
      case Interrupt(cbs, states, fired) =>
        FiresQuiet(states, cbs, fired, |fired|);
        NoneDue(r);
      case Do(op) => OpSettled(s, op);
      case Unlist(_) =>
      case Arm(_) =>
      case Enlist(_) =>
      case Pull(_) =>
      case Clear(_) =>
    }
  }

  lemma NoneDue(s: State)
    requires Quiet(s) && DueSet(s) == {}
    ensures Settled(s)
  {
    forall t | 0 <= t < |s.due| && Listed(s, t) ensures s.time < s.due[t] {
      assert t !in DueSet(s);
    }
  }

  lemma OpSettled(s: State, op: Op)
    requires Settled(s) && OpOk(s, op) && (op.SetTime? ==> op.n + s.slack < Half)
    ensures Settled(OpStep(s, op))
  {
    if op.StartTimer? {
      var r := StartStep(s, op.u);
      forall t | 0 <= t < |r.due| && Listed(r, t)
        ensures r.time <= r.due[t] + r.slack && (r.time < r.due[t] || r.since[t] == r.time)
      {
        assert t == op.u || Listed(s, t);
      }
    }
  }

  lemma {:induction false} EmptyRowsOk(rows: seq<seq<TimerId>>, due: seq<nat>, stamp: seq<nat>)
    requires rows != [] && |due| == |stamp| && forall l | 0 <= l < |rows| :: rows[l] == []
    ensures RowsOk(rows, due, stamp)
  {
    if |rows| > 1 {
      EmptyRowsOk(rows[1..], due, stamp);
    }
  }

  ghost predicate Run(trace: seq<State>, events: seq<Event>) {
    && |trace| == |events| + 1
    && Initial(trace[0])
    && forall i | 0 <= i < |events| :: StepAt(trace, events, i)
  }

  ghost predicate StepAt(trace: seq<State>, events: seq<Event>, i: nat)
    requires i < |events| < |trace|
  {
    Settled(trace[i]) ==> Step(trace[i], events[i], trace[i + 1])
  }

  lemma {:induction false} RunSettled(trace: seq<State>, events: seq<Event>, k: nat)
    requires Run(trace, events) && k < |trace|
    ensures Settled(trace[k])
  {
    if k == 0 {
      EmptyRowsOk(trace[0].rows, trace[0].due, trace[0].stamp);
    } else {
      RunSettled(trace, events, k - 1);
      assert StepAt(trace, events, k - 1);
      StepSettled(trace[k - 1], events[k - 1], trace[k]);
    }
  }

  /** In every run: after each interrupt no listed timer is due. */
  lemma NothingLeftDue(trace: seq<State>, events: seq<Event>, k: nat)
    requires Run(trace, events) && k < |events| && events[k].Interrupt?
    ensures Settled(trace[k + 1]) && DueSet(trace[k + 1]) == {}
  {
    RunSettled(trace, events, k);
    assert StepAt(trace, events, k);
    StepSettled(trace[k], events[k], trace[k + 1]);
  }

  function Later(a: nat, b: nat): nat { if a < b then b else a }

  /**
   In every run: a timer fires at its deadline if it was listed before it, and otherwise at the first tick
   after it was listed. (A timer of zero ticks that a timeout function starts fires in the same check.)
   */
  lemma FiringTime(trace: seq<State>, events: seq<Event>, k: nat, i: nat)
    requires Run(trace, events) && k < |events| && events[k].Interrupt? && i < |events[k].fired| < |events[k].states|
    ensures var s, t, now := events[k].states[i], events[k].fired[i], trace[k].time + 1;
      && t < |s.due| == |s.since| && s.time == now && s.since[t] <= now
      && now == if s.since[t] < now then Later(s.due[t], s.since[t] + 1) else s.due[t]
  {
    RunSettled(trace, events, k);
    assert StepAt(trace, events, k);
    var e := events[k];
    FiresQuiet(e.states, e.cbs, e.fired, i);
    assert FiredAt(e.states, e.cbs, e.fired, i);
    assert InWindow(e.states[i], e.fired[i]);
  }

  /** A timer that a thread has armed stays so until it is listed, whatever else happens. */
  lemma StaysArmed(s: State, e: Event, r: State, t: TimerId)
    requires Settled(s) && Step(s, e, r) && t < |s.due| && s.phase[t] == Armed && e != Enlist(t)
    ensures Settled(r) && t < |r.due| && r.phase[t] == Armed && r.due[t] == s.due[t]
  {
    StepSettled(s, e, r);
    if e.Interrupt? {
      FiresQuiet(e.states, e.cbs, e.fired, |e.fired|);
    }
  }

  lemma {:induction false} StillArmed(trace: seq<State>, events: seq<Event>, j: nat, k: nat, t: TimerId)
    requires Run(trace, events) && j < k < |events| && events[j] == Arm(t)
    requires forall i | j < i < k :: events[i] != Enlist(t)
    ensures Settled(trace[j]) && Settled(trace[k]) && t < |trace[j].due| && t < |trace[k].due|
    ensures trace[k].phase[t] == Armed && trace[k].due[t] == trace[j].time + trace[j].init[t]
    decreases k
  {
    RunSettled(trace, events, k - 1);
    RunSettled(trace, events, k);
    assert StepAt(trace, events, k - 1);
    if k - 1 > j {
      StillArmed(trace, events, j, k - 1, t);
      StaysArmed(trace[k - 1], events[k - 1], trace[k], t);
    }
  }

  /**
   In every run: a timer is listed before its deadline exactly if fewer ticks than its time passed since it was
   armed.
   */
  lemma ListedInTime(trace: seq<State>, events: seq<Event>, j: nat, k: nat, t: TimerId)
    requires Run(trace, events) && j < k < |events| && events[j] == Arm(t) && events[k] == Enlist(t)
    requires forall i | j < i < k :: events[i] != Enlist(t)
    ensures t < |trace[k + 1].due| == |trace[k + 1].since| && t < |trace[j].init|
      && trace[k + 1].since[t] == trace[k].time
    ensures trace[k + 1].since[t] < trace[k + 1].due[t] <==> trace[k].time - trace[j].time < trace[j].init[t]
  {
    StillArmed(trace, events, j, k, t);
    assert StepAt(trace, events, k);
  }

  /* From the call to the timeout function. */

  /** What a call does to its timer. */
  lemma OpMeans(s: State, op: Op)
    requires Inv(s) && OpOk(s, op)
    ensures var u, r := op.u, OpStep(s, op);
      && |r.due| == |s.due| && r.time == s.time && r.firing == s.firing && Sized(r)
      && match op
         case StartTimer(_) =>
           Listed(r, u) && r.due[u] == s.time + s.init[u] && r.init[u] == s.init[u] && r.periodic[u] == s.periodic[u]
         case StopTimer(_) =>
           !r.active[u] && u !in Bottom(r) && r.init[u] == s.init[u] && r.periodic[u] == s.periodic[u]
         case SetTime(_, n) => r == s.(init := r.init) && r.init[u] == n
         case SetPeriodic(_, on) => r == s.(periodic := r.periodic) && r.periodic[u] == on
  {
  }

  /** What the parts of a call do: out of the list, the deadline, into the list; or out of the list, then inactive. */
  lemma PartMeans(s: State, e: Event, r: State)
    requires Settled(s) && Step(s, e, r) && !e.Do? && !e.Interrupt?
    ensures Inv(r) && |r.due| == |s.due| && r.time == s.time && e.u < |s.due|
    ensures e.Unlist? ==> e.u !in Bottom(r) && !r.active[e.u] && r.due == s.due
    ensures e.Arm? ==> r.due[e.u] == s.time + s.init[e.u] && r.rows == s.rows
    ensures e.Enlist? ==> e.u in Bottom(r) && r.active[e.u] && r.due == s.due
    ensures e.Pull? ==> e.u !in Bottom(r) && r.active == s.active && r.due == s.due
    ensures e.Clear? ==> !r.active[e.u] && r.rows == s.rows && r.due == s.due
  {
  }

  /** Timer `t` waits for time `d`, and for `n` ticks again after that if it is periodic. */
  ghost predicate Waits(s: State, t: TimerId, d: nat, n: nat, periodic: bool) {
    && Sized(s) && s.firing == None && t < |s.due| && Listed(s, t)
    && s.due[t] == d && s.init[t] == n && s.periodic[t] == periodic
  }

  /** No timeout function of a timer that fires does anything to `t`. */
  ghost predicate Untouched(cbs: seq<seq<Op>>, fired: seq<TimerId>, t: TimerId) {
    forall i | 0 <= i < |fired| :: !Touches(cbs, fired[i], t)
  }

  /** The event has nothing to do with timer `t`. */
  ghost predicate Avoids(e: Event, t: TimerId) {
    match e
    case Do(op) => op.u != t
    case Interrupt(cbs, _, fired) => Untouched(cbs, fired, t)
    case _ => e.u != t
  }

  lemma FireWaits(s: State, cbs: seq<seq<Op>>, t: TimerId, d: nat, n: nat, p: bool)
    requires Quiet(s) && Bottom(s) != [] && CallbacksOk(cbs, TermsOf(s)) && Waits(s, t, d, n, p)
    requires t != Bottom(s)[0] && !Touches(cbs, Bottom(s)[0], t)
    ensures Waits(Fire(s, cbs), t, d, n, p)
  {
    CalledSame(s, cbs, t);
    FireEndSame(Called(s, cbs), t);
  }

  /** One turn of a check that does not fire it. */
  lemma TurnWaits(states: seq<State>, cbs: seq<seq<Op>>, fired: seq<TimerId>, t: TimerId, d: nat, n: nat, p: bool,
                  k: nat)
    requires Fires(states, cbs, fired) && k < |fired| && Waits(states[k], t, d, n, p) && !Touches(cbs, fired[k], t)
    requires fired[k] != t || states[0].time < d
    ensures Waits(states[k + 1], t, d, n, p) && fired[k] != t
  {
    FiresQuiet(states, cbs, fired, k);
    assert FiredAt(states, cbs, fired, k);
    FireWaits(states[k], cbs, t, d, n, p);
  }

  /** `t` is not among the timers fired in turns `i` to `k`. */
  ghost predicate NotAmong(fired: seq<TimerId>, t: TimerId, i: nat, k: nat) {
    forall j | i <= j < k && j < |fired| :: fired[j] != t
  }

  /** A check that does not reach the deadline leaves the timer waiting, and does not fire it. */
  lemma {:induction false} NotYet(states: seq<State>, cbs: seq<seq<Op>>, fired: seq<TimerId>, t: TimerId, d: nat,
                                  n: nat, p: bool, i: nat, k: nat)
    requires Fires(states, cbs, fired) && i <= k <= |fired| && Waits(states[i], t, d, n, p) && states[0].time < d
    requires Untouched(cbs, fired, t)
    ensures Waits(states[k], t, d, n, p) && NotAmong(fired, t, i, k)
    decreases k
  {
    if i < k {
      NotYet(states, cbs, fired, t, d, n, p, i, k - 1);
      TurnWaits(states, cbs, fired, t, d, n, p, k - 1);
    }
  }

  lemma OpWaits(s: State, op: Op, t: TimerId, d: nat, n: nat, p: bool)
    requires Inv(s) && OpOk(s, op) && Waits(s, t, d, n, p) && op.u != t
    ensures Waits(OpStep(s, op), t, d, n, p)
  {
    OpSame(s, op, t);
  }

  lemma StepWaits(s: State, e: Event, r: State, t: TimerId, d: nat, n: nat, p: bool)
    requires Settled(s) && Step(s, e, r) && Waits(s, t, d, n, p) && Avoids(e, t)
    requires e.Interrupt? ==> s.time + 1 < d
    ensures Waits(r, t, d, n, p) && (e.Interrupt? ==> t !in e.fired)
  {
    match e {
      case Interrupt(cbs, states, fired) =>
        NotYet(states, cbs, fired, t, d, n, p, 0, |fired|);
      case Do(op) => OpWaits(s, op, t, d, n, p);
      case Unlist(_) =>
      case Arm(_) =>
      case Enlist(_) =>
      case Pull(_) =>
      case Clear(_) =>
    }
  }

  /** The check at the deadline fires the timer, once, and a periodic one then waits for the next period. */
  lemma CheckAtDeadline(s: State, e: Event, r: State, t: TimerId, d: nat, n: nat, p: bool)
    requires Settled(s) && e.Interrupt? && Step(s, e, r) && Waits(s, t, d, n, p) && Avoids(e, t) && s.time + 1 == d
    requires n > 0
    ensures Once(e.fired, t)
    ensures if p then Waits(r, t, d + n, n, p) else t < |r.active| && !r.active[t]
  {
    var i := FirstFiring(e.states, e.cbs, e.fired, t, d, n, p, 0);
    FiredThen(e.states, e.cbs, e.fired, t, d, n, p, i);
    if p {
      WaitsAgain(e.states, e.cbs, e.fired, t, d + n, n, i);
    } else {
      StaysStopped(e.states, e.cbs, e.fired, t, i + 1, |e.fired|);
    }
  }

  /** The turn that fires `t`. */
  lemma FiredThen(states: seq<State>, cbs: seq<seq<Op>>, fired: seq<TimerId>, t: TimerId, d: nat, n: nat, p: bool,
                  i: nat)
    requires Fires(states, cbs, fired) && i < |fired| && fired[i] == t && Waits(states[i], t, d, n, p)
    requires states[0].time == d && !Touches(cbs, fired[i], t)
    ensures if p then Waits(states[i + 1], t, d + n, n, p) else t < |states[i + 1].active| && !states[i + 1].active[t]
  {
    FiresQuiet(states, cbs, fired, i);
    assert FiredAt(states, cbs, fired, i);
    CalledSame(states[i], cbs, t);
    Rearmed(states[i], cbs);
  }

  /** The first turn that fires `t`; up to then it waits. */
  lemma {:induction false} FirstFiring(states: seq<State>, cbs: seq<seq<Op>>, fired: seq<TimerId>, t: TimerId, d: nat,
                                       n: nat, p: bool, from: nat) returns (i: nat)
    requires Checks(states, cbs, fired) && from <= |fired| && Waits(states[from], t, d, n, p) && states[0].time == d
    requires Untouched(cbs, fired, t) && NotAmong(fired, t, 0, from)
    ensures i < |fired| && fired[i] == t && Waits(states[i], t, d, n, p) && NotAmong(fired, t, 0, i)
    decreases |fired| - from
  {
    StillDue(states, cbs, fired, t, d, n, p, from);
    if fired[from] == t {
      i := from;
    } else {
      TurnWaits(states, cbs, fired, t, d, n, p, from);
      i := FirstFiring(states, cbs, fired, t, d, n, p, from + 1);
    }
  }

  /** As long as it waits for a time that has come, the check is not over. */
  lemma StillDue(states: seq<State>, cbs: seq<seq<Op>>, fired: seq<TimerId>, t: TimerId, d: nat, n: nat, p: bool,
                 k: nat)
    requires Checks(states, cbs, fired) && k <= |fired| && Waits(states[k], t, d, n, p) && states[0].time == d
    ensures k < |fired|
  {
    FiresQuiet(states, cbs, fired, k);
    assert t in DueSet(states[k]);
  }

  lemma WaitsAgain(states: seq<State>, cbs: seq<seq<Op>>, fired: seq<TimerId>, t: TimerId, d: nat, n: nat, i: nat)
    requires Fires(states, cbs, fired) && i < |fired| && fired[i] == t && Waits(states[i + 1], t, d, n, true)
    requires states[0].time < d && Untouched(cbs, fired, t) && NotAmong(fired, t, 0, i)
    ensures Waits(states[|fired|], t, d, n, true) && Once(fired, t)
  {
    NotYet(states, cbs, fired, t, d, n, true, i + 1, |fired|);
  }

  lemma {:induction false} StaysStopped(states: seq<State>, cbs: seq<seq<Op>>, fired: seq<TimerId>, t: TimerId, i: nat,
                                        k: nat)
    requires Fires(states, cbs, fired) && i <= k <= |fired| && t < |states[i].active| && !states[i].active[t]
    requires Untouched(cbs, fired, t)
    ensures t < |states[k].active| && !states[k].active[t] && NotAmong(fired, t, i, k)
    decreases k
  {
    if i < k {
      StaysStopped(states, cbs, fired, t, i, k - 1);
      TurnStopped(states, cbs, fired, t, k - 1);
    }
  }

  lemma TurnStopped(states: seq<State>, cbs: seq<seq<Op>>, fired: seq<TimerId>, t: TimerId, k: nat)
    requires Fires(states, cbs, fired) && k < |fired| && t < |states[k].active| && !states[k].active[t]
    requires !Touches(cbs, fired[k], t)
    ensures t < |states[k + 1].active| && !states[k + 1].active[t] && fired[k] != t
  {
    FiresQuiet(states, cbs, fired, k);
    assert FiredAt(states, cbs, fired, k);
    CalledSame(states[k], cbs, t);
    FireEndSame(Called(states[k], cbs), t);
  }

  /** `t` does not fire in the events from `i` to `k`. */
  ghost predicate Silence(events: seq<Event>, t: TimerId, i: nat, k: nat) {
    forall j | i <= j < k && j < |events| && events[j].Interrupt? :: t !in events[j].fired
  }

  /** Before its time the timer goes on waiting. */
  lemma {:induction false} StillWaits(trace: seq<State>, events: seq<Event>, i: nat, k: nat, t: TimerId, d: nat, n: nat,
                                      p: bool)
    requires Run(trace, events) && i <= k < |trace| && Waits(trace[i], t, d, n, p) && trace[k].time < d
    requires forall j | i <= j < k :: Avoids(events[j], t)
    ensures Waits(trace[k], t, d, n, p) && Silence(events, t, i, k)
    decreases k
  {
    if i < k {
      TimeGoesOn(trace, events, k - 1);
      StillWaits(trace, events, i, k - 1, t, d, n, p);
      assert Avoids(events[k - 1], t);
      WaitsOn(trace, events, k - 1, t, d, n, p);
    }
  }

  lemma WaitsOn(trace: seq<State>, events: seq<Event>, k: nat, t: TimerId, d: nat, n: nat, p: bool)
    requires Run(trace, events) && k < |events| && Waits(trace[k], t, d, n, p) && trace[k + 1].time < d
    requires Avoids(events[k], t)
    ensures Waits(trace[k + 1], t, d, n, p) && (events[k].Interrupt? ==> t !in events[k].fired)
  {
    TimeGoesOn(trace, events, k);
    RunSettled(trace, events, k);
    assert StepAt(trace, events, k);
    StepWaits(trace[k], events[k], trace[k + 1], t, d, n, p);
  }

  lemma TimeGoesOn(trace: seq<State>, events: seq<Event>, k: nat)
    requires Run(trace, events) && k < |events|
    ensures trace[k + 1].time == if events[k].Interrupt? then trace[k].time + 1 else trace[k].time
  {
    RunSettled(trace, events, k);
    assert StepAt(trace, events, k);
    var e := events[k];
    if e.Interrupt? {
      FiresQuiet(e.states, e.cbs, e.fired, |e.fired|);
    }
  }

  /** `t` is fired once. */
  ghost predicate Once(fired: seq<TimerId>, t: TimerId) {
    exists i :: 0 <= i < |fired| && fired[i] == t && forall j | 0 <= j < |fired| && j != i :: fired[j] != t
  }

  /** A timer that has been started waits for as many ticks as its time says. */
  lemma StartedWaits(trace: seq<State>, events: seq<Event>, j: nat, t: TimerId)
    requires Run(trace, events) && j < |events| && events[j] == Do(StartTimer(t))
    ensures t < |trace[j].init| && t < |trace[j].periodic|
    ensures Waits(trace[j + 1], t, trace[j].time + trace[j].init[t], trace[j].init[t], trace[j].periodic[t])
  {
    RunSettled(trace, events, j);
    assert StepAt(trace, events, j);
    OpMeans(trace[j], StartTimer(t));
  }

  /**
   In every run: a timer that waits for time `d` and is left alone fires, once, in the interrupt that takes the
   time to `d`, and in none before. If it is periodic it then waits for another `n` ticks, and else it is stopped.
   */
  lemma FiresAt(trace: seq<State>, events: seq<Event>, i: nat, k: nat, t: TimerId, d: nat, n: nat, p: bool)
    requires Run(trace, events) && i <= k < |events| && Waits(trace[i], t, d, n, p) && n > 0
    requires events[k].Interrupt? && trace[k].time + 1 == d
    requires forall j | i <= j <= k :: Avoids(events[j], t)
    ensures Once(events[k].fired, t) && Silence(events, t, i, k)
    ensures if p then Waits(trace[k + 1], t, d + n, n, p) else t < |trace[k + 1].active| && !trace[k + 1].active[t]
  {
    StillWaits(trace, events, i, k, t, d, n, p);
    RunSettled(trace, events, k);
    assert StepAt(trace, events, k) && Avoids(events[k], t);
    CheckAtDeadline(trace[k], events[k], trace[k + 1], t, d, n, p);
  }

  /** So a timer started for `n` ticks and then left alone fires exactly `n` ticks after its start. */
  lemma FiresAfter(trace: seq<State>, events: seq<Event>, j: nat, k: nat, t: TimerId, n: nat)
    requires Run(trace, events) && j < k < |events| && events[j] == Do(StartTimer(t))
    requires t < |trace[j].init| && trace[j].init[t] == n > 0
    requires events[k].Interrupt? && trace[k].time + 1 == trace[j].time + n
    requires forall i | j < i <= k :: Avoids(events[i], t)
    ensures Once(events[k].fired, t) && Silence(events, t, j + 1, k)
  {
    StartedWaits(trace, events, j, t);
    FiresAt(trace, events, j + 1, k, t, trace[j].time + n, n, trace[j].periodic[t]);
  }

  /** One timer, of one tick. */
  ghost predicate OneTimer(s: State) {
    Settled(s) && |s.due| == 1 && s.init[0] == 1 && !s.periodic[0]
  }

  /** It is armed when the tick interrupt comes... */
  lemma ArmedLate() returns (trace: seq<State>, events: seq<Event>)
    ensures Run(trace, events) && |events| == 3 && events[1] == Arm(0) && trace[0].init == [1] && trace[1].time == 0
    ensures OneTimer(trace[3]) && trace[3].phase[0] == Armed && trace[3].due[0] == trace[3].time == 1
      && trace[3].slack == 0
  {
    var s := FreshTimer();
    var a := UnlistStep(s, 0);
    trace, events := RunOn([s], [], Unlist(0), a);
    RunSettled(trace, events, 1);
    var b := ArmStep(a, 0);
    trace, events := RunOn(trace, events, Arm(0), b);
    RunSettled(trace, events, 2);
    var r := Ticked(b);
    NoneDue(r);
    trace, events := RunOn(trace, events, Interrupt([[]], [r], []), r);
  }

  /** ... and listed only then... */
  lemma ListedLate() returns (trace: seq<State>, events: seq<Event>)
    ensures Run(trace, events) && |events| == 4 && events[1] == Arm(0) && events[3] == Enlist(0)
    ensures trace[0].init == [1] && trace[1].time == 0
    ensures OneTimer(trace[4]) && Listed(trace[4], 0) && trace[4].due[0] == trace[4].time == 1 && trace[4].slack == 0
  {
    trace, events := ArmedLate();
    var r := ListStep(trace[3], 0);
    StepSettled(trace[3], Enlist(0), r);
    trace, events := RunOn(trace, events, Enlist(0), r);
  }

  /** ... so that it fires at the next. */
  lemma FiresLate(s: State, cbs: seq<seq<Op>>) returns (b: State, r: State)
    requires OneTimer(s) && Listed(s, 0) && s.due[0] == s.time && CallbacksOk(cbs, Terms(1, {}, s.slack)) && Silent(cbs)
    ensures Step(s, Interrupt(cbs, [b, r], [0]), r) && r.time == s.time + 1
  {
    b := Ticked(s);
    assert TermsOf(b) == Terms(1, {}, s.slack);
    assert 0 in DueSet(b);
    FirstEarliest(b, 0);
    r := Fire(b, cbs);
    FireSilent(b, cbs);
    assert Fires([b], cbs, []);
    FiresAppend([b], cbs, [], 0, r);
    assert [b] + [r] == [b, r] && [] + [0] == [0];
  }

  lemma FreshTimer() returns (s: State)
    ensures Initial(s) && OneTimer(s) && s.phase[0] == Rest && !s.active[0] && s.init == [1] && s.time == 0
      && s.slack == 0
  {
    s := State([[]], [1], [false], [false], [0], [0], [Rest], 0, 0, 1, [0], 0, 1, None);
    EmptyRowsOk(s.rows, s.due, s.stamp);
  }

  /** A run that fires a timer of one tick a tick late: an interrupt comes between its arming and its listing. */
  lemma LateRun() returns (trace: seq<State>, events: seq<Event>)
    ensures Run(trace, events) && |events| == 5 && events[1] == Arm(0) && events[3] == Enlist(0)
    ensures trace[0].init == [1] && trace[1].time == 0 && events[4].Interrupt? && events[4].fired == [0]
    ensures |trace[4].due| == 1 && trace[4].due[0] == 1 && trace[5].time == 2
  {
    trace, events := ListedLate();
    var e, f := FiresLate(trace[4], [[]]);
    trace, events := RunOn(trace, events, Interrupt([[]], [e, f], [0]), f);
  }

  lemma RunOn(trace: seq<State>, events: seq<Event>, e: Event, r: State)
    returns (trace': seq<State>, events': seq<Event>)
    requires Run(trace, events) && Settled(trace[|events|]) && Step(trace[|events|], e, r)
    ensures Run(trace', events') && trace' == trace + [r] && events' == events + [e]
  {
    trace', events' := trace + [r], events + [e];
    forall i | 0 <= i < |events'| ensures StepAt(trace', events', i) {
      if i < |events| {
        assert StepAt(trace, events, i);
      }
    }
  }
}

/** rt_timer_list and the fields of the timers. */
module TimerList {
  import opened Sequences
  import opened WaitList
  import opened Bits
  import opened TimerRows

  lemma {:induction false} RemoveRowsAt(rows: seq<seq<TimerId>>, t: TimerId, l: nat)
    requires l < |rows|
    ensures RemoveRows(rows, t)[l] == Remove(rows[l], t)
  {
    if l > 0 {
      RemoveRowsAt(rows[1..], t, l - 1);
    }
  }

  lemma {:induction false} InsertRowsAt(rows: seq<seq<TimerId>>, due: seq<nat>, t: TimerId, h: nat, l: nat)
    requires t < |due| && RowsThreads(rows, |due|) && l < |rows|
    ensures Threads(rows[l], |due|)
    ensures InsertRows(rows, due, t, h)[l] == InsertRow(rows[l], due, t, |rows| - l <= h)
  {
    if l > 0 {
      InsertRowsAt(rows[1..], due, t, h, l - 1);
    }
  }

  function Spliced(row: seq<TimerId>, pos: nat, t: TimerId): seq<TimerId>
    requires pos <= |row|
  {
    row[..pos] + [t] + row[pos..]
  }

  /** The `h` lowest rows of `r` are those of `rows` with `t` put in at the places found. */
  ghost predicate Joined(rows: seq<seq<TimerId>>, r: seq<seq<TimerId>>, heads: seq<nat>, t: TimerId, h: nat) {
    && |r| == |rows| == |heads|
    && forall l | 0 <= l < |rows| ::
         heads[l] <= |rows[l]| && r[l] == if l + h >= |rows| then Spliced(rows[l], heads[l], t) else rows[l]
  }

  /** One row more. */
  lemma JoinedMore(rows: seq<seq<TimerId>>, r: seq<seq<TimerId>>, heads: seq<nat>, t: TimerId, h: nat)
    requires Joined(rows, r, heads, t, h) && h < |rows|
    ensures var l := |rows| - 1 - h;
      r[l] == rows[l] && Joined(rows, r[l := Spliced(r[l], heads[l], t)], heads, t, h + 1)
  {
  }

  lemma HeightOn(tst: nat, bits: nat, levels: nat, rest: nat)
    requires levels > 1 && bits > 0 && Low(tst, bits) == 0 && rest == High(tst, Mask(bits - 1))
    ensures Height(tst, bits, levels) == 1 + Height(rest, bits, levels - 1)
  {
  }

  lemma JoinedRows(rows: seq<seq<TimerId>>, r: seq<seq<TimerId>>, heads: seq<nat>, due: seq<nat>, t: TimerId, h: nat)
    requires t < |due| && RowsThreads(rows, |due|) && Joined(rows, r, heads, t, h)
    requires forall l | 0 <= l < |rows| :: PlaceOk(rows[l], due, t, heads[l])
    ensures r == InsertRows(rows, due, t, h)
  {
    forall l | 0 <= l < |rows| ensures r[l] == InsertRows(rows, due, t, h)[l] {
      InsertRowsAt(rows, due, t, h, l);
      assert PlaceOk(rows[l], due, t, heads[l]);
    }
  }

  /** The listed deadlines are close enough to that of `t` for wrapped ticks to be compared. */
  ghost predicate Near(row: seq<TimerId>, due: seq<nat>, t: TimerId)
    requires t < |due| && Threads(row, |due|)
  {
    forall i | 0 <= i < |row| :: -(Half + 2) <= due[row[i]] - due[t] < Half
  }

  ghost predicate Wrapped(due: seq<nat>, tick: seq<nat>) {
    |tick| == |due| && forall t | 0 <= t < |due| :: tick[t] == Tick(due[t])
  }

  /** The inner loop of rt_timer_start: walk on while the next timer is not later. */
  method WalkRow(row: seq<TimerId>, start: nat, tick: seq<nat>, t: TimerId, ghost due: seq<nat>) returns (pos: nat)
    requires t < |due| && Threads(row, |due|) && Wrapped(due, tick) && Near(row, due, t)
    requires start <= Position(row, due, t)
    ensures pos == Position(row, due, t)
  {
    pos := start;
    while pos < |row|
      invariant pos <= Position(row, due, t)
    {
      var u := row[pos];
      ComparisonExact(due[u], due[t]);
      if Minus(tick[u], tick[t]) == 0 {
      } else if Minus(tick[u], tick[t]) < Half {
        break;
      }
      pos := pos + 1;
    }
  }

  /** The node found in one row is a good place to start from in the row below. */
  lemma DescendOk(above: seq<TimerId>, below: seq<TimerId>, due: seq<nat>, stamp: seq<nat>, t: TimerId, pos: nat)
    requires t < |due| && Ordered(Prio, above, due, stamp) && Ordered(Prio, below, due, stamp) && Within(above, below)
    requires pos == Position(above, due, t) && pos > 0
    ensures above[pos - 1] in below && IndexOf(below, above[pos - 1]) + 1 <= Position(below, due, t)
  {
    var x := above[pos - 1];
    assert x in above;
    var i, p := IndexOf(below, x), Position(below, due, t);
    assert due[x] <= due[t];
  }

  lemma AddWrapped(time: nat, n: nat)
    ensures Plus(Tick(time), n) == Tick(time + n)
  {
    assert time + n == time / Wrap * Wrap + (time % Wrap + n);
    var x := time % Wrap + n;
    assert (time / Wrap * Wrap + x) % Wrap == x % Wrap;
  }

  /** The rows are sorted, and comparable to `t`. */
  ghost predicate Searchable(rows: seq<seq<TimerId>>, due: seq<nat>, stamp: seq<nat>, t: TimerId) {
    && RowsOk(rows, due, stamp) && t < |due|
    && forall l | 0 <= l < |rows| :: NearRow(rows[l], due, t)
  }

  ghost predicate NearRow(row: seq<TimerId>, due: seq<nat>, t: TimerId)
    requires t < |due|
  {
    Threads(row, |due|) && Near(row, due, t)
  }

  /** Everything listed is near a timer that is armed and not too late. */
  lemma ListedNear(s: State, t: TimerId)
    requires Inv(s) && t < |s.due| && s.phase[t] == Armed && s.time <= s.due[t] + s.slack
    ensures Searchable(s.rows, s.due, s.stamp, t) && RowsThreads(s.rows, |s.due|)
  {
    RowsAreThreads(s.rows, s.due, s.stamp);
    forall l | 0 <= l < |s.rows| ensures NearRow(s.rows[l], s.due, t) {
      RowOk(s.rows, s.due, s.stamp, l);
      forall i | 0 <= i < |s.rows[l]| ensures -(Half + 2) <= s.due[s.rows[l][i]] - s.due[t] < Half {
        var u := s.rows[l][i];
        assert u in s.rows[l];
        WithinBottom(s.rows, s.due, s.stamp, l, u);
        assert InWindow(s, u);
      }
    }
  }

  lemma {:induction false} WithinBottom(rows: seq<seq<TimerId>>, due: seq<nat>, stamp: seq<nat>, l: nat, u: TimerId)
    requires RowsOk(rows, due, stamp) && l < |rows| && u in rows[l]
    ensures u in Last(rows)
    decreases |rows| - l
  {
    if l + 1 < |rows| {
      RowOk(rows, due, stamp, l);
      WithinBottom(rows, due, stamp, l + 1, u);
    }
  }

  class Timers {
    var rows: seq<seq<TimerId>>
    var tick: seq<nat>                // timeout_tick
    var init: seq<nat>
    var periodic: seq<bool>
    var active: seq<bool>
    var now: nat                      // rt_tick
    var random: nat
    const bits: nat

    /** The list is that of state `s`, its ticks the wrapped deadlines. */
    ghost predicate Represents(s: State)
      reads this
    {
      && Inv(s)
      && s.rows == rows && s.init == init && s.periodic == periodic && s.active == active
      && s.random == random && s.bits == bits
      && now == Tick(s.time) && Wrapped(s.due, tick)
    }

    constructor (levels: nat, bits: nat, init: seq<nat>, periodic: seq<bool>, ghost slack: nat)
      requires levels > 0 && bits > 0 && |init| == |periodic| && slack + 1 < Half
      requires forall t | 0 <= t < |init| :: init[t] + slack < Half
      ensures exists s ::
        && Initial(s) && Represents(s) && |s.rows| == levels
        && s.init == init && s.periodic == periodic && s.slack == slack
    {
      this.bits, this.init, this.periodic := bits, init, periodic;
      var empty: seq<seq<TimerId>> := seq(levels, _ => []);
      rows, tick, active := empty, seq(|init|, _ => 0), seq(|init|, _ => false);
      now, random := 0, 0;
      new;
      ghost var zero := seq(|init|, _ => 0);
      ghost var s := State(rows, init, periodic, active, zero, zero, seq(|init|, _ => Rest), 0, slack, 1, zero, 0,
                           bits, None);
      EmptyRowsOk(s.rows, s.due, s.stamp);
      assert Represents(s);
    }

    /** _rt_timer_remove. */
    method RemoveTimer(t: TimerId)
      modifies `rows
      ensures rows == RemoveRows(old(rows), t)
    {
      ghost var r := RemoveRows(rows, t);
      for i := 0 to |rows|
        invariant |rows| == |old(rows)|
        invariant forall l | 0 <= l < |rows| :: rows[l] == if l < i then r[l] else old(rows)[l]
      {
        RemoveRowsAt(old(rows), t, i);
        rows := rows[i := Remove(rows[i], t)];
      }
    }

    /** The search of rt_timer_start: in each row the place behind the last timer that is not later. */
    method FindPlaces(t: TimerId, ghost due: seq<nat>, ghost stamp: seq<nat>) returns (heads: seq<nat>)
      requires Searchable(rows, due, stamp, t) && Wrapped(due, tick)
      ensures |heads| == |rows| && forall l | 0 <= l < |rows| :: PlaceOk(rows[l], due, t, heads[l])
    {
      heads := [];
      var pos: nat := 0;
      for l := 0 to |rows|
        invariant |heads| == l && forall j | 0 <= j < l :: PlaceOk(rows[j], due, t, heads[j])
        invariant l < |rows| ==> NearRow(rows[l], due, t) && pos <= Position(rows[l], due, t)
      {
        pos := WalkRow(rows[l], pos, tick, t, due);
        heads := heads + [pos];
        if l + 1 < |rows| {
          assert NearRow(rows[l + 1], due, t);
          RowOk(rows, due, stamp, l);
          RowOk(rows, due, stamp, l + 1);
          pos := Descend(rows[l], rows[l + 1], t, pos, due, stamp);
        }
      }
    }

    /** From the place found in one row to where the search begins in the row below. */
    static method Descend(above: seq<TimerId>, below: seq<TimerId>, t: TimerId, pos: nat, ghost due: seq<nat>,
                          ghost stamp: seq<nat>) returns (start: nat)
      requires t < |due| && Ordered(Prio, above, due, stamp) && Ordered(Prio, below, due, stamp) && Within(above, below)
      requires pos == Position(above, due, t)
      ensures start <= Position(below, due, t)
    {
      if pos == 0 {
        return 0;
      }
      DescendOk(above, below, due, stamp, t, pos);
      start := IndexOf(below, above[pos - 1]) + 1;
    }

    /** The insertion of rt_timer_start: the last row, and as many rows above as the counter says. */
    method InsertTimer(t: TimerId, heads: seq<nat>)
      requires rows != [] && bits > 0 && |heads| == |rows| && forall l | 0 <= l < |rows| :: heads[l] <= |rows[l]|
      modifies `rows, `random
      ensures random == Plus(old(random), 1)
      ensures Joined(old(rows), rows, heads, t, Height(random, bits, |old(rows)|))
    {
      random := Plus(random, 1);
      var n := |rows|;
      rows := rows[n - 1 := Spliced(rows[n - 1], heads[n - 1], t)];
      ghost var height := Climb(t, heads, random, old(rows));
    }

    /** The rows above the last one. */
    method Climb(t: TimerId, heads: seq<nat>, first: nat, ghost below: seq<seq<TimerId>>) returns (ghost height: nat)
      requires below != [] && bits > 0 && Joined(below, rows, heads, t, 1)
      modifies `rows
      ensures height == Height(first, bits, |below|) && Joined(below, rows, heads, t, height)
    {
      var tst, h, levels := first, 1, |rows|;
      height := Height(first, bits, |rows|);
      while levels > 1 && Low(tst, bits) == 0
        invariant 1 <= levels && h + levels == |below| + 1 && Joined(below, rows, heads, t, h)
        invariant height == h - 1 + Height(tst, bits, levels)
        decreases levels
      {
        Rise(t, heads, levels - 2, below);
        var rest := ShiftOver(tst, bits, levels);
        tst, h, levels := rest, h + 1, levels - 1;
      }
    }

    /** The timer joins row `l`. */
    method Rise(t: TimerId, heads: seq<nat>, l: nat, ghost below: seq<seq<TimerId>>)
      requires l + 1 < |below| && Joined(below, rows, heads, t, |below| - 1 - l)
      modifies `rows
      ensures Joined(below, rows, heads, t, |below| - l)
    {
      JoinedMore(below, rows, heads, t, |below| - 1 - l);
      rows := rows[l := Spliced(rows[l], heads[l], t)];
    }

    /** Shift over the bits that were tested. */
    static method ShiftOver(tst: nat, bits: nat, ghost levels: nat) returns (rest: nat)
      requires levels > 1 && bits > 0 && Low(tst, bits) == 0
      ensures Height(tst, bits, levels) == 1 + Height(rest, bits, levels - 1)
    {
      rest := High(tst, Mask(bits - 1));
      HeightOn(tst, bits, levels, rest);
    }

    /** rt_timer_start, in the sections and the part between them that interrupts may separate. */
    method Unlist(t: TimerId, ghost s: State)
      requires Represents(s) && t < |s.due| && s.phase[t] == Rest && s.firing != Some(t)
      modifies this
      ensures Represents(UnlistStep(s, t))
    {
      RemoveTimer(t);
      active := active[t := false];
    }

    method Arm(t: TimerId, ghost s: State)
      requires Represents(s) && t < |s.due| && s.phase[t] == Unlisted && s.init[t] + s.slack < Half
      modifies this
      ensures Represents(ArmStep(s, t))
    {
      AddWrapped(s.time, s.init[t]);
      tick := tick[t := Plus(now, init[t])];
    }

    method Enlist(t: TimerId, ghost s: State)
      requires Represents(s) && t < |s.due| && s.phase[t] == Armed && s.firing != Some(t)
        && s.time <= s.due[t] + s.slack
      modifies this
      ensures Represents(ListStep(s, t))
    {
      ListedNear(s, t);
      Relist(t, s.due, s.stamp);
      active := active[t := true];
      ghost var r := ListStep(s, t);
    }

    method Start(t: TimerId, ghost s: State)
      requires Represents(s) && OpOk(s, StartTimer(t))
      modifies this
      ensures Represents(StartStep(s, t))
    {
      Unlist(t, s);
      Arm(t, UnlistStep(s, t));
      Enlist(t, ArmStep(UnlistStep(s, t), t));
    }

    method Relist(t: TimerId, ghost due: seq<nat>, ghost stamp: seq<nat>)
      requires Searchable(rows, due, stamp, t) && Wrapped(due, tick) && RowsThreads(rows, |due|) && bits > 0
      modifies `rows, `random
      ensures random == Plus(old(random), 1)
      ensures rows == InsertRows(old(rows), due, t, Height(random, bits, |old(rows)|))
    {
      var heads := FindPlaces(t, due, stamp);
      InsertTimer(t, heads);
      JoinedRows(old(rows), rows, heads, due, t, Height(random, bits, |old(rows)|));
    }

    method Stop(t: TimerId, ghost s: State) returns (ok: bool)
      requires Represents(s) && t < |s.due|
      modifies this
      ensures Represents(StopStep(s, t)) && ok == old(active)[t]
    {
      ok := active[t];
      if ok {
        RemoveTimer(t);
        active := active[t := false];
      }
    }

    /** rt_timer_stop behind the test of the flag: its section, and the flag cleared after it. */
    method Pull(t: TimerId, ghost s: State)
      requires Represents(s) && t < |s.due| && s.phase[t] == Rest
      modifies this
      ensures Represents(PullStep(s, t))
    {
      RemoveTimer(t);
    }

    method Clear(t: TimerId, ghost s: State)
      requires Represents(s) && t < |s.due| && s.phase[t] == Stopping
      modifies this
      ensures Represents(ClearStep(s, t))
    {
      active := active[t := false];
    }

    /** One operation of a caller: start, stop, or one of the commands of rt_timer_control. */
    method Perform(op: Op, ghost s: State)
      requires Represents(s) && OpOk(s, op)
      modifies this
      ensures Represents(OpStep(s, op))
    {
      match op {
        case StartTimer(u) => Start(u, s);
        case StopTimer(u) => var ok := Stop(u, s);
        case SetTime(u, n) => init := init[u := n];
        case SetPeriodic(u, on) => periodic := periodic[u := on];
      }
    }

    method RunCallback(ops: seq<Op>, ghost s: State)
      requires Represents(s) && Timed(s) && s.firing.Some? && AllOk(ops, s.firing.value, TermsOf(s))
      modifies this
      ensures Represents(Callback(s, ops))
    {
      ghost var r := s;
      for i := 0 to |ops|
        invariant Represents(r) && Timed(r) && r.firing == s.firing && TermsOf(r) == TermsOf(s)
        invariant AllOk(ops[i..], r.firing.value, TermsOf(r)) && Callback(r, ops[i..]) == Callback(s, ops)
      {
        assert ops[i..][0] == ops[i] && ops[i..][1..] == ops[i + 1..];
        OpGoes(r, ops[i]);
        Perform(ops[i], r);
        r := OpStep(r, ops[i]);
      }
    }

    /** The part of rt_timer_check after the timeout function. */
    method Rearm(t: TimerId, ghost s: State)
      requires Represents(s) && Timed(s) && s.firing == Some(t) && t < |s.due| && s.phase[t] == Rest
      modifies this
      ensures Represents(FireEnd(s))
    {
      ghost var idle := s.(active := s.active[t := false], firing := None);
      var again := periodic[t] && active[t];
      active := active[t := false];
      if again {
        Start(t, idle);
      }
    }

    method FireFirst(t: TimerId, cbs: seq<seq<Op>>, ghost s: State)
      requires Represents(s) && Quiet(s) && CallbacksOk(cbs, TermsOf(s)) && Bottom(s) != [] && t == Bottom(s)[0]
      modifies this
      ensures Represents(Fire(s, cbs))
    {
      FirstActive(s);
      ghost var called := Called(s, cbs);
      RemoveTimer(t);
      RunCallback(cbs[t], FireBegin(s));
      Rearm(t, called);
    }

    /** The test of rt_timer_check tells whether the first timer is due. */
    method FirstIsDue(ghost s: State) returns (due: bool)
      requires Represents(s) && Quiet(s)
      ensures due <==> Bottom(s) != [] && Bottom(s)[0] in DueSet(s)
    {
      due := false;
      if |rows[|rows| - 1]| > 0 {
        var t := rows[|rows| - 1][0];
        FirstActive(s);
        assert InWindow(s, t);
        ExpiryExact(s.time, s.due[t]);
        due := Minus(now, tick[t]) < Half;
      }
    }

    /** One turn of a check. */
    method Turn(cbs: seq<seq<Op>>, ghost states: seq<State>, ghost order: seq<TimerId>, ghost n: nat)
      returns (t: TimerId)
      requires Checks(states, cbs, order) && n < |order| && Represents(states[n])
      modifies this
      ensures t == order[n] && Represents(states[n + 1])
    {
      NextTurn(states, cbs, order, n);
      t := rows[|rows| - 1][0];
      FireFirst(t, cbs, states[n]);
    }

    /** Whether there is another turn. */
    method More(cbs: seq<seq<Op>>, ghost states: seq<State>, ghost order: seq<TimerId>, ghost n: nat)
      returns (due: bool)
      requires Checks(states, cbs, order) && n <= |order| && Represents(states[n])
      ensures due <==> n < |order|
    {
      NextTurn(states, cbs, order, n);
      due := FirstIsDue(states[n]);
    }

    /** rt_timer_check: fire the first timer as long as it is due. It is asked only that this ends. */
    method Check(cbs: seq<seq<Op>>, ghost states: seq<State>, ghost order: seq<TimerId>) returns (fired: seq<TimerId>)
      requires Checks(states, cbs, order) && Represents(states[0])
      modifies this
      ensures fired == order && Represents(states[|order|])
    {
      fired := [];
      var due := More(cbs, states, order, 0);
      while due
        invariant |fired| <= |order| && fired == order[..|fired|] && Represents(states[|fired|])
        invariant due <==> |fired| < |order|
        decreases |order| - |fired|
      {
        var t := Turn(cbs, states, order, |fired|);
        fired := fired + [t];
        due := More(cbs, states, order, |fired|);
      }
    }
  }

  ghost predicate PlaceOk(row: seq<TimerId>, due: seq<nat>, t: TimerId, pos: nat) {
    t < |due| && Threads(row, |due|) && pos == Position(row, due, t)
  }
}
