/**
 The scheduler of one processor and the thread operations that move threads between its
 ready lists (src/scheduler.c, src/thread.c). The running thread is in no ready list.

 rt_thread_startup, rt_thread_resume, rt_thread_suspend and rt_thread_delete test and change
 a thread in several sections. Each section is a step of its own, between which anything may
 happen; with interrupts disabled, as in src/ipc.c, the whole call is one step.

 ThreadStates has the lists and states of the threads and what every operation keeps;
 ReadyTable adds the bitmaps through which the kernel finds the most urgent list.
 */
module ThreadStates {
  import opened Sequences
  import opened WaitList

  datatype Stat = Init | Ready | Running | Suspend | Close

  datatype Event =
    | Startup(t: Tid)
    | Start
    | SuspendThread(t: Tid)
    | Resume(t: Tid)
    | Timeout(t: Tid)
    | Exit
    | Delete(t: Tid)
    | ChangePriority(t: Tid, p: nat)
    | Schedule
    | EnterCritical
    | ExitCritical
    // Parts of calls made with interrupts enabled. A call that has begun is known by a number.
    | Prepare(t: Tid)                    // rt_thread_startup, up to the resume
    | TestResume(id: nat, t: Tid)        // rt_thread_resume: the test of the state,
    | Unlink(id: nat)                    // the section that takes the thread out of its list,
    | Enter(id: nat)                     // and the insertion
    | TestSuspend(id: nat, t: Tid)       // rt_thread_suspend: the test,
    | Block(id: nat)                     // and the section
    | TakeOut(id: nat, t: Tid)           // rt_thread_delete: the removal,
    | MarkClosed(id: nat)                // and the state
    | Leaving                            // rt_thread_exit, up to rt_schedule
    | Unlock                             // rt_exit_critical, up to rt_schedule

  /** A call under way, and how far it has come. */
  datatype Call = Resuming(t: Tid, unlinked: bool) | Suspending(t: Tid) | Deleting(t: Tid)

  datatype State = State(
    lists: seq<seq<Tid>>,         // by priority
    stat: seq<Stat>,
    prio: seq<nat>,               // current priorities
    init: seq<nat>,               // initial priorities
    current: Option<Tid>,
    lock: nat,
    idle: Tid,
    calls: map<nat, Call>)

  /** The threads that a rt_thread_delete under way has taken out of their lists. */
  ghost function Gone(calls: map<nat, Call>): set<Tid> {
    set id | id in calls && calls[id].Deleting? :: calls[id].t
  }

  ghost predicate Initial(s: State) {
    && |s.stat| == |s.prio| == |s.init| && s.idle < |s.stat|
    && (forall p | 0 <= p < |s.lists| :: s.lists[p] == [])
    && (forall t | 0 <= t < |s.stat| :: s.stat[t] == Init)
    && (forall t | 0 <= t < |s.stat| :: s.prio[t] < |s.lists| && s.init[t] < |s.lists|)
    && s.current == None && s.lock == 0 && s.calls == map[]
  }

  /** The ready list of priority `p` holds ready threads of this priority, each once. */
  ghost predicate ListOk(q: seq<Tid>, p: nat, stat: seq<Stat>, prio: seq<nat>)
    requires |stat| == |prio|
  {
    NoDup(q) && forall i | 0 <= i < |q| :: q[i] < |stat| && stat[q[i]] == Ready && prio[q[i]] == p
  }

  /** A thread is in the ready list of `p` exactly when it is READY with current priority `p`, unless it is `gone`. */
  ghost predicate Lists(lists: seq<seq<Tid>>, stat: seq<Stat>, prio: seq<nat>, gone: set<Tid>) {
    && |stat| == |prio|
    && (forall t | 0 <= t < |prio| :: prio[t] < |lists|)
    && (forall p {:trigger ListOk(lists[p], p, stat, prio)} | 0 <= p < |lists| :: ListOk(lists[p], p, stat, prio))
    && (forall t | 0 <= t < |stat| :: Listed(t, lists, stat, prio, gone))
  }

  ghost predicate Listed(t: Tid, lists: seq<seq<Tid>>, stat: seq<Stat>, prio: seq<nat>, gone: set<Tid>)
    requires t < |stat| == |prio| && prio[t] < |lists|
  {
    stat[t] == Ready ==> t in lists[prio[t]] || t in gone
  }

  /** Only the current thread runs, and it is not queued to run. */
  ghost predicate Current(s: State) {
    && (s.current.Some? ==>
          s.current.value < |s.stat| && s.stat[s.current.value] != Ready && s.stat[s.current.value] != Init)
    && (forall t | 0 <= t < |s.stat| && s.stat[t] == Running :: s.current == Some(t))
  }

  /** A call under way concerns a thread that was started, and the idle thread only if it resumes it. */
  ghost predicate CallOk(s: State, k: Call) {
    k.t < |s.stat| && (k.Resuming? || k.t != s.idle) && (k.Deleting? || s.stat[k.t] != Init)
  }

  ghost predicate Inv(s: State) {
    && Lists(s.lists, s.stat, s.prio, Gone(s.calls))
    && |s.init| == |s.stat| && (forall t | 0 <= t < |s.init| :: s.init[t] < |s.lists|)
    && Current(s)
    && s.idle < |s.stat| && s.stat[s.idle] != Close
    && (forall id | id in s.calls :: CallOk(s, s.calls[id]))
  }

  /** Thread `t` is in its ready list. */
  ghost predicate Queued(s: State, t: Tid)
    requires t < |s.prio| && s.prio[t] < |s.lists|
  {
    t in s.lists[s.prio[t]]
  }

  /** What callers must respect: the idle thread never blocks and never ends. */
  ghost predicate Enabled(s: State, e: Event)
    decreases if e.Leaving? then 1 else 0
  {
    match e
    case Startup(t) => t < |s.stat| && s.stat[t] == Init
    case Start => s.current == None && exists p :: 0 <= p < |s.lists| && s.lists[p] != []
    case SuspendThread(t) => t < |s.stat| && t != s.idle
    case Resume(t) => t < |s.stat|
    case Timeout(t) => t < |s.stat| && s.stat[t] == Suspend && s.current.Some?
    case Exit =>
      s.current.Some? && s.current.value != s.idle && s.current.value < |s.stat| && s.stat[s.current.value] != Close
    case Delete(t) => t < |s.stat| && t != s.idle && s.stat[t] != Close
    case ChangePriority(t, p) => t < |s.stat| && p < |s.lists|
    case Schedule => s.current.Some?
    case EnterCritical => true
    case ExitCritical => true
    case Prepare(t) => t < |s.stat| && s.stat[t] == Init
    case TestResume(id, t) => id !in s.calls && t < |s.stat|
    case Unlink(id) => id in s.calls && s.calls[id].Resuming? && !s.calls[id].unlinked
    case Enter(id) => id in s.calls && s.calls[id].Resuming? && s.calls[id].unlinked
    case TestSuspend(id, t) => id !in s.calls && t < |s.stat| && t != s.idle
    case Block(id) => id in s.calls && s.calls[id].Suspending?
    case TakeOut(id, t) => id !in s.calls && t < |s.stat| && t != s.idle && s.stat[t] != Close
    case MarkClosed(id) => id in s.calls && s.calls[id].Deleting?
    case Leaving => Enabled(s, Exit)
    case Unlock => true
  }

  ghost predicate Empty(lists: seq<seq<Tid>>) {
    forall p | 0 <= p < |lists| :: lists[p] == []
  }

  /** Linear search: `p` is the first priority with a ready thread. */
  ghost predicate IsTop(lists: seq<seq<Tid>>, p: nat) {
    p < |lists| && lists[p] != [] && forall q | 0 <= q < p :: lists[q] == []
  }

  ghost function Top(lists: seq<seq<Tid>>): (p: nat)
    requires !Empty(lists)
    ensures IsTop(lists, p)
    decreases |lists|
  {
    var rest := lists[..|lists| - 1];
    assert forall q | 0 <= q < |rest| :: rest[q] == lists[q];
    if Empty(rest) then |lists| - 1 else Top(rest)
  }

  /** rt_schedule_insert_thread. */
  ghost function Insert(s: State, t: Tid): State
    requires t < |s.stat| == |s.prio| && s.prio[t] < |s.lists|
  {
    if s.current == Some(t) then s.(stat := s.stat[t := Running])
    else s.(stat := s.stat[t := Ready], lists := s.lists[s.prio[t] := s.lists[s.prio[t]] + [t]])
  }

  /** rt_schedule_remove_thread, and the state the thread changes to. */
  ghost function Leave(s: State, t: Tid, stat: Stat): State
    requires t < |s.stat| == |s.prio| && s.prio[t] < |s.lists|
  {
    s.(stat := s.stat[t := stat], lists := s.lists[s.prio[t] := Remove(s.lists[s.prio[t]], t)])
  }

  ghost function ScheduleStep(s: State): State
    requires Inv(s) && s.current.Some?
  {
    if s.lock != 0 || Empty(s.lists) then s
    else
      var c, p := s.current.value, Top(s.lists);
      if s.stat[c] == Running && s.prio[c] < p then Leave(s, c, Running)
      else Switch(s, c, p)
  }

  /** Go over from `c` to the first thread of list `p`. */
  ghost function Switch(s: State, c: Tid, p: nat): State
    requires Inv(s) && s.current == Some(c) && IsTop(s.lists, p)
  {
    var to := s.lists[p][0];
    var r := s.(current := Some(to));
    assert ListOk(s.lists[p], p, s.stat, s.prio);
    Leave(if s.stat[c] == Running then Insert(r, c) else r, to, Running)
  }

  ghost function Next(s: State, e: Event): State
    requires Inv(s) && Enabled(s, e)
  {
    match e
    case Startup(t) =>
      var r := Started(s, t);
      StartedInv(s, t);
      if r.current.Some? then ScheduleStep(r) else r
    case Start =>
      var to := s.lists[Top(s.lists)][0];
      assert ListOk(s.lists[Top(s.lists)], Top(s.lists), s.stat, s.prio);
      Leave(s.(current := Some(to)), to, Running)
    case SuspendThread(t) => if s.stat[t] == Ready || s.stat[t] == Running then Leave(s, t, Suspend) else s
    case Resume(t) => if s.stat[t] == Suspend then Insert(s, t) else s
    case Timeout(t) =>
      NotQueued(s, t);
      InsertInv(s, t);
      ScheduleStep(Insert(s, t))
    case Exit =>
      LeaveInv(s, s.current.value, Close);
      ScheduleStep(Leave(s, s.current.value, Close))
    case Delete(t) => if s.stat[t] == Init then s.(stat := s.stat[t := Close]) else Leave(s, t, Close)
    case ChangePriority(t, p) => Reprioritized(s, t, p)
    case Schedule => ScheduleStep(s)
    case EnterCritical => s.(lock := s.lock + 1)
    case ExitCritical =>
      if s.lock > 1 then s.(lock := s.lock - 1)
      else if s.current.Some? then ScheduleStep(s.(lock := 0))
      else s.(lock := 0)
    case Prepare(t) => Prepared(s, t)
    case TestResume(id, t) => if s.stat[t] == Suspend then s.(calls := s.calls[id := Resuming(t, false)]) else s
    case Unlink(id) => Unlinked(s, s.calls[id].t).(calls := s.calls[id := Resuming(s.calls[id].t, true)])
    case Enter(id) => Insert(s, s.calls[id].t).(calls := s.calls - {id})
    case TestSuspend(id, t) =>
      if s.stat[t] == Ready || s.stat[t] == Running then s.(calls := s.calls[id := Suspending(t)]) else s
    case Block(id) => Leave(s, s.calls[id].t, Suspend).(calls := s.calls - {id})
    case TakeOut(id, t) => (if s.stat[t] == Init then s else Unlinked(s, t)).(calls := s.calls[id := Deleting(t)])
    case MarkClosed(id) => s.(stat := s.stat[s.calls[id].t := Close], calls := s.calls - {id})
    case Leaving => Leave(s, s.current.value, Close)
    case Unlock => s.(lock := if s.lock > 1 then s.lock - 1 else 0)
  }

  /** rt_thread_startup up to the resume: the initial priority, and SUSPEND. */
  ghost function Prepared(s: State, t: Tid): State
    requires Inv(s) && t < |s.stat|
  {
    s.(prio := s.prio[t := s.init[t]], stat := s.stat[t := Suspend])
  }

  /** rt_list_remove of a thread, whatever list it is in. */
  ghost function Unlinked(s: State, t: Tid): State
    requires t < |s.stat| == |s.prio| && s.prio[t] < |s.lists|
  {
    s.(lists := s.lists[s.prio[t] := Remove(s.lists[s.prio[t]], t)])
  }

  /** rt_thread_startup: back to the initial priority, SUSPEND, then resumed. */
  ghost function Started(s: State, t: Tid): State
    requires Inv(s) && t < |s.stat|
  {
    Insert(Prepared(s, t), t)
  }

  /** RT_THREAD_CTRL_CHANGE_PRIORITY: a ready thread changes lists, any other just its priority. */
  ghost function Reprioritized(s: State, t: Tid, p: nat): State
    requires Inv(s) && t < |s.stat| && p < |s.lists|
  {
    if s.stat[t] == Ready then
      var r := Leave(s, t, Ready);
      Insert(r.(prio := r.prio[t := p]), t)
    else s.(prio := s.prio[t := p])
  }

  lemma InitialInv(s: State)
    requires Initial(s)
    ensures Inv(s)
  {
  }

  lemma InsertLists(lists: seq<seq<Tid>>, stat: seq<Stat>, prio: seq<nat>, gone: set<Tid>, t: Tid)
    requires Lists(lists, stat, prio, gone) && t < |stat| && t !in lists[prio[t]]
    ensures Lists(lists[prio[t] := lists[prio[t]] + [t]], stat[t := Ready], prio, gone)
  {
    var p := prio[t];
    var lists', stat' := lists[p := lists[p] + [t]], stat[t := Ready];
    forall q | 0 <= q < |lists| ensures ListOk(lists'[q], q, stat', prio) {
      assert ListOk(lists[q], q, stat, prio);
    }
    forall u | 0 <= u < |stat| ensures Listed(u, lists', stat', prio, gone) {
      assert Listed(u, lists, stat, prio, gone);
    }
  }

  lemma LeaveLists(lists: seq<seq<Tid>>, stat: seq<Stat>, prio: seq<nat>, gone: set<Tid>, t: Tid, x: Stat)
    requires Lists(lists, stat, prio, gone) && t < |stat| && (x != Ready || t in gone)
    ensures Lists(lists[prio[t] := Remove(lists[prio[t]], t)], stat[t := x], prio, gone)
    ensures t !in Remove(lists[prio[t]], t)
  {
    var p := prio[t];
    var lists', stat' := lists[p := Remove(lists[p], t)], stat[t := x];
    assert ListOk(lists[p], p, stat, prio);
    RemoveElements(lists[p], t);
    RemoveDistinct(lists[p], t);
    forall q | 0 <= q < |lists| ensures ListOk(lists'[q], q, stat', prio) {
      assert ListOk(lists[q], q, stat, prio);
      forall i | 0 <= i < |lists'[q]|
        ensures lists'[q][i] < |stat'| && stat'[lists'[q][i]] == Ready && prio[lists'[q][i]] == q
      {
        assert lists'[q][i] in lists'[q];
        assert lists'[q][i] in lists[q] && lists'[q][i] != t;
      }
    }
    forall u | 0 <= u < |stat| ensures Listed(u, lists', stat', prio, gone) {
      assert Listed(u, lists, stat, prio, gone);
    }
  }

  /** Changing the priority of a thread that is not in a list concerns no list. */
  lemma PrioLists(lists: seq<seq<Tid>>, stat: seq<Stat>, prio: seq<nat>, gone: set<Tid>, t: Tid, p: nat)
    requires Lists(lists, stat, prio, gone) && t < |stat| && stat[t] != Ready && p < |lists|
    ensures Lists(lists, stat, prio[t := p], gone)
  {
    var prio' := prio[t := p];
    forall q | 0 <= q < |lists| ensures ListOk(lists[q], q, stat, prio') {
      assert ListOk(lists[q], q, stat, prio);
    }
    forall u | 0 <= u < |stat| ensures Listed(u, lists, stat, prio', gone) {
      assert Listed(u, lists, stat, prio, gone);
    }
  }

  /** A thread that is in no list changing its state concerns no list. */
  lemma StatLists(lists: seq<seq<Tid>>, stat: seq<Stat>, prio: seq<nat>, gone: set<Tid>, t: Tid, x: Stat)
    requires Lists(lists, stat, prio, gone) && t < |stat| && t !in lists[prio[t]] && x != Ready
    ensures Lists(lists, stat[t := x], prio, gone)
  {
    var stat' := stat[t := x];
    forall q | 0 <= q < |lists| ensures ListOk(lists[q], q, stat', prio) {
      assert ListOk(lists[q], q, stat, prio);
    }
    forall u | 0 <= u < |stat| ensures Listed(u, lists, stat', prio, gone) {
      assert Listed(u, lists, stat, prio, gone);
    }
  }

  /** A thread that is not READY is in no list. */
  lemma NotQueued(s: State, t: Tid)
    requires Inv(s) && t < |s.stat| && s.stat[t] != Ready
    ensures !Queued(s, t)
  {
    assert ListOk(s.lists[s.prio[t]], s.prio[t], s.stat, s.prio);
  }

  lemma InsertInv(s: State, t: Tid)
    requires Inv(s) && t < |s.stat| && s.stat[t] != Init && !Queued(s, t)
    ensures Inv(Insert(s, t))
  {
    if s.current == Some(t) {
      StatLists(s.lists, s.stat, s.prio, Gone(s.calls), t, Running);
    } else {
      InsertLists(s.lists, s.stat, s.prio, Gone(s.calls), t);
    }
  }

  lemma LeaveInv(s: State, t: Tid, x: Stat)
    requires Inv(s) && t < |s.stat| && t != s.idle && s.stat[t] != Init && (x == Suspend || x == Close)
    ensures Inv(Leave(s, t, x))
  {
    LeaveLists(s.lists, s.stat, s.prio, Gone(s.calls), t, x);
  }

  lemma StartedInv(s: State, t: Tid)
    requires Inv(s) && t < |s.stat| && s.stat[t] == Init
    ensures Inv(Started(s, t))
  {
    PreparedInv(s, t);
    NotQueued(Prepared(s, t), t);
    InsertInv(Prepared(s, t), t);
  }

  lemma PreparedInv(s: State, t: Tid)
    requires Inv(s) && t < |s.stat| && s.stat[t] == Init
    ensures Inv(Prepared(s, t))
  {
    NotQueued(s, t);
    StatLists(s.lists, s.stat, s.prio, Gone(s.calls), t, Suspend);
    PrioLists(s.lists, s.stat[t := Suspend], s.prio, Gone(s.calls), t, s.init[t]);
  }

  lemma ReprioritizedInv(s: State, t: Tid, p: nat)
    requires Inv(s) && t < |s.stat| && p < |s.lists|
    ensures Inv(Reprioritized(s, t, p))
  {
    if s.stat[t] == Ready {
      LeaveLists(s.lists, s.stat, s.prio, Gone(s.calls), t, Suspend);
      var lists, stat := s.lists[s.prio[t] := Remove(s.lists[s.prio[t]], t)], s.stat[t := Suspend];
      PrioLists(lists, stat, s.prio, Gone(s.calls), t, p);
      assert ListOk(lists[p], p, stat, s.prio[t := p]);
      InsertLists(lists, stat, s.prio[t := p], Gone(s.calls), t);
      assert stat[t := Ready] == s.stat && s.stat[t := Ready] == s.stat;
    } else {
      PrioLists(s.lists, s.stat, s.prio, Gone(s.calls), t, p);
    }
  }

  /** The running thread goes to the end of its ready list. */
  lemma PreemptLists(s: State, c: Tid)
    requires Inv(s) && c < |s.stat| && s.stat[c] == Running
    ensures Lists(s.lists[s.prio[c] := s.lists[s.prio[c]] + [c]], s.stat[c := Ready], s.prio, Gone(s.calls))
  {
    NotQueued(s, c);
    InsertLists(s.lists, s.stat, s.prio, Gone(s.calls), c);
  }

  /** The first thread of a ready list becomes the current one. */
  lemma SwitchInv(s: State, c: Tid, p: nat)
    requires Inv(s) && s.current == Some(c) && IsTop(s.lists, p)
    ensures Inv(Switch(s, c, p))
    ensures Switch(s, c, p).current.Some? && Switch(s, c, p).stat[Switch(s, c, p).current.value] == Running
  {
    var to := s.lists[p][0];
    assert ListOk(s.lists[p], p, s.stat, s.prio);
    SwitchLists(s, c, to);
  }

  lemma SwitchLists(s: State, c: Tid, to: Tid)
    requires Inv(s) && s.current == Some(c) && to < |s.stat| && s.stat[to] == Ready
    ensures var r := s.(current := Some(to));
      var after := Leave(if s.stat[c] == Running then Insert(r, c) else r, to, Running);
      Lists(after.lists, after.stat, after.prio, Gone(s.calls))
  {
    if s.stat[c] == Running {
      PreemptLists(s, c);
      LeaveLists(s.lists[s.prio[c] := s.lists[s.prio[c]] + [c]], s.stat[c := Ready], s.prio, Gone(s.calls), to,
          Running);
    } else {
      LeaveLists(s.lists, s.stat, s.prio, Gone(s.calls), to, Running);
    }
  }

  lemma ScheduleInv(s: State)
    requires Inv(s) && s.current.Some?
    ensures Inv(ScheduleStep(s)) && ScheduleStep(s).current.Some?
  {
    if s.lock == 0 && !Empty(s.lists) {
      var c, p := s.current.value, Top(s.lists);
      if s.stat[c] == Running && s.prio[c] < p {
        LeaveLists(s.lists, s.stat, s.prio, Gone(s.calls), c, Running);
      } else {
        SwitchInv(s, c, p);
      }
    }
  }

  lemma StartIs(s: State, p: nat)
    requires Inv(s) && Enabled(s, Start) && IsTop(s.lists, p)
    ensures s.lists[p][0] < |s.stat| && s.stat[s.lists[p][0]] == Ready && s.prio[s.lists[p][0]] < |s.lists|
    ensures Next(s, Start) == Leave(s.(current := Some(s.lists[p][0])), s.lists[p][0], Running)
  {
    assert ListOk(s.lists[p], p, s.stat, s.prio);
    assert Top(s.lists) == p;
  }

  lemma StartInv(s: State)
    requires Inv(s) && Enabled(s, Start)
    ensures Inv(Next(s, Start))
  {
    var p := Top(s.lists);
    assert ListOk(s.lists[p], p, s.stat, s.prio);
    LeaveLists(s.lists, s.stat, s.prio, Gone(s.calls), s.lists[p][0], Running);
  }

  /* The calls under way. */

  lemma GoneChanged(calls: map<nat, Call>, id: nat, k: Call)
    requires id in calls ==> !calls[id].Deleting?
    ensures Gone(calls[id := k]) == if k.Deleting? then Gone(calls) + {k.t} else Gone(calls)
    ensures Gone(calls - {id}) == Gone(calls)
  {
    var after := calls[id := k];
    forall t ensures t in Gone(after) <==> t in Gone(calls) || (k.Deleting? && t == k.t) {
      if t in Gone(calls) {
        var i :| i in calls && calls[i].Deleting? && calls[i].t == t;
        assert i in after && after[i] == calls[i];
      }
      if k.Deleting? && t == k.t {
        assert id in after && after[id] == k;
      }
    }
    forall t | t in Gone(calls) ensures t in Gone(calls - {id}) {
      var i :| i in calls && calls[i].Deleting? && calls[i].t == t;
      assert i in calls - {id};
    }
  }

  lemma GoneDone(calls: map<nat, Call>, id: nat)
    requires id in calls
    ensures Gone(calls - {id}) <= Gone(calls) <= Gone(calls - {id}) + {calls[id].t}
  {
    forall t | t in Gone(calls) && t != calls[id].t ensures t in Gone(calls - {id}) {
      var i :| i in calls && calls[i].Deleting? && calls[i].t == t;
      assert i in calls - {id};
    }
  }

  /** More threads may be gone; a thread that is not READY need not. */
  lemma GoneLists(lists: seq<seq<Tid>>, stat: seq<Stat>, prio: seq<nat>, gone: set<Tid>, gone': set<Tid>)
    requires Lists(lists, stat, prio, gone) && forall t | t in gone && t < |stat| && stat[t] == Ready :: t in gone'
    ensures Lists(lists, stat, prio, gone')
  {
    forall t | 0 <= t < |stat| ensures Listed(t, lists, stat, prio, gone') {
      assert Listed(t, lists, stat, prio, gone);
    }
  }

  /** A call that begins, or goes on, without a change to the threads. */
  lemma CallInv(s: State, id: nat, k: Call)
    requires Inv(s) && CallOk(s, k) && (id in s.calls ==> !s.calls[id].Deleting?)
    ensures Inv(s.(calls := s.calls[id := k]))
  {
    GoneChanged(s.calls, id, k);
    GoneLists(s.lists, s.stat, s.prio, Gone(s.calls), Gone(s.calls[id := k]));
  }

  /** A call that ends. */
  lemma DoneInv(s: State, id: nat)
    requires Inv(s) && id in s.calls && !s.calls[id].Deleting?
    ensures Inv(s.(calls := s.calls - {id}))
  {
    GoneChanged(s.calls, id, s.calls[id]);
  }

  /** Taking a thread out of its list, without changing its state. */
  lemma UnlinkedInv(s: State, t: Tid)
    requires Inv(s) && t < |s.stat| && (Queued(s, t) ==> t in Gone(s.calls))
    ensures Inv(Unlinked(s, t))
  {
    if Queued(s, t) {
      LeaveLists(s.lists, s.stat, s.prio, Gone(s.calls), t, s.stat[t]);
      assert s.stat[t := s.stat[t]] == s.stat;
    } else {
      assert s.lists[s.prio[t] := s.lists[s.prio[t]]] == s.lists;
    }
  }

  lemma MarkClosedInv(s: State, id: nat)
    requires Inv(s) && Enabled(s, MarkClosed(id)) && !Queued(s, s.calls[id].t)
    ensures Inv(Next(s, MarkClosed(id)))
  {
    var t, r := s.calls[id].t, Next(s, MarkClosed(id));
    StatLists(s.lists, s.stat, s.prio, Gone(s.calls), t, Close);
    GoneDone(s.calls, id);
    GoneLists(s.lists, r.stat, s.prio, Gone(s.calls), Gone(r.calls));
  }

  lemma TakeOutInv(s: State, id: nat, t: Tid)
    requires Inv(s) && Enabled(s, TakeOut(id, t))
    ensures Inv(Next(s, TakeOut(id, t)))
  {
    CallInv(s, id, Deleting(t));
    if s.stat[t] != Init {
      GoneChanged(s.calls, id, Deleting(t));
      UnlinkedInv(s.(calls := s.calls[id := Deleting(t)]), t);
    }
  }

  /**
   What the parts of calls must find: rt_thread_resume unlinks and inserts the thread, and rt_thread_delete
   closes it, without testing again that it is in no ready list. (A thread being deleted may be unlinked.)
   */
  ghost predicate Harmless(s: State, e: Event)
    requires Inv(s) && Enabled(s, e)
  {
    match e
    case Unlink(id) => Queued(s, s.calls[id].t) ==> s.calls[id].t in Gone(s.calls)
    case Enter(id) => !Queued(s, s.calls[id].t)
    case MarkClosed(id) => !Queued(s, s.calls[id].t)
    case _ => true
  }

  /** Parts of calls. */
  predicate Part(e: Event) {
    || e.Prepare? || e.TestResume? || e.Unlink? || e.Enter? || e.TestSuspend? || e.Block?
    || e.TakeOut? || e.MarkClosed? || e.Leaving? || e.Unlock?
  }

  lemma PartInv(s: State, e: Event)
    requires Inv(s) && Enabled(s, e) && Part(e) && Harmless(s, e)
    ensures Inv(Next(s, e))
  {
    match e
    case Prepare(t) => PreparedInv(s, t);
    case TestResume(id, t) =>
      if s.stat[t] == Suspend {
        CallInv(s, id, Resuming(t, false));
      }
    case Unlink(id) =>
      var t := s.calls[id].t;
      UnlinkedInv(s, t);
      CallInv(Unlinked(s, t), id, Resuming(t, true));
    case Enter(id) =>
      InsertInv(s, s.calls[id].t);
      DoneInv(Insert(s, s.calls[id].t), id);
    case TestSuspend(id, t) =>
      if s.stat[t] == Ready || s.stat[t] == Running {
        CallInv(s, id, Suspending(t));
      }
    case Block(id) =>
      LeaveInv(s, s.calls[id].t, Suspend);
      DoneInv(Leave(s, s.calls[id].t, Suspend), id);
    case TakeOut(id, t) => TakeOutInv(s, id, t);
    case MarkClosed(id) => MarkClosedInv(s, id);
    case Leaving => LeaveInv(s, s.current.value, Close);
    case Unlock =>
  }

  /** The operations that end in rt_schedule. */
  predicate Reschedules(s: State, e: Event) {
    || e.Schedule? || e.Timeout? || e.Exit?
    || (e.Startup? && s.current.Some?)
    || (e.ExitCritical? && s.lock <= 1 && s.current.Some?)
  }

  /** What such an operation has done before it calls rt_schedule. */
  ghost function Prior(s: State, e: Event): State
    requires Inv(s) && Enabled(s, e) && Reschedules(s, e)
  {
    match e
    case Startup(t) => Started(s, t)
    case Timeout(t) => Insert(s, t)
    case Exit => Leave(s, s.current.value, Close)
    case ExitCritical => s.(lock := 0)
    case _ => s
  }

  lemma ReschedulesIs(s: State, e: Event)
    requires Inv(s) && Enabled(s, e) && Reschedules(s, e)
    ensures Inv(Prior(s, e)) && Prior(s, e).current.Some? && Next(s, e) == ScheduleStep(Prior(s, e))
  {
    match e
    case Startup(t) => StartedInv(s, t);
    case Timeout(t) =>
      NotQueued(s, t);
      InsertInv(s, t);
    case Exit => LeaveInv(s, s.current.value, Close);
    case ExitCritical =>
    case Schedule =>
  }

  lemma DeleteInv(s: State, t: Tid)
    requires Inv(s) && Enabled(s, Delete(t))
    ensures Inv(Next(s, Delete(t)))
  {
    if s.stat[t] == Init {
      NotQueued(s, t);
      StatLists(s.lists, s.stat, s.prio, Gone(s.calls), t, Close);
    } else {
      LeaveInv(s, t, Close);
    }
  }

  lemma SimpleInv(s: State, e: Event)
    requires Inv(s) && Enabled(s, e) && !Part(e) && !Reschedules(s, e)
    ensures Inv(Next(s, e))
  {
    match e
    case Startup(t) => StartedInv(s, t);
    case Start => StartInv(s);
    case SuspendThread(t) =>
      if s.stat[t] == Ready || s.stat[t] == Running {
        LeaveInv(s, t, Suspend);
      }
    case Resume(t) =>
      if s.stat[t] == Suspend {
        NotQueued(s, t);
        InsertInv(s, t);
      }
    case Delete(t) => DeleteInv(s, t);
    case ChangePriority(t, p) => ReprioritizedInv(s, t, p);
    case EnterCritical =>
    case ExitCritical =>
  }

  /** Every operation and every part of one keeps the lists and the states of the threads in agreement, if harmless. */
  lemma StepInv(s: State, e: Event)
    requires Inv(s) && Enabled(s, e) && Harmless(s, e)
    ensures Inv(Next(s, e))
  {
    if Part(e) {
      PartInv(s, e);
    } else if Reschedules(s, e) {
      ReschedulesIs(s, e);
      ScheduleInv(Prior(s, e));
    } else {
      SimpleInv(s, e);
    }
  }

  /** And only then: otherwise a READY thread is in no list, in one twice, or a closed one is in a list. */
  lemma StepExact(s: State, e: Event)
    requires Inv(s) && Enabled(s, e)
    ensures Inv(Next(s, e)) <==> Harmless(s, e)
  {
    if Harmless(s, e) {
      StepInv(s, e);
    } else {
      HarmfulStep(s, e);
    }
  }

  lemma HarmfulStep(s: State, e: Event)
    requires Inv(s) && Enabled(s, e) && !Harmless(s, e)
    ensures !Inv(Next(s, e))
  {
    var t, r := s.calls[e.id].t, Next(s, e);
    var p := s.prio[t];
    assert ListOk(s.lists[p], p, s.stat, s.prio);
    if e.Unlink? {
      RemoveElements(s.lists[p], t);
      GoneChanged(s.calls, e.id, Resuming(t, true));
      assert !Listed(t, r.lists, r.stat, r.prio, Gone(r.calls));
    } else if e.Enter? {
      var i := IndexOf(s.lists[p], t);
      assert r.lists[p][i] == t && r.lists[p][|s.lists[p]|] == t;
      assert !ListOk(r.lists[p], p, r.stat, r.prio);
    } else {
      assert r.lists[p][IndexOf(s.lists[p], t)] == t;
      assert !ListOk(r.lists[p], p, r.stat, r.prio);
    }
  }

  ghost predicate Run(trace: seq<State>, events: seq<Event>) {
    && |trace| == |events| + 1
    && Initial(trace[0])
    && forall i | 0 <= i < |events| :: StepAt(trace, events, i)
  }

  ghost predicate StepAt(trace: seq<State>, events: seq<Event>, i: nat)
    requires i < |events| < |trace|
  {
    Enabled(trace[i], events[i]) && (Inv(trace[i]) ==> trace[i + 1] == Next(trace[i], events[i]))
  }

  /** The step from `s` does no harm. */
  ghost predicate Sound(s: State, e: Event) {
    Inv(s) && Enabled(s, e) ==> Harmless(s, e)
  }

  lemma {:induction false} RunInv(trace: seq<State>, events: seq<Event>, k: nat)
    requires Run(trace, events) && k < |trace| && forall i | 0 <= i < k :: Sound(trace[i], events[i])
    ensures Inv(trace[k])
  {
    if k == 0 {
      InitialInv(trace[0]);
    } else {
      RunInv(trace, events, k - 1);
      assert StepAt(trace, events, k - 1) && Sound(trace[k - 1], events[k - 1]);
      StepInv(trace[k - 1], events[k - 1]);
    }
  }

  /**
   Lists and states agree in all states of a run if and only if every unlinking, insertion and closing is
   harmless.
   */
  lemma RunExact(trace: seq<State>, events: seq<Event>)
    requires Run(trace, events)
    ensures (forall k | 0 <= k < |trace| :: Inv(trace[k])) <==>
      (forall i | 0 <= i < |events| :: Sound(trace[i], events[i]))
  {
    if forall i | 0 <= i < |events| :: Sound(trace[i], events[i]) {
      forall k | 0 <= k < |trace| ensures Inv(trace[k]) {
        RunInv(trace, events, k);
      }
    }
    if forall k | 0 <= k < |trace| :: Inv(trace[k]) {
      forall i | 0 <= i < |events| ensures Sound(trace[i], events[i]) {
        assert StepAt(trace, events, i) && Inv(trace[i]) && Inv(trace[i + 1]);
        StepExact(trace[i], events[i]);
      }
    }
  }

  /** READY with priority `p` is being in list `p`, once, and in no other list, unless the thread is being deleted. */
  lemma ReadyIffListed(trace: seq<State>, events: seq<Event>, k: nat, t: Tid, p: nat)
    requires Run(trace, events) && k < |trace| && t < |trace[k].stat| && p < |trace[k].lists|
    requires forall i | 0 <= i < k :: Sound(trace[i], events[i])
    ensures |trace[k].prio| == |trace[k].stat| && NoDup(trace[k].lists[p])
    ensures t in trace[k].lists[p] ==> trace[k].stat[t] == Ready && trace[k].prio[t] == p
    ensures trace[k].stat[t] == Ready && trace[k].prio[t] == p && t !in Gone(trace[k].calls) ==> t in trace[k].lists[p]
  {
    RunInv(trace, events, k);
    assert ListOk(trace[k].lists[p], p, trace[k].stat, trace[k].prio);
    assert Listed(t, trace[k].lists, trace[k].stat, trace[k].prio, Gone(trace[k].calls));
  }

  /** A run of whole calls only, as by callers that have interrupts disabled, needs no condition. */
  lemma WholeCalls(trace: seq<State>, events: seq<Event>, k: nat)
    requires Run(trace, events) && k < |trace| && forall i | 0 <= i < k :: !Part(events[i])
    ensures Inv(trace[k])
  {
    RunInv(trace, events, k);
  }

  /** Event `e` makes thread `t` ready, or lets it go on running. */
  ghost predicate Wakes(s: State, e: Event, t: Tid) {
    || e == Timeout(t) || e == Resume(t)
    || (e.Enter? && e.id in s.calls && s.calls[e.id].t == t)
  }

  /** A resume of `t` that has passed its test, with the thread still suspended, or closed by now. */
  ghost predicate Asleep(s: State, id: nat, t: Tid) {
    && id in s.calls && s.calls[id].Resuming? && s.calls[id].t == t
    && t < |s.stat| && (s.stat[t] == Suspend || s.stat[t] == Close)
  }

  lemma StaysAsleep(s: State, e: Event, id: nat, t: Tid)
    requires Inv(s) && Enabled(s, e) && Asleep(s, id, t) && !Wakes(s, e, t)
    ensures Asleep(Next(s, e), id, t)
  {
    if Part(e) {
      PartAsleep(s, e, id, t);
    } else if Reschedules(s, e) {
      ReschedulesIs(s, e);
      PriorAsleep(s, e, id, t);
      ScheduleSpares(Prior(s, e), t);
    } else {
      SimpleAsleep(s, e, id, t);
    }
  }

  lemma PriorAsleep(s: State, e: Event, id: nat, t: Tid)
    requires Inv(s) && Enabled(s, e) && Asleep(s, id, t) && !Wakes(s, e, t) && Reschedules(s, e)
    ensures Asleep(Prior(s, e), id, t)
  {
  }

  lemma PartAsleep(s: State, e: Event, id: nat, t: Tid)
    requires Inv(s) && Enabled(s, e) && Asleep(s, id, t) && !Wakes(s, e, t) && Part(e)
    ensures Asleep(Next(s, e), id, t)
  {
    PartChanges(s, e, t);
    PartCalls(s, e, id);
  }

  /** What a part of a call may do to the state of a thread. */
  ghost predicate Changes(s: State, e: Event, t: Tid, r: State) {
    && t < |s.stat| == |r.stat| && r.idle == s.idle
    && (if Wakes(s, e, t) then r.stat[t] == Ready || r.stat[t] == Running
        else r.stat[t] == s.stat[t] || r.stat[t] == Suspend || r.stat[t] == Close)
  }

  lemma PartChanges(s: State, e: Event, t: Tid)
    requires Inv(s) && Enabled(s, e) && Part(e) && t < |s.stat|
    ensures Changes(s, e, t, Next(s, e))
  {
    if e.TestResume? || e.Unlink? || e.Enter? {
      ResumeChanges(s, e, t);
    } else if e.Block? || e.TakeOut? || e.MarkClosed? {
      BlockChanges(s, e, t);
    }
  }

  lemma ResumeChanges(s: State, e: Event, t: Tid)
    requires Inv(s) && Enabled(s, e) && (e.TestResume? || e.Unlink? || e.Enter?) && t < |s.stat|
    ensures Changes(s, e, t, Next(s, e))
  {
  }

  lemma BlockChanges(s: State, e: Event, t: Tid)
    requires Inv(s) && Enabled(s, e) && (e.Block? || e.TakeOut? || e.MarkClosed?) && t < |s.stat|
    ensures Changes(s, e, t, Next(s, e))
  {
  }

  /** No part of a call blocks or closes the idle thread once it was started. */
  lemma PartIdle(s: State, e: Event)
    requires Inv(s) && Enabled(s, e) && Part(e) && IdleUp(s)
    ensures IdleUp(Next(s, e))
  {
    match e
    case Prepare(_) =>
    case TestResume(_, _) =>
    case Unlink(_) =>
    case Enter(_) =>
    case TestSuspend(_, _) =>
    case Block(_) =>
    case TakeOut(_, _) =>
    case MarkClosed(_) =>
    case Leaving =>
    case Unlock =>
  }

  /** A resume under way stays so until its own insertion. */
  lemma PartCalls(s: State, e: Event, id: nat)
    requires Inv(s) && Enabled(s, e) && Part(e) && id in s.calls && s.calls[id].Resuming? && e != Enter(id)
    ensures var r := Next(s, e); id in r.calls && r.calls[id].Resuming? && r.calls[id].t == s.calls[id].t
  {
    match e
    case Prepare(_) =>
    case TestResume(_, _) =>
    case Unlink(_) =>
    case Enter(_) =>
    case TestSuspend(_, _) =>
    case Block(_) =>
    case TakeOut(_, _) =>
    case MarkClosed(_) =>
    case Leaving =>
    case Unlock =>
  }

  lemma SimpleAsleep(s: State, e: Event, id: nat, t: Tid)
    requires Inv(s) && Enabled(s, e) && Asleep(s, id, t) && !Wakes(s, e, t) && !Part(e) && !Reschedules(s, e)
    ensures Asleep(Next(s, e), id, t)
  {
    if e.Start? {
      StartIs(s, Top(s.lists));
    }
  }

  /** rt_schedule concerns threads that are ready or running only, and they stay so. */
  lemma ScheduleSpares(s: State, t: Tid)
    requires Inv(s) && s.current.Some? && t < |s.stat|
    ensures var r := ScheduleStep(s);
      && t < |r.stat| && r.calls == s.calls && r.idle == s.idle
      && if s.stat[t] == Ready || s.stat[t] == Running then r.stat[t] == Ready || r.stat[t] == Running
         else r.stat[t] == s.stat[t]
  {
    if s.lock == 0 && !Empty(s.lists) {
      TopBound(s, Top(s.lists));
    }
  }

  /* What each operation does, seen from the threads. */

  predicate Awake(x: Stat) { x == Ready || x == Running }

  /** The event is about thread `u`. */
  predicate Concerns(s: State, e: Event, u: Tid) {
    match e
    case Startup(t) => t == u
    case SuspendThread(t) => t == u
    case Resume(t) => t == u
    case Timeout(t) => t == u
    case Exit => s.current == Some(u)
    case Leaving => s.current == Some(u)
    case Delete(t) => t == u
    case Prepare(t) => t == u
    case Enter(id) => id in s.calls && s.calls[id].t == u
    case Block(id) => id in s.calls && s.calls[id].t == u
    case MarkClosed(id) => id in s.calls && s.calls[id].t == u
    case _ => false
  }

  /** The state `x` that thread `u` has after an event about it. */
  predicate OwnStat(s: State, e: Event, u: Tid, x: Stat)
    requires u < |s.stat|
  {
    match e
    case SuspendThread(_) => x == if Awake(s.stat[u]) then Suspend else s.stat[u]
    case Resume(_) =>
      x == if s.stat[u] != Suspend then s.stat[u] else if s.current == Some(u) then Running else Ready
    case Enter(_) => x == if s.current == Some(u) then Running else Ready
    case Exit => x == Close
    case Leaving => x == Close
    case Delete(_) => x == Close
    case MarkClosed(_) => x == Close
    case Block(_) => x == Suspend
    case Prepare(_) => x == Suspend
    case _ => Awake(x)
  }

  /** The state of a thread that an event is not about: it may be preempted, or go on. */
  predicate OtherStat(s: State, e: Event, u: Tid, x: Stat)
    requires u < |s.stat|
  {
    if (Reschedules(s, e) || e.Start?) && Awake(s.stat[u]) then Awake(x) else x == s.stat[u]
  }

  predicate StatMoves(s: State, e: Event, u: Tid, x: Stat)
    requires u < |s.stat|
  {
    if Concerns(s, e, u) then OwnStat(s, e, u, x) else OtherStat(s, e, u, x)
  }

  /** The priority of thread `u` after the event. */
  predicate PrioMoves(s: State, e: Event, u: Tid, p: nat)
    requires u < |s.prio| && u < |s.init|
  {
    p == if (e.Startup? || e.Prepare?) && e.t == u then s.init[u]
         else if e.ChangePriority? && e.t == u then e.p
         else s.prio[u]
  }

  /** The lock count after the event. */
  predicate LockMoves(s: State, e: Event, n: nat) {
    n == if e.EnterCritical? then s.lock + 1
         else if (e.ExitCritical? || e.Unlock?) && s.lock > 0 then s.lock - 1
         else s.lock
  }

  ghost predicate Moves(s: State, e: Event, u: Tid, r: State)
    requires u < |s.stat|
  {
    && |r.stat| == |r.prio| == |r.init| == |s.stat| == |s.prio| == |s.init|
    && StatMoves(s, e, u, r.stat[u]) && PrioMoves(s, e, u, r.prio[u]) && LockMoves(s, e, r.lock)
    && r.init == s.init && (Reschedules(s, e) || e.Start? || r.current == s.current)
  }

  lemma PartMoves(s: State, e: Event, u: Tid)
    requires Inv(s) && Enabled(s, e) && u < |s.stat| && Part(e)
    ensures Moves(s, e, u, Next(s, e))
  {
    match e
    case Prepare(_) =>
    case TestResume(_, _) =>
    case Unlink(_) =>
    case Enter(_) =>
    case TestSuspend(_, _) =>
    case Block(_) =>
    case TakeOut(_, _) =>
    case MarkClosed(_) =>
    case Leaving =>
    case Unlock =>
  }

  lemma SimpleMoves(s: State, e: Event, u: Tid)
    requires Inv(s) && Enabled(s, e) && u < |s.stat| && !Part(e) && !Reschedules(s, e)
    ensures Moves(s, e, u, Next(s, e))
  {
    match e
    case Startup(t) =>
    case Start => StartIs(s, Top(s.lists));
    case SuspendThread(_) =>
    case Resume(_) =>
    case Delete(_) =>
    case ChangePriority(_, _) =>
    case EnterCritical =>
    case ExitCritical =>
  }

  lemma ScheduleMoves(s: State, u: Tid)
    requires Inv(s) && s.current.Some? && u < |s.stat|
    ensures var r := ScheduleStep(s);
      && |r.stat| == |r.prio| == |r.init| == |s.stat| && r.prio == s.prio && r.init == s.init && r.lock == s.lock
      && (if Awake(s.stat[u]) then Awake(r.stat[u]) else r.stat[u] == s.stat[u])
  {
    ScheduleSpares(s, u);
    if s.lock == 0 && !Empty(s.lists) {
      TopBound(s, Top(s.lists));
    }
  }

  lemma PriorMoves(s: State, e: Event, u: Tid)
    requires Inv(s) && Enabled(s, e) && u < |s.stat| && Reschedules(s, e)
    ensures Moves(s, e, u, Prior(s, e))
  {
    match e
    case Startup(_) =>
    case Timeout(_) =>
    case Exit =>
    case ExitCritical =>
    case Schedule =>
  }

  /** What every operation and every part of one does to each thread, and to the lock count. */
  lemma ThreadMoves(s: State, e: Event, u: Tid) returns (r: State)
    requires Inv(s) && Enabled(s, e) && u < |s.stat|
    ensures r == Next(s, e) && Moves(s, e, u, r)
  {
    r := Next(s, e);
    if Part(e) {
      PartMoves(s, e, u);
    } else if Reschedules(s, e) {
      ReschedulesIs(s, e);
      PriorMoves(s, e, u);
      ScheduleMoves(Prior(s, e), u);
    } else {
      SimpleMoves(s, e, u);
    }
  }

  /** Which calls are under way after the event. */
  predicate CallMoves(s: State, e: Event, id: nat, r: State) {
    match e
    case TestResume(i, t) =>
      if i == id && t < |s.stat| && s.stat[t] == Suspend then id in r.calls && r.calls[id] == Resuming(t, false)
      else CallSame(s, id, r)
    case TestSuspend(i, t) =>
      if i == id && t < |s.stat| && Awake(s.stat[t]) then id in r.calls && r.calls[id] == Suspending(t)
      else CallSame(s, id, r)
    case TakeOut(i, t) => if i == id then id in r.calls && r.calls[id] == Deleting(t) else CallSame(s, id, r)
    case Unlink(i) =>
      if i == id && id in s.calls then id in r.calls && r.calls[id] == Resuming(s.calls[id].t, true)
      else CallSame(s, id, r)
    case Enter(i) => if i == id then id !in r.calls else CallSame(s, id, r)
    case Block(i) => if i == id then id !in r.calls else CallSame(s, id, r)
    case MarkClosed(i) => if i == id then id !in r.calls else CallSame(s, id, r)
    case _ => CallSame(s, id, r)
  }

  predicate CallSame(s: State, id: nat, r: State) {
    if id in s.calls then id in r.calls && r.calls[id] == s.calls[id] else id !in r.calls
  }

  lemma CallsMove(s: State, e: Event, id: nat)
    requires Inv(s) && Enabled(s, e)
    ensures CallMoves(s, e, id, Next(s, e))
  {
    if Part(e) {
      PartCallsMove(s, e, id);
    } else if Reschedules(s, e) {
      ReschedulesIs(s, e);
      ScheduleSpares(Prior(s, e), s.idle);
    } else if e.Start? {
      StartIs(s, Top(s.lists));
    }
  }

  lemma PartCallsMove(s: State, e: Event, id: nat)
    requires Inv(s) && Enabled(s, e) && Part(e)
    ensures CallMoves(s, e, id, Next(s, e))
  {
    match e
    case Prepare(_) =>
    case TestResume(_, _) =>
    case Unlink(_) =>
    case Enter(_) =>
    case TestSuspend(_, _) =>
    case Block(_) =>
    case TakeOut(_, _) =>
    case MarkClosed(_) =>
    case Leaving =>
    case Unlock =>
  }

  lemma {:induction false} StillAsleep(trace: seq<State>, events: seq<Event>, i: nat, k: nat, id: nat, t: Tid)
    requires Run(trace, events) && i < k < |trace| && events[i] == TestResume(id, t)
    requires t < |trace[i].stat| && trace[i].stat[t] == Suspend
    requires forall j | i <= j < k :: Inv(trace[j]) && !Wakes(trace[j], events[j], t)
    ensures Asleep(trace[k], id, t)
    decreases k
  {
    assert Inv(trace[k - 1]) && !Wakes(trace[k - 1], events[k - 1], t);
    if k - 1 > i {
      StillAsleep(trace, events, i, k - 1, id, t);
      AsleepAt(trace, events, k - 1, id, t);
    } else {
      assert StepAt(trace, events, i);
    }
  }

  lemma AsleepAt(trace: seq<State>, events: seq<Event>, k: nat, id: nat, t: Tid)
    requires Run(trace, events) && k < |events| && Inv(trace[k]) && Asleep(trace[k], id, t)
    requires !Wakes(trace[k], events[k], t)
    ensures Asleep(trace[k + 1], id, t)
  {
    assert StepAt(trace, events, k);
    StaysAsleep(trace[k], events[k], id, t);
  }

  /** A resume does no harm if nobody else wakes the thread between its test and its insertion. */
  lemma Undisturbed(trace: seq<State>, events: seq<Event>, i: nat, k: nat, id: nat, t: Tid)
    requires Run(trace, events) && i < k < |events| && events[i] == TestResume(id, t)
    requires t < |trace[i].stat| && trace[i].stat[t] == Suspend
    requires (forall j | i <= j < k :: Inv(trace[j]) && !Wakes(trace[j], events[j], t)) && Inv(trace[k])
    requires events[k] == Unlink(id) || events[k] == Enter(id)
    ensures Sound(trace[k], events[k])
  {
    StillAsleep(trace, events, i, k, id, t);
    NotQueued(trace[k], t);
  }

  /** Unlinking a queued thread that nobody deletes leaves it READY in no list. */
  lemma UnlinkedLost(s: State, id: nat, t: Tid)
    requires Inv(s) && id in s.calls && s.calls[id] == Resuming(t, false) && Queued(s, t)
    ensures var r := Next(s, Unlink(id));
      r.stat == s.stat && s.stat[t] == Ready && forall p | 0 <= p < |r.lists| :: t !in r.lists[p]
  {
    var q, r := s.prio[t], Next(s, Unlink(id));
    assert ListOk(s.lists[q], q, s.stat, s.prio);
    RemoveElements(s.lists[q], t);
    forall p | 0 <= p < |r.lists| ensures t !in r.lists[p] {
      assert ListOk(s.lists[p], p, s.stat, s.prio);
    }
  }

  /** A timeout between the test and the unlinking: the thread is in its ready list when it is unlinked. */
  lemma TimeoutInside(s: State, id: nat, t: Tid) returns (r: State)
    requires Inv(s) && id in s.calls && s.calls[id] == Resuming(t, false) && s.stat[t] == Suspend && t !in Gone(s.calls)
    requires s.current.Some? && s.current != Some(t) && Keeps(s, t)
    ensures r == Next(s, Timeout(t)) && Inv(r) && r.calls == s.calls && Queued(r, t)
    ensures Enabled(r, Unlink(id)) && !Harmless(r, Unlink(id))
  {
    var a := Insert(s, t);
    NotQueued(s, t);
    InsertInv(s, t);
    ScheduleInv(a);
    StaysQueued(a, t);
    r := Next(s, Timeout(t));
  }

  /** Two resumes that both have passed the test: the second insertion finds the thread in its list. */
  lemma ResumedTwice(s: State, id: nat, id': nat, t: Tid)
    requires Inv(s) && id in s.calls && id' in s.calls && id != id'
    requires s.calls[id] == s.calls[id'] == Resuming(t, true) && s.stat[t] == Suspend && s.current != Some(t)
    ensures Enabled(s, Enter(id)) && Inv(Next(s, Enter(id)))
    ensures var r := Next(s, Enter(id)); Enabled(r, Enter(id')) && !Harmless(r, Enter(id')) && !Inv(Next(r, Enter(id')))
  {
    NotQueued(s, t);
    PartInv(s, Enter(id));
    StepExact(Next(s, Enter(id)), Enter(id'));
  }

  /** The current thread goes on when `t` becomes ready: it has locked the scheduler, or is more urgent. */
  ghost predicate Keeps(s: State, t: Tid)
    requires Inv(s) && s.current.Some? && t < |s.stat|
  {
    s.lock > 0 || (s.stat[s.current.value] == Running && s.prio[s.current.value] < s.prio[t]
                   && forall p | 0 <= p <= s.prio[s.current.value] :: s.lists[p] == [])
  }

  lemma StaysQueued(s: State, t: Tid)
    requires Inv(s) && s.current.Some? && t < |s.stat| && s.stat[t] == Ready && Queued(s, t)
    requires s.lock > 0 || (s.stat[s.current.value] == Running && s.prio[s.current.value] < s.prio[t]
                            && forall p | 0 <= p <= s.prio[s.current.value] :: s.lists[p] == [])
    ensures ScheduleStep(s).stat[t] == Ready && ScheduleStep(s).lists == s.lists && ScheduleStep(s).prio == s.prio
  {
    if s.lock == 0 {
      var c := s.current.value;
      assert s.lists[s.prio[t]] != [];
      assert s.lists[s.prio[c] := s.lists[s.prio[c]]] == s.lists;
    }
  }

  lemma RunOn(trace: seq<State>, events: seq<Event>, e: Event) returns (trace': seq<State>, events': seq<Event>)
    requires Run(trace, events) && Inv(trace[|events|]) && Enabled(trace[|events|], e)
    ensures Run(trace', events') && events' == events + [e] && trace' == trace + [Next(trace[|events|], e)]
  {
    trace', events' := trace + [Next(trace[|events|], e)], events + [e];
    forall i | 0 <= i < |events'| ensures StepAt(trace', events', i) {
      assert i < |events| ==> StepAt(trace, events, i);
    }
  }

  /** Two threads: 0, the idle thread, and 1, less urgent, which is suspended. */
  ghost predicate TwoThreads(s: State, current: Option<Tid>) {
    && Inv(s) && |s.stat| == 2 && s.prio == [0, 1] && |s.lists| == 2 && s.idle == 0 && s.lock == 0
    && s.current == current && s.calls == map[] && s.stat[1] == Suspend && s.lists[1] == []
    && (if current == None then s.lists[0] == [0] else current == Some(0) && s.lists[0] == [] && s.stat[0] == Running)
  }

  lemma FirstThread() returns (trace: seq<State>, events: seq<Event>)
    ensures Run(trace, events) && |events| == 1 && events[0] == Startup(0)
    ensures trace[1] == State([[0], []], [Ready, Init], [0, 1], [0, 1], None, 0, 0, map[])
  {
    var s := NewThreads();
    StartupIs(s, 0);
    trace, events := RunOn([s], [], Startup(0));
    assert trace[1].lists[0] == [0];
    assert trace[1].lists == [[0], []] && trace[1].stat == [Ready, Init] && trace[1].prio == [0, 1];
  }

  lemma NewThreads() returns (s: State)
    ensures Initial(s) && Inv(s) && s == State([[], []], [Init, Init], [0, 1], [0, 1], None, 0, 0, map[])
  {
    s := State([[], []], [Init, Init], [0, 1], [0, 1], None, 0, 0, map[]);
    InitialInv(s);
  }

  /** rt_thread_startup before the scheduler runs. */
  lemma StartupIs(s: State, t: Tid)
    requires Inv(s) && Enabled(s, Startup(t)) && s.current == None
    ensures var p := s.init[t];
      Next(s, Startup(t)) == s.(prio := s.prio[t := p], stat := s.stat[t := Ready],
          lists := s.lists[p := s.lists[p] + [t]])
  {
    assert s.stat[t := Suspend][t := Ready] == s.stat[t := Ready];
  }

  lemma SecondThread() returns (trace: seq<State>, events: seq<Event>)
    ensures Run(trace, events) && |events| == 2 && events == [Startup(0), Startup(1)]
    ensures trace[2] == State([[0], [1]], [Ready, Ready], [0, 1], [0, 1], None, 0, 0, map[])
  {
    trace, events := FirstThread();
    WholeCalls(trace, events, 1);
    StartupIs(trace[1], 1);
    trace, events := RunOn(trace, events, Startup(1));
    assert trace[2].lists[1] == [1];
    assert trace[2].lists == [[0], [1]] && trace[2].stat == [Ready, Ready] && trace[2].prio == [0, 1];
  }

  lemma SecondSuspended() returns (trace: seq<State>, events: seq<Event>)
    ensures Run(trace, events) && |events| == 3 && TwoThreads(trace[3], None)
  {
    trace, events := SecondThread();
    WholeCalls(trace, events, 2);
    trace, events := RunOn(trace, events, SuspendThread(1));
    WholeCalls(trace, events, 3);
    assert Remove([1], 1) == [];
  }

  lemma FirstRuns() returns (trace: seq<State>, events: seq<Event>)
    ensures Run(trace, events) && |events| == 4 && TwoThreads(trace[4], Some(0))
  {
    trace, events := SecondSuspended();
    StartIs(trace[3], 0);
    StartInv(trace[3]);
    trace, events := RunOn(trace, events, Start);
  }

  lemma ResumeBegins() returns (trace: seq<State>, events: seq<Event>)
    ensures Run(trace, events) && |events| == 5 && events[4] == TestResume(0, 1)
    ensures var s := trace[5];
      && Inv(s) && s.calls == map[0 := Resuming(1, false)] && |s.stat| == 2 && s.stat[1] == Suspend
      && s.current == Some(0) && Keeps(s, 1)
  {
    trace, events := FirstRuns();
    CallInv(trace[4], 0, Resuming(1, false));
    trace, events := RunOn(trace, events, TestResume(0, 1));
  }

  lemma TimesOutInside() returns (trace: seq<State>, events: seq<Event>)
    ensures Run(trace, events) && |events| == 6 && events[4] == TestResume(0, 1) && events[5] == Timeout(1)
    ensures var r := trace[6];
      && Inv(r) && |r.stat| == 2 && 0 in r.calls && r.calls[0] == Resuming(1, false) && Queued(r, 1)
      && !Harmless(r, Unlink(0))
  {
    trace, events := ResumeBegins();
    assert Gone(trace[5].calls) == {};
    var r := TimeoutInside(trace[5], 0, 1);
    trace, events := RunOn(trace, events, Timeout(1));
  }

  /** A run of two threads in which the second times out inside a resume, and is then READY in no list. */
  lemma BrokenRun() returns (trace: seq<State>, events: seq<Event>)
    ensures Run(trace, events) && |events| == 7 && events[4] == TestResume(0, 1) && events[5] == Timeout(1)
    ensures events[6] == Unlink(0) && |trace[7].stat| == 2 && trace[7].stat[1] == Ready && !Inv(trace[7])
    ensures forall p | 0 <= p < |trace[7].lists| :: 1 !in trace[7].lists[p]
  {
    trace, events := TimesOutInside();
    UnlinkedLost(trace[6], 0, 1);
    HarmfulStep(trace[6], Unlink(0));
    trace, events := RunOn(trace, events, Unlink(0));
  }

  /** The current thread runs, and no ready thread is more urgent. */
  ghost predicate Urgent(s: State)
    requires Inv(s)
  {
    && s.current.Some? && s.stat[s.current.value] == Running
    && forall t | 0 <= t < |s.stat| && s.stat[t] == Ready && t !in Gone(s.calls) :: s.prio[s.current.value] <= s.prio[t]
  }

  /** The idle thread has been started. */
  ghost predicate IdleUp(s: State) {
    s.idle < |s.stat| && (s.stat[s.idle] == Ready || s.stat[s.idle] == Running)
  }

  lemma TopBound(s: State, p: nat)
    requires Inv(s) && IsTop(s.lists, p)
    ensures forall t | 0 <= t < |s.stat| && s.stat[t] == Ready && t !in Gone(s.calls) :: p <= s.prio[t]
    ensures s.lists[p][0] < |s.stat| && s.stat[s.lists[p][0]] == Ready && s.prio[s.lists[p][0]] == p
  {
    assert ListOk(s.lists[p], p, s.stat, s.prio);
    forall t | 0 <= t < |s.stat| && s.stat[t] == Ready && t !in Gone(s.calls) ensures p <= s.prio[t] {
      assert Listed(t, s.lists, s.stat, s.prio, Gone(s.calls));
    }
  }

  lemma NoneReady(s: State)
    requires Inv(s) && Empty(s.lists)
    ensures forall t | 0 <= t < |s.stat| && s.stat[t] == Ready :: t in Gone(s.calls)
  {
    forall t | 0 <= t < |s.stat| && s.stat[t] == Ready ensures t in Gone(s.calls) {
      assert Listed(t, s.lists, s.stat, s.prio, Gone(s.calls));
    }
  }

  lemma SwitchUrgent(s: State, c: Tid, p: nat)
    requires Inv(s) && s.current == Some(c) && IsTop(s.lists, p) && (s.stat[c] == Running ==> p <= s.prio[c])
    ensures Inv(Switch(s, c, p)) && Urgent(Switch(s, c, p))
  {
    SwitchInv(s, c, p);
    TopBound(s, p);
    var r, to := Switch(s, c, p), s.lists[p][0];
    assert r.prio == s.prio && r.current == Some(to) && r.stat[to] == Running;
    forall t | 0 <= t < |r.stat| && r.stat[t] == Ready && t !in Gone(r.calls) ensures p <= r.prio[t] {
      assert s.stat[t] == Ready || (t == c && s.stat[c] == Running);
    }
  }

  /** rt_schedule, unlocked and with the idle thread started, leaves a most urgent thread running. */
  lemma ScheduleUrgent(s: State)
    requires Inv(s) && s.current.Some? && s.lock == 0 && IdleUp(s)
    ensures Inv(ScheduleStep(s)) && Urgent(ScheduleStep(s))
  {
    ScheduleInv(s);
    if !Empty(s.lists) {
      var c, p := s.current.value, Top(s.lists);
      if s.stat[c] == Running && s.prio[c] < p {
        TopBound(s, p);
      } else {
        SwitchUrgent(s, c, p);
      }
    } else {
      assert Listed(s.idle, s.lists, s.stat, s.prio, Gone(s.calls));
      NoneReady(s);
    }
  }

  /** Once started, the idle thread stays ready to run. */
  lemma IdleStays(s: State, e: Event)
    requires Inv(s) && Enabled(s, e) && Harmless(s, e) && IdleUp(s)
    ensures IdleUp(Next(s, e))
  {
    if Part(e) {
      PartIdle(s, e);
    } else if Reschedules(s, e) {
      ReschedulesIs(s, e);
      PriorIdle(s, e);
      ScheduleSpares(Prior(s, e), s.idle);
    } else if e.Start? {
      StartIs(s, Top(s.lists));
    }
  }

  lemma PriorIdle(s: State, e: Event)
    requires Inv(s) && Enabled(s, e) && Reschedules(s, e) && IdleUp(s)
    ensures IdleUp(Prior(s, e)) && Prior(s, e).idle == s.idle
  {
  }

  /** As long as the scheduler is locked, nothing takes the processor away from the current thread. */
  lemma LockedStays(s: State, e: Event)
    requires Inv(s) && Enabled(s, e) && !e.Start? && Next(s, e).lock > 0
    ensures Next(s, e).current == s.current
  {
    if Reschedules(s, e) {
      ReschedulesIs(s, e);
    }
  }

  /** Whatever made it reschedule, the kernel returns to a most urgent thread. */
  lemma ReschedulesUrgent(s: State, e: Event)
    requires Inv(s) && Enabled(s, e) && Reschedules(s, e) && IdleUp(s)
    requires s.lock == 0 || e.ExitCritical?
    ensures Inv(Next(s, e)) && Urgent(Next(s, e))
  {
    ReschedulesIs(s, e);
    PriorIdle(s, e);
    ScheduleUrgent(Prior(s, e));
  }

  /** Thread `c` runs unlocked at priority `p`, `q` is ready at `p`, and nobody is more urgent. */
  ghost predicate Turn(s: State, p: nat, c: Tid, q: seq<Tid>) {
    && Inv(s) && s.lock == 0 && p < |s.lists|
    && s.current == Some(c) && s.stat[c] == Running && s.prio[c] == p && s.lists[p] == q
    && forall i | 0 <= i < p :: s.lists[i] == []
  }

  /** Calling rt_schedule `n` times in a row, as by yielding. */
  ghost function Yields(s: State, n: nat): (r: State)
    requires Inv(s) && s.current.Some?
    decreases n
  {
    if n == 0 then s
    else
      ScheduleInv(s);
      Yields(ScheduleStep(s), n - 1)
  }

  /** A thread alone at the top goes on running. */
  lemma YieldAlone(s: State, p: nat, c: Tid)
    requires Turn(s, p, c, [])
    ensures ScheduleStep(s) == s
  {
    if !Empty(s.lists) {
      assert Remove(s.lists[p], c) == s.lists[p];
      assert s.lists[p := s.lists[p]] == s.lists && s.stat[c := Running] == s.stat;
    }
  }

  /** One yield: the first ready thread of the same priority takes over, the yielder goes last. */
  lemma YieldTurn(s: State, p: nat, c: Tid, q: seq<Tid>)
    requires Turn(s, p, c, q) && q != []
    ensures Turn(ScheduleStep(s), p, q[0], q[1..] + [c])
  {
    assert IsTop(s.lists, p) && Top(s.lists) == p;
    SwitchInv(s, c, p);
    TopBound(s, p);
    var l := q + [c];
    assert IndexOf(l, q[0]) == 0;
    assert Remove(l, q[0]) == l[1..] == q[1..] + [c];
  }

  /**
   The threads of equal priority in the order of their turns, `n` turns later: each turn sends the first to the
   end.
   */
  function Rotated(r: seq<Tid>, n: nat): (o: seq<Tid>)
    ensures |o| == |r|
    decreases n
  {
    if n == 0 || r == [] then r else Rotated(r[1..] + [r[0]], n - 1)
  }

  /** Within one lap this brings the `n`-th thread to the front, and after it everything is as before. */
  lemma {:induction false} RotatedLap(r: seq<Tid>, n: nat)
    requires n <= |r|
    ensures Rotated(r, n) == r[n..] + r[..n]
    decreases n
  {
    if n > 0 {
      var o := r[1..] + [r[0]];
      RotatedLap(o, n - 1);
      assert o[n - 1..] + o[..n - 1] == r[n..] + r[..n];
    }
  }

  /** The threads of `r` take turns at priority `p`, the first of them running. */
  ghost predicate InTurn(s: State, p: nat, r: seq<Tid>) {
    r != [] && Turn(s, p, r[0], r[1..])
  }

  /** One yield: the next thread runs, and the current one is last. */
  lemma OneTurn(s: State, p: nat, r: seq<Tid>) returns (s': State, r': seq<Tid>)
    requires InTurn(s, p, r)
    ensures s' == ScheduleStep(s) && r' == r[1..] + [r[0]] && InTurn(s', p, r')
  {
    var c, q := r[0], r[1..];
    ScheduleInv(s);
    s', r' := ScheduleStep(s), q + [c];
    if q == [] {
      YieldAlone(s, p, c);
      assert r' == [c];
    } else {
      YieldTurn(s, p, c, q);
      assert r'[1..] == q[1..] + [c];
    }
  }

  /** The first of several yields. */
  lemma FirstTurn(s: State, p: nat, r: seq<Tid>, n: nat) returns (s': State, r': seq<Tid>)
    requires InTurn(s, p, r) && n > 0
    ensures InTurn(s', p, r') && Yields(s, n) == Yields(s', n - 1) && Rotated(r, n) == Rotated(r', n - 1)
  {
    s', r' := OneTurn(s, p, r);
  }

  /** After `n` yields, however many, everybody has moved up `n` places, round and round. */
  lemma {:induction false} Rotation(s: State, p: nat, r: seq<Tid>, n: nat) returns (s': State, r': seq<Tid>)
    requires InTurn(s, p, r)
    ensures s' == Yields(s, n) && r' == Rotated(r, n) && InTurn(s', p, r')
    decreases n
  {
    if n == 0 {
      s', r' := s, r;
    } else {
      s', r' := FirstTurn(s, p, r, n);
      s', r' := Rotation(s', p, r', n - 1);
    }
  }

  /** Within one lap of yields every ready thread of the same priority runs, in FIFO order, and then `c` again. */
  lemma EveryoneGetsATurn(s: State, p: nat, c: Tid, q: seq<Tid>)
    requires Turn(s, p, c, q)
    ensures forall n | 0 <= n < |q| :: Yields(s, n + 1).current == Some(q[n])
    ensures Yields(s, |q| + 1).current == Some(c) && Turn(Yields(s, |q| + 1), p, c, q)
  {
    var r := [c] + q;
    assert r[1..] == q;
    forall n | 0 <= n < |q| ensures Yields(s, n + 1).current == Some(q[n]) {
      var s', r' := Rotation(s, p, r, n + 1);
      RotatedLap(r, n + 1);
    }
    var s', r' := Rotation(s, p, r, |r|);
    RotatedLap(r, |r|);
    assert r[|r|..] + r[..|r|] == r;
  }
}

/**
 The global variables of the scheduler: the ready lists, the ready bitmap with one level
 (at most 32 priorities) or two (a group word over a table of bytes), and the masks the
 threads carry.
 */
module ReadyTable {
  import opened Sequences
  import opened WaitList
  import opened Bits
  import opened ThreadStates

  /** Bit `p` says whether list `p` has a thread. */
  ghost predicate OneLevel(lists: seq<seq<Tid>>, group: nat) {
    forall p: nat :: Bit(group, p) <==> p < |lists| && lists[p] != []
  }

  /** Bit `k` of byte `n` says whether list `8 n + k` has a thread. */
  ghost predicate ByteOk(lists: seq<seq<Tid>>, byte: nat, n: nat) {
    forall k: nat :: Bit(byte, k) <==> k < 8 && 8 * n + k < |lists| && lists[8 * n + k] != []
  }

  /** Bit `n` of the group says whether byte `n` of the table is not zero. */
  ghost predicate GroupOk(group: nat, table: seq<nat>) {
    forall n: nat :: Bit(group, n) <==> n < |table| && table[n] != 0
  }

  ghost predicate TwoLevels(lists: seq<seq<Tid>>, group: nat, table: seq<nat>) {
    && |table| == 32 && |lists| <= 256
    && (forall n | 0 <= n < 32 :: ByteOk(lists, table[n], n))
    && GroupOk(group, table)
  }

  /** The bitmap agrees with the lists. */
  ghost predicate Mapped(lists: seq<seq<Tid>>, group: nat, table: seq<nat>) {
    if |lists| <= 32 then OneLevel(lists, group) else TwoLevels(lists, group, table)
  }

  lemma SetBit(word: nat, i: nat)
    ensures forall j: nat :: Bit(Or(word, Mask(i)), j) <==> j == i || Bit(word, j)
  {
    forall j: nat ensures Bit(Or(word, Mask(i)), j) <==> j == i || Bit(word, j) {
      BitOr(word, Mask(i), j);
      BitMask(i, j);
    }
  }

  lemma ClearBit(word: nat, i: nat)
    ensures forall j: nat :: Bit(AndNot(word, Mask(i)), j) <==> j != i && Bit(word, j)
  {
    forall j: nat ensures Bit(AndNot(word, Mask(i)), j) <==> j != i && Bit(word, j) {
      BitAndNot(word, Mask(i), j);
      BitMask(i, j);
    }
  }

  lemma InsertOneLevel(lists: seq<seq<Tid>>, group: nat, p: nat, q: seq<Tid>)
    requires OneLevel(lists, group) && p < |lists| && q != []
    ensures OneLevel(lists[p := q], Or(group, Mask(p)))
  {
    SetBit(group, p);
  }

  lemma RemoveOneLevel(lists: seq<seq<Tid>>, group: nat, p: nat, q: seq<Tid>)
    requires OneLevel(lists, group) && p < |lists| && (lists[p] == [] ==> q == [])
    ensures OneLevel(lists[p := q], if q == [] then AndNot(group, Mask(p)) else group)
  {
    ClearBit(group, p);
  }

  /** The other bytes do not see the change of list `p`. */
  lemma OtherBytes(lists: seq<seq<Tid>>, p: nat, q: seq<Tid>, byte: nat, n: nat)
    requires ByteOk(lists, byte, n) && p < |lists| && n != p / 8
    ensures ByteOk(lists[p := q], byte, n)
  {
    forall k: nat ensures Bit(byte, k) <==> k < 8 && 8 * n + k < |lists| && lists[p := q][8 * n + k] != [] {
      assert k < 8 ==> 8 * n + k != p;
    }
  }

  lemma SetByte(lists: seq<seq<Tid>>, byte: nat, p: nat, q: seq<Tid>)
    requires ByteOk(lists, byte, p / 8) && p < |lists| && q != []
    ensures ByteOk(lists[p := q], Or(byte, Mask(p % 8)), p / 8) && Or(byte, Mask(p % 8)) != 0
  {
    var n, b := p / 8, Or(byte, Mask(p % 8));
    SetBit(byte, p % 8);
    forall k: nat ensures Bit(b, k) <==> k < 8 && 8 * n + k < |lists| && lists[p := q][8 * n + k] != [] {
      assert k == p % 8 <==> 8 * n + k == p;
      assert Bit(byte, k) <==> k < 8 && 8 * n + k < |lists| && lists[8 * n + k] != [];
    }
    if b == 0 {
      BitZero(p % 8);
    }
  }

  lemma ClearByte(lists: seq<seq<Tid>>, byte: nat, p: nat, q: seq<Tid>)
    requires ByteOk(lists, byte, p / 8) && p < |lists| && (lists[p] == [] ==> q == [])
    ensures ByteOk(lists[p := q], if q == [] then AndNot(byte, Mask(p % 8)) else byte, p / 8)
  {
    var n, b := p / 8, if q == [] then AndNot(byte, Mask(p % 8)) else byte;
    ClearBit(byte, p % 8);
    forall k: nat ensures Bit(b, k) <==> k < 8 && 8 * n + k < |lists| && lists[p := q][8 * n + k] != [] {
      assert k == p % 8 <==> 8 * n + k == p;
      assert Bit(byte, k) <==> k < 8 && 8 * n + k < |lists| && lists[8 * n + k] != [];
    }
  }

  lemma InsertTwoLevels(lists: seq<seq<Tid>>, group: nat, table: seq<nat>, p: nat, q: seq<Tid>)
    requires TwoLevels(lists, group, table) && p < |lists| && q != []
    ensures TwoLevels(lists[p := q], Or(group, Mask(p / 8)), table[p / 8 := Or(table[p / 8], Mask(p % 8))])
  {
    var n := p / 8;
    var table' := table[n := Or(table[n], Mask(p % 8))];
    SetByte(lists, table[n], p, q);
    forall m | 0 <= m < 32 ensures ByteOk(lists[p := q], table'[m], m) {
      if m != n {
        OtherBytes(lists, p, q, table[m], m);
      }
    }
    SetBit(group, n);
    assert GroupOk(Or(group, Mask(n)), table');
  }

  lemma RemoveTwoLevels(lists: seq<seq<Tid>>, group: nat, table: seq<nat>, p: nat, q: seq<Tid>)
    requires TwoLevels(lists, group, table) && p < |lists| && (lists[p] == [] ==> q == [])
    ensures var byte := if q == [] then AndNot(table[p / 8], Mask(p % 8)) else table[p / 8];
      TwoLevels(lists[p := q], if q == [] && byte == 0 then AndNot(group, Mask(p / 8)) else group, table[p / 8 := byte])
  {
    var n := p / 8;
    var byte := if q == [] then AndNot(table[n], Mask(p % 8)) else table[n];
    var table' := table[n := byte];
    ClearByte(lists, table[n], p, q);
    forall m | 0 <= m < 32 ensures ByteOk(lists[p := q], table'[m], m) {
      if m != n {
        OtherBytes(lists, p, q, table[m], m);
      }
    }
    ClearBit(group, n);
    if q == [] && byte != 0 {
      ByteWasSet(table[n], p % 8);
    }
  }

  /** Clearing a bit cannot make a zero byte nonzero. */
  lemma ByteWasSet(byte: nat, i: nat)
    requires AndNot(byte, Mask(i)) != 0
    ensures byte != 0
  {
  }

  /** The search through one bitmap finds what the linear search over the lists finds. */
  lemma TopOneLevel(lists: seq<seq<Tid>>, group: nat)
    requires OneLevel(lists, group) && |lists| <= 32
    ensures group == 0 <==> Empty(lists)
    ensures group != 0 ==> Ffs(group) > 0 && IsTop(lists, Ffs(group) - 1)
  {
    ZeroIff(group);
    if group != 0 {
      FfsCorrect(group);
    } else {
      forall p | 0 <= p < |lists| ensures lists[p] == [] {
        assert !Bit(group, p);
      }
    }
  }

  /** So does the search through the group and then through the byte it points to. */
  lemma TopTwoLevels(lists: seq<seq<Tid>>, group: nat, table: seq<nat>)
    requires TwoLevels(lists, group, table)
    ensures group == 0 <==> Empty(lists)
    ensures group != 0 ==> 0 < Ffs(group) <= 32 && Ffs(table[Ffs(group) - 1]) > 0
    ensures group != 0 ==> IsTop(lists, 8 * (Ffs(group) - 1) + Ffs(table[Ffs(group) - 1]) - 1)
  {
    if group != 0 {
      assert Fits(group, 32);
      FfsCorrect(group);
      var n := Ffs(group) - 1;
      assert ByteOk(lists, table[n], n);
      assert Fits(table[n], 32);
      FfsCorrect(table[n]);
      var k := Ffs(table[n]) - 1;
      forall q | 0 <= q < 8 * n + k ensures lists[q] == [] {
        ListBelow(lists, group, table, n, k, q);
      }
    } else {
      ZeroIff(group);
      forall q | 0 <= q < |lists| ensures lists[q] == [] {
        assert ByteOk(lists, table[q / 8], q / 8) && !Bit(group, q / 8);
        BitZero(q % 8);
        assert !Bit(table[q / 8], q % 8);
        assert 8 * (q / 8) + q % 8 == q;
      }
    }
  }

  lemma ListBelow(lists: seq<seq<Tid>>, group: nat, table: seq<nat>, n: nat, k: nat, q: nat)
    requires TwoLevels(lists, group, table) && n < 32 && IsLowest(group, n) && IsLowest(table[n], k)
    requires q < 8 * n + k && q < |lists|
    ensures lists[q] == []
  {
    var m, j := q / 8, q % 8;
    assert ByteOk(lists, table[m], m) && 8 * m + j == q;
    assert ByteOk(lists, table[n], n) && Bit(table[n], k);
    if m < n {
      assert !Bit(group, m);
      BitZero(j);
    }
    assert !Bit(table[m], j);
  }

  class Scheduler {
    var lists: seq<seq<Tid>>
    var group: nat
    var table: seq<nat>
    var stat: seq<Stat>
    var prio: seq<nat>
    var init: seq<nat>
    var number: seq<nat>
    var numberMask: seq<nat>
    var highMask: seq<nat>
    var current: Option<Tid>
    var lock: nat

    ghost predicate Shaped()
      reads this
    {
      |number| == |numberMask| == |highMask| == |stat| == |prio| == |init|
    }

    /** The masks of `t` are those of its current priority. */
    ghost predicate Masked(t: Tid)
      requires Shaped() && t < |prio|
      reads this
    {
      if |lists| <= 32 then numberMask[t] == Mask(prio[t])
      else number[t] == prio[t] / 8 && numberMask[t] == Mask(number[t]) && highMask[t] == Mask(prio[t] % 8)
    }

    /** Every thread that was started has its masks. */
    ghost predicate Masks()
      reads this
    {
      Shaped() && forall t | 0 <= t < |stat| && (stat[t] == Ready || stat[t] == Running || stat[t] == Suspend) ::
          Masked(t)
    }

    /** The fields are those of `s`. */
    ghost predicate Fields(s: State)
      reads this
    {
      s.lists == lists && s.stat == stat && s.prio == prio && s.init == init && s.current == current && s.lock == lock
    }

    /** Bitmap and masks are right. */
    ghost predicate Consistent()
      reads this
    {
      Mapped(lists, group, table) && Masks()
    }

    ghost predicate Represents(s: State)
      reads this
    {
      Inv(s) && Fields(s) && Consistent() && CallMasks(s.calls)
    }

    /** Threads that a call under way is about to link or unlink have their masks, even if closed by now. */
    ghost predicate CallMasks(calls: map<nat, Call>)
      requires Shaped()
      reads this
    {
      forall id | id in calls && !calls[id].Deleting? && calls[id].t < |prio| :: Masked(calls[id].t)
    }

    /** rt_system_scheduler_init, with every thread of `init` initialized and none started. */
    constructor (priorityMax: nat, init: seq<nat>, ghost idle: Tid)
      requires priorityMax <= 256 && idle < |init| && forall t | 0 <= t < |init| :: init[t] < priorityMax
      ensures exists s :: Initial(s) && Represents(s) && |s.lists| == priorityMax && s.init == init && s.idle == idle
    {
      lists := seq(priorityMax, _ => []);
      group, table := 0, seq(32, _ => 0);
      this.init, prio, stat := init, init, seq(|init|, _ => Init);
      number, numberMask, highMask := seq(|init|, _ => 0), seq(|init|, _ => 0), seq(|init|, _ => 0);
      current, lock := None, 0;
      new;
      ghost var s := State(lists, stat, prio, init, None, 0, idle, map[]);
      InitialInv(s);
      ZeroIff(0);
      assert Represents(s);
    }

    /** _get_highest_priority_thread: the priority found through the bitmap. */
    method Highest() returns (p: nat)
      requires Mapped(lists, group, table) && group != 0
      ensures IsTop(lists, p)
    {
      if |lists| > 32 {
        TopTwoLevels(lists, group, table);
        var n := Ffs(group) - 1;
        p := 8 * n + Ffs(table[n]) - 1;
      } else {
        TopOneLevel(lists, group);
        p := Ffs(group) - 1;
      }
    }

    /** rt_schedule_insert_thread. */
    method InsertThread(t: Tid, ghost s: State)
      requires Fields(s) && Consistent() && t < |stat| && prio[t] < |lists| && Masked(t)
      modifies `stat, `lists, `group, `table
      ensures Fields(Insert(s, t)) && Consistent() && |lists| == |old(lists)|
    {
      if current == Some(t) {
        stat := stat[t := Running];
        return;
      }
      var q := lists[prio[t]] + [t];
      if |lists| > 32 {
        InsertTwoLevels(lists, group, table, prio[t], q);
        table := table[number[t] := Or(table[number[t]], highMask[t])];
      } else {
        InsertOneLevel(lists, group, prio[t], q);
      }
      group := Or(group, numberMask[t]);
      stat := stat[t := Ready];
      lists := lists[prio[t] := q];
    }

    /** rt_schedule_remove_thread. */
    method RemoveThread(t: Tid)
      requires Consistent() && t < |stat| && prio[t] < |lists| && Masked(t)
      modifies `lists, `group, `table
      ensures lists == old(lists)[prio[t] := Remove(old(lists)[prio[t]], t)] && Consistent() && |lists| == |old(lists)|
    {
      var q := Remove(lists[prio[t]], t);
      if |lists| > 32 {
        RemoveTwoLevels(lists, group, table, prio[t], q);
        if q == [] {
          table := table[number[t] := AndNot(table[number[t]], highMask[t])];
          if table[number[t]] == 0 {
            group := AndNot(group, numberMask[t]);
          }
        } else {
          assert table[number[t] := table[number[t]]] == table;
        }
      } else {
        RemoveOneLevel(lists, group, prio[t], q);
        if q == [] {
          group := AndNot(group, numberMask[t]);
        }
      }
      lists := lists[prio[t] := q];
    }

    /** Remove the thread and change its state. */
    method LeaveThread(t: Tid, x: Stat, ghost s: State)
      requires Fields(s) && Consistent() && t < |stat| && prio[t] < |lists| && Masked(t)
      modifies `stat, `lists, `group, `table
      ensures Fields(Leave(s, t, x)) && Consistent() && |lists| == |old(lists)|
    {
      RemoveThread(t);
      stat := stat[t := x];
    }

    /** The priority and the masks that go with it. */
    method SetPriority(t: Tid, p: nat)
      requires Shaped() && t < |stat| && p < |lists|
      modifies `prio, `number, `numberMask, `highMask
      ensures Shaped() && prio == old(prio)[t := p] && Masked(t)
      ensures forall u | 0 <= u < |stat| && u != t && old(Masked(u)) :: Masked(u)
    {
      prio := prio[t := p];
      if |lists| > 32 {
        number := number[t := p / 8];
        numberMask := numberMask[t := Mask(p / 8)];
        highMask := highMask[t := Mask(p % 8)];
      } else {
        numberMask := numberMask[t := Mask(p)];
      }
    }

    /** The switch of rt_schedule from `c` to the first thread of list `p`. */
    method SwitchTo(c: Tid, p: nat, ghost s: State)
      requires Represents(s) && current == Some(c) && IsTop(lists, p)
      modifies this
      ensures Represents(Switch(s, c, p))
    {
      SwitchInv(s, c, p);
      TopBound(s, p);
      var to := lists[p][0];
      var insert := stat[c] == Running;
      current := Some(to);
      ghost var r := s.(current := Some(to));
      if insert {
        InsertThread(c, r);
        r := Insert(r, c);
      }
      LeaveThread(to, Running, r);
    }

    method Schedule(ghost s: State)
      requires Represents(s) && current.Some?
      modifies this
      ensures Represents(ScheduleStep(s))
    {
      ScheduleInv(s);
      BitmapEmpty(lists, group, table);
      if lock == 0 && group != 0 {
        var c := current.value;
        var p := Highest();
        ScheduleIs(s, c, p);
        if stat[c] == Running && prio[c] < p {
          LeaveThread(c, Running, s);
        } else {
          SwitchTo(c, p, s);
        }
      }
    }

    method Startup(t: Tid, ghost s: State)
      requires Represents(s) && Enabled(s, Event.Startup(t))
      modifies this
      ensures Represents(Next(s, Event.Startup(t)))
    {
      Begin(t, s);
      if current.Some? {
        Schedule(Started(s, t));
      }
    }

    /** rt_thread_startup up to rt_schedule. */
    method Begin(t: Tid, ghost s: State)
      requires Represents(s) && Enabled(s, Event.Startup(t))
      modifies `prio, `number, `numberMask, `highMask, `stat, `lists, `group, `table
      ensures Represents(Started(s, t))
    {
      StartedInv(s, t);
      Prepare(t, s);
      InsertThread(t, Prepared(s, t));
    }

    /** rt_thread_startup up to the resume. */
    method Prepare(t: Tid, ghost s: State)
      requires Represents(s) && Enabled(s, Event.Prepare(t))
      modifies `prio, `number, `numberMask, `highMask, `stat
      ensures Represents(Prepared(s, t)) && Masked(t)
    {
      PreparedInv(s, t);
      SetPriority(t, init[t]);
      assert CallMasks(s.calls);
      stat := stat[t := Suspend];
    }

    method Start(ghost s: State)
      requires Represents(s) && Enabled(s, Event.Start)
      modifies this
      ensures Represents(Next(s, Event.Start))
    {
      StartInv(s);
      BitmapEmpty(lists, group, table);
      var p := Highest();
      StartIs(s, p);
      var to := lists[p][0];
      current := Some(to);
      LeaveThread(to, Running, s.(current := Some(to)));
    }

    method SuspendThread(t: Tid, ghost s: State) returns (ok: bool)
      requires Represents(s) && Enabled(s, Event.SuspendThread(t))
      modifies this
      ensures Represents(Next(s, Event.SuspendThread(t))) && ok == (old(stat)[t] == Ready || old(stat)[t] == Running)
    {
      StepInv(s, Event.SuspendThread(t));
      ok := stat[t] == Ready || stat[t] == Running;
      if ok {
        LeaveThread(t, Suspend, s);
      }
    }

    method Resume(t: Tid, ghost s: State) returns (ok: bool)
      requires Represents(s) && Enabled(s, Event.Resume(t))
      modifies this
      ensures Represents(Next(s, Event.Resume(t))) && ok == (old(stat)[t] == Suspend)
    {
      StepInv(s, Event.Resume(t));
      ok := stat[t] == Suspend;
      if ok {
        InsertThread(t, s);
      }
    }

    /** The parts of rt_thread_resume with interrupts enabled: the test, ... */
    method TestResume(t: Tid, ghost id: nat, ghost s: State) returns (ok: bool)
      requires Represents(s) && Enabled(s, Event.TestResume(id, t))
      ensures Represents(Next(s, Event.TestResume(id, t))) && ok == (stat[t] == Suspend)
    {
      PartInv(s, Event.TestResume(id, t));
      ok := stat[t] == Suspend;
    }

    /** ... the unlinking, which leaves the bitmap alone even if the thread was the last of a ready list, ... */
    method Unlink(t: Tid, ghost id: nat, ghost s: State)
      requires Represents(s) && Enabled(s, Event.Unlink(id)) && t == s.calls[id].t
      modifies `lists
      ensures Fields(Next(s, Event.Unlink(id)))
      ensures Mapped(lists, group, table) <==> (Queued(s, t) ==> |s.lists[s.prio[t]]| > 1)
      ensures Represents(Next(s, Event.Unlink(id))) <==> Harmless(s, Event.Unlink(id)) && Mapped(lists, group, table)
    {
      StepExact(s, Event.Unlink(id));
      if t in lists[prio[t]] {
        UnlinkBitmap(lists, group, table, prio[t], t);
      } else {
        assert lists[prio[t] := lists[prio[t]]] == lists;
      }
      lists := lists[prio[t] := Remove(lists[prio[t]], t)];
    }

    /** ... and the insertion. */
    method Enter(t: Tid, ghost id: nat, ghost s: State)
      requires Represents(s) && Enabled(s, Event.Enter(id)) && t == s.calls[id].t
      modifies `stat, `lists, `group, `table
      ensures Fields(Next(s, Event.Enter(id))) && Consistent()
      ensures Represents(Next(s, Event.Enter(id))) <==> Harmless(s, Event.Enter(id))
    {
      StepExact(s, Event.Enter(id));
      InsertThread(t, s);
    }

    /** The parts of rt_thread_suspend: the test, ... */
    method TestSuspend(t: Tid, ghost id: nat, ghost s: State) returns (ok: bool)
      requires Represents(s) && Enabled(s, Event.TestSuspend(id, t))
      ensures Represents(Next(s, Event.TestSuspend(id, t))) && ok == (stat[t] == Ready || stat[t] == Running)
    {
      PartInv(s, Event.TestSuspend(id, t));
      ok := stat[t] == Ready || stat[t] == Running;
    }

    /** ... and the section, whatever has become of the thread. */
    method Block(t: Tid, ghost id: nat, ghost s: State)
      requires Represents(s) && Enabled(s, Event.Block(id)) && t == s.calls[id].t
      modifies `stat, `lists, `group, `table
      ensures Represents(Next(s, Event.Block(id)))
    {
      PartInv(s, Event.Block(id));
      LeaveThread(t, Suspend, s);
    }

    /** The parts of rt_thread_delete: the removal, ... */
    method TakeOut(t: Tid, ghost id: nat, ghost s: State)
      requires Represents(s) && Enabled(s, Event.TakeOut(id, t))
      modifies `lists, `group, `table
      ensures Represents(Next(s, Event.TakeOut(id, t)))
    {
      PartInv(s, Event.TakeOut(id, t));
      if stat[t] != Init {
        RemoveThread(t);
      }
    }

    /** ... and the state. */
    method MarkClosed(t: Tid, ghost id: nat, ghost s: State)
      requires Represents(s) && Enabled(s, Event.MarkClosed(id)) && t == s.calls[id].t
      modifies `stat
      ensures Fields(Next(s, Event.MarkClosed(id))) && Consistent()
      ensures Represents(Next(s, Event.MarkClosed(id))) <==> Harmless(s, Event.MarkClosed(id))
    {
      StepExact(s, Event.MarkClosed(id));
      stat := stat[t := Close];
    }

    method Timeout(t: Tid, ghost s: State)
      requires Represents(s) && Enabled(s, Event.Timeout(t))
      modifies this
      ensures Represents(Next(s, Event.Timeout(t)))
    {
      NotQueued(s, t);
      InsertInv(s, t);
      InsertThread(t, s);
      Schedule(Insert(s, t));
    }

    /** rt_thread_exit up to rt_schedule. */
    method Leaving(ghost s: State)
      requires Represents(s) && Enabled(s, Event.Leaving)
      modifies `stat, `lists, `group, `table
      ensures Represents(Next(s, Event.Leaving))
    {
      PartInv(s, Event.Leaving);
      LeaveThread(current.value, Close, s);
    }

    method Exit(ghost s: State)
      requires Represents(s) && Enabled(s, Event.Exit)
      modifies this
      ensures Represents(Next(s, Event.Exit))
    {
      Leaving(s);
      Schedule(Next(s, Event.Leaving));
    }

    method Delete(t: Tid, ghost s: State)
      requires Represents(s) && Enabled(s, Event.Delete(t))
      modifies this
      ensures Represents(Next(s, Event.Delete(t)))
    {
      StepInv(s, Event.Delete(t));
      if stat[t] != Init {
        LeaveThread(t, Close, s);
      } else {
        stat := stat[t := Close];
      }
    }

    /** A ready thread changes lists. */
    method Requeue(t: Tid, p: nat, ghost s: State)
      requires Represents(s) && t < |stat| && p < |lists| && stat[t] == Ready
      modifies `prio, `number, `numberMask, `highMask, `stat, `lists, `group, `table
      ensures Fields(Reprioritized(s, t, p)) && Consistent() && CallMasks(s.calls)
    {
      RemoveThread(t);
      assert CallMasks(s.calls);
      SetPriority(t, p);
      assert CallMasks(s.calls);
      ghost var r := Leave(s, t, Ready);
      InsertThread(t, r.(prio := r.prio[t := p]));
    }

    method ChangePriority(t: Tid, p: nat, ghost s: State)
      requires Represents(s) && Enabled(s, Event.ChangePriority(t, p))
      modifies this
      ensures Represents(Next(s, Event.ChangePriority(t, p)))
    {
      ReprioritizedInv(s, t, p);
      if stat[t] == Ready {
        Requeue(t, p, s);
      } else {
        SetPriority(t, p);
      }
    }

    method EnterCritical(ghost s: State)
      requires Represents(s)
      modifies this
      ensures Represents(Next(s, Event.EnterCritical))
    {
      lock := lock + 1;
    }

    /** rt_exit_critical up to rt_schedule. */
    method Unlock(ghost s: State)
      requires Represents(s)
      modifies `lock
      ensures Represents(Next(s, Event.Unlock))
    {
      if lock > 1 {
        lock := lock - 1;
      } else {
        lock := 0;
      }
    }

    method ExitCritical(ghost s: State)
      requires Represents(s)
      modifies this
      ensures Represents(Next(s, Event.ExitCritical))
    {
      var last := lock <= 1;
      Unlock(s);
      if last && current.Some? {
        Schedule(s.(lock := 0));
      }
    }
  }

  lemma ScheduleIs(s: State, c: Tid, p: nat)
    requires Inv(s) && s.current == Some(c) && s.lock == 0 && IsTop(s.lists, p)
    ensures ScheduleStep(s) == if s.stat[c] == Running && s.prio[c] < p then Leave(s, c, Running) else Switch(s, c, p)
    ensures ScheduleStep(s).calls == s.calls
  {
    assert Top(s.lists) == p;
  }

  /** Taking a queued thread out of its list behind the back of the bitmap is noticed exactly if it was alone there. */
  lemma UnlinkBitmap(lists: seq<seq<Tid>>, group: nat, table: seq<nat>, p: nat, t: Tid)
    requires Mapped(lists, group, table) && p < |lists| && t in lists[p]
    ensures Mapped(lists[p := Remove(lists[p], t)], group, table) <==> |lists[p]| > 1
  {
    var q := Remove(lists[p], t);
    var after := lists[p := q];
    if |lists| > 32 {
      var n, k := p / 8, p % 8;
      assert ByteOk(lists, table[n], n) && Bit(table[n], k);
      if q == [] {
        assert after[8 * n + k] == [];
        assert !ByteOk(after, table[n], n);
      } else {
        forall m | 0 <= m < 32 ensures ByteOk(after, table[m], m) {
          assert ByteOk(lists, table[m], m);
        }
      }
    } else {
      assert Bit(group, p);
    }
  }

  lemma BitmapEmpty(lists: seq<seq<Tid>>, group: nat, table: seq<nat>)
    requires Mapped(lists, group, table)
    ensures group == 0 <==> Empty(lists)
  {
    if |lists| <= 32 {
      TopOneLevel(lists, group);
    } else {
      TopTwoLevels(lists, group, table);
    }
  }
}
