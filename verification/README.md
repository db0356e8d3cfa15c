# A model of the RT-Thread kernel and its build tools

This project models the state machines and allocators of the RT-Thread 4.0.1 kernel, and
three pieces of its build tooling, and proves what they keep.

Blocking objects are step machines: one step is one interrupt-disabled section (or one copy
made outside of it), any thread may run between two steps, and a timed wait may expire at
any moment. For each there is a module of pure steps with the properties of every run, and
a class with the kernel's own fields whose methods are proved to take exactly those steps.
Timers and the scheduler are done in the same way: calls that leave interrupts enabled
between two sections (`rt_timer_start`, `rt_thread_startup`, `rt_thread_resume`,
`rt_thread_suspend`, `rt_thread_delete`) are steps for their parts, and beside them one step
for callers that have interrupts disabled. Allocators, which a semaphore guards, take one call
after the other.

| file | what it models |
|---|---|
| `Sequences.dfy` | lists without repetition, common to all modules |
| `WaitList.dfy` | the list of threads blocked on an object |
| `Mailbox.dfy`, `MessageQueue.dfy`, `Mutex.dfy`, `Event.dfy` | blocking communication (`src/ipc.c`) |
| `Mutexes.dfy` | several mutexes held and awaited at once (`src/ipc.c`) |
| `Ring.dfy` | the circular list under all kernel queues (`include/rtservice.h`) |
| `Bits.dfy`, `Scheduler.dfy` | lowest-bit search, ready lists, bitmaps and scheduling (`src/kservice.c`, `src/scheduler.c`, `src/thread.c`) |
| `Timer.dfy` | the skip list of timers and its expiry (`src/timer.c`) |
| `SmallMem.dfy`, `MemHeap.dfy`, `PageAlloc.dfy`, `Slab.dfy`, `Align.dfy` | the allocators (`src/mem.c`, `src/memheap.c`, `src/slab.c`) |
| `Clients.dfy` | sequences of calls to an allocator |
| `KconfigCache.dfy`, `KconfigRules.dfy` | values, their cache, and the rules they follow (`tools/kconfiglib.py`) |
| `KconfigLoop.dfy`, `KconfigExpr.dfy` | loop check and expressions (`tools/kconfiglib.py`) |
| `RomFs.dfy` | the ROM filesystem image (`tools/mkromfs.py`) |

Conventions: threads, timers, slots, symbols and pages are numbers; addresses are offsets
from the start of a pool; sets of event bits are sets of bit numbers; `RT_NULL` and error
returns are `Option` and outcome values; integers are unbounded except where wrapping is
the point (ticks, image addresses). Ghost data that is not in the kernel (arrival stamps,
histories, true deadlines, owners of pages) says what order, conservation and punctuality
are measured against.

Where the code keeps less than one would expect, the model follows the code:

- the shrink path of `rt_realloc` does not lower `lfree` (`src/mem.c:471-498`): the exact condition is in `SmallHeap.Heap.Shrink`, calls that lose all free memory in `SmallHeap.ShrinkHidesMemory` and `SmallHeap.TwelveOfHundred`;
- the search bound of `rt_malloc` is strict (`src/mem.c:306`): `SmallHeap.FailureIsFragmentation` says exactly what is overlooked, `SmallHeap.WholeHeapRefused` is a call that fails for it;
- a mutex hand-over does not look at the remaining waiters (`src/ipc.c:844-857`): `MutexProtocol.HandOverInherits` has the exact condition and `MutexProtocol.FifoLosesInheritance` a run that fails;
- a mutex gives back the priority at its own acquisition, whatever else the thread holds, and raises its owner only, not the one that owner waits for (`src/ipc.c:720-727`, `src/ipc.c:832-838`): `MutexNesting.StepInherits` and `MutexNesting.StepRooted` have the exact conditions, `MutexNesting.OneAtATime` and `MutexNesting.ReverseRestores` disciplines that meet them, `MutexNesting.NestedLosesInheritance`, `MutexNesting.ChainLosesInheritance` and `MutexNesting.LentForGood` runs that fail;
- `rt_thread_resume` tests the state, unlinks and inserts the thread in three sections (`src/thread.c:713-732`): `ThreadStates.StepExact`, `ThreadStates.RunExact` and `ReadyTable.UnlinkBitmap` have the exact conditions, `ThreadStates.Undisturbed` who must keep away in between, `ThreadStates.BrokenRun` and `ThreadStates.ResumedTwice` what happens otherwise;
- memory heap sizes need not be multiples of the alignment (`src/memheap.c:147-150`): all pointers of all runs are aligned exactly if the least block is a multiple of the alignment (`MemHeap.Client`, `MemHeap.Misaligned`, `MemHeap.EightByteUnits`);
- `rt_memheap_alloc` refuses a request for all that is available (`src/memheap.c:155`): `MemHeap.Heap.Alloc`, `MemHeap.WholePoolRefused`;
- `rt_timer_start` computes the deadline with interrupts enabled before it lists the timer (`src/timer.c:319-327`): `TimerRows.FiringTime` and `TimerRows.ListedInTime` say exactly when a timer fires on time, `TimerRows.LateRun` is a run in which it does not;
- `rt_timer_check` does not end with a due periodic timer of zero ticks (`src/timer.c:507-547`): `TimerRows.CheckEnds` has the exact condition, `TimerRows.ZeroPeriodStaysDue` what happens;
- changing the priority of a suspended thread does not sort its list again (`src/thread.c:595-606`): `WaitList.PriorityChange` has the exact condition, `MailboxProtocol.LessUrgentServed` a run in which the less urgent thread is served;
- the loop check does not know that tristate symbols read MODULES (`tools/kconfiglib.py:2827-2880`): `LoopFree.CheckedWellFounded` and `LoopFree.WellFoundedPasses` say what is needed beside it, `LoopFree.ReadsItself`, `LoopFree.ModulesUnseen` and `LoopFree.PassesUnfounded` are a symbol that reads itself and passes;
- the comment at `src/slab.c:526-528` says that the free list is tried before unused memory; the code does it the other way round (`src/slab.c:556-568`), and so does `SlabZone.TakeOk`.

`dafny verify dfyconfig.toml` checks the whole project.

## Model

| member | source | states |
|---|---|---|
| `WaitList.ListSuspend` | src/ipc.c:79-122 | the scan for a place in the wait list yields the position behind every thread that is not less urgent (PRIO) or the end (FIFO) |
| `WaitList.EnqueueOrdered` | src/ipc.c:79-122 | a thread that joins keeps the list in order: arrival, or urgency with arrival among equals |
| `WaitList.RemoveOrdered` | src/ipc.c:133-146 | taking any thread out, by a resume or by its timer, keeps the order of all others and leaves no copy of it |
| `WaitList.ListResumeAll` | src/ipc.c:156-184 | every thread of the list is resumed with an error, and no other thread changes |
| `WaitList.PriorityChange` | src/thread.c:595-606 | when the priority of a thread changes and its list is not sorted again, the list stays in order if and only if the thread still belongs between its two neighbours; so always for FIFO lists |
| `MailboxProtocol.StepInv` | src/ipc.c:1441-1713 | every interrupt-disabled section, timeout, reset and change of a priority keeps the invariant: contents bounded, each blocked thread once in its wait list, and as many threads on their way as there are mails (free places) whenever somebody waits for one |
| `MailboxProtocol.RunInv` | src/ipc.c:1441-1713 | the invariant holds in every state of every interleaving of any number of threads, priority changes at any moment included |
| `MailboxProtocol.StepOrder` | src/ipc.c:1441-1713 | every step keeps both wait lists in order, except exactly a priority change that takes a waiter out of its place |
| `MailboxProtocol.RunOrder` | src/ipc.c:1441-1713 | in every run whose priority changes leave waiters in place, and in every run of a FIFO mailbox, both lists are in order |
| `MailboxProtocol.LessUrgentServed` | src/thread.c:595-606 | a run in which the second of two receivers becomes the more urgent one and a mail wakes the first |
| `MailboxProtocol.NobodySleepsInVain` | src/ipc.c:1441-1713 | once all woken threads have run, no receiver sleeps while there is a mail and no sender while there is room: no wakeup is lost |
| `MailboxProtocol.TurnsBounded` | src/ipc.c:1441-1713 | in every run all further turns of the loops, timeouts and failing returns together are at most two for each call that was made, although a woken thread may find the mail gone |
| `MailboxProtocol.SettlesWithin` | src/ipc.c:1441-1713 | in every run, as long as no new call is made, at most three steps for each thread remain |
| `MailboxProtocol.StepToMake` | src/ipc.c:1441-1713 | and whoever is neither idle nor asleep has a step to make: so woken threads settle |
| `MailboxProtocol.DeliveredInOrder` | src/ipc.c:1441-1713 | mails are received in the order they were put in, none lost and none twice |
| `MailboxProtocol.PlainMailbox` | src/ipc.c:1441-1757 | in every run the mailbox holds, and has delivered since the last reset, exactly what a plain bounded queue makes of the same events, in which every turn of a sender brings the mail of its own last call |
| `MailboxProtocol.OwnCall` | src/ipc.c:1441-1713 | in every run a blocked or woken thread carries the mail of its own last call, and a waiting time not longer than asked for |
| `MailboxProtocol.ThreadMoves` | src/ipc.c:1441-1757 | where each thread stands after each step: the caller by room, mails and time left; of the others only the first waiter of the other side is woken; a reset fails exactly those that wait |
| `MailboxProtocol.FirstResumed` | src/ipc.c:1543-1695 | who is woken comes before everybody else that waits |
| `MailboxRing.Mailbox.constructor` | src/ipc.c:1293-1321 | an empty ring in an initial state of the protocol |
| `MailboxRing.Mailbox.Put` | src/ipc.c:1534-1541 | storing at the wrapped input offset appends to the contents |
| `MailboxRing.Mailbox.Take` | src/ipc.c:1682-1690 | fetching at the wrapped output offset removes the first of the contents |
| `MailboxRing.Mailbox.Send` | src/ipc.c:1441-1560 | the first section of rt_mb_send_wait takes the step of the protocol; it appends the mail, or leaves the mails as they are and gives up or suspends, depending on room and timeout |
| `MailboxRing.Mailbox.SendAgain` | src/ipc.c:1472-1532 | a woken sender goes round the loop again with what is left of its timeout: it appends the mail of its call if there is room, gives up if no time is left, or sleeps again |
| `MailboxRing.Mailbox.Recv` | src/ipc.c:1589-1713 | the first section of rt_mb_recv takes the step of the protocol and takes away and returns the oldest mail, if there is one |
| `MailboxRing.Mailbox.RecvAgain` | src/ipc.c:1618-1680 | a woken receiver goes round the loop again: the oldest mail if there is one, an error if no time is left, or it sleeps again |
| `MailboxRing.Mailbox.Expire` | src/ipc.c:1490-1519 | a timeout takes the thread out of its wait list wherever it stands |
| `MailboxRing.Mailbox.ChangePriority` | src/thread.c:595-606 | the priority of a thread changes and nothing else does |
| `MailboxRing.Mailbox.Reset` | src/ipc.c:1725-1757 | all waiters fail, offsets and count are cleared |
| `QueueProtocol.StepInv` | src/ipc.c:1963-2325 | every section, copy, timeout and reset keeps: slots partitioned into queued, free, being filled and being drained; bytes of a message untouched between the copy in and the copy out; wait list and wakeups in order |
| `QueueProtocol.RunInv` | src/ipc.c:1963-2325 | the invariant holds in every state of every interleaving |
| `QueueProtocol.SlotsConserved` | src/ipc.c:1963-2266 | in every run each slot is queued, free, or in the hands of exactly one thread, and never two of these |
| `QueueProtocol.HeldUntilRelease` | src/ipc.c:2237-2261 | in every run the message a receiver took, the first of the queue at that moment, is the one its slot holds until the slot is given back |
| `QueueProtocol.PayloadArrives` | src/ipc.c:2252-2253 | in every run the buffer of a receiver is as long as its own call asked for, or as a message if that is less, and begins with the message that was first in the queue when it took it, as far as the buffer reaches, whatever other threads do between that moment and the copy |
| `QueueProtocol.OwnCall` | src/ipc.c:1963-2266 | in every run, from the first section of a call to its end, the thread carries the message and urgency, or the buffer size, that it called with, and a waiting time not longer than asked for |
| `QueueProtocol.PlainQueue` | src/ipc.c:1963-2325 | in every run the messages queued, and those taken, are exactly what a plain queue makes of the same events, in which every link brings the message of the sender's own call, in front if urgent |
| `QueueProtocol.ThreadMoves` | src/ipc.c:1963-2325 | where each thread stands after each step; of the others only the first receiver is woken by a link, and a reset fails exactly those that wait |
| `QueueProtocol.FirstResumed` | src/ipc.c:2022-2025 | who is woken comes before everybody else that waits |
| `QueueProtocol.QueueIs` | src/ipc.c:1963-2266 | in every run the slots of the queue hold exactly the messages linked and not yet received, in link order with urgent ones in front, as a queue without slots would have them |
| `QueueProtocol.NoneLost` | src/ipc.c:1963-2325 | in every run every message linked was taken once, is queued, or was dropped by a reset; without urgent messages and resets they are taken in link order |
| `QueueProtocol.StepOrder` | src/ipc.c:2138-2266 | every step keeps the wait list in order, except exactly a priority change that takes a waiter out of its place |
| `QueueProtocol.RunOrder` | src/ipc.c:2138-2266 | in every run whose priority changes leave waiters in place, and in every run of a FIFO queue, the list is in order |
| `QueueProtocol.NobodySleepsInVain` | src/ipc.c:2138-2266 | once all woken receivers have run, none sleeps while a message is queued |
| `QueueProtocol.TurnsBounded` | src/ipc.c:1963-2266 | in every run the further steps of all calls, turns of the loop of rt_mq_recv included, are at most three for each call made |
| `QueueProtocol.SettlesWithin` | src/ipc.c:1963-2266 | in every run, as long as no new call is made, at most three steps for each thread remain |
| `QueueProtocol.StepToMake` | src/ipc.c:1963-2266 | and whoever is neither idle nor asleep has a step to make |
| `LinkedQueue.Queue.FreeAll` | src/ipc.c:1814-1821 | the initial loop links all slots, each once, into the free list |
| `LinkedQueue.Queue.constructor` | src/ipc.c:1780-1827 | an initial state of the protocol with max_msgs free slots |
| `LinkedQueue.Queue.Alloc` | src/ipc.c:1974-1997 | first section of a send: too long, full, or a slot taken off the linked free list |
| `LinkedQueue.Queue.Fill` | src/ipc.c:1999-2002 | the copy outside the lock changes the taken slot only |
| `LinkedQueue.Queue.LinkLast` | src/ipc.c:2006-2017 | linking behind the tail, with and without a tail, appends to the linked list |
| `LinkedQueue.Queue.LinkFirst` | src/ipc.c:2095-2101 | linking before the head prepends to the linked list |
| `LinkedQueue.Queue.Link` | src/ipc.c:2004-2039 | second section of a send: head, tail, links and count stay those of the abstract queue, and a receiver is woken if one waits |
| `LinkedQueue.Queue.Recv` | src/ipc.c:2138-2250 | the loop head of rt_mq_recv: head and tail move, the count falls, or the thread suspends |
| `LinkedQueue.Queue.RecvAgain` | src/ipc.c:2172-2235 | a woken receiver goes round the loop again: a message if one is queued, an error if no time is left, or it sleeps again |
| `LinkedQueue.Queue.CopyOut` | src/ipc.c:2252-2253 | the copy out outside the lock, cut to the buffer and the message size |
| `LinkedQueue.Queue.Release` | src/ipc.c:2255-2261 | the slot goes back to the front of the free list |
| `LinkedQueue.Queue.FreeQueued` | src/ipc.c:2296-2311 | the reset loop moves every queued slot to the free list, in reverse order, and touches no other link |
| `LinkedQueue.Queue.Reset` | src/ipc.c:2279-2325 | a reset takes the step of the protocol |
| `LinkedQueue.Queue.ChangePriority` | src/thread.c:595-606 | the priority of a thread changes and nothing else does |
| `MutexProtocol.StepInv` | src/ipc.c:653-880 | every take, release, timeout and return keeps: value = 1 iff no owner iff hold = 0, then nobody waits; the owner never waits; hold is the number of takes minus releases of the owner; the owner runs at the most urgent of its own priority and those that blocked since it got the mutex, all others at their own |
| `MutexProtocol.RunInv` | src/ipc.c:653-880 | the invariant holds in every state of every run of one mutex, whatever the flag; MutexNesting.RunInv has several mutexes and priority changes by hand |
| `MutexProtocol.MutualExclusion` | src/ipc.c:653-880 | in every run at most one thread holds the mutex, as often as hold says, and it is not in the wait list |
| `MutexProtocol.HoldCounted` | src/ipc.c:653-880 | in every run hold is how often the owner has got the mutex, by takes or handed over, less how often it gave it back, and this is zero for everybody else |
| `MutexProtocol.ThreadMoves` | src/ipc.c:653-880 | where each thread stands and at which priority it runs after each step: only a take that blocks raises the owner, only the last release gives a priority back and wakes the first waiter |
| `MutexProtocol.OwnCall` | src/ipc.c:653-778 | in every run own priorities never change, and a blocked thread waits as long as its last call said |
| `MutexProtocol.OwnerInherits` | src/ipc.c:720-727 | in every run of a PRIO mutex the owner is at least as urgent as every waiter, timeouts included |
| `MutexProtocol.PriorityRestored` | src/ipc.c:832-838 | in every run a thread that has let go completely runs at the priority it began with |
| `MutexProtocol.HandOverToFirst` | src/ipc.c:840-857 | a full release hands over to the most urgent waiter, first come first served among equals |
| `MutexProtocol.HandOverInherits` | src/ipc.c:844-857 | after a hand-over the new owner is as urgent as all remaining waiters if and only if the first waiter was: for FIFO mutexes this is the exact condition |
| `MutexProtocol.InheritanceKept` | src/ipc.c:653-880 | no other step loses inheritance, whatever the flag |
| `MutexProtocol.FifoLosesInheritance` | src/ipc.c:844-857 | a concrete run of a FIFO mutex that ends with an owner less urgent than a waiter |
| `MutexObject.Mutex.constructor` | src/ipc.c:529-549 | a free mutex |
| `MutexObject.Mutex.Block` | src/ipc.c:714-746 | the owner is raised before the thread joins the wait list |
| `MutexObject.Mutex.Take` | src/ipc.c:653-778 | recursive take, take, timeout and suspension take the step of the protocol |
| `MutexObject.Mutex.Release` | src/ipc.c:789-880 | refused to others; a full release restores the priority and hands over or frees the mutex |
| `MutexObject.Mutex.Expire` | src/thread.c:747-769 | a timeout takes the thread out of the wait list and leaves the owner's priority alone |
| `MutexObject.Mutex.Return` | src/ipc.c:754-767 | the call returns success exactly to threads a release made the owner |
| `MutexNesting.StepInv` | src/ipc.c:653-880 | with any number of mutexes, every take, release, timeout, return and change of priority keeps: value, owner and hold of each in agreement, each blocked thread once in the list of its mutex, owners never in the list of their own |
| `MutexNesting.RunInv` | src/ipc.c:653-880 | so in every state of every run, priority changes by hand included |
| `MutexNesting.Exclusion` | src/ipc.c:653-880 | in every run a thread holds exactly the mutexes it owns, waits for one at most, and for none it holds |
| `MutexNesting.ThreadMoves` | src/ipc.c:653-880 | where each thread stands and at which priority it runs after each step on any of the mutexes |
| `MutexNesting.StepInherits` | src/ipc.c:720-727 | inheritance survives a step if and only if: an owner that is raised does not itself wait for a less urgent owner; a thread that lets go falls back to a priority that suits the waiters of its other mutexes; the first waiter is as urgent as the rest; a priority set by hand suits waiters and owner |
| `MutexNesting.RunInherits` | src/ipc.c:653-880 | in every run, all owners are as urgent as all their waiters throughout if and only if all steps meet that condition |
| `MutexNesting.OneAtATime` | src/ipc.c:653-880 | in every run of PRIO mutexes in which nobody takes one while holding another, every owner is as urgent as every waiter |
| `MutexNesting.StepRooted` | src/ipc.c:832-838 | that threads without a mutex run at their own priority survives a step if and only if the oldest mutex is not let go before one that remembers another priority, and no priority is set by hand under a mutex that remembers another |
| `MutexNesting.RunRooted` | src/ipc.c:653-880 | over whole runs as well, if and only if all steps meet that condition |
| `MutexNesting.ReverseRestores` | src/ipc.c:832-838 | in every run in which mutexes are let go in the reverse of the order they were got, who holds none runs at its own priority |
| `MutexNesting.NestedLosesInheritance` | src/ipc.c:832-838 | a run of two PRIO mutexes, nested properly, in which the release of the inner one leaves the owner of the outer one at 9 while a thread of priority 1 waits for it |
| `MutexNesting.ChainLosesInheritance` | src/ipc.c:720-727 | a run in which a thread of priority 1 raises the thread it waits for, and not the one that this one waits for |
| `MutexNesting.LentForGood` | src/ipc.c:832-838 | a run in which two mutexes are let go in the order they were taken, and the thread keeps priority 1, which it was only lent, without any mutex |
| `MutexNesting.OneMutex` | src/ipc.c:653-880 | with one mutex the steps are exactly those of the model of a single one |
| `MutexTable.Mutexes.constructor` | src/ipc.c:529-549 | free mutexes |
| `MutexTable.Mutexes.Take` | src/ipc.c:653-778 | rt_mutex_take on one of several mutexes takes the step, with its outcome |
| `MutexTable.Mutexes.Release` | src/ipc.c:789-880 | rt_mutex_release on one of several mutexes takes the step; refused to others |
| `MutexTable.Mutexes.Expire` | src/thread.c:747-769 | a timeout takes the thread out of the list of its mutex |
| `MutexTable.Mutexes.Return` | src/ipc.c:754-767 | the call returns success exactly to threads a release made the owner |
| `MutexTable.Mutexes.ChangePriority` | src/thread.c:570-607 | the priority of a thread changes, and no mutex remembers it |
| `EventProtocol.WalkWaiters` | src/ipc.c:1055-1100 | after the walk nobody left waiting has its condition satisfied, since the set only shrinks; who keeps waiting keeps request and order; everybody else was given something |
| `EventProtocol.WalkGives` | src/ipc.c:1062-1091 | each waiter is woken exactly if its condition holds for the set the waiters in front of it left; an AND waiter is given its full request, an OR waiter exactly those of its bits that are in that set; any other is left as it was |
| `EventProtocol.WalkClears` | src/ipc.c:1086-1091 | the bits of a waiter that clears are gone from the set afterwards |
| `EventProtocol.WalkExclusive` | src/ipc.c:1086-1091 | no bit is given to two waiters that clear |
| `EventProtocol.WalkKeeps` | src/ipc.c:1055-1100 | no bit is lost in a walk: it stays in the set exactly if no waiter that clears was given it |
| `EventProtocol.ConditionMeans` | src/ipc.c:1062-1091 | bit by bit: when a condition holds, what is given, and what is left |
| `EventProtocol.StepBits` | src/ipc.c:1028-1236 | a bit is in the set after a step exactly if it was there or is sent, and no thread that clears was given it in the step |
| `EventProtocol.BitHistory` | src/ipc.c:1028-1236 | in every run a bit is set exactly if it was sent at some time, or there at first, and no thread that clears was given it since |
| `EventProtocol.SendWakesFirst` | src/ipc.c:1049-1098 | a send wakes the first waiter exactly if its condition holds for the set with the bits sent, and gives it exactly the bits it wants of these |
| `EventProtocol.SendWakes` | src/ipc.c:1049-1098 | so for each of the others, with what those in front of it have left |
| `EventProtocol.RecvMoves` | src/ipc.c:1126-1236 | a receive gives exactly the wanted bits that are set if the condition holds, and else waits for this request and this long, or gives up |
| `EventProtocol.EndMoves` | src/thread.c:747-769 | a timeout fails the thread, a return ends its call, and nobody else notices |
| `EventProtocol.OwnCall` | src/ipc.c:1126-1236 | in every run a thread waits for what it asked for last, for as long as it said, and has received all of it, or some if any will do |
| `EventProtocol.StepInv` | src/ipc.c:1028-1236 | send, receive, timeout, return and a change of priority keep each blocked thread once in the list and nobody waiting for what is there |
| `EventProtocol.StepOrder` | src/ipc.c:1028-1236 | every step keeps the wait list in order, except exactly a priority change that takes a waiter out of its place |
| `EventProtocol.RunOrder` | src/ipc.c:1028-1236 | in every run whose priority changes leave waiters in place, and in every run of a FIFO event, the list is in order |
| `EventProtocol.NobodyWaitsInVain` | src/ipc.c:1028-1236 | in every run, after every step, no suspended waiter's condition holds |
| `EventObject.EventSet.constructor` | src/ipc.c:914-932 | an empty set nobody waits for |
| `EventObject.EventSet.WakeAll` | src/ipc.c:1055-1100 | the loop over the list, resuming in passing, is the walk |
| `EventObject.EventSet.Send` | src/ipc.c:1028-1110 | an empty set is refused; else the step of the protocol, which sets the bits and then walks |
| `EventObject.EventSet.Recv` | src/ipc.c:1126-1236 | an empty request is refused; a condition that holds yields exactly the full request or the bits of it that are set; else a timeout or suspension |
| `EventObject.EventSet.Expire` | src/thread.c:747-769 | a timeout takes the thread out of the wait list |
| `EventObject.EventSet.ChangePriority` | src/thread.c:595-606 | the priority of a thread changes and nothing else does |
| `Ring.InsertAfterRing` | include/rtservice.h:58-65 | inserting after a node of a ring puts the new node right behind it, in both directions |
| `Ring.InsertBeforeRing` | include/rtservice.h:73-80 | inserting before any node of a ring puts the new node right in front of it, in both directions; before the head, at the end of the list |
| `Ring.BypassRing` | include/rtservice.h:86-90 | linking the neighbours of a node to each other takes it out and leaves the others in order |
| `Ring.RemovedRing` | include/rtservice.h:86-92 | and the removed node is a ring of its own |
| `RtList.Lists.Init` | include/rtservice.h:47-50 | a new list is empty |
| `RtList.Lists.InsertAfter` | include/rtservice.h:58-65 | the four assignments do what the lemma says |
| `RtList.Lists.InsertBefore` | include/rtservice.h:73-80 | the four assignments do what the lemma says, before any node |
| `RtList.Lists.Remove` | include/rtservice.h:86-92 | the assignments remove and re-initialize the node |
| `RtList.Lists.IsEmpty` | include/rtservice.h:98-101 | a list is empty exactly if its head is alone |
| `RtList.Lists.Len` | include/rtservice.h:107-118 | the walk round counts the nodes |
| `Bits.TableCorrect` | src/kservice.c:1257-1275 | every entry of the lookup table but the first is the lowest set bit of its index |
| `Bits.FfsCorrect` | src/kservice.c:1287-1301 | for every 32-bit word other than zero, __rt_ffs is one more than the index of the lowest set bit |
| `ThreadStates.StepInv` | src/scheduler.c:399-499 | every operation, and every part of one made with interrupts enabled, keeps lists and thread states in agreement if a resume does not unlink or insert, and a delete not close, a thread that is in a ready list |
| `ThreadStates.StepExact` | src/thread.c:704-738 | and only if: otherwise a READY thread is in no list, in one twice, or a closed one is in a list |
| `ThreadStates.RunInv` | src/thread.c:286-738 | so in every state of every interleaving of whole calls and parts of calls whose steps so far met that condition |
| `ThreadStates.RunExact` | src/thread.c:286-738 | lists and states agree in all states of a run if and only if every unlinking, insertion and closing meets it |
| `ThreadStates.WholeCalls` | src/scheduler.c:399-499 | a run of whole calls only, as by callers that have interrupts disabled, needs no condition |
| `ThreadStates.Undisturbed` | src/thread.c:713-732 | in every run a resume meets it if nobody else resumes or times out the thread between its test and its insertion, whatever else happens in between: suspension, deletion, priority changes, scheduling |
| `ThreadStates.TimeoutInside` | src/thread.c:713-729 | in every state in which a resume has passed its test and the current thread goes on, a timeout of the thread makes the unlinking harmful |
| `ThreadStates.UnlinkedLost` | src/thread.c:721-729 | unlinking a thread that is in its ready list leaves it READY and in no list |
| `ThreadStates.ResumedTwice` | src/thread.c:713-732 | two resumes that both have passed the test and unlinked: the second insertion links the thread a second time |
| `ThreadStates.BrokenRun` | src/thread.c:704-738 | a run of two threads in which the second times out inside a resume and ends READY in no list |
| `ThreadStates.ReadyIffListed` | src/scheduler.c:652-779 | in every such run a thread is in ready list p exactly if it is READY with current priority p, once, and in no other list; only a thread that rt_thread_delete has taken out may be READY in none |
| `ThreadStates.ScheduleUrgent` | src/scheduler.c:399-499 | rt_schedule, unlocked and with an idle thread that never blocks, leaves a thread running that is at least as urgent as every ready one |
| `ThreadStates.ReschedulesUrgent` | src/thread.c:747-769 | so does every operation that ends in rt_schedule: timeout, exit, startup, leaving the last critical section |
| `ThreadStates.IdleStays` | src/scheduler.c:399-499 | once started, the idle thread stays ready or running through every step |
| `ThreadStates.ThreadMoves` | src/thread.c:80-769 | what every operation and every part of one does to each thread and to the lock count: suspended, awake again, closed, its priority changed; everybody else is at most preempted or goes on |
| `ThreadStates.CallsMove` | src/thread.c:286-738 | which calls are under way after each part |
| `ThreadStates.LockedStays` | src/scheduler.c:408-410 | as long as the scheduler is locked, nothing takes the processor away from the current thread |
| `ThreadStates.YieldTurn` | src/scheduler.c:420-447 | a yield passes to the first ready thread of the same priority and queues the yielder last |
| `ThreadStates.Rotation` | src/thread.c:470-475 | after any number n of yields the threads of equal priority have moved up n places, round and round |
| `ThreadStates.EveryoneGetsATurn` | src/thread.c:470-475 | within one lap of yields each of them runs once, in FIFO order, and then the first again |
| `ReadyTable.InsertTwoLevels` | src/scheduler.c:677-681 | setting the two mask bits keeps the two-level bitmap equal to the non-empty lists and groups |
| `ReadyTable.RemoveTwoLevels` | src/scheduler.c:762-775 | clearing them when a list, and then a group, becomes empty does too |
| `ReadyTable.UnlinkBitmap` | src/thread.c:721-729 | unlinking a queued thread without the bitmap, as a resume does, leaves the bitmap right if and only if the thread was not alone in its list |
| `ReadyTable.TopOneLevel` | src/scheduler.c:180-187 | the search through the bitmap finds what a linear search over the lists finds |
| `ReadyTable.TopTwoLevels` | src/scheduler.c:175-179 | so does the search through the group word and then the byte it points to |
| `ReadyTable.Scheduler.constructor` | src/scheduler.c:199-247 | empty lists, empty bitmap, no thread started |
| `ReadyTable.Scheduler.Highest` | src/scheduler.c:170-192 | the priority found is that of the first non-empty list |
| `ReadyTable.Scheduler.InsertThread` | src/scheduler.c:652-686 | RUNNING for the current thread, else READY at the end of its list, bitmap kept |
| `ReadyTable.Scheduler.RemoveThread` | src/scheduler.c:749-779 | out of the list, bitmap kept, whether the thread was listed or not |
| `ReadyTable.Scheduler.SetPriority` | src/thread.c:583-590 | the masks of the thread are those of its priority, nobody else's change |
| `ReadyTable.Scheduler.SwitchTo` | src/scheduler.c:432-447 | the switch from one thread to another |
| `ReadyTable.Scheduler.Schedule` | src/scheduler.c:399-499 | the whole of rt_schedule takes the step of the state machine |
| `ReadyTable.Scheduler.Startup` | src/thread.c:286-318 | rt_thread_startup with interrupts disabled, or before the scheduler runs |
| `ReadyTable.Scheduler.Prepare` | src/thread.c:294-304 | rt_thread_startup up to the resume: initial priority, masks and SUSPEND |
| `ReadyTable.Scheduler.Begin` | src/thread.c:286-306 | rt_thread_startup up to rt_schedule |
| `ReadyTable.Scheduler.Start` | src/scheduler.c:254-278 | rt_system_scheduler_start runs the most urgent thread |
| `ReadyTable.Scheduler.SuspendThread` | src/thread.c:655-694 | rt_thread_suspend with interrupts disabled, and its refusal |
| `ReadyTable.Scheduler.TestSuspend` | src/thread.c:665-671 | the test of rt_thread_suspend with interrupts enabled |
| `ReadyTable.Scheduler.Block` | src/thread.c:673-690 | its section keeps lists, states and bitmap right whatever has become of the thread since the test |
| `ReadyTable.Scheduler.Resume` | src/thread.c:704-738 | rt_thread_resume with interrupts disabled, as in src/ipc.c, and its refusal |
| `ReadyTable.Scheduler.TestResume` | src/thread.c:713-719 | the test of rt_thread_resume with interrupts enabled |
| `ReadyTable.Scheduler.Unlink` | src/thread.c:721-729 | its section: the bitmap is right afterwards if and only if the thread was not alone in a ready list, and everything is if and only if moreover nothing was unlinked that is not being deleted |
| `ReadyTable.Scheduler.Enter` | src/thread.c:731-732 | its insertion keeps the bitmap right always, and lists and states if and only if the thread is not in its list already |
| `ReadyTable.Scheduler.Timeout` | src/thread.c:747-769 | rt_thread_timeout |
| `ReadyTable.Scheduler.Exit` | src/thread.c:80-115 | rt_thread_exit with interrupts disabled throughout |
| `ReadyTable.Scheduler.Leaving` | src/thread.c:88-108 | its section, before rt_schedule |
| `ReadyTable.Scheduler.Delete` | src/thread.c:428-459 | rt_thread_delete with interrupts disabled |
| `ReadyTable.Scheduler.TakeOut` | src/thread.c:437-441 | the removal of rt_thread_delete, with interrupts enabled before and after |
| `ReadyTable.Scheduler.MarkClosed` | src/thread.c:446-447 | the thread is closed: lists and states agree if and only if it has not become ready in between |
| `ReadyTable.Scheduler.ChangePriority` | src/thread.c:570-607 | a ready thread changes lists, any other its priority only |
| `ReadyTable.Scheduler.EnterCritical` | src/scheduler.c:819-834 | the lock count rises |
| `ReadyTable.Scheduler.ExitCritical` | src/scheduler.c:879-904 | the lock count falls, never below zero, and the last exit reschedules |
| `ReadyTable.Scheduler.Unlock` | src/scheduler.c:884-889 | the section of rt_exit_critical, before rt_schedule |
| `TimerRows.ComparisonExact` | src/timer.c:359-366 | the comparison of wrapped ticks agrees with that of true deadlines if and only if the listed one is less than RT_TICK_MAX/2 after and at most RT_TICK_MAX/2 + 2 before the new one |
| `TimerRows.ExpiryExact` | src/timer.c:512-516 | the expiry test on wrapped ticks agrees with true deadlines if and only if the deadline is less than RT_TICK_MAX/2 past and at most RT_TICK_MAX/2 + 2 ahead |
| `TimerRows.SlackExact` | src/timer.c:359-366 | an overdue timer and a later one are told apart, whichever is listed first, if and only if the ticks by which the one is late and those the other has left are together less than RT_TICK_MAX/2: the condition under which runs are considered |
| `TimerRows.UnlistStep` | src/timer.c:309-315 | the first section of rt_timer_start takes the timer out of every row |
| `TimerRows.ArmStep` | src/timer.c:319-324 | the deadline computed between the sections, with interrupts enabled, disturbs no row |
| `TimerRows.ListStep` | src/timer.c:326-396 | the second section keeps every row sorted by true deadline, in listing order among equals, for any number of levels and any height, even if the timer is listed late |
| `TimerRows.StartStep` | src/timer.c:296-396 | with interrupts disabled the three are one step |
| `TimerRows.PullStep` | src/timer.c:435-441 | rt_timer_stop takes the timer out of every row before its flag is cleared |
| `TimerRows.RowsNested` | src/timer.c:296-391 | every upper row is a subsequence of the row below |
| `TimerRows.FirstActive` | src/timer.c:108-119 | the first timer of the last row has the earliest deadline, and was started first among equals |
| `TimerRows.FireKept` | src/timer.c:516-543 | firing the first timer makes no other timer due and takes it out of the due ones, whatever its timeout function starts or stops, unless it starts a timer of zero ticks |
| `TimerRows.Rearmed` | src/timer.c:532-543 | a periodic timer that is still active is due again at now + init_tick, any other is stopped |
| `TimerRows.CheckFires` | src/timer.c:494-553 | rt_timer_check fires only timers that were due when it began |
| `TimerRows.CheckOrdered` | src/timer.c:494-553 | in order of deadline, in starting order among equals, and none twice |
| `TimerRows.CheckComplete` | src/timer.c:494-553 | a due timer fires, or the timeout function of a timer that did fire has touched it |
| `TimerRows.ZeroPeriodStaysDue` | src/timer.c:532-538 | a periodic timer of zero ticks is due again as soon as it has fired |
| `TimerRows.CheckEnds` | src/timer.c:507-547 | with timeout functions that do nothing, rt_timer_check ends if and only if no due timer is periodic with zero ticks |
| `TimerRows.SteadyEnds` | src/timer.c:507-547 | whatever timeout functions do otherwise, it ends if no periodic timer has zero ticks and they start none of zero ticks |
| `TimerRows.RunSettled` | src/timer.c:296-553 | in every run of calls, parts of calls and tick interrupts the rows are sorted and complete, and a listed timer is not yet due or was listed after its deadline since the last tick |
| `TimerRows.NothingLeftDue` | src/timer.c:494-553 | in every run no listed timer is due after a tick interrupt |
| `TimerRows.FiringTime` | src/timer.c:494-553 | in every run, across any number of wrap-arounds, a timer fires at the later of its deadline and the first tick after it was listed; a timer of zero ticks started by a timeout function fires in the same check |
| `TimerRows.ListedInTime` | src/timer.c:319-327 | in every run a timer is listed before its deadline, and so fires on time, if and only if fewer ticks than its init_tick pass between the computation of the deadline and the listing |
| `TimerRows.LateRun` | src/timer.c:319-327 | a run in which an interrupt comes between the two, and a timer of one tick fires a tick late |
| `TimerRows.OpMeans` | src/timer.c:296-485 | what rt_timer_start, rt_timer_stop and the commands of rt_timer_control do to their timer |
| `TimerRows.PartMeans` | src/timer.c:309-444 | what the parts of rt_timer_start and rt_timer_stop do to theirs |
| `TimerRows.FiresAt` | src/timer.c:494-553 | in every run a timer that waits for a time and is left alone fires once in the interrupt that reaches this time, in none before, and is then stopped, or waits for another period if it is periodic |
| `TimerRows.StartedWaits` | src/timer.c:319-324 | a timer that was started waits for init_tick ticks from then on |
| `TimerRows.FiresAfter` | src/timer.c:296-553 | so in every run a timer started for n ticks and then left alone fires exactly n ticks after its start, once, and not before |
| `TimerList.WalkRow` | src/timer.c:345-367 | the walk along one row stops behind the last timer that is not later |
| `TimerList.Timers.FindPlaces` | src/timer.c:342-370 | descending from row to row finds the right place in every row |
| `TimerList.Timers.InsertTimer` | src/timer.c:376-391 | the timer joins the last row and as many rows above as the counter says, at those places |
| `TimerList.Timers.RemoveTimer` | src/timer.c:121-129 | out of every row |
| `TimerList.Timers.Unlist` | src/timer.c:309-315 | the first section of rt_timer_start takes the abstract step |
| `TimerList.Timers.Arm` | src/timer.c:319-324 | so does the computation of the wrapped deadline |
| `TimerList.Timers.Enlist` | src/timer.c:326-396 | and so does the second section |
| `TimerList.Timers.Start` | src/timer.c:296-396 | all three with interrupts disabled, as from a timeout function or a blocking call |
| `TimerList.Timers.Stop` | src/timer.c:422-447 | rt_timer_stop, and its refusal |
| `TimerList.Timers.Pull` | src/timer.c:435-441 | the section of rt_timer_stop |
| `TimerList.Timers.Clear` | src/timer.c:443-444 | and the flag cleared behind it |
| `TimerList.Timers.Perform` | src/timer.c:459-485 | the commands of rt_timer_control as well |
| `TimerList.Timers.FirstIsDue` | src/timer.c:512-516 | the test on wrapped ticks tells whether the first timer is due |
| `TimerList.Timers.Turn` | src/timer.c:516-543 | one turn of the loop takes one step of the abstract check |
| `TimerList.Timers.Check` | src/timer.c:494-553 | whenever rt_timer_check ends at all, its loop fires exactly the timers of the abstract check, in that order, and ends in its last state, in which no listed timer is due; nothing but the end is asked for |
| `SmallHeap.Heap.constructor` | src/mem.c:204-257 | one free block and the end block |
| `SmallHeap.Heap.PlugHoles` | src/mem.c:156-194 | merging with free neighbours on both sides restores: blocks tile the heap, prev links invert next links, no two neighbours are free |
| `SmallHeap.Heap.Search` | src/mem.c:305-311 | the walk from lfree finds the lowest block that passes the test of rt_malloc, if any does |
| `SmallHeap.Heap.Malloc` | src/mem.c:272-410 | first fit; RT_NULL exactly if nothing fits; the block is cut exactly behind the request, with all the rest in one free block, if that leaves room for a header and the least block, and else taken as a whole; all other blocks unchanged; used_mem stays the sum of the used extents, max_mem its maximum so far; lfree moves only from the block taken, to the next free one |
| `SmallHeap.Heap.Free` | src/mem.c:546-609 | one allocation less, all others unchanged, accounting and lfree kept |
| `SmallHeap.Heap.Shrink` | src/mem.c:471-498 | shrinking in place cuts the tail off; lfree stays the lowest free block exactly under the condition stated |
| `SmallHeap.Heap.Move` | src/mem.c:501-509 | a larger size allocates, copies and frees; the new block has room for the size and less than another block needs beyond it; bytes of all other allocations untouched |
| `SmallHeap.Heap.Realloc` | src/mem.c:421-510 | all cases of rt_realloc: RT_NULL, zero, same size, smaller, larger; it returns RT_NULL exactly for size zero, a size beyond the heap, or a growth or first request for which no block fits; and where lfree is after a block was cut down |
| `SmallHeap.AllocationsDisjoint` | src/mem.c:272-410 | no two allocations share a byte, and none covers a header |
| `SmallHeap.AllFree` | src/mem.c:546-609 | once everything is freed the heap is a single free block |
| `SmallHeap.Determined` | src/mem.c:156-194 | what is allocated determines the whole heap: where every block begins, how far it goes and what is free |
| `SmallHeap.FailureIsFragmentation` | src/mem.c:305-311 | with lfree on the lowest free block, a request fails if and only if every free block is too small or the fit would end exactly at the end of the heap |
| `SmallHeap.WholeHeapRefused` | src/mem.c:305-306 | every new heap, of whatever size, refuses a request for all of its bytes |
| `SmallHeap.ShrinkHidesMemory` | src/mem.c:471-498 | in every new heap, a request for all but less than a header, cut down by rt_realloc, leaves one allocation and one free block with all the rest, and every further request failing |
| `SmallHeap.TwelveOfHundred` | src/mem.c:471-498 | so with 100 bytes: rt_malloc(96), rt_realloc to 12, then rt_malloc(12) returns RT_NULL with 76 bytes free |
| `SmallHeap.OthersUntouched` | src/mem.c:503-506 | copying into one allocation leaves the bytes of all others alone |
| `SmallHeap.Client` | src/mem.c:272-609 | any sequence of allocations, releases and size changes keeps the heap well formed, and the pointers held, as the results of the calls say, are distinct allocations with room for what was asked for |
| `HeapBlocks.EditInv` | src/memheap.c:138-595 | replacing the blocks between two blocks keeps: blocks tile the pool, the free list holds exactly the unused blocks, no two free neighbours; the bytes available change by what happens there |
| `HeapBlocks.AllocInv` | src/memheap.c:182-258 | allocation cuts the block exactly behind the request, the rest first in the free list, or takes all of it; it is large enough and exceeds the request by less than a header and the least size; available_size falls accordingly; everybody else keeps their block |
| `HeapBlocks.FreeInv` | src/memheap.c:535-591 | freeing merges with free neighbours on either side; available_size rises by the block and the headers saved; a block that joins no other before it is first in the free list |
| `HeapBlocks.FreeKeeps` | src/memheap.c:535-591 | and disturbs no other allocation |
| `HeapBlocks.GrowInv` | src/memheap.c:333-402 | growing into the free block behind keeps the invariant and the byte count |
| `HeapBlocks.GrowKeeps` | src/memheap.c:333-402 | the block then ends exactly where the new size says, and nobody else notices |
| `HeapBlocks.ShrinkInv` | src/memheap.c:419-485 | shrinking leaves the rest as a free block, merged with one behind it |
| `HeapBlocks.BlocksDisjoint` | src/memheap.c:138-281 | the blocks of two allocations do not overlap |
| `MemHeap.CutAligned` | src/memheap.c:138-492 | if RT_MEMHEAP_SIZE and RT_MEMHEAP_MINIALLOC are multiples of the alignment, allocation, growth and shrinking keep every block aligned |
| `MemHeap.FreeAligned` | src/memheap.c:495-595 | so do the merges of rt_memheap_free |
| `MemHeap.Client` | src/memheap.c:138-595 | then in any sequence of allocations, releases and size changes every pointer returned is aligned, and the pointers held, as the results of the calls say, are distinct allocations with room for what was asked for |
| `MemHeap.Misaligned` | src/memheap.c:147-150 | otherwise, in every heap with room for two least blocks, the second of two small requests gets a misaligned pointer |
| `MemHeap.EightByteUnits` | src/memheap.c:147-150 | so with an alignment of 8 and a least block of 12 bytes |
| `MemHeap.WholePoolRefused` | src/memheap.c:155-155 | every new heap refuses a request for exactly the bytes available, though they are one block |
| `MemHeap.Heap.constructor` | src/memheap.c:50-121 | one free block and the block that closes the pool, in both lists |
| `MemHeap.Heap.FindFree` | src/memheap.c:169-180 | the first block of the free list that is large enough, if any is |
| `MemHeap.Heap.Take` | src/memheap.c:182-258 | both circular lists, the marks and the counters follow the abstract step |
| `MemHeap.Heap.Alloc` | src/memheap.c:138-281 | RT_NULL exactly if all that is available is asked for or no free block is large enough; else the first of the free list that is; max_used_size is the maximum so far |
| `MemHeap.Heap.FreeLists` | src/memheap.c:540-591 | the pointer updates of both merges do what the abstract step says |
| `MemHeap.Heap.FreeBlock` | src/memheap.c:495-595 | rt_memheap_free of a block |
| `MemHeap.Heap.Free` | src/memheap.c:495-595 | RT_NULL is ignored |
| `MemHeap.Heap.Grow` | src/memheap.c:328-403 | grows in place exactly if the block behind is free and leaves more than the least size |
| `MemHeap.Heap.Shrink` | src/memheap.c:419-485 | splits, merges and counts |
| `MemHeap.Heap.Move` | src/memheap.c:408-417 | allocates anew, copies the old data and frees, or changes nothing, exactly if there is no room; the data of all other blocks is untouched |
| `MemHeap.Heap.Resize` | src/memheap.c:310-492 | fails exactly if the block is too small, cannot grow in place and there is no room elsewhere; a smaller size cuts the block exactly, a larger one grows it in place whenever that is possible; the block then holds the size and less than another block needs beyond it; data is kept up to the smaller size |
| `MemHeap.Heap.Realloc` | src/memheap.c:284-492 | a size of zero frees; RT_NULL allocates the first block large enough, or fails exactly if there is none; else as for a resize |
| `PageRuns.CanonicalUnique` | src/slab.c:236-322 | there is exactly one address-sorted, disjoint, maximally coalesced list for a set of pages |
| `PageRuns.AllocPages` | src/slab.c:236-270 | the pages handed out were free, are contiguous and are all that is taken; the list stays canonical |
| `PageRuns.AllocLowest` | src/slab.c:236-270 | they come from the lowest run that is long enough; RT_NULL exactly if there is none |
| `PageRuns.FreePages` | src/slab.c:272-322 | freeing adds exactly the pages freed and keeps the list canonical |
| `PageRuns.FreeLater` | src/slab.c:288-289 | the assertion in the loop of rt_page_free always holds |
| `PageRuns.FreeUndoesAlloc` | src/slab.c:236-322 | freeing what was just allocated restores the identical list |
| `PageRuns.FreeCommutes` | src/slab.c:272-322 | the order of frees does not matter |
| `PageList.Allocator.PageAlloc` | src/slab.c:236-270 | the loop with the pointer to the previous link does what the list function does |
| `PageList.Allocator.PageFree` | src/slab.c:272-322 | so does that of rt_page_free: join before, join behind, join both, insert |
| `PageList.Allocator.JoinBehind` | src/slab.c:291-300 | the join with the run before, and with the run after it if reached |
| `SlabZone.ZoneIndexFits` | src/slab.c:401-459 | the index is below 72, the chunk is large enough, wastes less than an eighth of the request or less than 8 bytes, and is the chunk size of that index |
| `SlabZone.ZoneIndexLeast` | src/slab.c:401-459 | the chunks of every smaller index are too small for the request |
| `SlabZone.NewZoneOk` | src/slab.c:628-648 | a new zone has at least three chunks inside it, as many as fit, the first in use |
| `SlabZone.TakeOk` | src/slab.c:541-568 | taking a chunk keeps z_nfree = (z_nmax - 1 - z_uindex) + length of the free list, and hands out a chunk not in use |
| `SlabZone.GiveOk` | src/slab.c:830-846 | giving one back does too |
| `SlabZone.GiveTake` | src/slab.c:556-568 | once all chunks have been issued, the one given back last is handed out next |
| `SlabZone.AllFree` | src/slab.c:848-856 | z_nfree and the chunks in use add up to z_nmax; so z_nfree = z_nmax if and only if no chunk of the zone is in use |
| `SlabZone.LiveDisjoint` | src/slab.c:556-560 | chunks of a zone do not overlap |
| `SlabHeap.MallocInv` | src/slab.c:478-667 | rt_malloc keeps the heap in order: zone_array[i] lists exactly the zones of index i with z_nfree > 0 that are not spare, all with the chunk size of that index, at most two spare zones and none with chunks in use, memusage right; it hands out a chunk nobody uses and that holds the request, or whole pages that do; it fails if and only if no listed zone, no spare zone and no run of pages can serve the request |
| `SlabHeap.MallocLeast` | src/slab.c:534-543 | a small request gets a chunk of the smallest size that holds it |
| `SlabHeap.MallocFrugal` | src/slab.c:523-659 | from a listed zone if there is one, else from a spare one, and from new pages last; no page is forgotten |
| `SlabHeap.ChunkFreeInv` | src/slab.c:771-904 | rt_free of a chunk takes exactly this chunk out of use and keeps all of this, whether the zone stays, is spared, or goes back to the page allocator |
| `SlabHeap.ZoneReclaimed` | src/slab.c:848-901 | the zone of a freed chunk is reclaimed exactly if that was its last chunk in use and its list has another zone: spared, or its pages given back if two are spared already |
| `SlabHeap.LargeAllocInv` | src/slab.c:493-521 | whole pages come from the free list and belong to one allocation |
| `SlabHeap.LargeFreeInv` | src/slab.c:795-820 | exactly the pages of the allocation go back to the free list, and nothing else changes |
| `SlabHeap.PagesPartitioned` | src/slab.c:478-904 | every page is free, in exactly one zone, or in exactly one large allocation |
| `SlabHeap.ChunksDisjoint` | src/slab.c:478-667 | chunks in use never overlap, whatever zones they are in, and lie behind the header of their zone |
| `SlabHeap.ZoneFound` | src/slab.c:825-828 | memusage leads from a chunk in use to its zone |
| `SlabHeap.Slab.constructor` | src/slab.c:344-395 | no zones, all pages free |
| `SlabHeap.Slab.HeapInit` | src/slab.c:344-395 | rt_system_heap_init: refuses exactly a region without a whole page; else the pages but for those of the table, and the largest zone size below a 1024th of the memory from 32 to 128 KB |
| `SlabHeap.Slab.TakeFrom` | src/slab.c:539-577 | the zone at the head of a list, leaving the list when its last chunk goes; the address computed from the size of the request is that of a chunk of the zone, which holds it |
| `SlabHeap.Slab.SmallMalloc` | src/slab.c:523-659 | existing zone, spare zone, new zone, or failure exactly if there is none of these; the chunk was not in use and holds the request |
| `SlabHeap.Slab.Malloc` | src/slab.c:478-667 | rt_malloc takes the abstract step; what it returns was not in use and holds the request, and RT_NULL is returned exactly if nothing can serve it |
| `SlabHeap.Slab.Unlink` | src/slab.c:862-865 | the walk to the link that points to the zone |
| `SlabHeap.Slab.Settle` | src/slab.c:848-901 | zone_free holds two zones at most |
| `SlabHeap.Slab.GiveBack` | src/slab.c:830-846 | the chunk joins the free list, the zone its list |
| `SlabHeap.Slab.FreeChunk` | src/slab.c:771-904 | rt_free of a chunk takes the abstract step |
| `SlabHeap.Slab.FreeLarge` | src/slab.c:795-820 | rt_free of whole pages |
| `SlabHeap.Slab.Free` | src/slab.c:771-904 | memusage tells chunks and whole pages apart; RT_NULL is ignored |
| `KconfigValue.TriLocal` | tools/kconfiglib.py:3585-3662 | the value of a symbol depends on the symbols actually looked at, and on nothing else |
| `KconfigValue.ValuationUnique` | tools/kconfiglib.py:3585-3662 | there is one assignment in which every symbol has the value computed from the others |
| `KconfigValue.ValuationExists` | tools/kconfiglib.py:3585-3662 | and it exists |
| `KconfigValue.PromptlessIgnoresUser` | tools/kconfiglib.py:4032-4052 | user values of symbols without a prompt change no value: not invalidating for them is sound |
| `KconfigRules.ExprWorth` | tools/kconfiglib.py:4986-5044 | an expression has one value by the rules of the language, the least or greatest of two, the complement, or a comparison by difference, and it is the one that evaluation with short circuits finds |
| `KconfigRules.VisibleIs` | tools/kconfiglib.py:5215-5242 | visibility is the highest prompt condition, m counting as y for what cannot be m |
| `KconfigRules.DefaultsFirst` | tools/kconfiglib.py:3621-3627 | the default is that of the first whose condition holds, as far as the condition allows, and n without one |
| `KconfigRules.TriRuled` | tools/kconfiglib.py:3585-3662 | the rules, stated without an order of evaluation, leave exactly one value, which is the one computed |
| `KconfigRules.ValuationRuled` | tools/kconfiglib.py:3585-3662 | values are a valuation if and only if every symbol follows the rules |
| `KconfigRules.SelectIsFloor` | tools/kconfiglib.py:3636-3643 | in every valuation no symbol is below what selects it |
| `KconfigRules.BoolIsNeverM` | tools/kconfiglib.py:3645-3649 | in every valuation a bool, and a tristate without modules, is never m |
| `KconfigRules.UserDecides` | tools/kconfiglib.py:3613-3615 | in every valuation a visible symbol that nobody selects has the smaller of user value and visibility, m turned into y where the source does |
| `KconfigRules.DefaultDecides` | tools/kconfiglib.py:3617-3634 | in every valuation a symbol with neither has the first default whose condition holds, raised by an imply if its direct dependencies are met |
| `KconfigCache.InvalidationSuffices` | tools/kconfiglib.py:4001-4030 | what pruned invalidation leaves in the cache is right for the new user values |
| `KconfigCache.InvalidationEnds` | tools/kconfiglib.py:4001-4030 | each visit leaves fewer cached symbols, so invalidation ends even on cyclic dependents |
| `KconfigCache.Kconfig.RecInvalidate` | tools/kconfiglib.py:4001-4030 | clears everything that can be reached through cached dependents |
| `KconfigCache.Kconfig.InvalidateAll` | tools/kconfiglib.py:2902-2910 | clears everything |
| `KconfigCache.Kconfig.ExprValue` | tools/kconfiglib.py:4986-5044 | with short circuits, the value from scratch; caches only what is right |
| `KconfigCache.Kconfig.Visibility` | tools/kconfiglib.py:5215-5242 | the visibility from scratch, cached |
| `KconfigCache.Kconfig.DefaultValue` | tools/kconfiglib.py:3621-3627 | the first default whose condition holds |
| `KconfigCache.Kconfig.FallbackValue` | tools/kconfiglib.py:3617-3634 | defaults and implies |
| `KconfigCache.Kconfig.BaseValue` | tools/kconfiglib.py:3605-3634 | the user value as far as it is visible, or the fallback |
| `KconfigCache.Kconfig.SelectedValue` | tools/kconfiglib.py:3636-3643 | raised by select |
| `KconfigCache.Kconfig.PromotedValue` | tools/kconfiglib.py:3645-3649 | m promoted to y |
| `KconfigCache.Kconfig.TriValue` | tools/kconfiglib.py:3585-3662 | after any sequence of set_value, unset_value and reads, the value from scratch, which follows the rules of KconfigRules.ValuationRuled |
| `KconfigCache.Kconfig.SetValue` | tools/kconfiglib.py:3713-3796 | afterwards every cached value is right for the new user value |
| `KconfigCache.Kconfig.UnsetValue` | tools/kconfiglib.py:3798-3805 | so too without it |
| `KconfigCache.Kconfig.RecInvalidateIfHasPrompt` | tools/kconfiglib.py:4032-4052 | a symbol without a prompt needs no invalidation |
| `LoopSearch.FinishedAcyclic` | tools/kconfiglib.py:5486-5558 | if all symbols could be finished there is no dependency loop |
| `LoopSearch.Search.FoundLoop` | tools/kconfiglib.py:5593-5606 | the loop is completed, or passed on with one more symbol |
| `LoopSearch.Search.CheckSym` | tools/kconfiglib.py:5486-5558 | the three-colour search returns with the symbol finished, a chain back to a caller, or a genuine loop |
| `LoopSearch.Search.CheckAll` | tools/kconfiglib.py:872-873 | an exception is raised if and only if the dependents graph has a loop, and it shows one |
| `LoopFree.BuildDep` | tools/kconfiglib.py:2827-2880 | the dependents collected are exactly the symbols that mention a symbol |
| `LoopFree.CheckedWellFounded` | tools/kconfiglib.py:872-873 | a check that passes yields a rank that falls along every dependency, given a set that separates MODULES from the tristates |
| `LoopFree.CheckLoops` | tools/kconfiglib.py:868-873 | so evaluation is well founded |
| `LoopFree.WellFoundedPasses` | tools/kconfiglib.py:872-873 | conversely, well-founded evaluation implies that the check passes and that such a set exists |
| `LoopFree.ReadsItself` | tools/kconfiglib.py:3636-3649 | a single tristate symbol that is MODULES itself and m by default: whatever the values, finding its value reads its own value |
| `LoopFree.ModulesUnseen` | tools/kconfiglib.py:2827-2880 | it has no dependents and so no loop, and no rank makes its evaluation well founded |
| `LoopFree.PassesUnfounded` | tools/kconfiglib.py:868-873 | and the check passes on it |
| `ExprSyntax.OrComplete` | tools/kconfiglib.py:2746-2821 | the parser accepts whatever the documented grammar derives, with the tree the grammar gives it |
| `ExprSyntax.OrSound` | tools/kconfiglib.py:2746-2821 | what the parser has consumed is derived by the grammar |
| `ExprSyntax.Unambiguous` | tools/kconfiglib.py:2746-2752 | a list of tokens has one meaning |
| `ExprSyntax.OrTreeIs` | tools/kconfiglib.py:5059-5098 | the printed form is that of the right-associated expression |
| `ExprSyntax.RoundTrip` | tools/kconfiglib.py:5059-5098 | wherever it stands, a printed expression is read back to its last token as its right-associated form |
| `ExprSyntax.RightAssocValue` | tools/kconfiglib.py:4986-5044 | right association keeps the value under every assignment |
| `ExprSyntax.PrintedValue` | tools/kconfiglib.py:4986-5098 | printing and parsing keep the value of every expression under every assignment |
| `ExprSyntax.MakeAndValue` | tools/kconfiglib.py:2240-2252 | the simplifications of _make_and keep the value and look at nothing more |
| `ExprSyntax.MakeOrValue` | tools/kconfiglib.py:2254-2266 | so do those of _make_or |
| `ExprSyntax.Parser.Expression` | tools/kconfiglib.py:2737-2777 | _parse_expr with its moving token index computes the grammar's answer, or fails where the grammar does |
| `ExprSyntax.Parser.AndExpression` | tools/kconfiglib.py:2779-2787 | _parse_and_expr |
| `ExprSyntax.Parser.FactorExpression` | tools/kconfiglib.py:2789-2821 | _parse_factor |
| `RomImage.Remainders` | tools/mkromfs.py:31-36 | the paddings of names and contents are what the remainders by four give, and reach multiples of four |
| `RomImage.FolderDescribed` | tools/mkromfs.py:162-211 | whatever directory the image holds, at any address, its entries describe its children all the way down: type, NUL-terminated name, size and contents |
| `RomImage.ImageDescribed` | tools/mkromfs.py:230-241 | following the pointers from the first byte of the image finds the whole tree, for every tree and base address |
| `RomImage.Recovers` | tools/mkromfs.py:162-241 | an image describes one tree only at a place |
| `RomImage.ImageInjective` | tools/mkromfs.py:230-241 | two trees with the same image are the same tree |
| `RomImage.ImageLength` | tools/mkromfs.py:230-241 | the length of the image does not depend on the base address |
| `RomImage.AddressesAligned` | tools/mkromfs.py:162-211 | with the base, all addresses of names and contents are multiples of four |
| `RomImage.TreeAligned` | tools/mkromfs.py:162-211 | so throughout the whole tree, however deep |
| `RomImage.SmallEnough` | tools/mkromfs.py:203-207 | an image that ends below 4 GB can always be packed |
| `RomImage.FolderData` | tools/mkromfs.py:162-211 | the loop with its running address computes the image, or fails exactly where an address or a size does not fit in 32 bits |
| `RomImage.AddChild` | tools/mkromfs.py:181-209 | one turn of that loop |
| `RomImage.NodeData` | tools/mkromfs.py:53-54 | a file is its bytes |

## Left out

- SMP scheduling, signals and the -RT_EINTR retry of rt_mutex_take, context switches and stacks, hooks, debug output, object registration: not modelled.
- Semaphores and memory pools: they hand over directly and would only add easy members; semaphore control and event control resets likewise.
- MutexProtocol.RunInv: priorities change by inheritance only, as its claims about inheritance need; changes by hand are in MutexNesting.RunInv.
- In the models of blocking objects, suspending, resuming or deleting a blocked thread from outside: a blocked thread leaves its list by a wakeup, a reset or its timer.
- Remaining time of a woken thread: any value up to the old one may be left, since the clock is not part of these models.
- Overflow of the 8- and 16-bit counters for mailbox entries, queue entries and mutex holds: they are unbounded here.
- The semaphores that lock the three allocators: their operations are taken one after the other; rt_malloc of src/slab.c releases its lock around the page allocator, and that window is not modelled.
- Header magic numbers, owner names and memory statistics other than used_mem, max_mem, available_size and max_used_size: left out.
- SmallHeap.Heap.constructor: takes an aligned pool in which mem_size_aligned is at least MIN_SIZE_ALIGNED, as the unsigned arithmetic of the code needs; the choice of the pool from begin_addr and end_addr is not modelled.
- SlabHeap.Slab.Malloc: rt_realloc and rt_calloc of src/slab.c are not modelled, being calls of rt_malloc and rt_free.
- SlabHeap.Slab.HeapInit: the page allocator is asked for the pages of memusage, but the contents of that table before its first use are not modelled.
- SlabHeap.Slab.TakeFrom: zone and chunk lists are sequences, not chains of z_next and c_next, and pages come from the functions that PageList.Allocator is proved to compute.
- Soft timers, the timer thread, rt_tick_set, and timeout functions that restart their own timer: not modelled.
- TimerRows.RunSettled: one caller at a time starts or stops a timer; two that do so at once, one of them between the sections of the other, link a timer into the list twice (src/timer.c:309-391). Timers are listed at most `slack` ticks late, with init_tick + slack below RT_TICK_MAX/2, for any slack; TimerRows.SlackExact shows that this bound is exact.
- TimerRows.CheckEnds: the exact condition is for timeout functions that do nothing; for others TimerRows.SteadyEnds has a sufficient one.
- TimerRows.CheckComplete: timeout functions are lists of timer operations.
- ThreadStates.RunExact: the fields that rt_thread_startup sets before it resumes a thread are set in one step, since nobody else uses a thread that was not started; runs are followed up to the first step that does harm, and a thread linked twice is a list that holds it twice.
- ReadyTable.Scheduler.Timeout: the list a suspended thread waits in belongs to another object and is not part of the scheduler model; neither are time slices and rt_current_priority.
- Kconfig choices, string, int and hex values, relations between them, menus, file parsing, macros and .config files: not modelled; symbols are non-choice bool and tristate symbols.
- KconfigCache.Kconfig.TriValue: takes a rank that falls along every dependency, MODULES included; LoopFree.CheckLoops says when there is one.
- ExprSyntax.RoundTrip: parses with transform_m false, and works on tokens, not on characters.
- RomImage.FolderData: the order of children is that of the tree given; reading and sorting directories, and the C source output, are not modelled; words are little-endian.
