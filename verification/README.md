# A verified model of two coroutine runtimes

The repository holds two coroutine runtimes: the V2 runtime (`src/`, `include/coroutine/`) with
work-stealing workers, event loops and timers, and an older one (`fiber_lib/6hook`) with a shared
task queue, fibers, an epoll-based IO manager and a timer set. This project models the parts in
which threads share state and proves what those parts promise.

Each concurrent component appears twice.

- A *machine* (`...Machine`): a state, one step for every atomic access or lock-held block, and
  `Run`, which takes any list of steps of any number of threads. The main results are statements
  about every run.
- An *object* (`...Object`): the methods of the source as imperative Dafny, with the other threads'
  steps as parameters between its own accesses. An invariant ties the fields to the state of a run
  of the machine, so that the machine's results hold of the object. Where the fields of several
  threads are shared (`RuntimeObject`, `WakeupObject`, `FiberSchedulerObject`) one record stands for
  them, including each worker's program counter. Several wait calls on one loop (`PollHook.dfy`) are a
  machine only; one call by itself is `WakeupObject.Wakeups.PollWait`.

| file | what it models |
|---|---|
| `Deque.dfy` | the bounded Chase-Lev deque (`WorkStealingDeque`) |
| `Ingress.dfy` | the multi-producer list with exchange-drain and in-place reversal (`IngressQueue`) |
| `Runtime.dfy` | the V2 scheduler: enqueue, `take_task`, `run_worker`, `stop` |
| `Wakeup.dfy` | one V2 coroutine between its queue, its workers and the callbacks that may wake it |
| `PollHook.dfy` | several V2 coroutines that wait for descriptors on one event loop |
| `EventLoop.dfy` | V2 wait registrations, the epoll interest set, the poll timeout and one turn of the loop |
| `TimerQueue.dfy` | the V2 timer queue with lazy cancellation, and sleeping |
| `FiberScheduler.dfy` | the older scheduler, its fibers and its termination detection |
| `IoManager.dfy` | the older IO manager: event registrations and the table of contexts |
| `TimerManager.dfy` | the older timer set, its expiry loop and its notifications |
| `StackPool.dfy` | guarded coroutine stacks and their pool |
| `LoadBalancer.dfy` | the choice of a worker |
| `Wrappers.dfy` | `Option` |

`dafny verify dfyconfig.toml` checks the whole project.

## Where the code departs from its intent

The code is modelled as it is written. Where a promise fails, there is a run or an input that shows it,
and the exact condition under which it holds; the last item is a choice of the code, not a failure.

- A `pop` that loses the race for the last element stores one past the right index
  (`src/work_stealing_deque.cpp:67` uses the value the failed compare-exchange wrote into `top`).
  `DequeMachine.TaskReturnedTwice` returns one task twice; `DequeMachine.FaithfulIffNoLostRace` says
  that the ring is right exactly in the runs where no `pop` loses that race. With the index restored,
  `DequeMachine.Linearizable` and `Conservation` hold of every run.
- `IngressQueue::push` can return false after it has linked its node
  (`IngressMachine.RefusedYetDrained`): exactly if `close` lands before its second look at the flag
  (`IngressMachine.RefusedAfterLinking`). Its caller then destroys the node
  (`src/scheduler.cpp:104-108`): the lists lead through a destroyed node exactly if a node has been
  destroyed so and no drain has returned it (`IngressMachine.DanglesIffDestroyedBeforeReturn`), and a
  drain can return it (`IngressMachine.DestroyedNodeIsDrained`).
- `take_task` ignores a failed local push (`RuntimeMachine.LongListLosesOne`). When a worker drains its
  ingress queue, every continuation keeps all tasks of the list, whatever the other threads do, exactly
  if there are at most as many as the deque holds (`RuntimeMachine.BatchKeptIffItFits`); undisturbed, the
  transfer loses exactly the rest (`RuntimeMachine.TransferLosesTheRest`).
- Workers leave without draining their ingress queues, although `docs/refactor-v2/plan.md:253` asks
  for it (`RuntimeMachine.StopLeavesAnAcceptedTask`). When all have left, an accepted task has not been
  run, and is not lost in a transfer, exactly if no drain of its worker has followed its acceptance
  (`RuntimeMachine.LeftIffUndrained`).
- `yield` marks a coroutine ready even if it has been cancelled while running, and `resume` refuses
  it. A cancelled coroutine is submitted again without being entered exactly if it has yielded while
  cancelled and nobody has cancelled it since (`WakeupMachine.ResubmittedIffYieldedCancelled`,
  `RefusedUntilCancelledAgain`; `CancelledYieldRun` is a run in which it happens).
- `poll_wait` ignores the result of its registrations, and after its resume it cancels by descriptor and
  direction, whoever owns the registration by then. A parked call can still be woken exactly if it has a
  timer or some registration of it was accepted that no clean-up has cancelled
  (`PollMachine.CanBeWokenIff`); `PollMachine.CleanUpTakesAnothersRegistration` is a run in which
  another call's clean-up takes the only one. Nothing is lost while no two calls in progress use one
  direction of one descriptor (`PollMachine.NothingIsLostWhenTidy`).
- `run_once` converts its wait to `int`: epoll is given the wait that is meant exactly if that fits, and
  waits without a bound if the low 32 bits are negative, as for a timeout of 2^31 ms without a timer
  (`EventLoopClock.PollTimeout`). The scheduler asks for 10 ms, which fits.
- The older dispatch does not mask what epoll reports with what is still registered: the assertion in
  `triggerEvent` fails exactly when a report names a registered direction together with one that is
  no longer registered (`IoMachine.AbortsIffReportIsStale`, `IoMachine.StaleReportAborts`).
- Two threads that grow the table of contexts at once can shrink it
  (`IoMachine.RegistrationOutOfReach`); contexts stay reachable exactly if it never shrinks
  (`IoMachine.TableLosesNothingIffItNeverShrinks`).
- `delEvent`, `cancelEvent` and `cancelAll` return -1 as a bool, which reads as true, when epoll_ctl
  fails: a call that reads as true has left the registration exactly in that case
  (`IoMachine.TrueButKeptIffEpollFails`), and it can be scheduled afterwards
  (`IoMachine.DeletedYetScheduled`).
- Timers are ordered by deadline alone: a timer whose deadline is taken is never inserted
  (`TimerManagerMachine.InsertedIffDeadlineFree`), and cancelling or refreshing it removes the other one
  (`TimerManagerMachine.RemovesAnotherIffItHoldsTheDeadline`); `TimerManagerMachine.EqualDeadlines` is a
  run with both.
- The expiry loop of the older timers terminates exactly if every recurring timer that would be due
  again at once loses its place to a later timer with that very deadline
  (`ExpiryLoop.TerminatesIffNoSpin`). After a clock rollover one recurring timer alone makes it run
  for ever; without one, positive periods are enough (`ExpiryLoop.WhenItTerminates`).
- `onTimerInsertedAtFront` can be called twice between two calls of `getNextTimer`, because it is
  called after the lock has been released (`TimerManagerMachine.TwoNotificationsInOneWait`). After a
  call of `getNextTimer` at most one is made until the next, whatever happens, exactly if none is owed
  when it is called (`TimerManagerMachine.OneCallIffNothingOwed`).
- A task that is scheduled in the older scheduler can be left in its queue by workers that have seen
  `stopping()` hold (`FiberMachine.TaskNeverRun`). When every worker has left `run`, every task has been
  run to its end exactly if no `scheduleLock` found every worker that may run its task already leaving
  (`FiberMachine.DoneWhenAllHaveLeft`).
- The second phase of the adaptive strategy scores workers without their queues and waits
  (`LoadBalancer.Balancer.SelectAdaptive` minimises `Adjusted`).

## Assumptions

- Steps are sequentially consistent; memory orderings and fences are not modelled.
- Counters and indices are unbounded, except the round-robin counter, which wraps at 2^64.
- The V2 scheduler uses its queues at the granularity their own modules justify: one step for a push,
  a pop, a steal, a drain and an enqueue, so its results are about runs in which no `pop` loses the
  last-element race and no push is refused after linking.
- The kernel is an interest set, a set of live mappings and a success flag for each call; the clock is
  a parameter or a field that a step changes.
- A timer of the older timer set is not used by other threads while `reset` has it out of the set.

## Model

| member | source | states |
|---|---|---|
| DequeMachine.Linearizable | src/work_stealing_deque.cpp:39-81 | over every interleaving of one owner and any number of thieves, with line 67 restoring the index read before the compare-exchange, the linearization points are a legal history of a sequence (push and pop on the right, steal on the left) and the live window of the ring holds exactly that sequence |
| DequeMachine.AnswersAreTheHistory | src/work_stealing_deque.cpp:39-70 | each operation that the owner completes adds exactly one entry to that history, between its beginning and its return, and answers what the entry says: push true or false, pop the task or null |
| DequeMachine.Conservation | src/work_stealing_deque.cpp:39-81 | pushed = live + in the owner's hands + popped + stolen, as multisets, and no task is returned more often than it was pushed |
| DequeMachine.LegalConserves | src/work_stealing_deque.cpp:39-81 | in every legal history of the abstract deque, what is pushed is what is left, popped or stolen |
| DequeMachine.StealTakesFirst | src/work_stealing_deque.cpp:72-81 | a thief whose compare-exchange succeeds holds the leftmost element, however often the ring has wrapped, and leaves the rest |
| DequeMachine.ClaimKeeps | src/work_stealing_deque.cpp:53-61 | a pop that finds more than one element owns the rightmost one without a compare-exchange, and the slot it reads holds it |
| DequeMachine.CasKeeps | src/work_stealing_deque.cpp:62-67 | the owner wins the last element exactly if top is still at it, and the deque is then empty either way |
| DequeMachine.FaithfulIffNoLostRace | src/work_stealing_deque.cpp:50-70 | the ring of the code as written shows exactly the abstract deque whenever the owner rests, if and only if no pop of the run loses the last-element race |
| DequeMachine.CleanPrefix | src/work_stealing_deque.cpp:50-70 | up to the first lost race, the code as written and the restored code have the same states and histories |
| DequeMachine.LossStep | src/work_stealing_deque.cpp:63-67 | after a lost race line 67 makes the ring show one element although the abstract deque is empty |
| DequeMachine.TaskReturnedTwice | src/work_stealing_deque.cpp:63-67 | a run of the code as written in which a task that is pushed once is popped twice |
| DequeObject.WorkStealingDeque.Push | src/work_stealing_deque.cpp:39-48 | one push of the run's owner with thieves acting before each access; it refuses a null task and raises bottom exactly if it succeeds; undisturbed, while no pop has lost the race, it succeeds exactly if what the history leaves is shorter than the capacity, and appends the task to it |
| DequeObject.WorkStealingDeque.Pop | src/work_stealing_deque.cpp:50-70 | one pop of the run's owner with thieves acting before each access; it returns what the run records as popped; undisturbed, while no pop has lost the race, that is the last task of what the history leaves, which loses it, or null if nothing is left |
| DequeObject.WorkStealingDeque.TakeLast | src/work_stealing_deque.cpp:62-69 | the compare-exchange for the last element, with the value it leaves in top on failure |
| DequeObject.WorkStealingDeque.Steal | src/work_stealing_deque.cpp:72-81 | one steal with the owner and other thieves acting before each access: null if the top it loaded was not below bottom when it loaded that, or top had moved at its compare-exchange, and otherwise what its slot held, which is a task while no pop has lost the race; undisturbed on a deque at rest, the first task of what the history leaves, which loses it, or null if nothing is left |
| DequeObject.ObjectIsADeque | src/work_stealing_deque.cpp:39-81 | while no pop has lost the race, the ring of the object holds exactly what a legal history of its run leaves |
| DequeObject.AtRest | src/work_stealing_deque.cpp:39-81 | while no pop has lost the race and the owner rests, the slots from top to bottom hold, in order, what the history leaves |
| IngressMachine.Always | src/work_stealing_deque.cpp:5-26 | in every run the list from head, the list being reversed and the nodes being pushed are disjoint and linked in order, with nodes reused after being freed and weak compare-exchanges failing at will |
| IngressMachine.DrainsFollowTheOrder | src/work_stealing_deque.cpp:5-26 | the results of all drains, one after the other, are a prefix of the order of successful compare-exchanges, and the rest of that order is in the list being reversed and then in the shared list |
| IngressMachine.DrainReverses | src/work_stealing_deque.cpp:16-26 | following the pointers from what a drain returns visits exactly the nodes that head led to at the exchange, backwards, whatever producers do meanwhile |
| IngressMachine.ChainIsUnique | src/work_stealing_deque.cpp:16-26 | the pointers determine the list they form |
| IngressMachine.BatchStays | src/work_stealing_deque.cpp:17-24 | nobody adds to or takes from the list between the exchange and the return |
| IngressMachine.ReversalTerminates | src/work_stealing_deque.cpp:19-24 | each turn of the loop shortens what is left by one, no other step touches it, and the list is exhausted exactly when nothing is left |
| IngressMachine.RefusedAfterLinking | src/work_stealing_deque.cpp:10-13 | a push that has linked its task returns false if and only if close lands before its second look at the flag |
| IngressMachine.RefusedYetDrained | src/work_stealing_deque.cpp:12-25 | a run in which a push returns false and a drain returns its task |
| IngressMachine.WhereNodesAre | src/work_stealing_deque.cpp:5-26 | in every run the list being reversed and then the shared list hold exactly the nodes, in the order of their compare-exchanges, that no drain has returned |
| IngressMachine.DanglesIffDestroyedBeforeReturn | src/scheduler.cpp:104-108 | in every run the two lists lead through a node that its caller has destroyed, if and only if the caller of some push refused after linking has destroyed its node and no drain has returned it |
| IngressMachine.DestroyedNodeIsDrained | src/scheduler.cpp:108-108 | a run in which a node is destroyed while it is in the list, and a drain then returns it |
| IngressObject.IngressQueue.Exchange | src/work_stealing_deque.cpp:7-11 | the loop retries until no other thread has changed head since it was read; the node then follows all nodes linked before it |
| IngressObject.IngressQueue.Push | src/work_stealing_deque.cpp:5-14 | null tasks and closed queues are refused without a change; otherwise the task is linked last, and the answer says only whether close came meanwhile |
| IngressObject.IngressQueue.Drain | src/work_stealing_deque.cpp:16-26 | the returned nodes are the former nodes of the queue, oldest first, each pointing to the next, and the queue is left with exactly the nodes that other producers have linked during the loop |
| RuntimeMachine.Always | src/scheduler.cpp:103-182 | in every run each worker's queues hold increasing, disjoint sets of accepted tasks, recorded as such |
| RuntimeMachine.AcceptedIffOpen | src/scheduler.cpp:103-113 | after every run an enqueue for a worker is accepted, and its task goes last into the ingress queue of the worker, if and only if that queue has not been closed; otherwise nothing changes |
| RuntimeMachine.Conservation | src/scheduler.cpp:103-182 | accepted = ingress + chains + local + in hand + completed + lost, in every reachable state of any number of workers |
| RuntimeMachine.HeldByOne | src/scheduler.cpp:115-182 | no task is held by two workers, and a task is held by some worker exactly until it is completed or lost |
| RuntimeMachine.SmallBatchesLoseNothing | src/scheduler.cpp:119-124 | if every drained list fits into a local deque, the ignored result of the local push never loses a task, whatever thieves do |
| RuntimeMachine.TransferAlone | src/scheduler.cpp:119-124 | after any number of pushes without interference the deque holds the first tasks of the list up to its capacity, and the others are lost |
| RuntimeMachine.TransferLosesTheRest | src/scheduler.cpp:119-124 | undisturbed by thieves, the transfer of a drained list loses something if and only if it is longer than the capacity, and then exactly the rest |
| RuntimeMachine.BatchKeptIffItFits | src/scheduler.cpp:119-124 | at a drain, in every run, every continuation keeps all the tasks of the list, whatever thieves, submitters and stop do, if and only if there are at most as many as the deque holds |
| RuntimeMachine.LongListLosesOne | src/scheduler.cpp:119-124 | a run from the start in which one task more than the deque holds is enqueued and one task is lost |
| RuntimeMachine.OnlyIngressIsLeft | src/scheduler.cpp:155-182 | when all workers have left, the accepted tasks that were not run are exactly those still in an ingress queue, besides those lost |
| RuntimeMachine.InIngressIffUndrained | src/scheduler.cpp:103-119 | a task is in the ingress queue of a worker if and only if it has been accepted for that worker and no drain of the worker has followed |
| RuntimeMachine.LeftIffUndrained | src/scheduler.cpp:155-182 | when all workers have left, an accepted task has not been run and is not lost in a transfer, if and only if no drain of its worker has followed its acceptance |
| RuntimeMachine.StopLeavesAnAcceptedTask | src/scheduler.cpp:41-58 | a run in which an accepted task stays in an ingress queue after its worker has left |
| RuntimeObject.Scheduler.TakeTask | src/scheduler.cpp:115-138 | with other threads acting before each access, differently each time: the newest task of the own deque as it is at the first pop; if it is empty then, the newest at the second pop; if it is empty then too, the oldest of the first other deque whose attempt gives one, or none after all have failed. Undisturbed: the last of the own deque, else the last of those drained tasks that fit, else the oldest of the first other worker that has any |
| RuntimeObject.Scheduler.TakeAgain | src/scheduler.cpp:119-137 | the drain, the second pop and the steals of a worker whose deque was empty, with the task each gives |
| RuntimeObject.Scheduler.Refill | src/scheduler.cpp:119-124 | the loop that transfers the drained list to the local deque ends before the second pop, whatever the other threads do before each push; undisturbed, the ingress queue is then empty and the deque holds the first tasks of the list, in their order, up to its capacity |
| RuntimeObject.Scheduler.StealFromOthers | src/scheduler.cpp:128-137 | one attempt at each other worker's deque, in order, until one succeeds: it gives the oldest task of that deque, and every earlier attempt has found its deque empty or lost its race; undisturbed, the oldest task of the first other worker that has any |
| RuntimeObject.Scheduler.RunWorker | src/scheduler.cpp:155-182 | with other threads acting before each access and while a task runs, differently in each turn, a worker leaves at the first of its looks that finds the scheduler not running and its deque empty, and at no other |
| RuntimeObject.Scheduler.InHandAlone | src/scheduler.cpp:115-138 | the task that take_task returns has not been run and is held by nobody else |
| WakeupMachine.Always | src/scheduler.cpp:89-101 | in every run of any number of workers there is at most one resume task, a callback that can still wake the coroutine belongs to its latest wait call and lies on the loop of the worker that has it, and every copied callback is in one worker's hands |
| WakeupMachine.ResumedByOneWorker | src/scheduler.cpp:89-101 | a coroutine submitted once is never in two queues, never in the hands of two workers, never both, and a wait call submits it at most once |
| WakeupMachine.LiveWakeUpsAreLocal | src/hook.cpp:71-78 | a callback that can still wake a coroutine which some worker has lies unfired on that worker's own loop and belongs to the wait call being made |
| WakeupMachine.LiveCallFindsItParked | src/poll_hook.cpp:25-38 | when a callback that will submit is called, the coroutine is in no queue and in nobody's hands |
| WakeupMachine.CallIsLive | src/poll_hook.cpp:25-29 | a copied callback submits exactly if its flag is still down |
| WakeupMachine.ResubmittedIffYieldedCancelled | src/scheduler.cpp:96-99 | at the end of a resume task, in every run, a cancelled coroutine is submitted again if and only if it has yielded while cancelled and nobody has cancelled it since |
| WakeupMachine.RefusedUntilCancelledAgain | src/coroutine.cpp:56-63 | once a cancelled coroutine has been left it is never entered again, and it stays ready exactly if it was left ready and nobody cancels it once more |
| WakeupMachine.CancelledYieldRun | src/coroutine.cpp:65-72 | a run from the start in which a coroutine is cancelled while running, yields, and is submitted again without having been entered |
| WakeupObject.Wakeups.Callback | src/poll_hook.cpp:25-29 | of the callbacks sharing a flag, the one that finds it down submits, and it finds the coroutine parked |
| WakeupObject.Wakeups.PollWait | src/poll_hook.cpp:20-41 | one registration for each accepted direction and one timer share one flag, all lie on the loop of the worker that is left, and none has been called when the coroutine is parked |
| WakeupObject.Wakeups.IoWait | src/hook.cpp:71-78 | one registration and a parked coroutine, or an unchanged coroutine if the registration is refused |
| WakeupObject.Wakeups.ResumeTask | src/scheduler.cpp:91-100 | the resume task, with other threads while the coroutine runs and after it has given back control: it enters exactly a ready or waiting coroutine that is not cancelled, and is submitted again exactly if nobody cancels after the switch back and the coroutine has yielded, or was ready and refused |
| PollMachine.Conservation | src/poll_hook.cpp:20-47 | in every run, as long as a wait call has not been woken, the registrations of it that were accepted are those in a slot, those copied out and not called yet, and those that a clean-up has cancelled; its timer is in the queue or copied out |
| PollMachine.CanBeWokenIff | src/poll_hook.cpp:20-47 | a parked call that has not been woken is woken in some continuation of the run if and only if it has a timer, or some registration of it was accepted that no clean-up has cancelled |
| PollMachine.ForgottenForEver | src/poll_hook.cpp:30-41 | a parked call without a callback in a slot, in the timer queue or in the hands of a dispatch is never woken, whatever follows |
| PollMachine.CanBeWoken | src/poll_hook.cpp:25-38 | a callback that is still in one of those places can be called, and wakes the call |
| PollMachine.SetsUpEverything | src/poll_hook.cpp:20-41 | a poll_wait for directions that nobody uses, undisturbed until it is parked, has its callback in the slot of each of them, and its timer armed exactly if it has a timeout |
| PollMachine.IoWaitIsRegistered | src/hook.cpp:71-78 | in every run an io_wait that is parked has had its one registration accepted |
| PollMachine.NothingIsLostWhenTidy | src/poll_hook.cpp:20-47 | when no two calls in progress use the same direction of a descriptor and epoll takes every descriptor, a parked call with a timer or a descriptor can always be woken |
| PollMachine.TidyAlways | src/poll_hook.cpp:20-47 | in such a run every direction that a call has registered holds its own callback until one of its callbacks is taken, and a clean-up cancels no other call's registration |
| PollMachine.CleanUpTakesAnothersRegistration | src/poll_hook.cpp:42-47 | a run with two coroutines on one descriptor in which the clean-up of the first cancels the registration of the second, which is then never woken |
| EventMachine.OneFate | src/event_loop.cpp:39-111 | an accepted registration waits in its own slot, or has been taken for one call, or has been called, once, or is cancelled |
| EventMachine.FatesOnlyAdvance | src/event_loop.cpp:39-111 | from waiting a registration goes on, from taken only to called, from cancelled and called nowhere |
| EventMachine.CancelledNeverRuns | src/event_loop.cpp:58-70 | if cancel finds a registration, its callback is never called, whatever follows |
| EventMachine.TakenWillRun | src/event_loop.cpp:88-111 | once run_once has copied a callback out, no cancellation finds it and the only thing left is its call |
| EventMachine.OutIffMet | src/event_loop.cpp:88-111 | in every run a callback has been copied out if and only if a dispatch of its direction has met it in its slot |
| EventLoopObject.EventLoop.EpollCtl | src/event_loop.cpp:50-54 | the modelled epoll_ctl: what it fails on, what it changes, and that success leaves errno alone |
| EventLoopObject.EventLoop.Add | src/event_loop.cpp:39-56 | accepted exactly if the descriptor and callback are valid, the slot is empty and the kernel has or takes the descriptor; it keeps the rule that a descriptor is in the interest set if and only if a slot is filled, also after failures, duplicates and a stale EEXIST |
| EventLoopObject.EventLoop.Cancel | src/event_loop.cpp:58-70 | true exactly if the slot was filled; the interest set rule is kept |
| EventLoopObject.EventLoop.Dispatch | src/event_loop.cpp:88-109 | a report of input takes and empties the read slot, one of output the write slot, one of error or hangup both, and any other slot stays as it is; the interest set rule is kept |
| EventLoopObject.EventLoop.DispatchAndCall | src/event_loop.cpp:88-111 | the locked block, then a call of exactly the callbacks it has copied out, that of the read slot for input, error or hangup and then that of the write slot for output, error or hangup, with other threads in between; none is left uncalled |
| EventLoopObject.EventLoop.RunOnce | src/event_loop.cpp:78-116 | every reported descriptor is dispatched, in order, with other threads between any two accesses; if no copied callback is waiting at first, none is at the end, and a callback is called in the turn if and only if a report of its descriptor has met it in its slot, with input, error or hangup in that of read, with output, error or hangup in that of write; the result is the number of events, 0 or -1 |
| EventLoopObject.TurnCalls | src/event_loop.cpp:83-112 | whatever other threads do meanwhile, a turn whose blocks are those of its reports, and which leaves no copied callback uncalled, has called exactly the callbacks that a report has met |
| EventLoopClock.RunOnce | src/event_loop.cpp:72-117 | a whole turn, with callbacks and other threads using timers and registrations in between: the timers due at first are handed out before the wait, those due at the end after the events, unless the wait was interrupted; none is handed out twice, and for a timeout that fits an int the wait passes no deadline and is shorter than asked only for the first one; the callbacks called are those of EventLoop.RunOnce |
| EventLoopClock.NeverTwice | src/event_loop.cpp:72-117 | a timer that expires at the start of a turn does not expire again at its end |
| EventLoopClock.PollTimeout | src/event_loop.cpp:76-80 | for any timeout: the wait meant is never longer than asked, goes past no deadline of a pending timer, and is shorter only for the first deadline, by less than a millisecond; a negative timeout is an unbounded wait; and epoll is given the wait that is meant exactly if it fits an int |
| TimerMachine.OneFate | src/timer_queue.cpp:7-54 | a handle's callback is handed out at most once, exactly if its timer has fired, and never before the deadline |
| TimerMachine.FateIsFinal | src/timer_queue.cpp:7-54 | a fired or cancelled timer stays so, and a cancelled one is never handed out |
| TimerMachine.SleepIsTight | src/hook.cpp:24-26 | a sleep of n nanoseconds gets a deadline after n and at most one millisecond later |
| TimerMachine.SleepIsNeverEarly | src/hook.cpp:20-31 | a sleep's timer never fires before more than n nanoseconds have passed |
| TimerMachine.SleepFitsInt64 | src/hook.cpp:36-46 | no count of seconds or microseconds overflows signed 64-bit nanoseconds while the clock is below 2^62 |
| TimerQueueObject.TopExists | include/coroutine/timer_queue.h:31-36 | a heap that is not empty has an entry with the least deadline |
| TimerQueueObject.ExpiryEnds | src/timer_queue.cpp:44-53 | an expiry that meets only later entries has handed out everything due, although cancelled entries are still in the heap |
| TimerQueueObject.TimerQueue.Add | src/timer_queue.cpp:7-15 | a null callback gets handle 0 and changes nothing; otherwise a fresh handle is pending at now plus the delay, or now if it is negative |
| TimerQueueObject.TimerQueue.Cancel | src/timer_queue.cpp:17-23 | true exactly if the handle is pending; that timer is then cancelled, and every other one stays as it was |
| TimerQueueObject.TimerQueue.NextTimeout | src/timer_queue.cpp:25-39 | none exactly if nothing is pending, else the time to the first pending deadline, truncated; the timers are unchanged although stale entries are dropped |
| TimerQueueObject.TimerQueue.Expire | src/timer_queue.cpp:41-54 | hands out exactly the pending timers that are due, each once, by deadline, and appends their callbacks in that order; those have then fired, and every other timer stays as it was |
| FiberMachine.Always | fiber_lib/6hook/scheduler.cpp:95-164 | in every run the active count is the number of workers between take and decrement, every task is queued once, held by one worker or done, and mutexes and fibers agree |
| FiberMachine.FiberDiscipline | fiber_lib/6hook/fiber.cpp:126-194 | the READY assertion of resume never fails, a fiber is RUNNING exactly while the worker holding its mutex is inside it, and no two workers are inside one fiber |
| FiberMachine.TermIffEnded | fiber_lib/6hook/fiber.cpp:152-194 | in every run a fiber is TERM if and only if some worker inside it has come to the end of its function |
| FiberMachine.LockedIsNotRunning | fiber_lib/6hook/scheduler.cpp:131-147 | a worker that has just locked a fiber finds it READY or TERM, and READY if it is new |
| FiberMachine.EveryWakeUpCounts | fiber_lib/6hook/scheduler.cpp:129-150 | a dispatch that is done has resumed its fiber, or that fiber is TERM for good |
| FiberMachine.SkippedHasEnded | fiber_lib/6hook/scheduler.cpp:129-138 | a task that is done without a resume is that of a fiber whose function had ended |
| FiberMachine.StoppingMeansAllDone | fiber_lib/6hook/scheduler.cpp:231-235 | when stopping holds, every task ever scheduled has been dispatched and has given back control |
| FiberMachine.StoppingIsStable | fiber_lib/6hook/scheduler.cpp:231-235 | only a task scheduled from outside the workers can undo stopping |
| FiberMachine.DoneWhenAllHaveLeft | fiber_lib/6hook/scheduler.cpp:95-164 | when every worker has left run, every scheduled task has been run to its end, if and only if no scheduleLock of the run found every worker that may run its task already leaving |
| FiberMachine.StrandedFromTheStart | fiber_lib/6hook/scheduler.cpp:97-164 | a task is in the queue with every worker that may run it leaving, if and only if that was so when it was scheduled |
| FiberMachine.TaskNeverRun | fiber_lib/6hook/scheduler.cpp:152-163 | a run in which the only worker leaves while a task that was scheduled from outside is in the queue |
| FiberMachine.IdleEndMeansAllDone | fiber_lib/6hook/scheduler.cpp:221-235 | all along a run everything is done once some idle fiber has ended, if and only if nobody outside the workers schedules after an idle fiber has seen stopping hold |
| FiberMachine.LeavesAfterStopping | fiber_lib/6hook/scheduler.cpp:152-163 | in every run a worker whose idle fiber has ended, or who has left, has seen stopping hold at some point |
| FiberMachine.LateTaskIsQueued | fiber_lib/6hook/scheduler.cpp:152-163 | right after a task is scheduled from outside that late, it is in the queue while some idle fiber has ended; it may still be run by a worker that has not left |
| FiberSchedulerObject.Scheduler.Take | fiber_lib/6hook/scheduler.cpp:97-126 | removes the first task the worker may run and counts it active; another worker is woken exactly if tasks remain |
| FiberSchedulerObject.Scheduler.ScheduleLock | fiber_lib/6hook/scheduler.h:32-51 | called inside a fiber or by any other thread: appends the task, and wakes somebody exactly if the queue was empty |
| FiberSchedulerObject.Scheduler.Lock | fiber_lib/6hook/scheduler.cpp:129-145 | locks the fiber of the task, or a new READY fiber for a callback, which no other worker holds then; it waits only while another worker holds the mutex |
| FiberSchedulerObject.Scheduler.Enter | fiber_lib/6hook/scheduler.cpp:133-146 | a locked fiber is resumed exactly if it is READY, and skipped if it is TERM |
| FiberSchedulerObject.Scheduler.RunFiber | fiber_lib/6hook/fiber.cpp:152-194 | the fiber schedules its tasks, in order, with other threads acting before each, and switches back: it is then TERM if its function has ended and READY if it has yielded |
| FiberSchedulerObject.Scheduler.Dispatch | fiber_lib/6hook/scheduler.cpp:129-150 | one task from the lock to the decrement, with other threads acting in between, differently at each point: it is done and its fiber, if resumed, has scheduled what it wanted and came back TERM or READY as it ended or yielded, or it was skipped and had ended before, or the worker still waits for the mutex, exactly if that is held when it comes to the lock; no assertion has failed |
| FiberSchedulerObject.Scheduler.Turn | fiber_lib/6hook/scheduler.cpp:92-164 | one turn of the loop of run with other threads in between: the idle branch is taken exactly if the queue holds no task for the worker; otherwise a task for it is done, or the worker waits for the mutex of its fiber, which is held |
| FiberSchedulerObject.Scheduler.RunLoop | fiber_lib/6hook/scheduler.cpp:92-164 | the loop of run: a worker that leaves has seen stopping hold at some point, one that is stuck waits for a mutex that is held, and any other has made all its turns |
| IoMachine.Always | fiber_lib/6hook/ioscheduler.cpp:120-328 | in every run slots and registrations agree, and table entries are contexts of their own descriptors |
| IoMachine.ScheduledAtMostOnce | fiber_lib/6hook/ioscheduler.cpp:38-60 | a successful addEvent leads to at most one scheduleLock, exactly if its registration has been triggered |
| IoMachine.LogIsWhatWasTriggered | fiber_lib/6hook/ioscheduler.cpp:247-457 | in every run what has been scheduled is, in order, exactly what successful calls of cancelEvent and cancelAll and dispatches have met in the slots they name |
| IoMachine.DeletedIsNeverScheduled | fiber_lib/6hook/ioscheduler.cpp:181-229 | after a delEvent that removes a registration nothing schedules it, whatever epoll still reports |
| IoMachine.TrueButKeptIffEpollFails | fiber_lib/6hook/ioscheduler.cpp:197-327 | a delEvent, cancelEvent or cancelAll that finds a registration reads as true, and leaves it if and only if epoll_ctl fails |
| IoMachine.DeletedYetScheduled | fiber_lib/6hook/ioscheduler.cpp:204-216 | a run in which a delEvent reads as true and its registration is scheduled afterwards |
| IoMachine.FateIsFinal | fiber_lib/6hook/ioscheduler.cpp:181-328 | a registration that has been deleted or scheduled stays so |
| IoMachine.FateIff | fiber_lib/6hook/ioscheduler.cpp:181-457 | in every run a registration is deleted if and only if a delEvent that succeeded has met it in its slot, and scheduled if and only if a cancelEvent or cancelAll that succeeded, or a dispatch of its direction, has |
| IoMachine.TableLosesNothingIffItNeverShrinks | fiber_lib/6hook/ioscheduler.cpp:106-137 | every context stays reachable by its descriptor if and only if no resize of the run makes the table smaller |
| IoMachine.AloneItGrows | fiber_lib/6hook/ioscheduler.cpp:125-137 | a thread whose resize follows its lookup directly makes the table large enough for its descriptor and does not shrink it |
| IoMachine.RegistrationOutOfReach | fiber_lib/6hook/ioscheduler.cpp:125-137 | a run in which two threads find the table too small before either resizes it; the second resize makes it smaller, and the registration made after the first is where delEvent does not look |
| IoMachine.AbortsIffReportIsStale | fiber_lib/6hook/ioscheduler.cpp:414-457 | the assertion of triggerEvent fails in a run if and only if some dispatch reports a registered direction together with one that is no longer registered |
| IoMachine.StaleReportAborts | fiber_lib/6hook/ioscheduler.cpp:448-457 | a run in which it fails |
| IoManagerObject.BitAlgebra | fiber_lib/6hook/ioscheduler.cpp:163-206 | setting and clearing one direction's bit leaves the other's alone |
| IoManagerObject.IOManager.TriggerEvent | fiber_lib/6hook/ioscheduler.cpp:38-60 | fails on a clear bit; otherwise clears bit and slot and schedules what the slot held |
| IoManagerObject.IOManager.AddAt | fiber_lib/6hook/ioscheduler.cpp:139-178 | 0 exactly if the direction was free and epoll_ctl succeeds, and its slot is then filled; nothing is scheduled; the pending count stays the number of registrations, and a slot stays filled exactly if its bit is set |
| IoManagerObject.IOManager.DeleteAt | fiber_lib/6hook/ioscheduler.cpp:197-228 | reads true exactly if the direction was registered, even when epoll_ctl fails and nothing is deleted; otherwise the slot is emptied and nothing is scheduled; count, bits and slots stay in step |
| IoManagerObject.IOManager.CancelAt | fiber_lib/6hook/ioscheduler.cpp:247-273 | reads true as DeleteAt does; if epoll_ctl succeeds, what the slot held is scheduled and the slot emptied, and otherwise nothing |
| IoManagerObject.IOManager.CancelAllAt | fiber_lib/6hook/ioscheduler.cpp:292-327 | if epoll_ctl succeeds, what the READ slot and the WRITE slot held is scheduled, in this order, both slots are empty and no bit is left, and otherwise nothing changes |
| IoManagerObject.IOManager.DispatchAt | fiber_lib/6hook/ioscheduler.cpp:410-457 | one report as written, an error or hangup counting for each registered direction: it aborts exactly if epoll_ctl succeeds and a direction it names is registered and another is not; otherwise it schedules what the slots of the directions it names held, and count, bits and slots stay in step |
| IoManagerObject.IOManager.LookUp | fiber_lib/6hook/ioscheduler.cpp:125-130 | a context of the descriptor, exactly if the table reaches it |
| IoManagerObject.IOManager.GrowTable | fiber_lib/6hook/ioscheduler.cpp:106-136 | the write-locked block of a thread that found the table too small: it gets one and a half times the descriptor of that thread as its size, larger or smaller than what it finds; the entries of the smaller one stay, and each new entry leads to a new context |
| IoManagerObject.IOManager.ContextResize | fiber_lib/6hook/ioscheduler.cpp:106-118 | the entries of the smaller table stay, every new entry leads to a new, empty context of its own descriptor, and no context is taken away |
| IoManagerObject.IOManager.AddEvent | fiber_lib/6hook/ioscheduler.cpp:120-179 | lookup, growth and registration with other threads in between: it registers at the context that the table had for its descriptor at the lookup, or else right after its own growth, and succeeds exactly if the direction is free there and epoll_ctl succeeds |
| IoManagerObject.IOManager.DelEvent | fiber_lib/6hook/ioscheduler.cpp:181-229 | false beyond the table; otherwise acts on the context found, with other threads between lookup and lock |
| ExpiryLoop.TerminatesIffNoSpin | fiber_lib/6hook/timer.cpp:160-178 | the expiry loop terminates if and only if every recurring timer that would be due again at once has a later timer in the set with exactly its new deadline |
| ExpiryLoop.WhenItTerminates | fiber_lib/6hook/timer.cpp:160-178 | without rollover positive periods suffice; with rollover a single recurring timer makes it run for ever |
| ExpiryLoop.QuietEnds | fiber_lib/6hook/timer.cpp:160-178 | in the terminating case the loop makes as many turns as there are due timers |
| ExpiryLoop.SpinsForever | fiber_lib/6hook/timer.cpp:160-178 | in the other case its guard holds after any number of turns |
| ExpiryLoop.ExpiryIs | fiber_lib/6hook/timer.cpp:151-179 | a terminating expiry appends each due callback once, in deadline order, clears one-shot callbacks, re-arms recurring timers, and leaves at each later deadline the timer that was there, or else the earliest of those re-armed to it |
| TimerManagerMachine.Always | fiber_lib/6hook/timer.cpp:5-220 | in every run the set is keyed by the deadlines of its timers and the notification counts add up; with a monotone clock the front invariant holds as well |
| TimerManagerMachine.NoEarlierTimerUnnoticed | fiber_lib/6hook/timer.cpp:123-208 | with a monotone clock, while m_tickled is false no timer in the set is earlier than the front that getNextTimer reported last, and none is there if it saw none |
| TimerManagerMachine.OneNotificationPerWait | fiber_lib/6hook/timer.cpp:188-208 | between two calls of getNextTimer at most one insertion decides to notify, exactly if m_tickled is set; the calls made are at most that one and those still owed from before |
| TimerManagerMachine.OneCallIffNothingOwed | fiber_lib/6hook/timer.cpp:123-208 | after a call of getNextTimer, at most one onTimerInsertedAtFront is made until the next, in every continuation, if and only if none is owed at that call |
| TimerManagerMachine.TwoNotificationsInOneWait | fiber_lib/6hook/timer.cpp:203-207 | a run with two notifications between two calls of getNextTimer |
| TimerManagerMachine.NoRollover | fiber_lib/6hook/timer.cpp:210-220 | with a monotone clock no rollover is detected |
| TimerManagerMachine.RefreshKeeps | fiber_lib/6hook/timer.cpp:27-46 | refreshing only moves a timer back, so that it needs no notification |
| TimerManagerMachine.InsertedIffDeadlineFree | fiber_lib/6hook/timer.cpp:86-90 | a new timer enters the set if and only if no timer in it has its deadline |
| TimerManagerMachine.RemovesAnotherIffItHoldsTheDeadline | fiber_lib/6hook/timer.cpp:18-46 | cancelling a timer removes another one if and only if that one holds its deadline, and so does refreshing it |
| TimerManagerMachine.EqualDeadlines | fiber_lib/6hook/timer.cpp:86-90 | a run in which a second timer with a taken deadline stays out of the set, and cancelling it takes the first one out |
| TimerManagerObject.TimerManager.AddTimer | fiber_lib/6hook/timer.cpp:101-106 | the timer is created with its deadline and inserted if that is free; it notifies exactly if it raises the flag, after the lock is released and other threads have used the set |
| TimerManagerObject.TimerManager.InsertTimer | fiber_lib/6hook/timer.cpp:192-201 | at the front and not yet tickled: exactly then the flag is raised |
| TimerManagerObject.TimerManager.Cancel | fiber_lib/6hook/timer.cpp:5-24 | true exactly if the callback was still set, which is then cleared, and no timer with its deadline is left in the set; otherwise nothing changes |
| TimerManagerObject.TimerManager.Refresh | fiber_lib/6hook/timer.cpp:27-46 | true exactly if the callback is set and some timer has the deadline; the timer then gets a deadline of its period in milliseconds from now, and is in the set unless that deadline is taken; otherwise nothing changes |
| TimerManagerObject.TimerManager.Reset | fiber_lib/6hook/timer.cpp:48-77 | no change for the same period without fromNow; otherwise the timer is taken out, other threads use the set, and it is inserted with the new period from now or from its old start, into the set as it then is |
| TimerManagerObject.TimerManager.GetNextTimer | fiber_lib/6hook/timer.cpp:123-149 | lowers the flag and returns none for an empty set, else the truncated time to the front, or 0 |
| TimerManagerObject.TimerManager.TakeFront | fiber_lib/6hook/timer.cpp:162-177 | the body of the expiry loop is one turn of the specification: the first timer leaves the set and its callback is handed out; a recurring one gets a deadline one period after the time read and is inserted if that is free, and any other has its callback cleared |
| TimerManagerObject.TimerManager.ListExpiredCb | fiber_lib/6hook/timer.cpp:151-179 | with enough turns it ends if and only if the set has no spinning timer, and has then done what ExpiryIs says; a rollover is a clock more than an hour behind the last one it has seen |
| StackPool.RoundUp | src/stack_allocator.cpp:36-36 | requested <= usable < requested + page, and usable is a multiple of the page |
| StackPool.StackAllocators.Find | src/stack_allocator.cpp:40-42 | the first pooled block of the size |
| StackPool.StackAllocators.Construct | src/stack_allocator.cpp:30-69 | the errors in their order, each leaving everything unchanged; otherwise, without a guard page a stack of the size asked; with one, the first pooled block of the rounded size, which leaves the pool, if the stack is pooled and there is one, and else a fresh block, exactly if the kernel maps and protects it; a guarded stack is at least as large as asked, by less than a page, and all its bytes are zero; every live mapping keeps one owner or one place in the pool |
| StackPool.StackAllocators.TakePooled | src/stack_allocator.cpp:38-48 | the first block of the exact size leaves the pool for its new owner, if and only if there is one |
| StackPool.StackAllocators.MapFresh | src/stack_allocator.cpp:49-61 | a fresh block, or no trace of it if mapping or protecting fails |
| StackPool.StackAllocators.Destroy | src/stack_allocator.cpp:71-85 | the mapping goes to the pool, cleared, if there is room and it is pooled, and is unmapped otherwise; other mappings are untouched |
| StackPool.StackAllocators.MoveConstruct | src/stack_allocator.cpp:87-93 | ownership moves and the source keeps no mapping |
| StackPool.StackAllocators.MoveAssign | src/stack_allocator.cpp:95-104 | the two allocators swap what they own, also when they are the same |
| LoadBalancer.ScoreIsBounded | src/load_balancer.cpp:14-27 | for a valid configuration scores lie between 0 and the sum of the weights |
| LoadBalancer.MoreLoadScoresHigher | src/load_balancer.cpp:10-27 | with a positive weight, a longer queue, a longer wait up to the maximum and a busier processor each give a strictly higher score |
| LoadBalancer.HistoryScores | src/load_balancer.cpp:19-27 | a worker that has completed more tasks scores lower, but one that has completed none scores lowest |
| LoadBalancer.StrangeLoads | src/load_balancer.cpp:10-13 | a load that is not a number or infinite scores as full, one outside the unit interval as its nearer end |
| LoadBalancer.MaximaAreReached | src/load_balancer.cpp:31-36 | no worker exceeds the maxima that scores are measured against, and some worker reaches each that is positive |
| LoadBalancer.AdjustedIs | src/load_balancer.cpp:76-91 | what the adaptive strategy compares is the score with zero maxima, less the bonus exactly for the worker that is asked for and whose load is at most the limit |
| LoadBalancer.Balancer.LeastLoaded | src/load_balancer.cpp:29-47 | the first worker with the least score |
| LoadBalancer.Balancer.SelectAdaptive | src/load_balancer.cpp:76-91 | minimises the score adjusted for affinity, although it starts from a worker chosen with another normalisation: the least loaded worker if no adjusted score is below its unadjusted one, and otherwise the first worker with the least adjusted score |
| LoadBalancer.Balancer.Select | src/load_balancer.cpp:53-94 | the errors in their order and, for every strategy, which worker is chosen; only round robin advances the counter |
| LoadBalancer.ChosenIs | src/load_balancer.cpp:67-68 | of the first k selections over n workers, worker w gets the quotient of k by n, and one more if w is below the remainder |
| LoadBalancer.RoundRobinIsFair | src/load_balancer.cpp:67-68 | between two counter values without a wrap-around, worker counts differ by at most one |

## Left out

- Weak memory orderings and fences; `swapcontext`, thread creation, CPU affinity and symbol interposition.
- Liveness: which thread runs when, and whether a blocked lock is ever granted.
- `FdRegistry`, `FdManager`, `MetricsCollector`, the `fcntl` and `ioctl` wrappers, `fiber_lib/6hook/hook.cpp`, benchmarks and demo servers: plumbing that would only add easy members.
- Exceptions thrown by callbacks of an event loop, and failures to register the wake descriptor.
- The eventfd that wakes an event loop and the pipe that tickles the IO manager.
- IoManager's own `stopping()`: its three conditions are read one after the other, and only that of the base scheduler is a shutdown guarantee.
- `connect_wait`, whose callback has no flag, beside other wait calls on one loop: `PollHook.dfy` follows `poll_wait` and `io_wait`.
- StackAllocator objects and the global pool are entries of one object; heap-allocated stacks are not followed after construction.
- Timer and FdContext objects are values in sequences of their manager: two references to one object are two uses of one number.
- Floating-point rounding in the load balancer, whose numbers are exact reals; worker names and time stamps in snapshots.
- IngressMachine.DrainsFollowTheOrder: takes the memory of a node that its caller has destroyed as not used again while the node is in a list.
- EventLoopObject.EventLoop.Add: does not cover the loop's own wake descriptor, which is private to it.
- TimerManagerObject.TimerManager.ListExpiredCb: takes a bound on its turns, because the loop of the source may run for ever; with a bound of at least the number of due timers nothing is lost.
- RuntimeObject.Scheduler.RunWorker: takes a bound on its turns for the same reason.
- FiberSchedulerObject.Scheduler.RunLoop: takes a bound on its turns for the same reason.
- EventLoopObject.EventLoop.RunOnce: is the part of `run_once` from the wait on, without the timers, which EventLoopClock.RunOnce adds, and without draining the wake descriptor.
- TimerManagerObject.TimerManager.AddTimer: does not follow other threads past an expiry that never ends, which keeps the lock.
- IoManagerObject.IOManager.AddEvent: does not follow other threads past a dispatch of a stale report, which aborts the program.
- FiberSchedulerObject.Scheduler.Lock: reports that it would block instead of blocking.
- TimerMachine.SleepFitsInt64: says nothing about a clock beyond 2^62 nanoseconds, which is 146 years of uptime.
- LoadBalancer.RoundRobinIsFair: does not cover a wrap-around of the 64-bit counter, where fairness fails unless the number of workers divides 2^64.
