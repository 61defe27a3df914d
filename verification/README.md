# Scheduler and page reclaim of the course kernel, modelled in Dafny

The repository is a set of operating-system assignments on a Linux 2.6.26 kernel. This project models its
scheduler tree (`hw4`) and its modified page reclaim (`hw5/vmscan.c`), and proves what that code is for:
invariants over every run, agreement of cached summaries with what they cache, conservation, fairness bounds
and lock protocols.

| file | models |
|---|---|
| `Words.dfy`, `Options.dfy` | 64-bit differences, the smaller and larger of two numbers, optional values |
| `GroupTree.dfy` | the group hierarchy shared by the real-time and the fair class |
| `RtLimits.dfy` | constants of the real-time class |
| `RtQueues.dfy` | the real-time runqueues with group scheduling: priority arrays, boosting, one enqueue or dequeue |
| `RtStacks.dfy` | taking the stack of an entity off its queues and putting it back |
| `RtPicks.dfy` | which tasks the pick can reach |
| `RtCharges.dfy` | budgets and throttling of the groups |
| `RtRuns.dfy` | the budgets over whole runs, against the flat limiter |
| `RtHierarchy.dfy` | the loops of the real-time class up and down the hierarchy |
| `RtBandwidth.dfy` | the flat bandwidth limiter over whole runs, and the borrowing of runtime |
| `RtPush.dfy` | the search for the CPUs to push a real-time task to |
| `SmpRunqueues.dfy` | tasks and runqueues of several CPUs, and their counters |
| `SmpSteps.dfy` | runqueue locks, wake-up, sleep, pull and migration as interleaved atomic steps |
| `SmpRuns.dfy` | accounting and deadlock freedom over every interleaving |
| `SmpWakes.dfy` | what wake-ups, sleeps, pulls and migrations do for their task |
| `CfsTimeline.dfy` | the ordered tree of the fair class, and its 64-bit keys |
| `CfsQueues.dfy` | the runqueues of the fair class with groups: one enqueue, dequeue, pick or put back |
| `CfsClimbs.dfy` | what the loops up and down the groups keep |
| `CfsFairness.dfy` | dispatches, and the spread of virtual runtimes over runs |
| `CfsHierarchy.dfy` | the loops of the fair class |
| `Gwrr.dfy` | the group weighted round robin of `hw4/1105` |
| `VmLists.dfy`, `VmIsolation.dfy` | the LRU lists of a zone, and the isolation of pages from them |
| `VmStray.dfy`, `VmBug.dfy` | when lists and flags disagree, and when that ends in BUG() |
| `VmChance.dfy`, `VmRounds.dfy` | the reference-counter second chance, the rounds of inactive-list reclaim |
| `VmScan.dfy` | the loops of page reclaim, and the zone counters at every release of the lock |
| `Completion.dfy` | completions and their waiters |
| `LoadMath.dfy` | `calc_delta_mine` and `update_cpu_load` |
| `SchedClock.dfy` | the per-CPU clocks and the synchronised time |

Where the source updates objects in place the model is a class with the same fields and loops, and its methods
are proved against functions on values; the invariants and the properties over runs are lemmas about those
functions. Locking protocols are state machines whose steps are the stretches of code between two lock
operations. Where a lock is released in the middle of a function (`VmScan`, `SchedClock`), a method with a
contract and no effect of its own stands for whatever other CPUs may do meanwhile.

Inputs that come from outside are parameters: raw clock readings, jiffies, the CPU a class selects for a
wake-up, which pages are being freed elsewhere, the fate `shrink_page_list` gives a page, `calc_delta_fair` as
a function of time and weight (bounded in `LoadMath`), and all tunables. `unsigned long` and u64 arithmetic
wraps where wrapping matters: the uninterruptible counters, the reciprocal multiplication, the load averages,
the reference counter, raw clock differences and the keys of the timeline. Elsewhere integers are unbounded.

Where the code and its comments or evident intent differ, the model follows this reading:

- `dequeue_task_gwrr` declares its group pointer as a `struct task_struct` (hw4/1105/sched_gwrr.c:60); the model
  takes it as a `struct group_struct`.
- `isolate_lru_pages` says it takes only pages of the active state of the tag page (hw5/vmscan.c:733-741). When both
  kinds are isolated, a busy active page is moved to the inactive list with its flag set
  (hw5/vmscan.c:768-770). The counters go by the flags and stay right, but list and flag disagree from then on, and
  a later isolation of inactive pages may answer with BUG(). `StraysExactly` and `StraysEver` say exactly when the
  first happens, `BugsWhenDue` when the second does, both from the zone before the call; `StrayExample` gives an input.
- The GWRR window property fails when a group joins in the middle of a round, because it enters with its full weight:
  `JoinExample` gives an input, and `ExactWindow` says exactly from which states it holds.

## Model

| member | source | states |
|---|---|---|
| `RtHierarchy.RtRunqueue.PickNextTaskRt` | hw4/sched_rt.c:640-663 | the descent never meets an empty list (its BUG_ONs cannot fire); it returns nothing exactly when the root is throttled or no task is runnable through unthrottled groups, and otherwise a runnable task than which no runnable task is more urgent, at the head of every list on its way |
| `RtPicks.ReachableIffRunnable` | hw4/sched_rt.c:97-133 | with consistent queues, a task is linked on every level up to the root exactly when it is queued and no group above it is throttled without being boosted |
| `RtPicks.HighestBounds` | hw4/sched_rt.c:389-451 | for an entity linked on every level, the cached `highest_prio` of each group above it, the root included, is at least as urgent as the entity |
| `RtPicks.RunnableBounded` | hw4/sched_rt.c:640-663 | no runnable task is more urgent than the cached `highest_prio` of the root |
| `RtHierarchy.RtRunqueue.EnqueueRtEntity` | hw4/sched_rt.c:505-510 | for a hierarchy of any depth: afterwards every queued entity sits in the list of its current priority, bitmap, counts, `highest_prio` and the boosted count agree with the lists, a group is queued iff it is non-empty and not (throttled and unboosted), and only the entities of the stack moved, each to the tail of a list |
| `RtHierarchy.RtRunqueue.DequeueRtEntity` | hw4/sched_rt.c:512-522 | the same invariant after a removal; the entity itself is off its queue, and only its stack was touched |
| `RtHierarchy.RtRunqueue.DequeueRtStack` | hw4/sched_rt.c:490-503 | unlinking from the top down finds each entity in the list its present priority names, and unlinks exactly the entity and its ancestors |
| `RtHierarchy.RtRunqueue.BackPointers` | hw4/sched_rt.c:490-497 | the chain of back pointers lists the entity and its ancestors, outermost first, each once |
| `RtHierarchy.RtRunqueue.EnqueueOne` | hw4/sched_rt.c:453-472 | a throttled or empty group is refused; anything else joins the tail of its list, and all queues stay consistent provided the parent is not queued |
| `RtHierarchy.RtRunqueue.DequeueOne` | hw4/sched_rt.c:474-484 | the entity leaves its list and the summaries follow, provided the parent is not queued |
| `RtQueues.CachesAdd` | hw4/sched_rt.c:389-415 | after an insertion the bitmap is exactly the set of non-empty lists, `highest_prio` the first of them, and the count that of the linked entities |
| `RtHierarchy.RtRunqueue.DecRtTasks` | hw4/sched_rt.c:417-451 | count, `highest_prio` (searched again in the bitmap when needed) and boosted count after one entity less |
| `RtHierarchy.RtRunqueue.EnqueueTaskRt` | hw4/sched_rt.c:527-535 | the task is queued at the tail of the list of its priority, the invariant holds, no other task was queued or dequeued, and only its stack moved |
| `RtHierarchy.RtRunqueue.DequeueTaskRt` | hw4/sched_rt.c:537-543 | the runqueues above the running task are charged first, and exactly those that then overrun become throttled; the task is off its queue, the invariant holds, and no other task was queued or dequeued |
| `RtHierarchy.RtRunqueue.Throttle` | hw4/sched_rt.c:344-351 | setting the throttled flag takes the group and its ancestors through a dequeue exactly when it was queued and is now effectively throttled |
| `RtHierarchy.RtRunqueue.PeriodTimer` | hw4/sched_rt.c:225-262 | one CPU of the period timer for a group: with unlimited bandwidth it is idle and touches nothing; otherwise it gives back the runtime of the elapsed periods, up to what was consumed, and clears the flag of a group that had consumed something exactly when that was less than (overrun + 1) times the runtime; a group that is not throttled is then queued exactly when it has tasks; nobody else changes budget or flag and no task moves; idle is reported exactly for an empty queue whose time is all given back |
| `RtHierarchy.RtRunqueue.UpdateCurrRt` | hw4/sched_rt.c:358-387 | exactly the runqueues above the running task are charged; of these, those that then overrun the runtime of their own group and period become throttled and nobody else does; no task is queued or dequeued |
| `RtHierarchy.RtRunqueue.SchedRtRuntimeExceeded` | hw4/sched_rt.c:317-352 | the group becomes throttled exactly when it was or has used more than its runtime, and the answer says whether it is effectively throttled; nobody else changes budget or flag |
| `RtHierarchy.RtRunqueue.SetPrio` | hw4/sched.c:4526-4561 | a task that is off its queue may change priority without disturbing the invariant |
| `RtHierarchy.RtRunqueue.PickNextRtEntity` | hw4/sched_rt.c:623-638 | the head of the first non-empty list is an entity of the group, and its priority is the cached `highest_prio` |
| `RtHierarchy.RtRunqueue.constructor` | hw4/sched.c:7579-7609 | freshly initialised runqueues satisfy the invariant and queue nothing |
| `RtQueues.EnqueuedKeepsQueues` | hw4/sched_rt.c:453-472 | enqueueing below a node that is not queued itself keeps every runqueue consistent, group priorities included |
| `RtQueues.DequeuedKeepsQueues` | hw4/sched_rt.c:474-484 | the same for dequeueing; this is where removing the stack top-down is needed |
| `RtQueues.CachesRemove` | hw4/sched_rt.c:417-451 | after a removal the bitmap is exactly the set of non-empty lists, and `highest_prio` the first of them or 100 when none is left |
| `RtStacks.ClimbStep` | hw4/sched_rt.c:505-510 | one round of the bottom-up loop: re-enqueueing or refusing an entity moves the climb one level up and keeps the invariant of the rest |
| `RtCharges.ThrottledKeeps` | hw4/sched_rt.c:344-351 | throttling a group changes no budget, no other flag, and whether any task is queued |
| `RtCharges.ChargedAboveIs` | hw4/sched_rt.c:378-386 | the runqueues charged for a running task are the root and those of all groups above it |
| `RtPicks.BoostedIffRaised` | hw4/sched_rt.c:97-133 | a group counts as boosted, and so ignores its throttling, exactly when a task with a raised priority is queued below it through queued groups |
| `RtStacks.JoinsTail` | hw4/sched_rt.c:453-472 | whoever was enqueued stands behind all others of its priority, in that list only |
| `RtCharges.RefreshedMeans` | hw4/sched_rt.c:234-245 | what one run of the period timer gives back and when it releases, in terms of the time and the flag before it |
| `RtRuns.RunIsFlat` | hw4/sched_rt.c:317-387 | over any run of charges to tasks and period timers of any groups, the budget of each limited group of the hierarchy is that of the flat limiter that sees only its own events |
| `RtRuns.GroupBandwidthBound` | hw4/sched_rt.c:317-387 | so below every limited group, real-time tasks use at most (K + 1) * runtime + D over K elapsed periods of the group, if they run in chunks of at most D and not while it is throttled |
| `RtRuns.ReleasedExactly` | hw4/sched_rt.c:234-259 | a throttled group with no charges in between is released within a number of timer runs exactly when the time it had consumed is less than the elapsed periods and one more give back |
| `SmpRuns.ReachableInv` | hw4/sched.c:2079-2164 | in every state reachable from boot, by any interleaving of wake-ups, sleeps, switches, pulls and migrations of any number of CPUs and of any number of further threads that may be held up anywhere, the whole invariant holds: lock ownership, runqueue membership, counters, promises of the lock functions |
| `SmpRuns.ReachableAccounting` | hw4/sched.c:1610-1629 | in every reachable state each on_rq task is queued on exactly the runqueue of its CPU and every other task on none, the sum of `nr_running` is the number of on_rq tasks, and the sum of `nr_uninterruptible` over all CPUs, modulo the word, is the number of off-queue uninterruptible tasks |
| `SmpSteps.StepKeepsInv` | hw4/sched.c:2079-2164 | every atomic step of every context keeps the invariant |
| `SmpSteps.WakeKeepsInv` | hw4/sched.c:2079-2164 | the locked section of a wake-up, including the unlock and relock window after `set_task_cpu`, keeps it |
| `SmpSteps.PullKeepsInv` | hw4/sched.c:2721-2732 | moving a queued task between two locked runqueues keeps it |
| `SmpSteps.MoveSleepingKeepsInv` | hw4/sched.c:5617-5650 | so does migrating a sleeping task, whose contribution to `nr_uninterruptible` stays behind on the old CPU |
| `SmpSteps.MigrateKeepsInv` | hw4/sched.c:1744-1764 | so does setting the CPU of a task that neither is queued nor runs |
| `SmpSteps.SleepKeepsInv` | hw4/sched.c:4172-4178 | so does the dequeueing of the running task inside `schedule()` |
| `SmpWakes.WakeUpWakes` | hw4/sched.c:2091-2164 | the locked section of a wake-up: if a bit of the mask is set in the state, the task is afterwards on the runqueue of its CPU in TASK_RUNNING, or, when another CPU was selected for the first time, stands there asleep with the wake-up about to lock that runqueue; if no bit is set, nothing changes; no other task changes |
| `SmpWakes.WakeUpEnds` | hw4/sched.c:2079-2164 | however other contexts interleave with it, a wake-up ends with the task queued on its CPU in TASK_RUNNING, unless it held the lock of that runqueue while the state of the task did not match |
| `SmpWakes.WokenStaysAwake` | hw4/sched.c:4172-4189 | over every run, a task that is queued in TASK_RUNNING stays so until it sets its own state, whatever wake-ups, migrations, balancing and schedules happen |
| `SmpWakes.MigrateMoves` | hw4/sched.c:1744-1764 | a migration sets the CPU of a task that neither is queued nor runs, and changes nothing else and nobody else |
| `SmpWakes.PullMoves` | hw4/sched.c:2721-2732 | a pull takes the task off the one queue and onto the other, with its state |
| `SmpWakes.SleepTakesOff` | hw4/sched.c:4172-4178 | the running task that sleeps leaves its queue and keeps state and CPU; nobody else changes |
| `SmpWakes.SignalKeepsOn` | hw4/sched.c:4172-4176 | with a signal pending it stays queued, in TASK_RUNNING |
| `SmpWakes.SwitchRuns` | hw4/sched.c:4188-4202 | the CPU then runs what was picked from its own queue, and its lock is free |
| `SmpRunqueues.ActivateCounts` | hw4/sched.c:1610-1617 | counting one uninterruptible task less on any CPU keeps the sum right modulo the word, even when that counter wraps below zero |
| `SmpRunqueues.DeactivateCounts` | hw4/sched.c:1622-1629 | the same for counting one more |
| `SmpRunqueues.NrActive` | hw4/sched.c:2552-2565 | the load average input is exact: queued plus blocked tasks, although single counters wrap |
| `SmpRunqueues.RunningSum` | hw4/sched.c:2552-2565 | `nr_running` summed over all CPUs is the number of on_rq tasks |
| `SmpRuns.HoldsOnlyLower` | hw4/sched.c:2605-2668 | a context spinning on a runqueue lock holds only locks of lower-ordered runqueues |
| `SmpSteps.SpinAdds` | hw4/sched.c:2605-2668 | in each of the lock functions the awaited lock ranks above every lock already held |
| `SmpRuns.NoDeadlock` | hw4/sched.c:2605-2668 | behind every blocked context there is one that is not blocked, holds a lock at least as high, and can take a step |
| `SmpRuns.Progress` | hw4/sched.c:957-970 | a context that is inside kernel code and not blocked always has a step |
| `SmpRuns.TaskRqLocked` | hw4/sched.c:957-970 | `task_rq_lock` returns holding the lock of the runqueue the task really is on, and the task is in its queue iff on_rq |
| `SmpRuns.BalanceReturn` | hw4/sched.c:2646-2668 | over every run, `double_lock_balance` returns 1 exactly when the lock of this_rq was dropped on the way; both locks are held at the end, and after a 0 this_rq is as it was at the call |
| `CfsTimeline.InsertOrdered` | hw4/sched_fair.c:227-269 | inserting keeps the in-order sequence sorted and distinct, adds exactly the entity, and makes it leftmost exactly when its key is smaller than all others |
| `CfsTimeline.EraseOrdered` | hw4/sched_fair.c:271-293 | erasing keeps the order and removes exactly the entity; a removed leftmost is followed by its successor |
| `CfsTimeline.PositionSplits` | hw4/sched_fair.c:227-256 | equal keys go right: everything in front of the insertion position is at most the key, everything behind it greater |
| `CfsTimeline.SearchEnds` | hw4/sched_fair.c:237-268 | linking a node where the search ended is the insertion, and the search never turned right iff the node is leftmost |
| `CfsTimeline.Insert` | hw4/sched_fair.c:227-269 | the in-order sequence gains the entity at the position of its key and is otherwise unchanged |
| `CfsTimeline.EraseCuts` | hw4/sched_fair.c:271-293 | erasing a node cuts its place out of the in-order sequence |
| `CfsTimeline.KeysCompareTimes` | hw4/sched_fair.c:201-222 | while all virtual runtimes lie within a window smaller than 2^63, the wrapping 64-bit comparisons agree with comparing unbounded times |
| `CfsHierarchy.CfsRunqueue.EnqueueTaskFair` | hw4/sched_fair.c:850-864 | for a hierarchy of any depth the invariant holds again: an entity is in its tree iff on_rq and not current, `rb_leftmost` is the first node of a sorted tree, `next` is empty or in the tree, load and `nr_running` are sum and count of the on_rq entities, a group is on_rq iff its queue is non-empty. No other task is affected, no virtual runtime or `min_vruntime` goes back, and a woken task, like every group that becomes on_rq with the task, enters at the later of its own time and the earliest time in its queue (`min_vruntime` of an empty one) less the sleeper credit |
| `CfsHierarchy.CfsRunqueue.DequeueTaskFair` | hw4/sched_fair.c:871-886 | the task is off its queue, groups that became empty too, the invariant holds, no other task is affected and nothing goes back |
| `CfsHierarchy.CfsRunqueue.PickNextTaskFair` | hw4/sched_fair.c:1226-1244 | nothing is returned exactly when the root queue is empty; otherwise the descent reaches a task, every entity on its way is current and left its tree, and each was at most its wake-up granularity above the smallest virtual runtime of its queue |
| `CfsHierarchy.CfsRunqueue.PutPrevTaskFair` | hw4/sched_fair.c:1249-1258 | every on_rq entity of the running path is charged exactly its weighted time since its last charge, and nobody else is; all are back in their trees, and nothing is current |
| `CfsHierarchy.CfsRunqueue.SetCurrTaskFair` | hw4/sched_fair.c:1496-1502 | the task and its groups become current and leave their trees, without changing what is on_rq |
| `CfsHierarchy.CfsRunqueue.TaskNewFair` | hw4/sched_fair.c:1430-1453 | a new task is placed the debit behind its queue; if the child is to run first and the running task of its group is earlier, the two times are exchanged; it is then queued with the invariant intact, and no other task is affected |
| `CfsClimbs.NewTaskStarts` | hw4/sched_fair.c:1430-1453 | told from the state before: a new task starts the debit behind the earliest queued entity (`min_vruntime` of an empty queue), the running entity there is charged up to now, and the two times are exchanged exactly when the child is to run first and would come later |
| `CfsHierarchy.CfsRunqueue.TaskTickFair` | hw4/sched_fair.c:775-780 | a tick charges each running entity its weighted time since the last update exactly once, at every level, nobody else, and keeps the invariant |
| `CfsHierarchy.CfsRunqueue.CheckPreemptWakeup` | hw4/sched_fair.c:1166-1224 | the woken task becomes `next` of its queue, which keeps `next` in the tree; preemption is asked for exactly when the running ancestor is more than its wake-up granularity behind the woken sibling ancestor |
| `CfsHierarchy.CfsRunqueue.MatchingSiblings` | hw4/sched_fair.c:1197-1219 | the walk up both hierarchies ends at two different entities of one queue, above the two tasks |
| `CfsHierarchy.CfsRunqueue.Turn` | hw4/sched.c:4188-4189 | a dispatch (pick, any number of ticks, put back) keeps the invariant, picks fairly on every level, and adds to each entity of the picked path, and to nobody else, the weighted portions between the ticks |
| `CfsHierarchy.CfsRunqueue.EnqueueEntity` | hw4/sched_fair.c:622-640 | one level of the enqueue: the running entity is charged, the new one accounted for, placed on a wake-up, and inserted unless it is current |
| `CfsHierarchy.CfsRunqueue.DequeueEntity` | hw4/sched_fair.c:657-683 | one level of the dequeue |
| `CfsHierarchy.CfsRunqueue.SetNextEntity` | hw4/sched_fair.c:699-727 | the entity leaves the tree if it was on_rq, and is current |
| `CfsHierarchy.CfsRunqueue.PickNextEntity` | hw4/sched_fair.c:732-755 | nothing exactly for an empty queue; otherwise `next` exactly if it is at most its wake-up granularity behind the leftmost, else the leftmost, which becomes current; no on_rq entity of the queue is more than the granularity behind it |
| `CfsHierarchy.CfsRunqueue.PutPrevEntity` | hw4/sched_fair.c:757-773 | one level of putting back |
| `CfsHierarchy.CfsRunqueue.InsertEntity` | hw4/sched_fair.c:227-269 | the in-place search loop performs the insertion, and maintains `rb_leftmost` and `min_vruntime` |
| `CfsHierarchy.CfsRunqueue.EraseEntity` | hw4/sched_fair.c:271-293 | removal, with the successor of the leftmost, a `min_vruntime` that follows it, and a cleared `next` |
| `CfsHierarchy.CfsRunqueue.UpdateCurr` | hw4/sched_fair.c:412-454 | only the current entity is charged, by its weighted time since it was last charged |
| `CfsHierarchy.CfsRunqueue.PlaceEntity` | hw4/sched_fair.c:590-620 | a woken entity is placed at the later of its own time and the smaller of `min_vruntime` and the leftmost time, less the sleeper credit |
| `CfsQueues.InsertedMin` | hw4/sched_fair.c:227-269 | inserting raises `min_vruntime` exactly when the entity becomes the first, to its time if that is later, and no further; later or equal entities leave `rb_leftmost` as it is |
| `CfsQueues.ErasedMin` | hw4/sched_fair.c:271-293 | when the first entity goes, `min_vruntime` becomes the time of its successor if that is later, and the successor is the earliest of the rest; otherwise it stays |
| `CfsQueues.PlaceBaseIs` | hw4/sched_fair.c:590-620 | placement starts from the earliest queued entity, or from `min_vruntime` when none is queued |
| `CfsQueues.EnqueueCharges` | hw4/sched_fair.c:622-640 | before an entity joins a queue, the running entity there is charged up to now |
| `CfsQueues.DequeueCharges` | hw4/sched_fair.c:657-683 | the same before an entity leaves it |
| `CfsHierarchy.CfsRunqueue.constructor` | hw4/sched.c:7569-7577 | freshly initialised runqueues satisfy the invariant |
| `CfsQueues.LinkedKeeps` | hw4/sched_fair.c:513-520 | accounting for and inserting an entity keeps tree, list, load and count of its queue in agreement and disturbs no other queue |
| `CfsQueues.UnlinkedKeeps` | hw4/sched_fair.c:522-529 | the same for taking it off |
| `CfsQueues.TakenKeeps` | hw4/sched_fair.c:699-727 | the same for making it current |
| `CfsQueues.PutBackKeeps` | hw4/sched_fair.c:757-773 | the same for putting it back |
| `CfsQueues.TimedKeeps` | hw4/sched_fair.c:412-454 | virtual runtimes change only outside the tree, so no timeline is disturbed |
| `CfsClimbs.DequeuedPresent` | hw4/sched_fair.c:871-886 | after one level of the dequeue the load is positive iff entities remain, and the climb may stop there |
| `CfsQueues.ChosenIsFair` | hw4/sched_fair.c:732-755 | a picked entity is at most its wake-up granularity above every on_rq entity of its queue |
| `CfsFairness.TurnKeepsSpread` | hw4/sched_fair.c:733-773 | one dispatch, in however many portions it is charged, keeps the spread of virtual runtimes of every queue below any bound of at least granularity plus slice |
| `CfsFairness.SpreadOverRuns` | hw4/sched_fair.c:733-773 | with fixed membership, over any number of dispatches each charged at most D, the spread never exceeds max(initial spread, G + D) |
| `Gwrr.GwrrQueue.PickNext` | hw4/1105/sched_gwrr.c:84-140 | takes one unit from the first group of maximal remaining weight (refilling an empty round first), returns its first task and moves it to the tail; the scan is retried at most once, exactly when the round was over; nothing is returned exactly when no task is queued |
| `Gwrr.GwrrQueue.Enqueue` | hw4/1105/sched_gwrr.c:6-34 | the task joins the tail of the list; its group is added at the tail with the default weight, unspent, exactly when it has none yet, and otherwise no group changes; groups stay exactly the distinct gids of the queued tasks |
| `Gwrr.GwrrQueue.Dequeue` | hw4/1105/sched_gwrr.c:36-72 | exactly the task is cut out of the list, and its group out of the groups with its last task; groups stay exactly the distinct gids of the queued tasks |
| `Gwrr.AnyWindow` | hw4/1105/sched_gwrr.c:98-120 | with fixed membership, any W consecutive picks reachable from a fresh round choose each group exactly its weight times |
| `Gwrr.ExactWindow` | hw4/1105/sched_gwrr.c:98-120 | from any state, the next W picks choose each group exactly its weight times if and only if the remaining weights stand at a water level: every weight above it spent down to it, those of the first few groups one further |
| `Gwrr.ExactAfterRound` | hw4/1105/sched_gwrr.c:98-120 | whatever the state, every window that begins after the round that is on is exact |
| `Gwrr.JoinExactly` | hw4/1105/sched_gwrr.c:26-32 | when a group joins with its full weight, the next window is exact if and only if the level has not sunk below that weight |
| `Gwrr.JoinExample` | hw4/1105/sched_gwrr.c:6-34 | a group that joins after two picks of another: the next 20 picks choose the two 9 and 11 times |
| `Gwrr.Periodic` | hw4/1105/sched_gwrr.c:98-120 | the sequence of chosen groups repeats with period W, the sum of the weights |
| `Gwrr.RoundCounts` | hw4/1105/sched_gwrr.c:98-120 | within a round the picks of a group are exactly the weight it lost, and the total falls by one a pick |
| `Gwrr.WaterFilling` | hw4/1105/sched_gwrr.c:98-120 | within a round the remaining weights follow a falling water level, the groups in front of some index one below it |
| `Gwrr.RotatesOnlyItsGroup` | hw4/1105/sched_gwrr.c:122-136 | a pick rotates the sub-queue of the chosen group by one and leaves those of all other groups as they are |
| `Gwrr.NextsKeepValid` | hw4/1105/sched_gwrr.c:84-140 | any number of picks keeps the invariant of the two lists |
| `Gwrr.PickedByTurn` | hw4/1105/sched_gwrr.c:98-136 | a task is picked once its group was chosen as often as it has tasks |
| `Gwrr.EnoughPicks` | hw4/1105/sched_gwrr.c:98-120 | from any point of a round, c + 1 rounds choose a group at least c times its weight |
| `Gwrr.PickedWithin` | hw4/1105/sched_gwrr.c:98-139 | from any valid state every task is picked within (ceil(n / w) + 1) * W picks |
| `Gwrr.EnqueueKeepsValid` | hw4/1105/sched_gwrr.c:6-34 | gids of groups and of queued tasks agree after an enqueue |
| `Gwrr.DequeueKeepsValid` | hw4/1105/sched_gwrr.c:36-72 | and after a dequeue |
| `Gwrr.DequeueUndoesEnqueue` | hw4/1105/sched_gwrr.c:6-72 | dequeueing a task right after it was enqueued restores both lists, with the group if it was new |
| `Gwrr.JoinsLast` | hw4/1105/sched_gwrr.c:32-32 | a task joins at the end of the sub-queue of its group and changes no other sub-queue |
| `Gwrr.CutsOut` | hw4/1105/sched_gwrr.c:45-56 | the task that leaves is cut out of the list, and the others keep their places |
| `Gwrr.GwrrQueue.TakeUnit` | hw4/1105/sched_gwrr.c:98-120 | the retry loop ends after at most one refill with one unit taken from the chosen group |
| `VmScan.Zone.ShrinkInactiveList` | hw5/vmscan.c:818-917 | for every history of the zone and whatever runs while the lock is free: pages reclaimed, isolated and scanned are the sums over the rounds, each computed from the consistent zone it found; the pages put back are exactly those the rounds isolated and did not free, in their order; `num_inactive_to_free` grows by exactly the pages freed; the rounds stop exactly when one takes nothing or enough is scanned. At every release of the lru_lock NR_ACTIVE and NR_INACTIVE count the PageLRU pages with PageActive set and clear, and every such page is on exactly one list. Undisturbed, lists, flags and counts end exactly as the rounds make them |
| `VmScan.Zone.InactiveRound` | hw5/vmscan.c:837-907 | one round, from any history: what it isolates, scans and frees is computed from the zone it found, with both passes of `shrink_page_list`, and exactly the survivors go back; undisturbed, the zone is what isolating, clearing flags and putting back make of it |
| `VmScan.Zone.ShrinkTwice` | hw5/vmscan.c:863-883 | the second pass happens exactly if it is wanted and the first left something; active flags of the first pass do not survive it |
| `VmScan.Zone.ShrinkActiveList` | hw5/vmscan.c:1072-1208 | the same agreement at every release; `num_active_to_inactive` grows by exactly the pages moved; each held page gets the reference counter of the second-chance rule; undisturbed, at order 0 and without busy pages, the active list becomes kept ++ unscanned and the inactive list dropped ++ inactive, in the original orders |
| `VmScan.Zone.IsolateLruPages` | hw5/vmscan.c:696-779 | at any order the rounds of `Isolated`, in which a tag page always counts and its block follows; pages move from the lists to the private list once each and keep their flags; BUG() is reached exactly when the scan stops in front of a tag page of the wrong state |
| `VmScan.Zone.IsolateLruPage` | hw5/vmscan.c:647-675 | a page is taken exactly if it is on the LRU, has the active state of the mode and is not being freed; only then PageLRU is cleared |
| `VmScan.Zone.TakeBlock` | hw5/vmscan.c:742-774 | the scan of an aligned block, which stops at a hole, equals the walk over the whole block that skips what lies behind holes, the tag page and other zones |
| `VmIsolation.BlockTakesAll` | hw5/vmscan.c:747-773 | a block scan takes exactly the pages of the block that could be isolated when it began |
| `VmIsolation.BlockTakesWanted` | hw5/vmscan.c:747-773 | that is, those LRU pages of the wanted kind, in the block and zone and in front of any hole, that are not being freed |
| `VmIsolation.NothingBehindHole` | hw5/vmscan.c:754-756 | stopping at the first hole loses nothing |
| `VmIsolation.RoundKeeps` | hw5/vmscan.c:702-774 | a round keeps every page on exactly one of the lists or taken once, also on lists where active pages have strayed |
| `VmIsolation.IsolatedCuts` | hw5/vmscan.c:696-729 | at order 0 without busy pages exactly the tail of the list is taken, in order |
| `VmStray.ScansInOrder` | hw5/vmscan.c:696-729 | at order 0, scanning n pages takes those of the last n that are not being freed, in their order, and moves the others in front of the rest, in their order |
| `VmScan.Zone.ClearActiveFlags` | hw5/vmscan.c:800-812 | clears the active flags of exactly these pages and counts those that were set |
| `VmScan.Zone.ShrinkPageList` | hw5/vmscan.c:459-630 | freed pages are dropped and counted, activated ones get PageActive, the others stay in their order |
| `VmScan.Zone.PutBack` | hw5/vmscan.c:889-907 | every page returns to the list of its flag with its counter, across releases when the page vector is full; undisturbed, each side keeps its order |
| `VmRounds.PutLast` | hw5/vmscan.c:892-900 | taking the last page first builds each list in the original order |
| `VmRounds.KeptExactly` | hw5/vmscan.c:863-883 | put back is exactly what was isolated and neither pass freed; the second pass is for direct reclaim above order 3 |
| `VmRounds.ActivatedExactly` | hw5/vmscan.c:863-883 | and it goes to the active list exactly if the last pass over it said so |
| `VmRounds.WantedAt` | hw5/vmscan.c:837-840 | inactive LRU pages are wanted at every order, active ones too above order 3 |
| `VmRounds.FinishedMeans` | hw5/vmscan.c:832-911 | rounds end when enough is scanned, when one isolates nothing, or at BUG(), and never before |
| `VmScan.Zone.ScanPage` | hw5/vmscan.c:1104-1124 | the second-chance decision for one page: a mapped page is kept, unless it may be reclaimed and has neither a count nor a reference; a count that decided falls by one, as in `cs2456_page_referenced` |
| `VmScan.Zone.SortHeld` | hw5/vmscan.c:1104-1124 | kept and dropped pages keep their order through the list reversals |
| `VmScan.Zone.MoveToInactive` | hw5/vmscan.c:1146-1171 | counters lag behind the flags only while the lock is held and are exact at each release |
| `VmScan.Zone.MoveToActive` | hw5/vmscan.c:1178-1198 | the same for the active list |
| `VmScan.Zone.Unlocked` | hw5/vmscan.c:850-850 | what other CPUs may do while the lock is released; its precondition is the agreement proved at each release |
| `VmChance.SurvivesExactly` | hw5/vmscan.c:1064-1070 | a mapped page that may be reclaimed, with counter c and no new references, survives exactly c scans |
| `VmChance.NeverDropped` | hw5/vmscan.c:1115-1121 | a mapped page that may not be reclaimed survives any number of scans, and its counter never falls |
| `VmChance.UnmappedDropped` | hw5/vmscan.c:1115-1124 | an unmapped page is dropped by the first scan, whatever its counter |
| `VmChance.SurvivesReferenced` | hw5/vmscan.c:1064-1070 | a mapped page that may be reclaimed survives each scan exactly as long as its counter and the references it got pay for all scans so far |
| `VmChance.DroppedExactly` | hw5/vmscan.c:1104-1124 | the pages a scan of a list drops are exactly the unmapped ones, and the reclaimable ones with neither a count nor a reference |
| `VmChance.TouchedSaturates` | hw5/vmscan.c:1109-1113 | adding the referenced bit saturates the counter instead of wrapping it |
| `VmChance.SortedOnce` | hw5/vmscan.c:1104-1124 | kept and dropped pages partition the held ones |
| `VmStray.StraysExactly` | hw5/vmscan.c:696-779 | isolating both kinds from an inactive list without active pages leaves one without active pages exactly when no tag page taken has an active LRU page that is being freed in its block |
| `VmBug.StraysEver` | hw5/vmscan.c:742-774 | whatever is scanned, exactly when no page of the list before the call, unless it is being freed itself, has such a page in its block |
| `VmStray.OneKindAgrees` | hw5/vmscan.c:722-729 | isolating one kind of pages never puts an active page on the inactive list |
| `VmStray.BugsExactly` | hw5/vmscan.c:722-729 | BUG() is reached only by an isolation of inactive pages, in front of an active tag page, and never on an inactive list without active pages |
| `VmBug.BugsWhenDue` | hw5/vmscan.c:702-774 | at any order, and told from the zone before the call: BUG() is reached exactly when an active page is on the inactive list and the pages due before the last such page (taken as tag page or in a block, or met as busy tag page) are fewer than those to scan |
| `VmBug.BugsInWholeList` | hw5/vmscan.c:702-774 | so a list without active pages is safe whatever is scanned, and scanning as many pages as a list with one has reaches BUG() |
| `VmBug.BugsAtOrderZero` | hw5/vmscan.c:722-729 | at order 0 that is exactly when one of the pages to scan, at the end of the inactive list, is active |
| `VmStray.StrayExample` | hw5/vmscan.c:768-770 | two pages, one active and being freed elsewhere: isolating both kinds moves the active page to the inactive list, and the next isolation of inactive pages reaches BUG() |
| `VmIsolation.TakenStep` | hw5/vmscan.c:647-675 | isolating one page keeps every page on exactly one list |
| `VmLists.CountsAfterTaking` | hw5/vmscan.c:842-847 | how taking pages off the LRU moves the two flag counts |
| `RtBandwidth.BandwidthBound` | hw4/sched_rt.c:317-352 | run in chunks of at most D while unthrottled, real-time tasks use at most (K + 1) * runtime + D over K elapsed periods |
| `RtBandwidth.ReleasedInTime` | hw4/sched_rt.c:225-262 | a throttled queue is released within floor(D / runtime) + 1 periods |
| `RtBandwidth.Accounted` | hw4/sched_rt.c:225-262 | every chunk is either still accounted for or was given back by an elapsed period, and no queue overruns its runtime by more than one chunk |
| `RtBandwidth.RtRq.PeriodTimer` | hw4/sched_rt.c:234-259 | the period timer never reports idle while the queue is throttled |
| `RtBandwidth.RtRq.UpdateCurrRt` | hw4/sched_rt.c:358-387 | the queue is throttled exactly when it was or the charge exceeds its runtime |
| `RtBandwidth.RootDomain.BalanceRuntime` | hw4/sched_rt.c:265-302 | the borrower ends with its runtime plus every share offered, capped by the period; each lender loses exactly what it raises that level, also when the loop stops early; the total over the span is conserved; `more` is set exactly when somebody could lend |
| `RtBandwidth.LendersKeepUsed` | hw4/sched_rt.c:283-293 | no lender goes below the time it has used or gives more than its share, and CPUs that cannot lend give nothing |
| `RtBandwidth.OfferIs` | hw4/sched_rt.c:283-293 | a queue of the span with unused and limited runtime offers the rest divided by the weight of the span, rounded down, and any other nothing |
| `RtBandwidth.FullEarly` | hw4/sched_rt.c:293-296 | stopping once the borrower has the whole period changes nothing |
| `RtBandwidth.RootDomain.Borrow` | hw4/sched_rt.c:283-298 | one lender: its share lifts the borrower up to the period, and what one loses the other gains |
| `RtBandwidth.LendsIf` | hw4/sched_rt.c:283-285 | the signed 64-bit difference is positive exactly for a queue with unused and limited runtime |
| `RtPush.FindLowestCpus` | hw4/sched_rt.c:723-788 | without an RT-free candidate the mask is exactly the set of allowed online CPUs with the least urgent priority above that of the task, and the count its size; otherwise the count is 1 and the first bit of the mask is the first RT-free CPU |
| `RtPush.LowestAre` | hw4/sched_rt.c:770-785 | what survives the deferred pruning is what was counted |
| `Completion.NoLostWakeup` | hw4/sched.c:4389-4416 | in every interleaving with timeouts and signals: everybody who arrived to wait and is not through has exactly one entry in the queue; while one of them sleeps, at least `done` of them are runnable; completions equal `done` plus successful waits |
| `Completion.QueuedAreWaiting` | hw4/sched.c:4389-4416 | over every run the queue holds exactly those who arrived to wait and are not through, each once, in the order of arrival |
| `Completion.StepKeepsWaiting` | hw4/sched.c:4389-4416 | a step takes off exactly the waiter that is through and puts exactly the one that has to wait at the tail |
| `Completion.StepKeepsSafe` | hw4/sched.c:4367-4416 | each critical section keeps that, also when the first waiters woken had not gone to sleep yet |
| `Completion.WakesFirstSleeper` | hw4/sched.c:4296-4308 | one exclusive wake-up sets everyone up to the first sleeper running and nobody behind it |
| `Completion.WaitQueue.WakeUpCommon` | hw4/sched.c:4296-4308 | the scan of the queue wakes exactly these, or everybody |
| `Completion.WaitQueue.Complete` | hw4/sched.c:4367-4375 | one completion more, and one sleeper less if there is one |
| `Completion.WaitQueue.CompleteAll` | hw4/sched.c:4378-4386 | half the counter range more, and everybody is runnable |
| `Completion.WaitQueue.WaitArrives` | hw4/sched.c:4389-4405 | a wait succeeds at once exactly when something is done |
| `Completion.WaitQueue.WaitResumes` | hw4/sched.c:4400-4416 | a woken waiter succeeds exactly when something is done, whatever woke it, and otherwise leaves only for a timeout or signal; exactly its own entry goes |
| `LoadMath.CalcDeltaMine` | hw4/sched.c:1339-1364 | with a cleared inverse, weight w in 1..88761 and product t of at most 2^32: t / (w + 1) - 1 < r <= t / w + 1 / 2; for t below 2^48 the branch that shifts twice is off by at most inverse / 2^17 more above, and inverse / 2^17 plus t / 2^33 more below; the inverse is cached |
| `LoadMath.InverseIs` | hw4/sched.c:1345-1348 | the cached inverse is exactly one more than (2^32 - w / 2) / (w + 1) rounded down, and 1 for weights that do not fit in 32 bits |
| `LoadMath.InverseBounds` | hw4/sched.c:1345-1348 | the cached inverse lies between (2^32 - w / 2) / (w + 1) and 2^32 / w |
| `LoadMath.SmallProduct` | hw4/sched.c:1358-1361 | both bounds for the branch that does not shift twice, without any wrap-around |
| `LoadMath.LargeProduct` | hw4/sched.c:1355-1357 | both bounds for the branch that shifts twice, with the halving of the inverse on the lower side |
| `LoadMath.CpuLoad.UpdateCpuLoad` | hw4/sched.c:2571-2595 | one tick of all five averages in the array |
| `LoadMath.OneTick` | hw4/sched.c:2585-2593 | the distance d to the current load becomes exactly d - ceil(d / 2^i), from either side |
| `LoadMath.ConvergesFromEitherSide` | hw4/sched.c:2571-2595 | under constant load an average stays on its side, never overshoots, and is exact after finitely many ticks |
| `LoadMath.GeometricBound` | hw4/sched.c:2571-2595 | after k ticks the distance is at most ((2^i - 1) / 2^i)^k of the first |
| `LoadMath.StaysOrdered` | hw4/sched.c:2571-2595 | indices that start at the same distance stay ordered by index |
| `SchedClock.ClocksNeverGoBack` | hw4/sched_clock.c:90-202 | for arbitrary raw readings, local and remote reads, ticks and idle wake-ups in any order never turn a clock back |
| `SchedClock.UpdateInWindow` | hw4/sched_clock.c:90-124 | each update lands between min_clock and max(max_clock, old + 1) |
| `SchedClock.UpdateFollows` | hw4/sched_clock.c:90-124 | inside the window the clock moves by exactly the raw difference; it is clipped at the ends of the window, and moves by one when it stands above it or the raw reading went back |
| `SchedClock.FollowsRaw` | hw4/sched_clock.c:90-124 | over any number of readings inside the window the clock advances by exactly what the raw readings do |
| `SchedClock.RebasedElapsed` | hw4/sched_clock.c:138-177 | a remote reading is rebased to the ticks of the other CPU: as far behind them as the reading is behind the own ones |
| `SchedClock.SyncedTimesIncrease` | hw4/sched.c:792-812 | synchronised times are nondecreasing across all CPUs and never before what was asked for |
| `SchedClock.Clocks.UpdateSchedClock` | hw4/sched_clock.c:90-124 | the branches of the source compute the filtered clock |
| `SchedClock.Clocks.SchedClockCpu` | hw4/sched_clock.c:138-177 | a local or rebased remote reading updates the clock of one CPU, forward |
| `SchedClock.Clocks.SchedClockTick` | hw4/sched_clock.c:179-202 | the tick updates first and then moves the window |
| `SchedClock.Clocks.SchedClockIdleWakeupEvent` | hw4/sched_clock.c:216-233 | an idle wake-up advances the clock by the given time |
| `SchedClock.Clocks.SyncCpuClock` | hw4/sched.c:792-812 | the synchronised time is the larger of the time asked for and the global one, and becomes the global one; the offset moves along |
| `SchedClock.Clocks.CpuClock` | hw4/sched.c:834-851 | times returned for a CPU never decrease, also when other CPUs run between reading and synchronising; a synchronised time is not before any earlier synchronised one |
| `SchedClock.Clocks.constructor` | hw4/sched_clock.c:64-82 | all clocks start at the same time and nothing was returned yet |

## Left out

- The main things: CPU hotplug, root-domain changes, load-balance iterators, `select_task_rq`, priority inheritance chains, forking and exiting, statistics, and every system call.
- RtHierarchy: one CPU; the overload mask and `rt_nr_migratory`, `resched_task` calls, round-robin requeueing and yield. The runqueues of all groups are one map in one object, keyed by node, instead of linked structs.
- RtHierarchy.RtRunqueue.SchedRtRuntimeExceeded: does not borrow runtime from other CPUs; borrowing is modelled for the flat class in RtBandwidth.
- RtHierarchy.RtRunqueue.UpdateCurrRt: like it, without borrowing.
- RtHierarchy.RtRunqueue.PeriodTimer: one CPU of the span the timer walks through.
- RtHierarchy.RtRunqueue.SetPrio: only the change of priority between dequeue and enqueue, not the change of scheduling class around it.
- SmpSteps: the freezer, fork, CPU hotplug, the queue of the migration thread, the revalidation loops of the real-time push code, and the budget locks of the real-time class. Lock fairness is not modelled, so nothing is said about how long a spin lasts.
- SmpRunqueues.NrActive: reads all counters in one state, while the source reads them one by one without locks.
- CfsHierarchy: one CPU; rebalancing of the tree, `sched_slice`, yield, changes of group shares, migration offsets of virtual runtimes, and statistics.
- CfsHierarchy.CfsRunqueue.TaskTickFair: the charging of a tick; its preemption test is not part of this model.
- CfsHierarchy.CfsRunqueue.CheckPreemptWakeup: for a woken task of the fair class.
- CfsHierarchy.CfsRunqueue.PlaceEntity: the placement of a woken entity; the initial one is in `PlaceNewTask`.
- CfsHierarchy.CfsRunqueue.TaskNewFair: the start debit is a parameter instead of `sched_vslice_add`, and `childRunsFirst` stands for the sysctl and the test that the child is on this CPU.
- CfsFairness.SpreadOverRuns: membership is fixed; enqueueing may place an entity anywhere the placement rule allows.
- Gwrr: one CPU, unique pids, gids that do not change while a task is queued; allocation does not fail.
- VmScan: `pageout`, swap and unmapping inside `shrink_page_list`, memory cgroups, the choice of `reclaim_mapped` and event counters. Referenced bits set by others during a scan count as set before it.
- VmScan.Zone.Unlocked: others leave the flags of pages isolated by us alone.
- VmScan.Zone.ShrinkPageList: each page is freed, kept or activated as a parameter says.
- RtBandwidth.BandwidthBound: without borrowing, with a runtime below the period.
- RtBandwidth.RtRq.UpdateCurrRt: without borrowing, with a runtime below the period.
- RtPush: reads the priorities of all runqueues in one state.
- Completion.WaitQueue.Complete: `done` does not overflow 32 bits.
- Completion.WaitQueue.CompleteAll: the same.
- LoadMath.CalcDeltaMine: the bounds are for 64-bit longs and a cleared inverse; the precalculated inverses of nice levels are not compared with it.
- SchedClock.Clocks.CpuClock: two overlapping calls for one CPU are excluded; calls for different CPUs may overlap at will.
- SchedClock: filtered clocks do not overflow 64 bits.
