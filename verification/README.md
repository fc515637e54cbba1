# Models of a teaching repository's scheduler, character device and shell

The repository holds a Linux scheduler extended by a feedback class, the `scull` character device, and a
small shell. This project models their most intricate logic in Dafny and proves what it is meant to keep.

| file | models |
|---|---|
| `RtGroupQueues.dfy`, `RtGroupRq.dfy` | the real-time run queues of one CPU as a tree of groups |
| `RtGroupCount.dfy` | what its counts mean for tasks |
| `RtGroupSave.dfy` | SAVE/RESTORE pairs in that tree |
| `RtArray.dfy` | the ungrouped real-time queues of all CPUs of a root domain, with every cached aggregate |
| `RtBandwidth.dfy` | charging, throttling and refilling one real-time queue |
| `RuntimeBalance.dfy` | borrowing of real-time runtime between CPUs, and hotplug |
| `PushIpi.dfy` | the push-IPI protocol of a root domain |
| `WakeSleep.dfy` | sleep, wake-up, switch and migration as interleaved atomic steps |
| `LockOrder.dfy` | run-queue and `pi_lock` routines |
| `GroupWalk.dfy`, `Admission.dfy` | the goto walk over the group tree and real-time admission |
| `TsQueues.dfy` | the TS feedback class |
| `Scull.dfy` | the device's list, tables and blocks in an explicit memory |
| `Pipeline.dfy` | the shell's descriptor wiring |
| `Lists.dfy`, `Words.dfy` | lists, bitmaps and word constants that several models share |

Code that updates fields and loops is modelled by classes whose methods carry the source's loops; where the
result needs an account of whole runs, each method is tied to a function on values and the run theorems
are about those. Protocols between CPUs are step relations over interleaved accesses to shared state.
Addresses, tasks, groups and CPUs are natural numbers; integers are unbounded except where a row says
otherwise. Failing allocations, faulting copies, fresh memory, the clock and the choice of the next class
are parameters. `dafny verify dfyconfig.toml` checks the whole project.

## What the proofs show about the code

- `to_ratio` shifts the runtime by 20 bits, so the loss of one unit per group on which admission rests holds
  exactly below 2^44 ns (`Admission.RoundingLoss`); `Admission.OverflowAdmits` gives a tree above it, with
  values the cgroup files can set, that is wrongly accepted.
- `enqueue_task_ts` takes the list index before the wake-up boost, so a woken task sits below its priority's
  list unless it was already at 100 (`TsQueues.EnqueueAligned`, `TsQueues.WokenTooLow`); only the inequality
  is an invariant.
- Borrowing does not conserve runtime across boot: queues start enabled, so one that is not yet online can
  lend, and coming online it is reset to its quota as if it had not. The sum holds exactly over runs without
  such a step (`RuntimeBalance.RunsConserve`), in particular when nothing borrows before the CPUs are up
  (`RuntimeBalance.CleanBoot`); otherwise the kernel can stop at `BUG_ON(want)` (`RuntimeBalance.BootCanBug`).
- A SAVE/RESTORE pair without MOVE preserves the run lists of an ungrouped queue but moves the task behind
  its equals on the pushable list (`RtArray.PairKeepsPushable`, `RtArray.PairSwaps`).
- With groups the same pair can leave a group queued but unlinked: when a throttled group runs only because the task
  boosts it, SAVE delists the group and RESTORE marks it queued without linking it again
  (`RtGroupSave.PairRestoresIff`, `RtGroupSave.PairCanLose`).
- `RtGroupQueues.RemoveKeeps` relies on the parent's group being off, which the top-down order of
  `dequeue_rt_stack` provides.
- `scull` narrows the item number to an `int`: offsets 2^32 items apart are one place (`Scull.Aliased`), and
  a write that far out raises the size past the list, after which a read allocates (`Scull.NarrowedWrite`).
  It is a flat array, and its reads never allocate, exactly below that.
- Reading `scull` at a hole returns 0 like the end of the file although bytes follow (`Scull.HoleReadsAsEnd`);
  a write of no bytes past the end still raises the size; a failed copy leaves whatever landed.
- The shell's parent never closes the pipes' read ends and every later stage inherits the earlier ones, so a
  writer whose reader has gone is not told so.

## Model

| member | source | states |
|---|---|---|
| `RtGroupQueues.NonEmpty` | HW5-scheduler/kernel/sched/rt.c:1088-1112 | in a consistent tree a queue's `rt_nr_running` is non-zero exactly when its cached best priority is a real one, and the list of that priority is then non-empty |
| `RtGroupQueues.RemoveKeeps` | HW5-scheduler/kernel/sched/rt.c:1264-1276 | taking an entity off is safe once its parent's group is off: it is never better than the cached best (the `WARN_ON` of `dec_rt_prio`), and counts, bitmaps, lists and best priorities of all queues still agree |
| `RtGroupQueues.InsertKeeps` | HW5-scheduler/kernel/sched/rt.c:1230-1262 | putting an entity on, while its parent's group is off, keeps every queue of the tree consistent; a throttled or empty group is not put on |
| `RtGroupQueues.RemoveDown` | HW5-scheduler/kernel/sched/rt.c:1282-1297 | the top-down loop takes the whole chain off, leaves every other entity where it was and keeps the tree consistent |
| `RtGroupQueues.LinkUp` | HW5-scheduler/kernel/sched/rt.c:1299-1322 | the bottom-up loops put on exactly the entities of the chain that are runnable, and then no queue is left runnable but unlinked on the chain |
| `RtGroupQueues.RequeueKeeps` | HW5-scheduler/kernel/sched/rt.c:1282-1322 | from a tree whose only flaws lie on one chain, dequeueing it top-down and requeueing it bottom-up leaves no flaw: all counts are sums over on-queue children, a group is queued iff its queue is non-empty and not throttled, in the slot of its queue's best priority; the task itself ends up on for an enqueue and off for a dequeue |
| `RtGroupQueues.ThrottleKeeps` | HW5-scheduler/kernel/sched/rt.c:506-520 | throttling any queue restores the full invariant of the tree and changes only that flag among the throttle flags, and no task's state |
| `RtGroupQueues.UnthrottleKeeps` | HW5-scheduler/kernel/sched/rt.c:485-504 | lifting a throttle restores the full invariant of the tree |
| `RtGroupQueues.ChangeKeeps` | HW5-scheduler/kernel/sched/core.c:3857-3906 | priority, policy and group of a task may change while it is off the queues without disturbing the invariant |
| `RtGroupQueues.StepKeeps` | HW5-scheduler/kernel/sched/rt.c:1282-1347 | every routine keeps the invariant, changes the rest of `rq->nr_running` by nothing, and the subtraction of the real-time share never underflows |
| `RtGroupQueues.StepDoes` | HW5-scheduler/kernel/sched/rt.c:1327-1347 | an enqueued task is queued and a dequeued one off, a throttle flag set or lifted, attributes changed; no other task, flag or attribute changes |
| `RtGroupQueues.InitSound` | HW5-scheduler/kernel/sched/rt.c:75-102 | the freshly initialised queues of any group tree satisfy the invariant |
| `RtGroupQueues.RunsAreSound` | HW5-scheduler/kernel/sched/rt.c:1180-1322 | over every run of enqueue, dequeue, throttle, unthrottle and attribute changes on any group tree, in every state all queues agree with their lists, groups are queued exactly when runnable, and `nr_running` is exactly what the other classes put there plus the real-time share, which is `rt_nr_running` when `rt_queued` and 0 otherwise |
| `RtGroupQueues.HighestOfAll` | HW5-scheduler/kernel/sched/rt.c:895-905 | the root's cached priority is at least as good as that of every task that is queued through a chain of queued groups |
| `RtGroupCount.CountIsTasks` | HW5-scheduler/kernel/sched/rt.c:1155-1164 | `rt_nr_running` of any queue is the number of tasks queued below it through queued groups, and `rr_nr_running` the number of round-robin ones among them |
| `RtGroupCount.BoostedIsTasks` | HW5-scheduler/kernel/sched/rt.c:1123-1140 | `rt_nr_boosted` is the number of boosted children, and non-zero exactly when some boosted task is queued below |
| `RtGroupCount.RootCountsEligible` | HW5-scheduler/kernel/sched/rt.c:1180-1192 | the root's `rt_nr_running` is the number of tasks of the whole tree that may run |
| `RtGroupQueues.FirstEntityIs` | HW5-scheduler/kernel/sched/rt.c:1501-1516 | the entity taken from a non-empty queue is element 0 of the list at the cached best priority, queued, of that priority, and a child of that queue; a group so taken is itself non-empty |
| `RtGroupQueues.ForemostIsOne` | HW5-scheduler/kernel/sched/rt.c:1518-1534 | at most one task of the whole tree stands first on the best list of its queue with every group above it first on the best list of its own parent; so saying that of the pick determines it |
| `RtGroupQueues.BehindForemost` | HW5-scheduler/kernel/sched/rt.c:1513 | any other queued task of the same queue and priority stands behind the foremost one on their list: first in, first out |
| `RtGroupQueues.EnqueueOrder` | HW5-scheduler/kernel/sched/rt.c:1249-1257 | an enqueued task goes behind those of its priority, or in front with ENQUEUE_HEAD, and the order of all others in its queue is unchanged |
| `RtGroupRq.DelistEntity` | HW5-scheduler/kernel/sched/rt.c:1194-1228 | the step-by-step updates of one `rt_rq` compute the function that the invariant proofs speak about |
| `RtGroupRq.EnlistEntity` | HW5-scheduler/kernel/sched/rt.c:1180-1192 | the same for entering one `rt_rq` |
| `RtGroupRq.BackStep` | HW5-scheduler/kernel/sched/rt.c:1286-1297 | following the `back` pointers from the top visits the chain downwards, one entity at a time, and ends with the entity itself |
| `RtGroupRq.RunQueue.constructor` | HW5-scheduler/kernel/sched/rt.c:75-102 | the initial fields are the initial state and satisfy the invariant |
| `RtGroupRq.RunQueue.DequeueOne` | HW5-scheduler/kernel/sched/rt.c:1264-1276 | removes one entity; its two warnings are unreachable |
| `RtGroupRq.RunQueue.EnqueueOne` | HW5-scheduler/kernel/sched/rt.c:1230-1262 | inserts one entity unless it is a throttled or empty group |
| `RtGroupRq.RunQueue.DequeueTopRq` | HW5-scheduler/kernel/sched/rt.c:994-1009 | takes the real-time share out of `nr_running`; its `BUG_ON` is unreachable |
| `RtGroupRq.RunQueue.EnqueueTopRq` | HW5-scheduler/kernel/sched/rt.c:1011-1031 | adds the share back when the root queue is non-empty and not throttled |
| `RtGroupRq.RunQueue.LinkBack` | HW5-scheduler/kernel/sched/rt.c:1284-1289 | after the first loop every entity of the chain points down to the next and the returned entity is the top one |
| `RtGroupRq.RunQueue.DequeueStack` | HW5-scheduler/kernel/sched/rt.c:1282-1297 | both loops together compute the recursive top-down removal |
| `RtGroupRq.RunQueue.RequeueEntity` | HW5-scheduler/kernel/sched/rt.c:1299-1322 | the loops of `enqueue_rt_entity` and `dequeue_rt_entity` compute the function proved to restore the invariant |
| `RtGroupRq.RunQueue.EnqueueTask` | HW5-scheduler/kernel/sched/rt.c:1327-1339 | the task is queued afterwards, no other task's state changes, and the invariant holds |
| `RtGroupRq.RunQueue.DequeueTask` | HW5-scheduler/kernel/sched/rt.c:1341-1349 | the task is off afterwards, no other task's state changes, and the invariant holds |
| `RtGroupRq.RunQueue.ThrottleRq` | HW5-scheduler/kernel/sched/rt.c:925-946 | crossing the limit throttles the queue and takes it off, keeping the invariant |
| `RtGroupRq.RunQueue.UnthrottleRq` | HW5-scheduler/kernel/sched/rt.c:857-886 | refilling puts the queue back, keeping the invariant |
| `RtGroupRq.RunQueue.PickNextTask` | HW5-scheduler/kernel/sched/rt.c:1518-1534 | the descent always ends at a task that may run and is foremost: element 0 of its queue's best list, and so is every group on the way down of its parent's; no task that may run has a better priority |
| `RtGroupRq.RunQueue.SaveStack` | HW5-scheduler/kernel/sched/rt.c:1282-1297 | with flags that do not move, both loops compute the recursive top-down removal that leaves entities on their lists |
| `RtGroupRq.RunQueue.KeepEntity` | HW5-scheduler/kernel/sched/rt.c:1299-1322 | the loops of a SAVE dequeue and a RESTORE enqueue compute the functions of the pair theorem |
| `RtGroupRq.RunQueue.SaveRestore` | HW5-scheduler/kernel/sched/core.c:1023-1037 | a SAVE dequeue followed by a RESTORE enqueue brings the run queue back exactly when it loses no group, and always what is queued and `nr_running` |
| `RtGroupSave.Identity` | HW5-scheduler/kernel/sched/rt.c:1282-1307 | what the first loop of a SAVE takes off, the loop of a RESTORE puts back, entity by entity, in every valid tree |
| `RtGroupSave.Undone` | HW5-scheduler/kernel/sched/rt.c:1309-1322 | if SAVE's second loop delists no group, taking the chain off again undoes it |
| `RtGroupSave.DropsIff` | HW5-scheduler/kernel/sched/rt.c:1243-1247 | the second loop delists a group exactly when the counters of the chain without the task say so |
| `RtGroupSave.UndoneTally` | HW5-scheduler/kernel/sched/rt.c:1309-1322 | counts and queued entities are undone even where a group is delisted |
| `RtGroupSave.PairRestoresIff` | HW5-scheduler/kernel/sched/rt.c:1230-1322 | a matched SAVE/RESTORE pair without MOVE always restores counts, queued entities and `nr_running`; it restores the run queue exactly when no queued group above the task is throttled, non-empty without it and boosted only through it; otherwise some group is left queued but on no list |
| `RtGroupSave.SaveIsDequeue` | HW5-scheduler/kernel/sched/rt.c:1341-1349 | a dequeue with SAVE leaves every count of every queue, what is queued, and `nr_running` exactly as a true dequeue does, while the task stays on its list |
| `RtGroupSave.PairInRange` | HW5-scheduler/kernel/sched/rt.c:1220-1228 | both halves of a pair delist only at real slots: SAVE only groups that are not empty, RESTORE none |
| `RtGroupSave.DropsNeedsThrottle` | HW5-scheduler/kernel/sched/rt.c:522-525 | so the pair is the identity wherever no queued group above the task is throttled |
| `RtGroupSave.PairCanLose` | HW5-scheduler/kernel/sched/rt.c:1243-1259 | a run from boot (two enqueues and an overrun) after which the pair ends with a group queued, counted and unlinked |
| `RtGroupSave.SaveDownNonNegative` | HW5-scheduler/kernel/sched/rt.c:1194-1204 | no count goes below zero when the chain is taken off |
| `Lists.FirstBit` | HW5-scheduler/kernel/sched/rt.c:1509-1510 | the search returns the least set bit |
| `RtArray.DelistEntity` | HW5-scheduler/kernel/sched/rt.c:1220-1228 | the entity leaves its list and the bit tells whether the list is still non-empty |
| `RtArray.EnlistEntity` | HW5-scheduler/kernel/sched/rt.c:1249-1257 | the entity is linked at the head or tail and the bit is set |
| `RtArray.DecPrio` | HW5-scheduler/kernel/sched/rt.c:1088-1112 | after a removal the cached priority is that of the first set bit, or 100 when nothing is queued, although it is recomputed only when the best priority left |
| `RtArray.DequeueEntity` | HW5-scheduler/kernel/sched/rt.c:1264-1276 | lists, bitmap, best priority, `rt_nr_running`, total and migratory counts equal a scan of the queues afterwards, with or without moving the entity |
| `RtArray.EnqueueEntity` | HW5-scheduler/kernel/sched/rt.c:1230-1262 | the same for entering, for flags that match the last dequeue |
| `RtArray.PlistAddOk` | HW5-scheduler/kernel/sched/rt.c:373-382 | adding to the pushable list keeps it sorted by priority and duplicate-free |
| `RtArray.EnqueuePushable` | HW5-scheduler/kernel/sched/rt.c:373-382 | the task is on the pushable list behind its equals, the list stays exact and sorted, and `highest_prio.next` is the priority of its head |
| `RtArray.DequeuePushable` | HW5-scheduler/kernel/sched/rt.c:384-395 | the task is off the list and `highest_prio.next` is the priority of the new head, or 100 |
| `RtArray.RepushSame` | HW5-scheduler/kernel/sched/rt.c:373-395 | taking a task off the pushable list and adding it again restores the list exactly when no task of its priority stood behind it |
| `RtArray.PairKeepsPushable` | HW5-scheduler/kernel/sched/rt.c:1327-1349 | so a SAVE/RESTORE pair on an exact queue changes the pushable order exactly when an equal stands behind the task |
| `RtArray.RepushSwaps` | HW5-scheduler/kernel/sched/rt.c:373-395 | of two tasks of equal priority the first goes behind the second |
| `RtArray.BestWith` | HW5-scheduler/kernel/sched/rt.c:1077-1086 | taking the minimum with the new priority gives the first set bit of the new bitmap, also inside a SAVE window |
| `RtArray.PickNext` | HW5-scheduler/kernel/sched/rt.c:1501-1516 | the `BUG_ON` is unreachable; the picked task is the head of the best non-empty list and no queued task is better |
| `RtArray.PutPrev` | HW5-scheduler/kernel/sched/rt.c:1592-1605 | the task a CPU turns away from becomes pushable iff it is queued and may move; everything else stays exact |
| `RtArray.SetNext` | HW5-scheduler/kernel/sched/rt.c:1577-1578 | the task switched to is no longer pushable; everything else stays exact |
| `RtArray.CountIsScan` | HW5-scheduler/kernel/sched/rt.c:1180-1204 | `rt_nr_running` and `rt_nr_total` equal the number of entries on all hundred lists |
| `RtArray.OverloadedIff` | HW5-scheduler/kernel/sched/rt.c:300-313 | a CPU is overloaded exactly when it has a queued task that may move and another queued one |
| `RtArray.OtherCpu` | HW5-scheduler/kernel/sched/rt.c:273-313 | a change to a task that is not on a CPU leaves all that CPU's caches exact |
| `RtArray.MaskOnline` | HW5-scheduler/kernel/sched/rt.c:2172-2191 | going online or offline moves an overloaded CPU into or out of the mask together with the count |
| `RtArray.RtDomain.constructor` | HW5-scheduler/kernel/sched/rt.c:75-102 | freshly initialised queues are exact |
| `RtArray.RtDomain.UpdateMigration` | HW5-scheduler/kernel/sched/rt.c:273-313 | the overload flag becomes what the counts say, and the domain's mask and count stay those of the online overloaded CPUs |
| `RtArray.RtDomain.DequeueStack` | HW5-scheduler/kernel/sched/rt.c:1282-1297 | a queued task leaves, an unqueued one is left alone, and all caches of all CPUs stay exact |
| `RtArray.RtDomain.EnqueueStack` | HW5-scheduler/kernel/sched/rt.c:1299-1307 | the task is queued anew at the chosen end, or stays in place inside a SAVE/RESTORE pair; all caches exact |
| `RtArray.RtDomain.EnqueueTask` | HW5-scheduler/kernel/sched/rt.c:1327-1339 | as above, and the pushable list holds the task iff it may move and does not run |
| `RtArray.RtDomain.DequeueTask` | HW5-scheduler/kernel/sched/rt.c:1341-1349 | the task is off its queue and off the pushable list; all caches exact |
| `RtArray.RtDomain.Activate` | HW5-scheduler/kernel/sched/rt.c:1327-1339 | from an exact domain, queueing a task leaves an exact domain and changes one list of one CPU |
| `RtArray.RtDomain.Deactivate` | HW5-scheduler/kernel/sched/rt.c:1341-1349 | the same for a task that blocks |
| `RtArray.RtDomain.SetCpusAllowed` | HW5-scheduler/kernel/sched/core.c:1011-1038 | a SAVE/RESTORE pair without MOVE around a change of affinity leaves every run list of every CPU in its old order, with all counts, flags and masks exact for the new affinity; on the pushable list the task goes behind its equals, and that list is unchanged exactly when no equal stood behind it |
| `RtArray.RtDomain.SetPrio` | HW5-scheduler/kernel/sched/core.c:3857-3906 | a SAVE and MOVE pair around a change of priority moves the task from its old list to the chosen end of its new one, and for the same priority, where MOVE is dropped, no list changes; on the pushable list the task goes behind its equals; all caches exact |
| `RtArray.RtDomain.Migrate` | HW5-scheduler/kernel/sched/core.c:909-928 | a task that does not run moves to the tail of its list on the new CPU; both CPUs and the domain stay exact |
| `RtArray.RtDomain.Requeue` | HW5-scheduler/kernel/sched/rt.c:1355-1378 | only the position within the task's list changes |
| `RtArray.RtDomain.Switch` | HW5-scheduler/kernel/sched/rt.c:1566-1578 | the CPU switches to the head of its best list, and caches and pushable list stay exact |
| `RtArray.RtDomain.SetOnline` | HW5-scheduler/kernel/sched/rt.c:2172-2180 | the mask and count gain the CPU iff it is overloaded and was offline |
| `RtArray.RtDomain.SetOffline` | HW5-scheduler/kernel/sched/rt.c:2183-2191 | the mask and count lose the CPU iff it is overloaded and was online |
| `RtArray.RtDomain.Do` | HW5-scheduler/kernel/sched/rt.c:1327-1378 | what each operation does: which task field it writes, which list of which CPU changes and how, and which task a CPU switches to |
| `RtArray.RtDomain.Perform` | HW5-scheduler/kernel/sched/rt.c:273-395 | over any sequence of these operations on any number of CPUs every cache equals what a scan would give, and every operation of the sequence has its own effect on tasks and run lists and no other |
| `RtArray.PairSwaps` | HW5-scheduler/kernel/sched/core.c:1023-1037 | two waiting tasks of equal priority swap places on the pushable list, and not on the run list, when the first one's affinity is set anew |
| `RtBandwidth.PaidNext` | HW5-scheduler/kernel/sched/rt.c:857-858 | a refill of n periods takes back at most n runtimes |
| `RtBandwidth.RtRq.RuntimeExceeded` | HW5-scheduler/kernel/sched/rt.c:907-948 | the queue is throttled afterwards iff it was or its time is past its runtime, and leaves `nr_running` when it becomes so |
| `RtBandwidth.RtRq.UpdateCurr` | HW5-scheduler/kernel/sched/rt.c:954-992 | only a running task is charged; time past the limit accrues only before the first switch after the crossing |
| `RtBandwidth.RtRq.PeriodTimer` | HW5-scheduler/kernel/sched/rt.c:811-893 | each refill takes back the smaller of the used time and the elapsed periods' runtime, and a throttle is lifted exactly when the time falls below the runtime |
| `RtBandwidth.RtRq.Pick` | HW5-scheduler/kernel/sched/rt.c:1560-1570 | a throttled queue offers no task, even when the charge made here is what throttles it |
| `RtBandwidth.RtRq.Handle` | HW5-scheduler/kernel/sched/rt.c:811-992 | a running task is charged exactly the time that passed and the throttle follows the limit; a refill takes back the smaller of time used and periods elapsed; waking, blocking and picking do what they say; the queue offers tasks exactly when it has some and is not throttled |
| `RtBandwidth.RtRq.Run` | HW5-scheduler/kernel/sched/rt.c:811-992 | over any run, total time charged is at most (periods refilled + 1) times the runtime plus what was charged between crossing the limit and the next switch; and every event of the run has its effect |
| `RuntimeBalance.BorrowBalances` | HW5-scheduler/kernel/sched/rt.c:638-682 | from any state borrowing moves runtime without creating or losing any, never takes a lender below its used time, never takes the borrower past the period when it starts at or below it, and touches no disabled queue |
| `RuntimeBalance.BorrowExact` | HW5-scheduler/kernel/sched/rt.c:646-680 | a borrower at or below the period ends with the smaller of the period and what it had plus every offer, an offer being a 1/n part of a queue's spare time; each queue gives its whole offer, in CPU order, until the borrower is at the period, and nothing after that |
| `RuntimeBalance.BorrowAbove` | HW5-scheduler/kernel/sched/rt.c:669-676 | a borrower above the period gives the excess to the first CPU that has spare time, and nothing else changes |
| `RuntimeBalance.ReclaimAll` | HW5-scheduler/kernel/sched/rt.c:726-749 | greedy reclaim takes exactly what is wanted whenever the other queues hold it, and gives back whenever another is enabled; nothing is left wanting and no queue goes negative |
| `RuntimeBalance.ReclaimExact` | HW5-scheduler/kernel/sched/rt.c:726-749 | reclaiming empties the other enabled queues in CPU order, each down to what is still wanted, and leaves wanted what they do not hold |
| `RuntimeBalance.ReclaimBack` | HW5-scheduler/kernel/sched/rt.c:739-745 | what a queue holds beyond its quota goes to the first other enabled queue |
| `RuntimeBalance.DisableConserves` | HW5-scheduler/kernel/sched/rt.c:690-770 | from a conserved state `BUG_ON(want)` is unreachable and disabling a queue takes exactly one group runtime out of the domain |
| `RuntimeBalance.EnableConserves` | HW5-scheduler/kernel/sched/rt.c:772-794 | `__enable_runtime` keeps the sum exactly for a queue that is disabled or holds its quota; a queue that is enabled but offline and has lent or borrowed is reset as well, which breaks it |
| `RuntimeBalance.StepKeeps` | HW5-scheduler/kernel/sched/rt.c:638-794 | a step keeps the enabled runtimes summing to (number enabled) times the group's runtime exactly when it resets no queue that has lent or borrowed, and from such a state no step reaches `BUG_ON(want)` |
| `RuntimeBalance.RunsConserve` | HW5-scheduler/kernel/sched/core.c:5806-5826 | over any run, from any conserved state with any CPUs online, the sum holds at every point if and only if no step brings a CPU online whose enabled queue has lent or borrowed; then `BUG_ON(want)` is never reached |
| `RuntimeBalance.BootInv` | HW5-scheduler/kernel/sched/core.c:6077-6094 | the state `sched_init` leaves, all queues enabled and any CPUs online, is conserved |
| `RuntimeBalance.TiedStays` | HW5-scheduler/kernel/sched/core.c:5716-5744 | once exactly the online queues are enabled, every step is settled and keeps it so |
| `RuntimeBalance.CleanBoot` | HW5-scheduler/kernel/sched/core.c:5806-5826 | if no queue borrows before the CPUs have come up, the whole run is settled, whatever follows |
| `RuntimeBalance.BootCanBug` | HW5-scheduler/kernel/sched/rt.c:752-756 | a run from `sched_init`'s state of two CPUs that breaks the sum and reaches `BUG_ON(want)`: one borrows from the other's queue before that one comes online |
| `RuntimeBalance.LendWords` | HW5-scheduler/kernel/sched/rt.c:669-676 | computed on 64-bit words with a signed difference and an unsigned quotient, a loan equals the exact one |
| `RuntimeBalance.RootDomain.constructor` | HW5-scheduler/kernel/sched/core.c:6077-6094 | every queue enabled with the group's runtime and every CPU offline |
| `RuntimeBalance.RootDomain.DoBalanceRuntime` | HW5-scheduler/kernel/sched/rt.c:638-682 | the loop over the CPUs, with its early exit, computes the borrowing function |
| `RuntimeBalance.RootDomain.DisableRuntime` | HW5-scheduler/kernel/sched/rt.c:690-770 | the loops compute the disabling function, and the `BUG_ON` is reached exactly where the reclaim leaves something wanted |
| `RuntimeBalance.RootDomain.SetOffline` | HW5-scheduler/kernel/sched/core.c:5731-5744 | going offline disables an online queue once the scheduler runs, or reaches the `BUG_ON` exactly where the model says so |
| `RuntimeBalance.RootDomain.SetOnline` | HW5-scheduler/kernel/sched/core.c:5716-5729 | coming online marks the CPU and, when it was offline and the scheduler runs, sets its runtime to the group's and its used time to 0, enabled or not |
| `RuntimeBalance.RootDomain.BalanceRuntime` | HW5-scheduler/kernel/sched/rt.c:796-806 | a queue over its runtime borrows, and a queue that is not changes nothing; from at or below the period every queue ends with exactly what the offers say |
| `PushIpi.StepKeeps` | HW5-scheduler/kernel/sched/rt.c:1931-2055 | every atomic step of tellers and handlers keeps the invariant that ties the start flag, the lock, `rto_cpu`, the pending work and the agents together |
| `PushIpi.RefsKeep` | HW5-scheduler/kernel/sched/rt.c:1988-2055 | every step keeps domain references equal to their holders |
| `PushIpi.RunKeeps` | HW5-scheduler/kernel/sched/rt.c:1931-2055 | the invariant and the reference balance hold in every state of every run |
| `PushIpi.OneToken` | HW5-scheduler/kernel/sched/rt.c:1931-2055 | in every reachable state at most one push token exists and outside the lock `rto_cpu >= 0` exactly while one does; references taken equal those held |
| `PushIpi.NoPostIsLost` | HW5-scheduler/kernel/sched/rt.c:2008-2054 | the irq work is never queued while it is still pending |
| `PushIpi.StartIsWon` | HW5-scheduler/kernel/sched/rt.c:1978-1996 | a teller wins the start flag exactly when nobody has it; one that loses finds another inside |
| `PushIpi.TellerStarts` | HW5-scheduler/kernel/sched/rt.c:1996-2005 | a teller that has won, with the mask non-empty in every state in which it holds `rto_lock`, does not release it without a push token in existence and `rto_cpu` set |
| `PushIpi.BoundStays` | HW5-scheduler/kernel/sched/rt.c:2005-2013 | a teller that leaves with a CPU can always take its next step towards posting, and no step of another agent turns it back |
| `PushIpi.BoundMoves` | HW5-scheduler/kernel/sched/rt.c:2005-2013 | its own next step always moves it on and no step of another agent moves it: the two unlocks, the reference, the post |
| `PushIpi.TellerPosts` | HW5-scheduler/kernel/sched/rt.c:2009-2013 | when it posts, the work was not pending, and then is pending on that CPU |
| `PushIpi.MaskFollows` | HW5-scheduler/kernel/sched/rt.c:273-297 | the mask holds exactly the CPUs that were last said to be overloaded |
| `PushIpi.RequestsCounted` | HW5-scheduler/kernel/sched/rt.c:1988-1993 | the counter is the number of requests of the run |
| `PushIpi.StopMeansVisited` | HW5-scheduler/kernel/sched/rt.c:1949-1975 | when a search of the mask ends with no CPU, every CPU that was in the mask in every state since the last pass began had its tasks pushed by a handler in that pass, and no request came after the pass began unless 2^32 came between two looks at the counter |
| `PushIpi.RepeatMeansAsked` | HW5-scheduler/kernel/sched/rt.c:1967-1972 | between two looks at the counter that send the search round again some request was made: a chain ends when the requests do |
| `WakeSleep.NextKeeps` | HW5-scheduler/kernel/sched/core.c:1949-2059 | every atomic step of the task, of `__schedule`, of wakers, wake lists, migrators and pushers keeps the protocol's invariant |
| `WakeSleep.RunKeeps` | HW5-scheduler/kernel/sched/core.c:1949-2059 | so it holds in every state of every interleaving |
| `WakeSleep.NoLostWakeup` | HW5-scheduler/include/linux/sched.h:147-180 | once a waker that set the condition and called `try_to_wake_up` has returned, the task is linked on its run queue, being moved between run queues, or on its way to one through a waker or wake list, and it is not in or entering the scheduler as a sleeper; it is never left dequeued and asleep |
| `WakeSleep.CondIsCarried` | HW5-scheduler/kernel/sched/core.c:1949-1961 | whenever this round's condition is set, a waker wants `pi_lock` for it, holds it, or has returned |
| `WakeSleep.SleeperIsOff` | HW5-scheduler/kernel/sched/core.c:3466-3475 | in every reachable state a task inside `schedule` that is still a sleeper is off its run queue, or the CPU it is current on holds its lock and is taking it off; no scheduler can pick it |
| `WakeSleep.SleepLasts` | HW5-scheduler/include/linux/sched.h:147-180 | a task that sets its state while the condition is false goes to sleep and stays so: whatever steps the others take, it neither leaves the wait loop nor the state until a waker or a signal acts, and once in the scheduler it is off its run queue or being taken off |
| `WakeSleep.LeavesWhenSet` | HW5-scheduler/include/linux/sched.h:147-180 | the task leaves its wait loop only after this round's condition has been set |
| `WakeSleep.LandsWhereNamed` | HW5-scheduler/kernel/sched/core.c:2037-2041 | until a wake-up or a migration is complete the task's CPU is the one named for it, and it is queued there or nowhere |
| `WakeSleep.CanWander` | HW5-scheduler/kernel/sched/core.c:1949-2059 | from its own code, with nothing else under way, the task can sleep and be woken round after round on any given sequence of CPUs, through the waker's own hands or through the wake list, with every round's waker returned |
| `WakeSleep.CanMigrate` | HW5-scheduler/kernel/sched/core.c:909-928 | a queued task that does not run can be moved by `move_queued_task` to any CPU, and is then queued there alone with all locks free |
| `WakeSleep.CanPush` | HW5-scheduler/kernel/sched/rt.c:1866-1868 | a push to another CPU can always be completed, with the same outcome |
| `WakeSleep.SpinEnds` | HW5-scheduler/kernel/sched/core.c:1973-2036 | while a waker spins on `on_cpu`, the CPU that still has it set is in `__schedule` with its lock held, past the decision about the task, on its way to clearing it |
| `WakeSleep.OnePlace` | HW5-scheduler/kernel/sched/core.c:2027-2052 | in every reachable state the task is current on at most one CPU, queued on at most the run queue of `task_cpu`, and nowhere else while its old CPU still has `on_cpu` set |
| `WakeSleep.PickIsSafe` | HW5-scheduler/kernel/sched/core.c:3497-3529 | a CPU about to switch to the task finds it off every CPU, queued, and its own |
| `WakeSleep.NoDoubleEnqueue` | HW5-scheduler/kernel/sched/core.c:1637-1648 | entering a wake list or a run queue, by any path, never finds the task on one already |
| `LockOrder.RoutineOrdered` | HW5-scheduler/kernel/sched/sched.h:1888-2018 | every lock routine, on both branches of its trylock, waits only for locks above all those it then holds |
| `LockOrder.RoutineEnds` | HW5-scheduler/kernel/sched/sched.h:1888-2018 | every routine ends holding exactly the locks it promises |
| `LockOrder.BalanceDrops` | HW5-scheduler/kernel/sched/sched.h:1907-1926 | `_double_lock_balance` without preemption takes the other lock at once exactly when it is free, and goes on to release the lock its caller holds exactly when it is not and has the lower address |
| `LockOrder.NextKeeps` | HW5-scheduler/kernel/sched/core.c:90-127 | every lock step of any CPU keeps the order and mutual exclusion |
| `LockOrder.RunKeeps` | HW5-scheduler/kernel/sched/core.c:90-127 | so they hold throughout every run of any number of CPUs |
| `LockOrder.WaitersHoldLess` | HW5-scheduler/kernel/sched/sched.h:1888-2001 | in every reachable state a CPU waiting for a run-queue lock holds only lower-addressed ones, and one waiting for a `pi_lock` holds no run-queue lock |
| `LockOrder.NoCycle` | HW5-scheduler/kernel/sched/sched.h:1969-2001 | no reachable state has a cycle of waiters of any length |
| `LockOrder.SomeHolderRuns` | HW5-scheduler/kernel/sched/core.c:2080-2090 | whenever a CPU is blocked, some holder of a wanted lock is not, so the system can always move |
| `GroupWalk.WalkFollows` | HW5-scheduler/kernel/sched/core.c:657-686 | the recursive walk makes the calls of the full pre/post-order tour up to the first non-zero result and returns that |
| `GroupWalk.RepUnique` | HW5-scheduler/kernel/sched/core.c:657-686 | the sibling and parent pointers spell out one tree |
| `GroupWalk.NotFrom` | HW5-scheduler/kernel/sched/core.c:674-684 | the test that ends the walk succeeds only back at the root of the walked subtree |
| `GroupWalk.WalkTgTreeFrom` | HW5-scheduler/kernel/sched/core.c:657-686 | the goto loop over child, sibling and parent pointers terminates on every finite tree with the calls and the result of the recursive walk |
| `Admission.TgRtSchedulable` | HW5-scheduler/kernel/sched/rt.c:2440-2494 | the checks of one group and the sum over its children in the code's order, with the code's error codes |
| `Admission.EffectiveIs` | HW5-scheduler/kernel/sched/rt.c:2447-2453 | a group is tested with the bandwidth under trial if it is the one being set, and otherwise with its own |
| `Admission.TrialIsInstalled` | HW5-scheduler/kernel/sched/rt.c:2447-2485 | testing a tree with a trial is testing it with the trial put in the group's place |
| `Admission.AcceptedGroup` | HW5-scheduler/kernel/sched/rt.c:2458-2491 | every group of an accepted tree, with what the trial or else its own setting gives it, is within its period or unlimited, has runtime if it has real-time tasks and limits are on, is within the global ratio, and its children's ratios fit its own |
| `Admission.GroupsAccepted` | HW5-scheduler/kernel/sched/rt.c:2458-2491 | and a tree in which every group is so is accepted |
| `Admission.BusyIff` | HW5-scheduler/kernel/sched/rt.c:2464-2465 | EBUSY is returned for a limited group with real-time tasks and no runtime that passes the period test, and for no other |
| `Admission.AcceptsIff` | HW5-scheduler/kernel/sched/rt.c:2496-2511 | the walk returns 0 exactly when every group of the tree passes its checks |
| `Admission.RtSchedulable` | HW5-scheduler/kernel/sched/rt.c:2496-2511 | the pointer walk accepts exactly the trees that pass with the trial put in |
| `Admission.AntichainBound` | HW5-scheduler/kernel/sched/rt.c:2477-2491 | in an accepted tree the ratios of any groups that do not contain one another sum to at most the root's ratio |
| `Admission.RatioExactIff` | HW5-scheduler/kernel/sched/core.c:2379-2393 | the ratio is the quotient in units of 2^-20, rounded down, exactly for runtimes below 2^44 ns |
| `Admission.RoundingLoss` | HW5-scheduler/kernel/sched/core.c:2379-2393 | what a group asks for exceeds its ratio by less than one unit of 2^-20 exactly when its runtime is below 2^44 ns |
| `Admission.TrueUtilisation` | HW5-scheduler/kernel/sched/core.c:2379-2393 | the true utilisation of k groups exceeds the sum of their ratios by less than k units |
| `Admission.AdmissionBounds` | HW5-scheduler/kernel/sched/rt.c:2440-2511 | when admission accepts a trial, then with it put in any antichain's ratios stay within the root's and the global ratio, and the true utilisation of k finite-runtime groups exceeds the global ratio by less than k / 2^20 |
| `Admission.OverflowAdmits` | HW5-scheduler/kernel/sched/rt.c:2554-2592 | above that the bound fails: two groups given 2^41 microseconds in every 2^41, a whole CPU each, pass admission under a root that grants 95 percent, and their utilisation of 2 is not within the global ratio and two units |
| `TsQueues.GetNewPrio` | HW5-scheduler/kernel/sched/ts.c:7-39 | expiry lowers by ten levels down to 139; waking raises strictly, to 109 or better, unless at 100; the range is 100..139; anything else gives 139 |
| `TsQueues.WakeLevels` | HW5-scheduler/kernel/sched/ts.c:22-37 | a wake-up never reverses the order of two tasks, and raises onto each of the ten best levels |
| `TsQueues.GetNumTicks` | HW5-scheduler/kernel/sched/ts.c:42-60 | 4 ticks for the best ten levels and 4 more for each ten levels down; 0 outside the range |
| `TsQueues.EnqueueSafe` | HW5-scheduler/kernel/sched/ts.c:73-88 | exactly the enqueued task joins the lists, on one of them, at or below the list of its boosted priority; ranges are kept |
| `TsQueues.EnqueueOrder` | HW5-scheduler/kernel/sched/ts.c:73-88 | the task becomes last of the list of its priority before the boost and no list changes otherwise; slices stay, and only its own priority changes, and only when it is woken |
| `TsQueues.EnqueueAligned` | HW5-scheduler/kernel/sched/ts.c:77-83 | an enqueued task sits on the list of its own priority exactly when it was not woken or was already at the best one; the list index is taken before the boost |
| `TsQueues.WokenTooLow` | HW5-scheduler/kernel/sched/ts.c:77-83 | a task forked at 139 and woken ends on the lowest list with priority 109 |
| `TsQueues.DequeueSafe` | HW5-scheduler/kernel/sched/ts.c:90-100 | the task is on no list, every other stays where it was |
| `TsQueues.DequeueOrder` | HW5-scheduler/kernel/sched/ts.c:90-100 | the others keep their order on every list, and all priorities and slices stay |
| `TsQueues.MoveOrder` | HW5-scheduler/kernel/sched/ts.c:108-110 | moving to a tail makes the task last of that list, and the others keep their order on every list |
| `TsQueues.TickSafe` | HW5-scheduler/kernel/sched/ts.c:157-187 | the decrement never wraps; an expired task ends on the list of its own new priority; no other task enters or leaves a list |
| `TsQueues.TickOrder` | HW5-scheduler/kernel/sched/ts.c:157-187 | a tick takes one from the slice of the running task alone; with the last one it goes ten levels down, gets that level's ticks and moves to the tail of its list |
| `TsQueues.YieldSafe` | HW5-scheduler/kernel/sched/ts.c:102-112 | a yielding task ends on the list of its own priority; no other task enters or leaves a list |
| `TsQueues.YieldOrder` | HW5-scheduler/kernel/sched/ts.c:102-112 | a yielding task becomes last of its list, the others keep their order, and priorities and slices stay |
| `TsQueues.StepSafe` | HW5-scheduler/kernel/sched/ts.c:73-187 | every operation keeps each task on at most one list, priorities in 100..139, slices in 1..16 and list index at most 139 minus the priority, and links exactly the tasks that are runnable after it; a fork gives twelve ticks and a priority change keeps them |
| `TsQueues.RunsAreSafe` | HW5-scheduler/kernel/sched/core.c:2151-2153 | over every run from the empty queues, wake-ups and yields included, each runnable task (enqueued and not dequeued since) is linked at exactly one place of one list and every other task nowhere; all ranges hold |
| `TsQueues.TickBringsNearer` | HW5-scheduler/kernel/sched/ts.c:157-187 | one tick of the picked task lowers every waiting task's measure by exactly one |
| `TsQueues.WaitAtMost` | HW5-scheduler/kernel/sched/ts.c:42-60 | the measure is at most 52 (n - 1) for n queued tasks |
| `TsQueues.WaitIsOver` | HW5-scheduler/kernel/sched/ts.c:124-145 | the measure is never negative, and a task whose measure is zero is the one picked |
| `TsQueues.NoStarvation` | HW5-scheduler/kernel/sched/ts.c:124-187 | in a run of ticks a waiting task is picked after exactly its measure in ticks, hence within 52 (n - 1), and not before |
| `TsQueues.TsRq.constructor` | HW5-scheduler/kernel/sched/ts.c:63-71 | forty empty lists |
| `TsQueues.TsRq.EnqueueTask` | HW5-scheduler/kernel/sched/ts.c:73-88 | computes the enqueue function and keeps the invariant |
| `TsQueues.TsRq.DequeueTask` | HW5-scheduler/kernel/sched/ts.c:90-100 | computes the dequeue function and keeps the invariant |
| `TsQueues.TsRq.YieldTask` | HW5-scheduler/kernel/sched/ts.c:102-112 | computes the yield function and keeps the invariant |
| `TsQueues.TsRq.PickNextTask` | HW5-scheduler/kernel/sched/ts.c:124-145 | the downward scan returns the head of the best non-empty list, or nothing |
| `TsQueues.TsRq.TaskTick` | HW5-scheduler/kernel/sched/ts.c:157-187 | computes the tick function, keeps the invariant and asks for a reschedule exactly on expiry |
| `Scull.PosWithin` | HW4-xmerge/Labs/lab9/lab09-examples/scull.c:126-129 | every offset has an (item, slot, byte) with slot and byte within bounds that gives the offset back |
| `Scull.PosInverse` | HW4-xmerge/Labs/lab9/lab09-examples/scull.c:158-161 | every such position is the position of its offset, so before the item number is narrowed the two are in bijection |
| `Scull.NarrowExact` | HW4-xmerge/Labs/lab9/lab09-examples/scull.c:126 | the `int` holds the item number exactly below 2^31, and always modulo 2^32 |
| `Scull.DownSteps` | HW4-xmerge/Labs/lab9/lab09-examples/scull.c:98 | counting an int down to 0 takes its value modulo 2^32 steps, also from a negative one |
| `Scull.FoldPos` | HW4-xmerge/Labs/lab9/lab09-examples/scull.c:158-161 | so the place of an offset is that of the offset modulo 2^32 items, and its own exactly when its item number is below 2^32 |
| `Scull.Aliased` | HW4-xmerge/Labs/lab9/lab09-examples/scull.c:158-161 | offsets a multiple of 2^32 items apart share their place, nearer ones do not |
| `Scull.AddItemOk` | HW4-xmerge/Labs/lab9/lab09-examples/scull.c:91-104 | a new list item changes no byte and keeps every item, table and block linked once |
| `Scull.AddTableOk` | HW4-xmerge/Labs/lab9/lab09-examples/scull.c:169-174 | a new table of null slots changes no byte and keeps the shape |
| `Scull.AddBlockOk` | HW4-xmerge/Labs/lab9/lab09-examples/scull.c:176-180 | a new block keeps every block in one slot of one table, with `quantum` bytes |
| `Scull.AddBlockCells` | HW4-xmerge/Labs/lab9/lab09-examples/scull.c:176-180 | a new block fills only the holes of its own slot |
| `Scull.CopyInWrote` | HW4-xmerge/Labs/lab9/lab09-examples/scull.c:182-186 | copying into the block changes exactly the bytes at the offset |
| `Scull.ChunkReach` | HW4-xmerge/Labs/lab9/lab09-examples/scull.c:188-191 | a chunk ends within the items that reach its first byte |
| `Scull.ChunkWithin` | HW4-xmerge/Labs/lab9/lab09-examples/scull.c:182-183 | a chunk is all that was asked for or ends exactly at the end of its block, and is empty only when nothing was asked for |
| `Scull.CoveredWrite` | HW4-xmerge/Labs/lab9/lab09-examples/scull.c:188-191 | the end of a write lies within the list exactly when its item number was below 2^32 |
| `Scull.Reached` | HW4-xmerge/Labs/lab9/lab09-examples/scull.c:120-133 | where the list reaches the size, an offset below the size lies in an existing item |
| `Scull.BlockFreed` | HW4-xmerge/Labs/lab9/lab09-examples/scull.c:49-50 | freeing slot by slot meets each live block once |
| `Scull.WriteKeeps` | HW4-xmerge/Labs/lab9/lab09-examples/scull.c:182-193 | a further write keeps every byte whose place none of the written offsets has |
| `Scull.WriteHolds` | HW4-xmerge/Labs/lab9/lab09-examples/scull.c:182-193 | a further write stores its bytes and keeps the earlier ones, as far back as no place is shared |
| `Scull.RoundTripIff` | HW4-xmerge/Labs/lab9/lab09-examples/scull.c:110-194 | what is read back is what was written exactly when bytes 2^32 items apart are equal, so always up to that length |
| `Scull.ScullDev.constructor` | HW4-xmerge/Labs/lab9/lab09-examples/scull.c:58-61 | the device as a trim leaves it is valid |
| `Scull.ScullDev.Follow` | HW4-xmerge/Labs/lab9/lab09-examples/scull.c:87-108 | returns the item `n` modulo 2^32 steps down, adding just the missing items, or NULL exactly when memory runs out before; no byte changes, and nothing at all when the item exists |
| `Scull.ScullDev.Prepare` | HW4-xmerge/Labs/lab9/lab09-examples/scull.c:169-180 | the block of the slot exists afterwards unless memory runs out, which happens exactly when the missing table and block exceed what is left |
| `Scull.ScullDev.Write` | HW4-xmerge/Labs/lab9/lab09-examples/scull.c:148-194 | for every offset: it moves all of the buffer or as much as reaches the end of the block; ENOMEM exactly when allocations run out, then no byte has changed; otherwise exactly the returned bytes at the folded offset change (holes of the same block may be filled), the size grows to the offset's end, and EFAULT disturbs no byte outside the chunk; the list goes on reaching the size exactly when the item number was below 2^32 |
| `Scull.ScullDev.Read` | HW4-xmerge/Labs/lab9/lab09-examples/scull.c:110-146 | for every offset: changes no byte, returns the bytes at the folded offset, all asked for below the size or as many as reach the end of the block, 0 at a hole or past the size; it allocates exactly when the size reaches past the list there and memory is left, hence never where the list reaches the size |
| `Scull.ScullDev.ReadBlock` | HW4-xmerge/Labs/lab9/lab09-examples/scull.c:135-145 | the part of a read behind the walk, which only reads |
| `Scull.ScullDev.Trim` | HW4-xmerge/Labs/lab9/lab09-examples/scull.c:41-64 | every free hits a live address, so none is freed twice, and at the end nothing is live; every table has `dev->qset` slots even when the module parameters have changed |
| `Scull.ScullDev.FreeRow` | HW4-xmerge/Labs/lab9/lab09-examples/scull.c:49-50 | frees exactly the blocks of one table |
| `Scull.ScullDev.Open` | HW4-xmerge/Labs/lab9/lab09-examples/scull.c:66-79 | opening for writing only discards everything, any other opening changes nothing |
| `Scull.ScullDev.WriteAll` | HW4-xmerge/Labs/lab9/lab09-examples/scull.c:148-194 | looped partial writes store the bytes in order up to the first failure, the last written winning where offsets share a place, keep all other bytes, and fail only for lack of memory or a fault |
| `Scull.ScullDev.ReadAll` | HW4-xmerge/Labs/lab9/lab09-examples/scull.c:110-146 | looped partial reads return exactly the bytes up to the count, the size or the first hole, and change nothing where the list reaches the size |
| `Scull.ScullDev.Do` | HW4-xmerge/Labs/lab9/lab09-examples/scull.c:66-194 | what each call does to the bytes and the size, whether or not memory suffices and the copy succeeds |
| `Scull.ScullDev.RoundTrip` | HW4-xmerge/Labs/lab9/lab09-examples/scull.c:110-194 | looped writes followed by looped reads give from any state, at any offset, for each byte the last one written to its place; that is the same bytes exactly when those 2^32 items apart are equal |
| `Scull.ScullDev.Perform` | HW4-xmerge/Labs/lab9/lab09-examples/scull.c:41-194 | over any run of opens, reads and writes, with failing allocations and faulting copies anywhere and module parameters that change, every live item, table and block is linked once, every table has `dev->qset` slots and every block `dev->quantum` bytes; while all writes start below 2^32 the list reaches the size, so no read allocates; and every call of the run has its effect |
| `Scull.ScullDev.PerformThenTrim` | HW4-xmerge/Labs/lab9/lab09-examples/scull.c:41-64 | a trim after any such run leaves nothing live |
| `Scull.HoleReadsAsEnd` | HW4-xmerge/Labs/lab9/lab09-examples/scull.c:135-136 | after one byte is written at 5, a read at 0 returns 0 although the size is 6 and the byte is there |
| `Scull.NarrowedWrite` | HW4-xmerge/Labs/lab9/lab09-examples/scull.c:126-136 | with one-byte items, a byte written at 2^32 is read at 0, and a read at 3 then allocates |
| `Pipeline.LowestFree` | HW2.3-Shell/myshell.c:290-301 | the least descriptor that is free, section 2.14 of the POSIX.1-2017 System Interfaces volume |
| `Pipeline.CloseDup` | HW2.3-Shell/myshell.c:294-302 | closing a low descriptor and duplicating another onto the lowest free one moves that file to it |
| `Pipeline.ChildWired` | HW2.3-Shell/myshell.c:290-304 | child i reads the previous pipe on 0 and writes its own on 1, with no other write end open |
| `Pipeline.ParentMoves` | HW2.3-Shell/myshell.c:326-327 | the parent's step keeps its table free of write ends and `in` the read end of the last pipe |
| `Pipeline.ConnectPipes` | HW2.3-Shell/myshell.c:283-329 | for every number of stages all children are wired so, and the parent holds no write end |
| `Pipeline.OneWriter` | HW2.3-Shell/myshell.c:283-329 | pipe k's write end is open at descriptor 1 of child k and nowhere else, in no other child and not in the shell, so the next stage sees end of file when child k ends |

## Left out

- Memory barriers, RCU, tracing, statistics, load averages and `cpupri`: steps are sequentially consistent and reporting is ignored.
- RtGroupQueues.RunsAreSound: its runs use the flags that move entities; a SAVE dequeue without MOVE leaves the dequeued task linked and counted in the cached priority, so the state inside such a pair is outside the invariant, and `RtGroupSave` treats the pair as a whole.
- RtArray.RtDomain.Perform: does not include throttling and the share of `nr_running`, which the grouped model and `RtBandwidth` cover; tasks enter and leave the class only through blocking and waking.
- RtArray.RtDomain.SetPrio: covers changes within the real-time class, not changes of class.
- RtBandwidth.RtRq.Run: time that deadline tasks charge to the queue is not modelled.
- RtGroupSave.PairRestoresIff: nothing changes between the two halves.
- RuntimeBalance.RunsConserve: one root domain with a fixed span; CPUs moving between domains and sysctl rewrites of the runtime during a run, which reset disabled queues too, are excluded, and sums must fit in 63 bits.
- RtGroupQueues.EnqueueOrder: says nothing about the order among groups of equal priority, which requeueing a chain changes.
- PushIpi.StopMeansVisited: a request made after the final read is not claimed to be served, and 2^32 requests between two reads are excluded.
- WakeSleep.NoLostWakeup: one task is followed; other tasks appear only through the locks and CPUs they occupy. The scheduler's test of the task's state is merged with the write that follows it under the run-queue lock, the checks a migrator makes under that lock are merged with taking it, and a migrator only takes tasks that are not on a CPU. Load balancers of the fair class appear through the contract of `TASK_ON_RQ_MIGRATING`.
- PushIpi.BoundStays: no fairness among agents is assumed; a step is claimed to be possible and to stay so, not to be taken.
- WakeSleep.CanWander: shows that runs exist in which each round completes; no fairness among agents is assumed.
- LockOrder.WaitersHoldLess: what callers hold when they call a routine is taken from the routines' own demands; in particular that a task's `pi_lock` is first taken with nothing held, outside `try_to_wake_up_local`, is a hypothesis.
- LockOrder.NoCycle: covers run-queue locks and `pi_lock`s; interrupt masking, `rt_runtime_lock` and waiting inside other subsystems are not modelled.
- Admission.AdmissionBounds: a group has fewer than 2^44 children, so that the sum of ratios does not wrap.
- GroupWalk.WalkTgTreeFrom: the tree does not change during the walk.
- TsQueues.NoStarvation: ticks only; wake-ups and yields may put others ahead, and only safety is claimed for them. `rq->nr_running`, which this class never updates, and priority inheritance are not modelled.
- Scull.ScullDev.Follow: the decrement of a negative count wraps, as it does in a kernel built with signed wrap-around.
- Scull.ScullDev.Write: concurrent callers and the state before the first trim, when quantum and qset are zero, are not modelled, and module parameters are positive with a product that fits an `int`.
- Scull.ScullDev.Trim: addresses are never handed out again, so that a second free of one would show.
- Pipeline.ConnectPipes: `pipe` and `fork` succeed, and the shell starts with descriptors 0 and 1 open; job lists, redirection and the tokeniser are not modelled.
- `pull_rt_task`, `push_rt_task` target selection, `find_lowest_rq` and the pick fast path: heuristics that add no invariant of their own.
- `fair.c`, `deadline.c`, the CFS quota walk, `xmerge.c`, the HW1 tools and the other lab examples: plumbing or outside the hard core.
