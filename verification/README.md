# FerrisRBE, modelled and proved in Dafny

FerrisRBE is a remote build execution server. This project models the parts of it that keep
real state across many operations, and proves what holds over every run of them:

- **Execution** (`Stages`, `FairQueues`, `Scheduling`, `Fairness`, `Slots`, `Protocol`,
  `ProtocolTheorems`, `Outcomes`, `Holders`, `Traces`, `LateErrors`, `DispatchOrder`, `QueueRuns`,
  `Looks`, `Effects`, `Watches`, `Engines`). An action is queued or merged with an identical one in flight, served fairly across
  invocations, handed to a worker, and finished, re-queued when its worker is lost, or cancelled.
  `Protocol` is a transition system: the dispatcher, the result processor and the cleanup task run
  side by side, and an operation can be caught between any two of their steps. `Engines` is the
  code of those tasks over a scheduler object; each of its methods moves the engine along by
  protocol steps, so what holds in every run holds of the engine.
- **Caches** (`Lru`, `ShardedLayout`, `ActionCache`, `DiskCache`, `DiskRace`). Four linked maps
  stand for a plain recency list; above it a bulk restore, a cache with a TTL and a capacity,
  and a disk tier, both one call at a time and with any number of writers interleaved step by
  step.
- **Console** (`Consoles`, `Terminals`). The terminal interpreter: it shows what a terminal would,
  however its input is cut into chunks, and a client that splices its deltas keeps up with it.
- **Histories** (`Text`, `Aggregates`, `Histories`, `HistoryLines`, `HistoryOrder`, `HistoryFiles`,
  `Pagination`). Label files and aggregates agree with the global history through migration,
  appends and compaction, and so do those of a store object whose methods are runs of those steps;
  and paging through builds while others are added.
- **Coalescing** (`SingleFlight`). The leader and followers of a fetch.

`Prelude` holds what the modules share. `dafny verify dfyconfig.toml` checks the project.

## Where the code and its words part

The model follows the code. In these places the code does less than its documentation, or
than one would expect, says; each has a lemma that shows it and one that says exactly when
the expected property holds.

- `insert_at` gives a digest a second slot when the digest is tracked but its hash is not
  indexed, which happens once another key of that hash was touched and removed
  (`Lru.OneDigestTwoSlots`). It keeps the maps inverse to each other exactly when the digest is
  untracked or its hash is indexed (`Lru.LruState.InsertAt`), and a restore does exactly when
  every scanned entry is harmless in that sense (`ShardedLayout.RestoreRecency`).
- `cleanup_expired` pops a record whose deadline is the very instant it reads, and leaves its
  entry if it is not expired yet when it is looked at; no later cleanup then removes it
  (`ActionCache.TieIsForgotten`, `ActionCache.UnrecordedStays`). Records are kept exactly when no
  entry is tied like that (`ActionCache.CleanupKeepsRecordsIff`, `ActionCache.PutKeepsRecordsIff`), over
  whole runs too (`ActionCache.RunRecordedIff`, `ActionCache.CleanupOfRunIsExact`).
- The byte counter of the disk tier can wrap below zero while a linked file is not yet counted
  (`DiskRace.CounterCanWrap`). It never does in a run exactly when no subtraction takes more than
  it shows (`DiskRace.NeverWrapsIff`), and it is right again whenever no step is half done
  (`DiskRace.CounterIsBytesOnDisk`).
- Two keys of one hash share a file of the disk tier: the bytes stay accounted, but the entries no
  longer have a file each, exactly when a second key is put (`DiskCache.DiskActionCache.Put`).
- `unwatched_for` is said to tell whether no client has followed for longer than the grace. It tells
  so at once between the counter and the instant of the last client's drop
  (`Watches.EarlyReportIsReachable`), and for good when two drops refresh side by side and the older
  reading is stored last (`Watches.Overtaken`). No condition on what it loads decides
  (`Watches.LooksCannotTell`). It is never early exactly when the instant it finds was read after the
  last client left, or in the same millisecond (`Watches.NeverEarlyIff`), as it is while no store
  lands behind a newer one and no drop is half way (`Watches.UnwatchedIsAbandoned`).
- An error report for an operation that is back in the queue passes the stage check, because
  `Queued` to `Failed` is a legal move: the operation fails and its digest is released while its
  action still waits (`LateErrors.LateErrorLeavesAQueuedAction`, `LateErrors.LateErrorsAreReachable`).
  Any other report keeps the protocol in order (`LateErrors.ReportIsSafeIff`).
- `dispatch_ready` is said to look at each action at most once; when a delivery fails the action
  goes back to the front of its queue and the same pass can take it again
  (`Looks.LookingTwiceIsReachable`). The claim holds, whatever the deliveries do, exactly when all
  that waits is of one class, one action to an invocation, and scores the same
  (`Looks.LooksOnceIff`); a failed action is the very next one again exactly when its invocation
  has more waiting or scores strictly less than all others (`Looks.TakenAgainIff`).
- Dropping a flight guard is said to release the key before followers are notified; `resolve` and
  `fail` notify first (`SingleFlight.ReleasedBeforeNotifiedIff`, `SingleFlight.WokenCallerRejoins`).
- The label migration leaves out an unterminated last line of the global history, and the
  appender does not write it to a label file either; and since a line read counts one byte for its
  end, carriage returns before newlines let it read on into what was appended since, which the
  appender writes too (`HistoryLines.AppendedIsReadAgain`). It reads what was there, whatever is
  appended, exactly when the file was terminated and had no such return
  (`HistoryLines.SnapshotIsWholeIff`, `HistoryLines.MigrationReadsRecordsIff`).

## Modelling choices

- Each method of the scheduler is one step, and so is `dispatch`, including its send.
- Which worker is picked, whether its channel is open, which operations nobody watches, the
  outcome of file operations and every clock reading are parameters: any behaviour of them is
  covered.
- A worker reports only operations it was given. The result processor handles one report or one
  lost worker at a time.
- The score of an invocation is `(running + 1) * w(priority)` over the reals, for any positive
  weight `w` that doubles every hundred points.
- Hashes, operation ids, action results and fetched metadata are numbers; only their equality
  matters. Counters and sizes are unbounded integers, except the disk tier's byte counter, which
  wraps at 64 bits, and the console's row count, which is parsed as a 64-bit number.
- A `Sys` (execution), `Disk` (disk tier), `Log` (histories) or `System` (coalescing) value is the
  whole state between two steps; fields named as history record what happened and are read by
  no step.

## Model

| member | source | states |
|---|---|---|
| `Stages.QueueAndWorkerAlternate` | src/execution/state_machine.rs:87-122 | along any legal path an operation enters the queue once more than it is assigned, or as often; nothing follows a terminal stage; the reported REAPI stage only ever falls from a worker back to the queue |
| `Stages.LegalMoves` | src/execution/state_machine.rs:87-122 | a move is legal exactly if it goes one stage on, back to the queue from a worker, to completion from the cache or a worker, or from anywhere but an end to failure |
| `Stages.ExecutionStateMachine.TransitionTo` | src/execution/state_machine.rs:207-240 | moves exactly when the move is legal, and keeps the last hundred moves |
| `Stages.StateMachineManager.CleanupFinishedMachines` | src/execution/state_machine.rs:338-354 | retires exactly the terminal machines whose retention has passed |
| `Watches.RunKeeps` | src/execution/state_machine.rs:160-176 | over any run of clients following and leaving, each drop's write, clock reading and store apart, the counter counts the clients, and a reading is no earlier than the last client's leaving exactly if it was taken after it, ties aside |
| `Watches.UnwatchedIsAbandoned` | src/types.rs:46-48 | while no store lands behind a newer one, whoever finds the counter at zero with no drop half way and reports unwatched is right about every client there was |
| `Watches.FinishesRightIff` | src/types.rs:46-48 | with nobody following, however the drops half way finish, the instant left is right exactly when no reading still to be stored is before the last client left, nor the one stored if none is |
| `Watches.Overtaken` | src/types.rs:46-48 | a run in which the newer store is overwritten by an older one and nothing is half way |
| `Watches.LooksCannotTell` | src/execution/state_machine.rs:249-253 | so no condition on what a look sees decides: two operations with nothing half way look the same at any time, one abandoned and the other not |
| `Watches.NeverEarlyIff` | src/execution/state_machine.rs:249-253 | a counter loaded at one moment and an instant loaded later give no early report, at any later time and for any grace, exactly when somebody followed, or the instant stored was read after the last client seen had left, or in the same millisecond |
| `Watches.ReportsAbandonedIff` | src/execution/state_machine.rs:249-253 | they are right both ways exactly when somebody followed or the instant is the one the last client left |
| `Watches.EarlyReportIsReachable` | src/execution/state_machine.rs:170-176 | a run to the middle of a drop in which an old operation is reported unwatched the instant it is left |
| `FairQueues.NextExists` | src/execution/scheduler.rs:91-107 | a non-empty queue has exactly one next invocation, whatever order the hash map is read in |
| `FairQueues.NextIsLowest` | src/execution/scheduler.rs:91-107 | the next invocation has, of all that wait, the least product of its running actions plus one and the weight of its first action's priority; on a tie it has waited longest |
| `FairQueues.NewcomerIsLast` | src/execution/scheduler.rs:69-88 | an invocation that had nothing waiting is behind all others; one that had keeps its place |
| `FairQueues.MinBy` | src/execution/scheduler.rs:91-107 | the scan finds it in any order of visits |
| `FairQueues.FairQueue.PushItem` | src/execution/scheduler.rs:69-88 | the item goes to the named end of its invocation's queue; an invocation that had nothing waiting gets a new stamp; the length counts it |
| `FairQueues.FairQueue.PopItem` | src/execution/scheduler.rs:91-116 | takes the head of the next invocation's queue and drops a queue left empty |
| `FairQueues.FairQueue.DrainWhere` | src/execution/scheduler.rs:127-139 | takes out exactly the actions asked for; what stays and what goes keep their order per invocation |
| `FairQueues.Retain` | src/execution/scheduler.rs:127-139 | the partition visits the invocations in any order with the same result |
| `Scheduling.MarkCounts` | src/execution/scheduler.rs:394-409 | marking one entry dispatched is one more running action of its invocation |
| `Scheduling.UnmarkCounts` | src/execution/scheduler.rs:346-361 | unmarking one is one less, there is always one to take, and no zero is kept |
| `Scheduling.MultiLevelScheduler.EnqueueAction` | src/execution/scheduler.rs:272-313 | admits an action or names the operation already running its digest; the running counters stay a recount of the entries |
| `Scheduling.MultiLevelScheduler.PutBackAction` | src/execution/scheduler.rs:330-342 | back to the front of its queue and no longer counted as running |
| `Scheduling.MultiLevelScheduler.Undispatch` | src/execution/scheduler.rs:346-361 | the decrement never underflows and the counters stay a recount |
| `Scheduling.MultiLevelScheduler.TryDequeueAction` | src/execution/scheduler.rs:394-409 | takes the next action of one class and counts it as running once |
| `Scheduling.MultiLevelScheduler.DequeueAction` | src/execution/scheduler.rs:388-392 | tries the critical class, then the other |
| `Scheduling.CriticalGoesFirst` | src/execution/scheduler.rs:388-392 | while a critical action waits only critical ones are dequeued, and something is dequeued whenever anything waits |
| `Scheduling.MultiLevelScheduler.CompleteAction` | src/execution/scheduler.rs:411-415 | releases the digest, once or twice alike |
| `Scheduling.MultiLevelScheduler.QueuedLen` | src/execution/scheduler.rs:418-423 | the actions waiting in both classes |
| `Scheduling.MultiLevelScheduler.CleanupStaleActions` | src/execution/scheduler.rs:441-459 | releases exactly the entries older than the limit, counts them, and keeps the running counters a recount |
| `Scheduling.MultiLevelScheduler.RemoveUnwatchedActions` | src/execution/scheduler.rs:366-379 | takes the named operations' actions out of both classes, in order, their digests staying in flight |
| `QueueRuns.FirstInFirstOut` | src/execution/scheduler.rs:272-409 | over any run of enqueues, dequeues, put-backs, completions and sweeps, the actions of one class and invocation come out in the order they were admitted: those admitted are those out, in the order taken, and then those waiting |
| `QueueRuns.EnqueueAt` | src/execution/scheduler.rs:272-313 | an admitted action goes to the end of its invocation's queue and touches no other |
| `QueueRuns.InFlightSinceAdmitted` | src/execution/scheduler.rs:272-313 | in any run a digest is in flight for the operation, invocation and moment of the enqueue that admitted it, and has been ever since |
| `QueueRuns.SweptByAge` | src/execution/scheduler.rs:441-459 | a sweep of any run lets go of exactly the digests admitted longer ago than its limit |
| `Fairness.SharesFollowWeights` | src/execution/scheduler.rs:91-116 | in any run that starts with nothing of `i` or `j` running, keeps both backlogged at fixed priorities and takes no running action from `j`, `running_i * w_i <= (running_j + 1) * w_j`, whatever else is queued, dequeued, finished or put back |
| `Fairness.HundredPointsHalveAShare` | src/execution/scheduler.rs:91-116 | so while neither loses a running action a hundred more points halve a share, and equal priorities split evenly, up to one action |
| `Fairness.WeightsExist` | src/execution/scheduler.rs:91-104 | there is a weight with the laws asked of it |
| `Protocol.LocalTake` | src/execution/scheduler.rs:394-409 | what taking or cancelling a queued action does to its operation keeps it legal |
| `Protocol.FailDeliveryIsPutBack` | src/execution/engine.rs:283-316 | a delivery that fails undoes its own stage change and is a put-back |
| `Protocol.ReportDropped` | src/execution/engine.rs:415-437 | a report the checks refuse changes nothing |
| `Protocol.QueuedIsCurrent` | src/execution/engine.rs:220-247 | a queued action is the current one of an operation that owns its digest, with its losses equal to its deliveries |
| `ProtocolTheorems.StepIsSafe` | src/execution/engine.rs:220-489 | every step that is not a late error keeps every operation's place, stage, counters, writes and digest in order |
| `ProtocolTheorems.RunIsSafe` | src/execution/engine.rs:220-489 | so does every run, for any interleaving of the tasks |
| `ProtocolTheorems.OnePlace` | src/execution/engine.rs:220-489 | at rest an operation that owns its digest is `Queued` in exactly one slot of one queue or `Assigned` and with a worker; one that does not is terminal, in neither, with a stored result |
| `ProtocolTheorems.OnePlaceAlways` | src/execution/engine.rs:220-489 | half-done steps included, it is in exactly one of six places while it owns its digest and in none afterwards |
| `ProtocolTheorems.TerminalMeansStored` | src/execution/engine.rs:400-452 | whoever sees a terminal stage finds the recorded result stored, and the stage matches it |
| `ProtocolTheorems.TerminalForever` | src/execution/state_machine.rs:87-103 | a machine turned terminal never changes again |
| `ProtocolTheorems.SecondOperationWaits` | src/execution/engine.rs:400-452 | a second operation for a digest is admitted only after every earlier one was recorded, stored and turned terminal |
| `ProtocolTheorems.DeliveriesAreBounded` | src/execution/engine.rs:319-358 | no operation is delivered more than `max_worker_losses + 1` times; the losses an action carries are its deliveries |
| `ProtocolTheorems.AtMostOneSuccess` | src/execution/engine.rs:400-437 | at most one success report is accepted per operation, and none while it is queued or terminal |
| `Outcomes.StoredIsReported` | src/execution/engine.rs:409-452 | in every run a stored result is one reported while the operation was with a worker, or the failure of an operation lost with its worker once more than allowed or cancelled in the queue |
| `Outcomes.ReportIsStored` | src/execution/engine.rs:438-450 | a report for an active operation is the very one recorded by the next write for it, stored by the second, shown by the third, its digest released by the fourth, whatever happens in between; and it stays so |
| `Outcomes.ReportTells` | src/execution/engine.rs:415-437 | outside late errors a report is taken up exactly while its operation is with a worker |
| `Holders.HeldByItsWorker` | src/execution/engine.rs:255-303 | in every run the worker an active operation is listed with is the one it was last given to, and was not lost since |
| `Holders.LeavesIff` | src/execution/engine.rs:319-358 | an operation leaves its worker exactly when that worker is lost or a result for it is reported |
| `LateErrors.ReportIsSafeIff` | src/execution/engine.rs:421-437 | a report keeps the protocol in order exactly when it is not an error for a queued operation |
| `LateErrors.ReportedIsUnsafe` | src/execution/engine.rs:409-452 | a late error processed to its end leaves the operation in a place without its digest |
| `LateErrors.LateErrorLeavesAQueuedAction` | src/execution/engine.rs:421-452 | what such a report leaves: a failed operation, a free digest and its action still queued |
| `LateErrors.LeftoverIsDropped` | src/execution/engine.rs:255-266 | an action taken once its operation has ended is neither delivered nor put back, and its digest is freed, whichever operation has it in flight by then |
| `LateErrors.LateErrorsAreReachable` | src/execution/engine.rs:319-358 | a run leads to a queued operation that was delivered once |
| `Traces.AfterIsRun` | src/execution/engine.rs:185-202 | steps that can be taken from the start are a run |
| `Traces.ExtendFinish` | src/execution/engine.rs:438-450 | record, store, turn terminal and release, in that order, end an operation |
| `Traces.ExtendCancel` | src/execution/engine.rs:459-477 | the same for a cancelled one |
| `DispatchOrder.PassRemoves` | src/execution/engine.rs:220-247 | taking actions off the fronts and putting some back in reverse leaves each queue without exactly the others |
| `DispatchOrder.PutBackUndoesIff` | src/execution/scheduler.rs:330-342 | a put-back undoes a dequeue exactly when its invocation has more waiting |
| `DispatchOrder.UndoneOrder` | src/execution/engine.rs:282-287 | an action taken and put back leaves every queue in order and every mark as it was, whatever stamp it gets |
| `DispatchOrder.PassFails` | src/execution/engine.rs:282-287 | a failed delivery leaves the account of a pass where it was |
| `Looks.TakenAgainIff` | src/execution/scheduler.rs:330-342 | an action put back is the next one taken exactly when its invocation has more waiting or every other invocation of its class scores strictly more |
| `Looks.FailedIsTakenAgainIff` | src/execution/engine.rs:282-287 | so in every state of the protocol an action whose delivery fails is looked at again next exactly then |
| `Looks.OnlyReturnedAgain` | src/execution/engine.rs:220-247 | a pass looks again only at an action whose delivery failed |
| `Looks.LooksOnceIff` | src/execution/engine.rs:215-219 | whatever becomes of its deliveries, a pass looks at each action at most once exactly when all that waits is of one class, one action to an invocation, and scores the same |
| `Looks.LookingTwiceIsReachable` | src/execution/engine.rs:220-247 | two actions of one invocation are reached, and a pass whose first delivery fails looks at the first of them twice |
| `Effects.EndedLocals` | src/execution/engine.rs:438-450 | ending an operation touches that operation only |
| `Effects.LossGoesOn` | src/execution/engine.rs:333-358 | one round of settling a lost worker: one more operation settled, the others as they were |
| `Effects.CancelGoesOn` | src/execution/engine.rs:461-477 | one round of cancelling |
| `Effects.GoneWasQueued` | src/execution/scheduler.rs:366-379 | what is handed over for cancelling is exactly what was queued and unwatched |
| `Engines.ExecutionEngine.constructor` | src/execution/engine.rs:135-170 | an engine with nothing in it stands at the start of a run |
| `Engines.ExecutionEngine.SubmitAction` | src/server/execution_service.rs:882-925 | queues the action, or names the operation running its digest and drops the new machine; the new operation shows as queued |
| `Engines.ExecutionEngine.Requeue` | src/execution/engine.rs:306-314 | back to the queue if the stage allows it |
| `Engines.ExecutionEngine.Dispatch` | src/execution/engine.rs:255-303 | delivered and active, put back, or released, by stage and channel |
| `Engines.ExecutionEngine.Round` | src/execution/engine.rs:223-242 | one round of a pass keeps account of what was taken, sent and kept, and of every look, failed deliveries included |
| `Engines.ExecutionEngine.Rounds` | src/execution/engine.rs:220-242 | as many rounds as actions wait, fewer if no worker is idle |
| `Engines.ExecutionEngine.PutAllBack` | src/execution/engine.rs:243-245 | putting the unmatched actions back in reverse restores the front of every queue and unmarks them |
| `Engines.ExecutionEngine.DispatchReady` | src/execution/engine.rs:220-247 | whatever becomes of the deliveries, each queue ends as it began without exactly the dispatched actions, and they are counted; a pass that sends nothing leaves the in-flight entries alone; it looks again only at what a failed delivery put back, and at nothing twice from a level start |
| `Engines.ExecutionEngine.Finalize` | src/execution/engine.rs:409-452 | a result whose operation is listed and can turn to the stage it calls for is the one recorded, stored and shown, and the digest is free; any other changes no result, stage or digest |
| `Engines.ExecutionEngine.ReportResult` | src/execution/engine.rs:377-398 | the same of a reported result; the engine stays where protocol steps lead exactly when it is not a late error |
| `Engines.ExecutionEngine.WorkerLost` | src/execution/engine.rs:319-358 | every operation the worker held waits again with one more loss, or fails when it has too many; every other operation is exactly as it was |
| `Engines.ExecutionEngine.CancelUnwatched` | src/execution/engine.rs:459-489 | every queued operation nobody follows fails, and is counted; every other operation is exactly as it was |
| `Engines.ExecutionEngine.CancelAbandoned` | src/execution/engine.rs:459-489 | cancels exactly the queued operations reported unwatched; one is abandoned indeed if the instant found was read after the last client left, as it is while no store lands behind a newer one and no drop is half way |
| `Lru.SplitAt` | src/cache/lru.rs:15-31 | a counter splits the recency list where its entry stands |
| `Lru.LruState.constructor` | src/cache/lru.rs:33-41 | nothing is tracked |
| `Lru.LruState.FloorCounter` | src/cache/lru.rs:45-47 | later counters sort after the stamp |
| `Lru.LruState.Touch` | src/cache/lru.rs:50-57 | remove and append, in the list |
| `Lru.LruState.Contains` | src/cache/lru.rs:59-61 | whether the list has the digest |
| `Lru.LruState.InsertAt` | src/cache/lru.rs:69-80 | refused exactly when the hash is indexed; otherwise at the first free counter from the stamp on, which is where the list gets the entry; the maps stay consistent exactly when the digest was untracked |
| `Lru.LruState.Remove` | src/cache/lru.rs:83-87 | deletes from the list and returns the recorded size |
| `Lru.LruState.PopLru` | src/cache/lru.rs:90-95 | takes the head of the list |
| `Lru.LruState.Evict` | src/cache/lru.rs:100-110 | takes exactly the shortest prefix whose sizes reach the bytes asked for, or everything |
| `Lru.LruState.Len` | src/cache/lru.rs:112-114 | the length of the list |
| `Lru.Probe` | src/cache/lru.rs:73-76 | the probing loop ends at the first free counter |
| `Lru.OneDigestTwoSlots` | src/cache/lru.rs:69-80 | a touch, a touch of another key, its removal and an insert leave one digest in two slots |
| `ShardedLayout.RestoreRecency` | src/cache/sharded_layout.rs:226-249 | every entry goes to the first slot not taken from its start on, which is its stamp or the slot after the previous start; counters rise strictly with the stamps; totals are exactly the entries added and their bytes; everything tracked before is as it was; a second restore changes nothing; into an empty list the entries are in order and each lies at most one slot past its start; the maps stay consistent exactly when every entry is harmless |
| `ShardedLayout.FoldOne` | src/cache/sharded_layout.rs:238-245 | one entry, at the later of its stamp and the slot after the previous one |
| `ShardedLayout.AscendingMore` | src/cache/sharded_layout.rs:238-245 | starting from the slot after the previous stamp, not the previous counter, still finds a later counter |
| `ActionCache.RunFits` | src/cache/action_cache.rs:146-267 | in every run of operations the values and the recency list track the same digests, at most max(capacity, 1) |
| `ActionCache.CachedIsLastPut` | src/cache/action_cache.rs:146-195 | what is cached for a digest is the last value put for it, not invalidated since |
| `ActionCache.ServedIsFresh` | src/cache/action_cache.rs:146-162 | in every run a lookup answers only with the last value put, not invalidated since and no older than the time to live, and marks it most recently used; whatever else is there is a miss, and gone |
| `ActionCache.RecentlyUsedIsServed` | src/cache/action_cache.rs:146-195 | an entry put, not invalidated and not expired is served as long as fewer than the capacity others were put or found since it last was |
| `ActionCache.CleanupIsExact` | src/cache/action_cache.rs:227-251 | cleaning up removes every entry expired at its first clock reading and none that was not expired at the reading made for it |
| `ActionCache.CleanupKeepsRecordsIff` | src/cache/action_cache.rs:227-251 | every entry keeps its expiration record exactly when no deadline is the first reading and the reading made for that entry too |
| `ActionCache.UnrecordedStays` | src/cache/action_cache.rs:227-251 | in any run, an entry that no record names outlives every sequence of cleanups |
| `ActionCache.TieIsForgotten` | src/cache/action_cache.rs:227-251 | a put and a cleanup at its deadline lose the record, and no sequence of cleanups then removes the entry |
| `ActionCache.PutKeepsRecordsIff` | src/cache/action_cache.rs:166-195 | a put keeps every record exactly when it does not sweep or no deadline is both readings |
| `ActionCache.RunRecordedIff` | src/cache/action_cache.rs:166-251 | in every run an entry has its record exactly when no sweep since it was last put fell on its deadline at both readings |
| `ActionCache.CleanupOfRunIsExact` | src/cache/action_cache.rs:227-251 | so a cleanup of any run removes every entry expired when it begins except exactly those |
| `ActionCache.L1ActionCache.GetEntry` | src/cache/action_cache.rs:146-162 | answers exactly with an entry no older than its time to live, which is marked used; an older one is removed and nothing else |
| `ActionCache.L1ActionCache.PutEntry` | src/cache/action_cache.rs:166-195 | evicts the least recently used entry for a new key at capacity, stores, and prunes a grown heap |
| `ActionCache.L1ActionCache.Invalidate` | src/cache/action_cache.rs:220-223 | removes the entry |
| `ActionCache.L1ActionCache.CleanupExpired` | src/cache/action_cache.rs:227-251 | popping due records soonest first, the clock read anew for each, removes exactly what had expired when it was looked at |
| `ActionCache.L1ActionCache.PruneGhosts` | src/cache/action_cache.rs:199-217 | keeps the records of cached digests, in order |
| `ActionCache.L1ActionCache.EvictOne` | src/cache/action_cache.rs:259-267 | the loop takes one entry, the least recently used |
| `ActionCache.PopCached` | src/cache/action_cache.rs:259-267 | the loop pops until a digest that is cached |
| `DiskCache.TrackedBytes` | src/cache/disk_action_cache.rs:292-296 | with no file left over, the bytes tracked are the bytes on disk |
| `DiskCache.DiskActionCache.Put` | src/cache/disk_action_cache.rs:249-303 | published exactly when the file is new, fits the budget and nothing fails; the accounted bytes stay the bytes on disk; within the budget when victims can be deleted; a published entry survives its own write; every tracked entry keeps a file of its own exactly when no other key of the hash was tracked or nothing was read |
| `DiskCache.DiskActionCache.EvictIfNeeded` | src/cache/disk_action_cache.rs:305-322 | back within the budget, sparing the newest entry |
| `DiskCache.DiskActionCache.Unlink` | src/cache/disk_action_cache.rs:314-321 | subtracts exactly the files that went |
| `DiskCache.WriteAll` | src/cache/disk_action_cache.rs:249-322 | any sequence of writes from empty, one key per hash and no disk failure: accounting, tracking and budget hold after every one, and what the last published is still there |
| `DiskCache.SparesTheLast` | src/cache/disk_action_cache.rs:313-322 | evicting what is over the budget spares the last entry if it fits the budget alone |
| `DiskRace.VictimsAreShortest` | src/cache/lru.rs:100-110 | the victims of a step are those of `evict` |
| `DiskRace.AdvanceMoves` | src/cache/disk_action_cache.rs:249-322 | a step moves bytes between the disk, the task that takes it and the counter, and loses none |
| `DiskRace.RunKeeps` | src/cache/disk_action_cache.rs:249-322 | over every interleaving the counter is the bytes on disk, less those linked and not counted, plus those unlinked and still counted, up to wrapping |
| `DiskRace.CounterIsBytesOnDisk` | src/cache/disk_action_cache.rs:249-322 | whenever no step is half done the counter is exactly the bytes of the published files, however many writers raced for each |
| `DiskRace.CounterIsExactIff` | src/cache/disk_action_cache.rs:293-319 | at any other moment it is exact exactly when no more is uncounted than is on disk or still counted |
| `DiskRace.StepWrapsIff` | src/cache/disk_action_cache.rs:314-319 | a step of a counter that has not wrapped wraps it exactly when it subtracts more than the counter shows |
| `DiskRace.NeverWrapsIff` | src/cache/disk_action_cache.rs:293-319 | the counter never wraps in a run exactly when no subtraction of the run takes more than it shows |
| `DiskRace.CounterCanWrap` | src/cache/disk_action_cache.rs:293-319 | a run in which it is not |
| `Consoles.ChunksDoNotMatter` | src/bes/console.rs:22-69 | feeding two pieces gives the same lines, pending tail and dirty mark as feeding the whole, for every split |
| `Consoles.AnyChunking` | src/bes/console.rs:22-69 | and for any number of pieces |
| `Consoles.CsiIsApplied` | src/bes/console.rs:43-60 | a complete sequence is applied and leaves no other trace |
| `Consoles.RedrawReplaces` | src/bes/console.rs:76-91 | moving up over the lines on show and printing others leaves the lines above, the new ones and nothing of the old |
| `Consoles.TextIsKept` | src/bes/console.rs:61-67 | plain text goes to the end of the last line |
| `Consoles.Watched` | src/bes/console.rs:93-110 | a client's copy agrees with the console below the dirty mark at every moment |
| `Consoles.ClientFollows` | src/bes/console.rs:105-110 | after each delta the client holds the console's lines, up to the first empty one, and the slice was in range |
| `Consoles.NothingChangedBelow` | src/bes/console.rs:93-110 | lines below the index a delta reports have not changed at any moment since the one before |
| `Consoles.Console.FeedChunk` | src/bes/console.rs:22-69 | the loop computes the specified screen and tail, which are those `Terminals` describes |
| `Consoles.Console.FeedOne` | src/bes/console.rs:33-67 | one character or one complete sequence |
| `Consoles.Console.Csi` | src/bes/console.rs:76-91 | pops rows but never the first line, and clears |
| `Consoles.Console.TakeChanges` | src/bes/console.rs:107-110 | hands over the lines from the mark on and forgets it |
| `Terminals.ConsoleIsATerminal` | src/bes/console.rs:22-103 | for any output made of text, carriage returns, newlines, cursor-ups, erasures, other sequences and stray escapes, in any chunks, the lines are those of a terminal, nothing is pending, and the mark is the first line touched |
| `Terminals.PieceShown` | src/bes/console.rs:33-91 | each of those does what a terminal does, and the rest is read after it |
| `Terminals.LineIsRewritten` | src/bes/console.rs:61-91 | text after a carriage return or an erasure takes the place of the current line |
| `Terminals.OthersAreDropped` | src/bes/console.rs:34-60 | any other sequence, and an escape that begins none, changes nothing |
| `Terminals.UpGoesUp` | src/bes/console.rs:76-87 | cursor-up without a number goes up one line and stays on the first |
| `Aggregates.EveryStatusIsCounted` | src/bes/storage.rs:157-164 | each status counter counts the records of that status and all add up |
| `Aggregates.ActionsAreSummed` | src/bes/storage.rs:165-167 | the action, cached and failed counts are the sums of what the records report |
| `Aggregates.LatestIsLatest` | src/bes/storage.rs:181-184 | the latest status is that of the record with the latest start, the last one on a tie |
| `Aggregates.TimesAreTotalled` | src/bes/storage.rs:168-172 | action time counts, sums and has as its maximum the times of records that ran, and not longer than their whole build |
| `Aggregates.KindIsTheFirst` | src/bes/storage.rs:173-175 | the kind is the first one any record gives |
| `Aggregates.TagsAreTheUnion` | src/bes/storage.rs:176-180 | every tag ever reported is listed, once |
| `Aggregates.TargetAggregate.AddExecution` | src/bes/storage.rs:157-185 | updates every total in place as specified |
| `Histories.StepKeeps` | src/bes/storage.rs:443-521 | every step of an append, the migration, a reload or a compaction keeps each record in its label file, the buffers, the part still to copy or the appender's hand as often as in the global history |
| `Histories.LabelFilesAgree` | src/bes/storage.rs:443-483 | once the index is ready and between appends each label file holds exactly its label's global records, as a multiset |
| `Histories.AggregatesAgree` | src/bes/storage.rs:1809-1914 | once warm and between appends each aggregate is the fold of its label's global records in file order, and there is one for each label with records |
| `Histories.ScannedIsFold` | src/bes/storage.rs:1881-1906 | a scan of the global history folds each label's records in order |
| `Histories.KeptCount` | src/bes/storage.rs:2372-2406 | compaction keeps each retained record as often as it was there |
| `HistoryLines.LimitIsSnapshot` | src/bes/storage.rs:343-370 | reading up to the bytes a file had, whatever was appended since, visits its terminated lines, and then as much as fits in the bytes after the last newline and one for each carriage return before a newline |
| `HistoryLines.SnapshotIsWholeIff` | src/bes/storage.rs:443-462 | those are all its lines, whatever was appended, exactly when it ended with a newline and no newline had a carriage return before it |
| `HistoryLines.AppendedIsReadAgain` | src/bes/storage.rs:436-442 | otherwise, of a terminated file, as many lines appended since are read again as fit in its carriage returns |
| `HistoryLines.AppendedLine` | src/bes/storage.rs:1132-1142 | an appended record is a line of its own |
| `HistoryLines.ForEachLineUpto` | src/bes/storage.rs:346-370 | visits the lines that end within the limit, trimmed, the blank ones left out |
| `HistoryLines.TrimIs` | src/bes/storage.rs:363-366 | trimming drops the white space at both ends and nothing else |
| `HistoryLines.MigrationReadsRecordsIff` | src/bes/storage.rs:443-462 | what the migration visits of a terminated file of records, whatever was appended since, is what it held, record for record, exactly when it had at most one such carriage return |
| `HistoryFiles.CompactJsonl` | src/bes/storage.rs:2372-2406 | writes exactly the records of retained builds, in order |
| `HistoryFiles.CompactLabelDir` | src/bes/storage.rs:2351-2368 | compacts every label file, in any order, and deletes those left empty |
| `HistoryFiles.BesStore.AppendTargetExecution` | src/bes/storage.rs:1809-1823 | is the three steps of an append and leaves the store where a run leads |
| `HistoryFiles.BesStore.ReloadAggregates` | src/bes/storage.rs:1881-1914 | is the reload step: the aggregates are those a scan builds |
| `HistoryFiles.BesStore.CompactHistories` | src/bes/storage.rs:2164-2189 | once the index is ready is the compaction step; before that the global history and the aggregates only are those of the retained builds |
| `HistoryFiles.BesStore.Push` | src/bes/storage.rs:498-509 | is a copy step, and flush steps when the buffers are full; the record goes behind what its label has |
| `HistoryFiles.BesStore.FlushAll` | src/bes/storage.rs:511-521 | is a flush step for each buffer, in any order; every buffer goes to the end of its file |
| `HistoryFiles.BesStore.MigrateLabelIndex` | src/bes/storage.rs:443-462 | takes the migration's steps only, ends with the index ready, and undisturbed gives each label file its label's records in the order of the global history |
| `HistoryFiles.StoreAgrees` | src/bes/storage.rs:1809-1914 | between any two calls of a store its label files and aggregates agree with its global history |
| `HistoryFiles.BesStore.GetTargetHistory` | src/bes/storage.rs:2012-2035 | oldest build first, and once warm exactly the records of the label, before and after the index is ready |
| `HistoryOrder.SortByBuild` | src/bes/storage.rs:2029-2033 | sorts by start time, absent first, then by invocation, and loses no record |
| `HistoryOrder.NotAfterIff` | src/bes/storage.rs:2029-2033 | one record goes before another without a start, with an earlier one, or with the same and no greater invocation |
| `Text.LessIff` | src/bes/storage.rs:2029-2033 | one string is below another exactly if it is a proper prefix or has the smaller character at the first difference |
| `HistoryOrder.OneAnswer` | src/bes/storage.rs:2029-2033 | the records decide the answer: it does not depend on the order they were read in, as long as no build has two of them |
| `Pagination.CursorRoundTripIff` | src/bes/storage.rs:845-867 | `parse_cursor` inverts `cursor_of` exactly when the id has no bar |
| `Pagination.InvocationIdsRoundTrip` | src/bes/config.rs:125-131 | as no valid invocation id has |
| `Pagination.PageIsGood` | src/bes/storage.rs:1542-1571 | a page lists matching builds below the cursor, newest first, and leaves out only builds below its last one, which its next cursor names |
| `Pagination.ListingExists` | src/bes/storage.rs:1528-1536 | every index has a listing |
| `Pagination.ListingIsNewestFirst` | src/bes/storage.rs:1528-1536 | a listing holds every build, by start time with the latest first, no start counting as the empty string, and by id on a tie |
| `Pagination.PageIsFull` | src/bes/storage.rs:1542-1571 | so does every page; the total counts the matching builds; there is a next cursor exactly while matching builds below are left, then the page holds the limit brought into 1 to 500, and the cursor is its last build's start, a bar and its id |
| `Pagination.ServedNewestFirst` | src/bes/storage.rs:1538-1571 | all a session serves, from its first page to its last, is in that order |
| `Pagination.NeverServedTwice` | src/bes/storage.rs:1538-1571 | following the cursor while builds are added never serves a build twice |
| `Pagination.EverythingIsServed` | src/bes/storage.rs:1538-1571 | once the cursor is absent every matching build there from the start was served |
| `SingleFlight.OneLeaderPerKey` | src/proxy/singleflight.rs:59-73 | at most one guard per key is alive, and the map has a key exactly while one is |
| `SingleFlight.FollowersGetTheOutcome` | src/proxy/singleflight.rs:97-142 | what a follower got was sent by its leader, or is the abandonment failure and the leader was dropped without sending; never "leader vanished" |
| `SingleFlight.SentOnce` | src/proxy/singleflight.rs:97-112 | a leader sends once at most |
| `SingleFlight.AllGetTheSame` | src/proxy/singleflight.rs:132-142 | two followers of one flight never got different outcomes, whenever they looked |
| `SingleFlight.OneOutcome` | src/proxy/singleflight.rs:104-128 | a leader settles on one outcome for good |
| `SingleFlight.NoneIsParked` | src/proxy/singleflight.rs:132-142 | once the sender is gone a waiting follower is woken and has the outcome after one poll more |
| `SingleFlight.ReleasedBeforeNotifiedIff` | src/proxy/singleflight.rs:104-128 | the key is released before followers are notified exactly when the guard is dropped unresolved |
| `SingleFlight.WokenCallerRejoins` | src/proxy/singleflight.rs:59-73 | a caller who begins between the send and the drop follows the settled flight and gets its outcome again |

## Left out

- The gRPC, HTTP, WebSocket, UI, MCP, OAuth, CLI, metrics and Kubernetes code: plumbing.
- `WorkerRegistry`, worker selection, heartbeats and the CAS backends: choices of the environment here.
- The window between sending an assignment and recording it as active: `dispatch` is one step.
- Stale in-flight cleanup is modelled for the running counters only: it releases digests still
  queued or running, so the one-place and merging claims are about runs without it.
- ProtocolTheorems.RunIsSafe: runs hold no late error; `LateErrors` says exactly what one does.
- Results expire from the store after a while; here they stay.
- Watches.NeverEarlyIff: loads see the latest store; the code stores and loads the instant with relaxed
  ordering. A client who follows after the counter was loaded is not part of what was seen.
- Rounding of scores: the code computes them in floating point, where large counts or priorities
  can tie or overflow.
- Fairness.SharesFollowWeights: is about invocations that stay backlogged in one class; a put-back
  or completion of `j` lets `i` get further ahead, and the order between invocations after an
  emptied one is queued again is not claimed.
- The transition from `Assigned` through `Downloading`, `Executing` and `Uploading` is in the stage
  table only: no modelled task makes those moves.
- 64-bit overflow of recency counters, stamps and the L1 clock.
- Lru.LruState.InsertAt: does not claim that restored entries rank below live touches, which fails
  for touches made before the floor was set.
- ShardedLayout.RestoreRecency: is one call with nothing in between; requests served while the lock
  is released between chunks are not interleaved.
- DiskCache.DiskActionCache.Put: does not update the in-memory tier, which the real one does first;
  nothing is claimed of calls made once two keys share a file.
- `DiskActionCache::remove`, `discard` and the accounting before warm-up.
- ActionCache.L1ActionCache.PutEntry: no bound on the number of expiration records, since pruning
  keeps every record of a digest that was put again.
- Parsing of records: a history is a sequence of records and lines are split from files apart from
  it; a line that holds several records, or an unparsable one, is not modelled.
- Appends that fail half way, migrations restarted after a crash, and compaction during a migration.
- HistoryFiles.BesStore.CompactHistories: before the index is ready it says what the files become,
  and nothing of the migration that goes on reading the file it replaced.
- HistoryFiles.BesStore.MigrateLabelIndex: its limit counts records; that the byte limit of the code
  selects the records there at the start is `HistoryLines.MigrationReadsRecordsIff`.
- Terminals.ConsoleIsATerminal: rows of a cursor-up are written in plain decimal or are no number at
  all; a signed or zero-padded number, or one above 64 bits, is in `Consoles.CsiIsApplied` only.
- Test histories, which are kept like target histories.
- Pagination.NeverServedTwice: entries of the index do not change once they are there; a build whose
  start time changes between two requests can be served twice.
- Redaction, URL and artifact classification, profile summaries and configuration parsing: easier
  members.
