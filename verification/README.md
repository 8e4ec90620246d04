# Verified models of Phala's schedulers, queues, ledger and stores

This project models eight small state machines of the Phala blockchain repository in Dafny and proves
what holds in all their runs.

- **Fair request queue** (`KeyedQueue`, `FairQueue*`, `RequestScheduler`, `Quotients`): start-time fair queueing with
  per-flow finish tags, a bounded backlog, eviction of the largest start tag and tag rollback.
- **Task scheduler** (`TaskQueue*`, `TaskScheduler`, `Quotients`): virtual-runtime scheduling of tasks on a number of
  virtual cores, with a clock that is rebased when it passes half its range.
- **Off-chain to on-chain messages** (`Mq*`, `SendQueue`): replicas that
  number and sign messages, a relayer that copies, repeats, reorders and drops them, and a chain that
  accepts the expected sequence only.
- **In-worker dispatch** (`MessageDispatch`, `MessageMerge`): per-topic queues stamped with a running
  index and merged by the smallest one.
- **Paid SideVM ledger** (`SidevmLedger*`, `SidevmOp`): two indexes and a list that must agree while money
  is taken, credited and refunded.
- **Reference-counted node store** (`NodeStore*`, `MemoryDb`): signed counts, placeholders, batch
  consolidation and a checkpoint without keys.
- **Allocator statistics** (`PeakCounter*`, `StatSizeAllocator`): a lock-free peak counter, one atomic
  operation per step.
- **Dispatch on a copy** (`Rcu`): clone, dispatch unlocked, write back, apply the effects that waited.

Each machine is a set of functions on a state value. `Exec` runs a sequence of events, `Enabled` and
`Feasible` say which events a caller may issue, and the theorems speak of every such run. Where the
source updates fields in place, a class does the same, and its methods are proved equal to the functions.

Where the code does not meet a property one would expect of it, a lemma exhibits a failing run or input,
and an if-and-only-if lemma (or the exact hypothesis of the theorem) says when it does:

- a purge forgets flows that still have requests waiting, because the activity time is set at creation
  only (`PurgeKeepsInvIff`, `PurgedFlowOverlaps`, `PurgeOfQueuedFlowReachable`), and a later eviction can
  then take a finish tag below zero (`PurgeUnderflows`, `EvictionAfterPurge`);
- a task id that returns while its stale entry is queued can cost a core for good (`CoreLost`,
  `LostForGood`, `CoresTaken`);
- the same stale entry can make the drop of a running guard panic (`StaleEntryPanics`, `PanicsIff`);
- a clock reset does not rebase the queued keys (`LagBrokenByReset`, `LagSurvivesResetIff`);
- worker lists lose adjacent repeats only, so a deployment can exceed the limit (`DeployOverLimit`,
  `DeployWithinIff`, `WithinIffNoRepeats`);
- a consolidation and a replay answer differently for values that collide (`CollisionSplitsAnswers`,
  `ConsolidateAnswersReplay`);
- a checkpoint misplaces placeholders (`CheckpointRoundTripIff`, `CheckpointMisplacesPlaceholder`);
- two concurrent readers can lose the peak (`PeakLostFromNew`, `TwoReadersLosePeak`,
  `StoreKeepsIff`);
- a message with an invalid destination holds up its origin (`InvalidFirstMessage`,
  `InvalidDestinationBlocks`, `NothingLost`);
- effects beyond the 64th during one dispatch are dropped (`LateEffectsLost`, `TakenAtMostArrived`).

The purge is named for inactive flows and the field for recent activity; the model follows what the code
does with them.

## Model

| member | source | states |
|---|---|---|
| `KeyedQueue.Rank` | crates/phala-scheduler/src/request_scheduler.rs:242-246 | an entry goes behind every entry whose key is not larger and before the first whose key is larger |
| `KeyedQueue.InsertKeepsOrder` | crates/phala-scheduler/src/request_scheduler.rs:242-246 | inserting keeps the backlog sorted by start tag, duplicates included |
| `FairQueueInvariant.NextStartOfQueuedFlow` | crates/phala-scheduler/src/request_scheduler.rs:208-212 | while a flow has requests waiting, its next one starts exactly at its previous finish tag, behind all of them |
| `FairQueueInvariant.InsertAppendsToFlow` | crates/phala-scheduler/src/request_scheduler.rs:208-246 | a newcomer is placed behind every waiting request of its own flow |
| `FairQueueInvariant.RetractInv` | crates/phala-scheduler/src/request_scheduler.rs:230-236 | popping the largest tag and rolling its flow back keeps the invariant: the flow's finish tag becomes the popped start tag, so the subtraction does not underflow |
| `FairQueueInvariant.NeverEvictsOwnFlow` | crates/phala-scheduler/src/request_scheduler.rs:217-236 | a newcomer below the largest waiting tag never evicts a request of its own flow |
| `FairQueueInvariant.EvictingArrival` | crates/phala-scheduler/src/request_scheduler.rs:217-246 | an arrival that evicts is, up to the drop counters, the arrival at the queue without the evicted request |
| `FairQueueInvariant.ArriveInv` | crates/phala-scheduler/src/request_scheduler.rs:196-255 | an arrival keeps the invariant in all three outcomes and does not panic when the cap is at least one |
| `FairQueueInvariant.ReleaseInv` | crates/phala-scheduler/src/request_scheduler.rs:257-291 | dropping a guard keeps the invariant and virtual time does not go back |
| `FairQueueInvariant.PurgeKeepsInvIff` | crates/phala-scheduler/src/request_scheduler.rs:293-297 | purging keeps the invariant if and only if no flow with waiting requests is old enough to be purged |
| `FairQueueInvariant.PurgedFlowOverlaps` | crates/phala-scheduler/src/request_scheduler.rs:293-297 | after such a purge the flow's next request is tagged to start at virtual time, not behind the flow's waiting requests |
| `FairQueueInvariant.PurgeOfQueuedFlowReachable` | crates/phala-scheduler/src/request_scheduler.rs:196-205 | two arrivals of any flow lead to a waiting flow whose record, dated at its creation only, a later purge removes |
| `FairQueuePurge.EvictionAfterPurge` | crates/phala-scheduler/src/request_scheduler.rs:208-236 | when such a flow comes back and its old request is evicted, its finish tag is virtual time plus the new cost minus the old one, below zero if and only if the old cost is larger |
| `FairQueuePurge.StartsOver` | crates/phala-scheduler/src/request_scheduler.rs:293-297 | any purged flow is tagged from virtual time next, earlier than without the purge if and only if its finish tag was ahead |
| `FairQueuePurge.PurgeUnderflows` | crates/phala-scheduler/src/request_scheduler.rs:196-297 | a run of a new queue in which this happens: the tag ends at 2 - actual / 5 for any actual cost from 15 on |
| `FairQueueInvariant.StepInv` | crates/phala-scheduler/src/request_scheduler.rs:196-297 | every operation keeps the invariant; virtual time and the list of served requests only grow |
| `FairQueueInvariant.RunInv` | crates/phala-scheduler/src/request_scheduler.rs:196-297 | in every run: each flow's waiting requests tile an interval ending at its finish tag, virtual time is at most every waiting tag and never decreases, serving is at most depth and equal to it while requests wait, the backlog is within its cap, nothing underflows |
| `FairQueueFairness.RunNear` | crates/phala-scheduler/src/request_scheduler.rs:196-291 | in every run a waiting flow's head is never more than its largest cost tag ahead of virtual time |
| `FairQueueFairness.WorkIsHeadAdvance` | crates/phala-scheduler/src/request_scheduler.rs:267-291 | over a stretch in which a flow keeps waiting, the cost tags served to it are the distance its head tag moves, whatever arrives, is rejected or is evicted |
| `FairQueueFairness.Fairness` | crates/phala-scheduler/src/request_scheduler.rs:196-291 | over any stretch of any run in which two flows both keep waiting, the cost tags served to them differ by at most the sum of their largest cost tags |
| `FairQueueShare.ServedInTagOrder` | crates/phala-scheduler/src/request_scheduler.rs:238-291 | in every run the start tags of the served requests never go down |
| `FairQueueShare.BoundedShare` | crates/phala-scheduler/src/request_scheduler.rs:196-291 | over any stretch of any run over which a request waits, a flow whose record is not purged is served at most the distance of that request's tag from virtual time plus its own largest cost tag |
| `FairQueueWeights.TaggedByWeight` | crates/phala-scheduler/src/request_scheduler.rs:208-254 | every request that is taken is tagged to start at the larger of virtual time and its flow's finish tag, and costs the flow's average divided by the weight, rounded down and at least one; it waits or is served with these tags and the finish tag moves past it |
| `FairQueueWeights.OutcomeIff` | crates/phala-scheduler/src/request_scheduler.rs:217-252 | a request is served at once if and only if a slot is free, rejected if and only if the backlog is full and nothing waiting has a larger tag, and waits otherwise |
| `FairQueueWeights.AverageMoves` | crates/phala-scheduler/src/request_scheduler.rs:257-262 | a release moves the flow's average a fifth of the way to the actual cost, rounded down, and never past it |
| `FairQueueWeights.WeightedFairness` | crates/phala-scheduler/src/request_scheduler.rs:196-291 | over a stretch in which two flows keep waiting with steady averages and weights, the numbers of requests served, each times its average divided by its weight, differ by at most the sum of the largest cost tags |
| `FairQueueDrops.SameFuture` | crates/phala-scheduler/src/request_scheduler.rs:196-297 | states equal up to statistics serve the same requests with the same tags in the same order, for ever |
| `FairQueueDrops.RejectionLeavesNoTrace` | crates/phala-scheduler/src/request_scheduler.rs:200-227 | a rejected request has the largest start tag, and every future is that of the queue it found, with the flow's record opened if there was none |
| `FairQueueDrops.EvictionLeavesNoTrace` | crates/phala-scheduler/src/request_scheduler.rs:228-236 | an evicted request has the largest start tag and is of another flow; every future is the one of a queue that did not hold it |
| `FairQueueDrops.RetractUndoesArrival` | crates/phala-scheduler/src/request_scheduler.rs:208-246 | popping a request just queued last restores the queue it found: rollback inverts tagging |
| `FairQueueDrops.EveryRequestAccountedFor` | crates/phala-scheduler/src/request_scheduler.rs:214-291 | in every run total = dropped + waiting + served, globally and for every flow whose record was not purged |
| `FairQueueDrops.TimeAccountedFor` | crates/phala-scheduler/src/request_scheduler.rs:257-263 | in every run the time counted is that of all releases, and for each flow whose record is not purged that of its own |
| `RequestScheduler.SchedulerInner.constructor` | crates/phala-scheduler/src/request_scheduler.rs:183-194 | starts as the empty queue |
| `RequestScheduler.SchedulerInner.Acquire` | crates/phala-scheduler/src/request_scheduler.rs:196-255 | in-place form equals the arrival function; panics exactly when the cap is zero and nothing waits |
| `RequestScheduler.SchedulerInner.Tag` | crates/phala-scheduler/src/request_scheduler.rs:201-215 | in-place form tags and counts the newcomer |
| `RequestScheduler.SchedulerInner.RejectNewcomer` | crates/phala-scheduler/src/request_scheduler.rs:222-227 | in-place form takes the tag back and counts the drop |
| `RequestScheduler.SchedulerInner.EvictLast` | crates/phala-scheduler/src/request_scheduler.rs:230-236 | in-place form equals eviction |
| `RequestScheduler.SchedulerInner.Place` | crates/phala-scheduler/src/request_scheduler.rs:240-254 | in-place form serves at once or queues |
| `RequestScheduler.SchedulerInner.Release` | crates/phala-scheduler/src/request_scheduler.rs:257-265 | in-place form equals the release function |
| `RequestScheduler.SchedulerInner.Charge` | crates/phala-scheduler/src/request_scheduler.rs:257-262 | in-place form updates average cost and times, for a purged flow the global time only |
| `RequestScheduler.SchedulerInner.TryPickupNext` | crates/phala-scheduler/src/request_scheduler.rs:267-271 | in-place form serves the smallest start tag |
| `RequestScheduler.SchedulerInner.Dispatch` | crates/phala-scheduler/src/request_scheduler.rs:273-291 | in-place form takes a slot, moves virtual time and hands out a guard |
| `RequestScheduler.SchedulerInner.PurgeInactiveFlows` | crates/phala-scheduler/src/request_scheduler.rs:293-297 | in-place form removes exactly the old records |
| `TaskQueueOccupancy.PopLeaksIff` | crates/phala-scheduler/src/task_scheduler.rs:187-204 | taking an entry loses a core if and only if its task already has one |
| `TaskQueueOccupancy.ScheduleInv` | crates/phala-scheduler/src/task_scheduler.rs:187-204 | the scheduling loop ends with all cores taken or nothing waiting, keeps every ready task queued, and never gives a lost core back |
| `TaskQueueOccupancy.StepInv` | crates/phala-scheduler/src/task_scheduler.rs:104-228 | every operation keeps the occupancy invariant and never lowers the number of lost cores |
| `TaskQueueOccupancy.RunInv` | crates/phala-scheduler/src/task_scheduler.rs:104-228 | in every run: tasks on a core <= cores taken <= cores, a non-empty ready queue means all cores are taken, every ready task has an entry |
| `TaskQueueLosses.ScheduleLosses` | crates/phala-scheduler/src/task_scheduler.rs:187-204 | the scheduling loop loses exactly one core for every entry it takes of a task that has a core already |
| `TaskQueueLosses.StepLeaks` | crates/phala-scheduler/src/task_scheduler.rs:104-228 | so does every call |
| `TaskQueueLosses.CoresTaken` | crates/phala-scheduler/src/task_scheduler.rs:104-228 | in every run of a new scheduler the cores counted as taken are the active tasks and one more for every such entry; so the count is exact if and only if there was none |
| `TaskQueueClock.ResetTimely` | crates/phala-scheduler/src/task_scheduler.rs:206-213 | a reset rebases every task's runtime without breaking any bound, although the queued keys stay where they were |
| `TaskQueueClock.ResetKeepsLeads` | crates/phala-scheduler/src/task_scheduler.rs:206-213 | a reset leaves every task as far ahead of the clock as it was |
| `TaskQueueClock.StepShows` | crates/phala-scheduler/src/task_scheduler.rs:104-228 | the clock only moves to the key of an entry that is given a core, or to zero at a reset |
| `TaskQueueClock.RunExact` | crates/phala-scheduler/src/task_scheduler.rs:104-228 | in every run in which no id returns while its stale entry is queued, occupancy is exact, no id is queued twice and all times are bounded |
| `TaskQueueClock.ClockNeverOverflows` | crates/phala-scheduler/src/task_scheduler.rs:115-213 | with charges of at most c <= 2^126: cores taken = active tasks, clock <= MAX/2 + c, every runtime <= clock + c, active runtimes <= clock, and the addition in park fits, across any number of resets |
| `TaskQueueLag.RunLag` | crates/phala-scheduler/src/task_scheduler.rs:128-204 | in runs without a reset and in which no id returns while its stale entry is queued, the waiting keys stay in [clock, clock + c] and the clock never goes back |
| `TaskQueueLag.BoundedLag` | crates/phala-scheduler/src/task_scheduler.rs:128-204 | the same bound for such runs of a new scheduler |
| `TaskQueueLag.LagSurvivesResetIff` | crates/phala-scheduler/src/task_scheduler.rs:206-213 | the bound survives a reset if and only if nothing is waiting |
| `TaskQueueLag.NoStarvation` | crates/phala-scheduler/src/task_scheduler.rs:128-204 | in such runs, while an entry with key k waits, any task that does not exit gets at most k - clock + 1 turns |
| `TaskQueueCharges.ChargedByWeight` | crates/phala-scheduler/src/task_scheduler.rs:174-184 | the end of a run raises the task's virtual runtime by its cost divided by the weight, rounded down and at least one, and no other task's |
| `TaskQueueCharges.WeightedTurns` | crates/phala-scheduler/src/task_scheduler.rs:128-228 | in the same runs, a task whose runs cost at least m times its weight has at most (k - clock) / m + 1 turns while an entry with key k waits |
| `TaskQueueReset.LagBrokenByReset` | crates/phala-scheduler/src/task_scheduler.rs:206-213 | a run of 14 calls, with a guard for each drop and without stale entries, after which a reset has left an entry waiting 2c ahead of the clock, for any largest charge c with c <= MAX/2 < 2c |
| `TaskQueueLeak.QueuedTwice` | crates/phala-scheduler/src/task_scheduler.rs:104-138 | a task that leaves and returns while all cores are taken is queued twice |
| `TaskQueueLeak.TwoCoresForOne` | crates/phala-scheduler/src/task_scheduler.rs:104-113 | a task queued twice is handed two cores and gives one back |
| `TaskQueueLeak.CoreLost` | crates/phala-scheduler/src/task_scheduler.rs:104-204 | a run of eight calls that ends with no task and one of two cores still taken |
| `TaskQueueLeak.LostForGood` | crates/phala-scheduler/src/task_scheduler.rs:104-228 | a lost core never comes back, in any continuation |
| `TaskQueueLeak.StaleEntryPanics` | crates/phala-scheduler/src/task_scheduler.rs:168-204 | a run of nine calls, none of them a poll of a task with a guard, that ends in a panic: the stale entry is taken while its task runs, and dropping the guard finds the task not running |
| `TaskQueuePanics.ScheduleStolen` | crates/phala-scheduler/src/task_scheduler.rs:187-204 | the scheduling loop takes a task away from its guard exactly when it takes an entry of a task that is running |
| `TaskQueuePanics.StepPanicsIff` | crates/phala-scheduler/src/task_scheduler.rs:104-228 | if tasks with a guard are not polled, a call panics if and only if it drops the guard of a task so taken, or a charge overflows; only the task's exit or that drop ends the condition |
| `TaskQueuePanics.PanicsIff` | crates/phala-scheduler/src/task_scheduler.rs:104-228 | a run of a new scheduler in which tasks with a guard are not polled panics if and only if some guard is dropped after an entry of its task was taken while the task ran and before it exited, or some charge overflows |
| `TaskQueuePanics.NeverPanics` | crates/phala-scheduler/src/task_scheduler.rs:104-228 | if moreover no id returns while its stale entry is queued and every charge is at most c <= 2^126, no run panics; exits while a guard is alive are allowed |
| `TaskScheduler.SchedulerInner.constructor` | crates/phala-scheduler/src/task_scheduler.rs:93-102 | starts as the empty scheduler |
| `TaskScheduler.SchedulerInner.Exit` | crates/phala-scheduler/src/task_scheduler.rs:104-113 | in-place form equals the exit function |
| `TaskScheduler.SchedulerInner.PollResume` | crates/phala-scheduler/src/task_scheduler.rs:115-165 | in-place form equals the poll function; ready exactly when the task had been handed a core; panics exactly when the function says so |
| `TaskScheduler.SchedulerInner.DropGuard` | crates/phala-scheduler/src/task_scheduler.rs:216-228 | in-place form charges the run and parks the task |
| `TaskScheduler.SchedulerInner.Park` | crates/phala-scheduler/src/task_scheduler.rs:168-184 | in-place form equals the park function, overflow included |
| `TaskScheduler.SchedulerInner.Schedule` | crates/phala-scheduler/src/task_scheduler.rs:187-204 | the loop equals the recursive scheduling function |
| `TaskScheduler.SchedulerInner.MaybeResetClock` | crates/phala-scheduler/src/task_scheduler.rs:206-213 | the loop over all tasks equals the reset function |
| `SendQueue.RetainedMembers` | crates/phala-mq/src/send_queue.rs:123-129 | purging keeps exactly the messages from the given sequence on |
| `SendQueue.MessageSendQueue.constructor` | crates/phala-mq/src/send_queue.rs:43-47 | starts without channels |
| `SendQueue.MessageSendQueue.EnqueueMessage` | crates/phala-mq/src/send_queue.rs:53-82 | in-place form: the sequence advances in either mode, the signed message is kept unless in dummy mode |
| `SendQueue.MessageSendQueue.SetDummyMode` | crates/phala-mq/src/send_queue.rs:84-88 | in-place form creates the channel if needed and sets its mode only |
| `SendQueue.MessageSendQueue.Retain` | crates/phala-mq/src/send_queue.rs:127 | the loop keeps exactly the messages at or above the given sequence, in order |
| `SendQueue.MessageSendQueue.PurgeAccepted` | crates/phala-mq/src/send_queue.rs:123-129 | the loop over all channels equals purging each by its own sequence |
| `SendQueue.MessageSendQueue.DumpState` | crates/phala-mq/src/send_queue.rs:131-134 | returns the channel exactly when there is one |
| `MqPallet.DispatchAllEffect` | pallets/phala/src/mq.rs:131-140 | dispatching a list publishes its off-chain messages in order and leaves the expected sequences alone |
| `MqPallet.VerdictIff` | pallets/phala/src/mq.rs:72-89 | exactly when each verdict is given: the first failing check of sender, destination, sequence and signature decides |
| `MqPallet.Storage.constructor` | pallets/phala/src/mq.rs:36-48 | starts empty |
| `MqPallet.Storage.SyncOffchainMessage` | pallets/phala/src/mq.rs:66-95 | in-place form: checks sender, destination, sequence and signature in this order; only an accepted message changes anything |
| `MqPallet.Storage.DispatchMessage` | pallets/phala/src/mq.rs:131-140 | in-place form publishes a message exactly when its destination is off chain |
| `MqPallet.Storage.OnInitialize` | pallets/phala/src/mq.rs:167-179 | the block hook's loop clears the block and dispatches what was queued, in order |
| `MqProtocol.RunDelivered` | pallets/phala/src/mq.rs:66-179 | every run of replicas, relayer and chain keeps: received from an origin = a prefix of its log |
| `MqProtocol.ExactlyOnceInOrder` | pallets/phala/src/mq.rs:66-95 | for any replicas that agree on a log and any relaying, dummy toggling, purging, dumping and loading, the messages accepted from an off-chain origin are exactly log entries 0..n-1 in order, n being the expected sequence; what the block publishes is its off-chain part |
| `MqProtocol.RunKept` | crates/phala-mq/src/send_queue.rs:53-139 | every run keeps the channels that were never in dummy mode complete, dumps included |
| `MqProtocol.NothingLost` | crates/phactory/src/lib.rs:126-129 | a replica never in dummy mode holds every message from the one the chain wants next to the last it sent, though it purges by an old view; relaying the wanted one is accepted if and only if its destination is valid |
| `MqProtocol.InvalidDestinationBlocks` | pallets/phala/src/mq.rs:76-87 | a log entry whose destination the chain refuses holds up its origin for ever |
| `MqProtocol.InvalidFirstMessage` | pallets/phala/src/mq.rs:76-87 | from genesis, a replica that first sends to an invalid destination: the relayed message is refused for its destination, and in every continuation the chain receives nothing from the origin |
| `MqNumbering.SequenceCountsSends` | crates/phala-mq/src/send_queue.rs:53-88 | in every run, since its last load, a replica's sequence for an origin grows by one for every message it sends as the origin, in dummy mode or not |
| `MqNumbering.HoldsNumbered` | crates/phala-mq/src/send_queue.rs:53-88 | as long as it does not purge, it holds exactly the messages it sent while not in dummy mode, each under its place among all it sent |
| `MqNumbering.LoadRestoresDump` | crates/phala-mq/src/send_queue.rs:131-139 | a dump loaded at any later time, on any replica, is the channel as it was |
| `MqNumbering.NewReplicaNumbers` | crates/phala-mq/src/send_queue.rs:53-88 | from genesis the numbers start at zero |
| `MqOnchain.BlockDispatchesQueued` | pallets/phala/src/mq.rs:167-179 | a new block hands out what was queued, in order, publishes its off-chain part and nothing else, and leaves the expected sequences alone |
| `MqOnchain.OnchainInOrder` | pallets/phala/src/mq.rs:131-179 | in every run the messages received from on-chain senders are those pushed at once and those queued, each once, the latter in order at the next block; the others still wait |
| `MessageDispatch.PickIsSmallest` | crates/phala-mq/src/dispatcher.rs:223-259 | the selection takes the first of the smallest stamps, and nothing exactly when every receiver is empty |
| `MessageDispatch.GoneIsPicked` | crates/phala-mq/src/dispatcher.rs:231-241 | a receiver whose senders are gone is taken in preference to any message, the last such one |
| `MessageDispatch.MessageDispatcher.constructor` | crates/phala-mq/src/dispatcher.rs:62-67 | starts without subscriptions at index zero |
| `MessageDispatch.MessageDispatcher.SubscribeTo` | crates/phala-mq/src/dispatcher.rs:71-80 | in-place form adds one empty channel behind the topic's others |
| `MessageDispatch.SendAllKeepsLive` | crates/phala-mq/src/dispatcher.rs:90-108 | sending keeps exactly the subscribers that have a receiver and takes a sender from each of the others |
| `MessageDispatch.DispatchKeepsLive` | crates/phala-mq/src/dispatcher.rs:90-108 | after a dispatch the topic lists exactly the subscribers that were reached, and no other topic's list changes |
| `MessageDispatch.PeekIff` | crates/phala-mq/src/simple_mpsc.rs:96-104 | a receiver sees its oldest message as long as there is one, and only then that its senders are gone |
| `MessageDispatch.OrderOfSubscription` | crates/phala-mq/src/dispatcher.rs:71-108 | a topic's subscribers stay in the order of subscription |
| `MessageDispatch.MessageDispatcher.DispatchMessage` | crates/phala-mq/src/dispatcher.rs:90-108 | the retain loop equals sending to every live subscriber and dropping the others; returns the number of those with a receiver |
| `MessageDispatch.MessageDispatcher.Select` | crates/phala-mq/src/dispatcher.rs:223-259 | the macro's scan equals the recursive choice and takes that receiver's head |
| `MessageDispatch.MessageDispatcher.ClearList` | crates/phala-mq/src/simple_mpsc.rs:46-49 | empties the queues of one topic's subscriptions and no others, and counts what was dropped |
| `MessageDispatch.MessageDispatcher.ClearAll` | crates/phala-mq/src/dispatcher.rs:115-121 | the loop over topics empties exactly the subscribed queues and returns the number of messages dropped |
| `MessageMerge.DispatchInv` | crates/phala-mq/src/dispatcher.rs:90-108 | a dispatch keeps order and conservation for every receiver of the selection |
| `MessageMerge.TakesEarliest` | crates/phala-mq/src/dispatcher.rs:223-259 | what the selection takes is no later than anything waiting at any of its receivers |
| `MessageMerge.TakeInv` | crates/phala-mq/src/simple_mpsc.rs:79-104 | taking keeps order and conservation |
| `MessageMerge.NextBlockInv` | crates/phactory/src/prpc_service.rs:707-758 | reset plus clear re-establishes both at a block boundary |
| `MessageMerge.RunInv` | crates/phala-mq/src/dispatcher.rs:71-121 | every interleaving of subscribing, dispatching, selecting, other readers and block boundaries keeps both |
| `MessageMerge.MergeOrder` | crates/phala-mq/src/dispatcher.rs:90-259 | in every run messages come out of the selection in dispatch order; what came out of a receiver plus what waits in it is exactly what was dispatched to its topic; a selection that takes nothing has nothing left |
| `SidevmLedger.PriceRefusedIff` | crates/pink-drivers/sidevm_deployer/lib.rs:468-485 | the checked computation fails if and only if the memory size, the price for one worker or the price for all exceeds 128 bits, and is the price for all otherwise; with a worker the last is the largest |
| `SidevmLedgerIndex.TimesIsMultiplicity` | crates/pink-drivers/sidevm_deployer/lib.rs:180-261 | the count used for worker lists is multiset multiplicity |
| `SidevmLedgerIndex.ClearAgrees` | crates/pink-drivers/sidevm_deployer/lib.rs:180-202 | clearing succeeds exactly when the contract has instances, removes exactly it, and the indexes still agree |
| `SidevmLedgerIndex.RecycleAgrees` | crates/pink-drivers/sidevm_deployer/lib.rs:204-219 | recycling never panics and removes exactly the expired instances |
| `SidevmLedgerIndex.AddDeployInfoAgrees` | crates/pink-drivers/sidevm_deployer/lib.rs:234-261 | entering a deployment never panics and keeps the indexes in agreement |
| `SidevmLedgerIndex.RelistAgrees` | crates/pink-drivers/sidevm_deployer/lib.rs:437-455 | moving a deadline finds an entry for every worker and keeps the indexes in agreement |
| `SidevmLedgerIndex.StepAgrees` | crates/pink-drivers/sidevm_deployer/lib.rs:180-458 | every call keeps agreement and never ends in a missing entry |
| `SidevmLedgerIndex.RunAgrees` | crates/pink-drivers/sidevm_deployer/lib.rs:180-458 | in every run the running list has no repeats and is the keys of the instance map, and each worker's list holds, with multiplicity, exactly the deadlines of the instances naming it |
| `SidevmLedgerIndex.NewRunAgrees` | crates/pink-drivers/sidevm_deployer/lib.rs:180-458 | the same for every run of a new ledger, and no call in it finds an entry missing |
| `SidevmLedgerIndex.LookupsSucceed` | crates/pink-drivers/sidevm_deployer/lib.rs:119-145 | every lookup that the info query expects to succeed does |
| `SidevmLedgerSolvency.CreditAtMostOwed` | crates/pink-drivers/sidevm_deployer/lib.rs:263-273 | a redeployment is credited at most what the old instance is owed |
| `SidevmLedgerSolvency.RecycleOwed` | crates/pink-drivers/sidevm_deployer/lib.rs:204-219 | recycling removes nothing that is owed |
| `SidevmLedgerSolvency.OwedDifference` | crates/pink-drivers/sidevm_deployer/lib.rs:412-431 | moving a deadline changes what is owed by the price of the blocks in between |
| `SidevmLedgerSolvency.StepSolvent` | crates/pink-drivers/sidevm_deployer/lib.rs:300-458 | every call and every new block keeps the contract solvent by whatever surplus it had, and no refund fails |
| `SidevmLedgerSolvency.RunSolvent` | crates/pink-drivers/sidevm_deployer/lib.rs:300-458 | in every run from a solvent state the balance covers price x (deadline - now) of all live instances, what it holds beyond that never shrinks, and no later refund or recycling can panic |
| `SidevmLedgerSolvency.NewRunSolvent` | crates/pink-drivers/sidevm_deployer/lib.rs:300-458 | the same for every run of a new ledger; its surplus is at least what it owned at first |
| `SidevmLedgerSolvency.ExtensionUndone` | crates/pink-drivers/sidevm_deployer/lib.rs:382-458 | buying time and giving it back in one block restores balance, instances and list, and the workers' lists up to order |
| `SidevmLedgerExact.DeployExact` | crates/pink-drivers/sidevm_deployer/lib.rs:300-362 | a successful deployment leaves the unexpired instances of others and the caller's new one, with its workers, deadline and the full price; the balance grows by the price of the time sold less the credit for the time left |
| `SidevmLedgerExact.UpdateExact` | crates/pink-drivers/sidevm_deployer/lib.rs:382-458 | a successful deadline change moves the deadline or ends the instances, and whatever was paid the balance changes by exactly the price of the blocks added or taken away |
| `SidevmLedgerExact.DeployOkIff` | crates/pink-drivers/sidevm_deployer/lib.rs:300-362 | from a solvent state a deployment succeeds if and only if it is a transaction with workers, memory and time, its price fits, payment and credit cover it, every worker has room and the system obeys |
| `SidevmLedgerExact.DeployFails` | crates/pink-drivers/sidevm_deployer/lib.rs:300-362 | the first of these that is missing decides the error |
| `SidevmLedgerExact.UpdateOkIff` | crates/pink-drivers/sidevm_deployer/lib.rs:382-458 | the same for a deadline change |
| `SidevmLedgerExact.MoneyConserved` | crates/pink-drivers/sidevm_deployer/lib.rs:300-458 | in every run the balance is what there was, what was given, and the price of the time sold less that of the time credited and taken back |
| `SidevmLedgerExact.SettingsInForce` | crates/pink-drivers/sidevm_deployer/lib.rs:147-178 | in every run prices and limit are the ones last set |
| `SidevmLedgerExact.DedupRemovesRepeats` | crates/pink-drivers/sidevm_deployer/lib.rs:309-310 | the deduplicated list has the same workers, no equal neighbours, and is the list itself if it had none |
| `SidevmLedgerExact.DedupAppend` | crates/pink-drivers/sidevm_deployer/lib.rs:309-310 | a worker is kept exactly when it differs from the one before it |
| `SidevmLedgerLimit.ListAllLength` | crates/pink-drivers/sidevm_deployer/lib.rs:234-261 | a worker's list grows by one for every time the deployment names it |
| `SidevmLedgerLimit.EnterWithinIff` | crates/pink-drivers/sidevm_deployer/lib.rs:221-261 | entering a deployment keeps every list within the limit if and only if each named worker has room for all the times it is named |
| `SidevmLedgerLimit.DeployWithinIff` | crates/pink-drivers/sidevm_deployer/lib.rs:204-362 | a successful deployment call does so if and only if the same holds of the ledger without expired instances and without the caller's own |
| `SidevmLedgerLimit.WithinIffNoRepeats` | crates/pink-drivers/sidevm_deployer/lib.rs:221-261 | when the named workers have one place left each, every list passes the availability check, and the limit holds if and only if the list has no repeats |
| `SidevmLedgerLimit.DedupKeepsDistantRepeat` | crates/pink-drivers/sidevm_deployer/lib.rs:309-310 | removing adjacent repeats lets a worker through twice |
| `SidevmLedgerLimit.DeployOverLimit` | crates/pink-drivers/sidevm_deployer/lib.rs:300-362 | a deployment call on a new ledger with limit one that names a worker twice, succeeds at its price and leaves two instances on that worker |
| `SidevmLedgerLimit.RunWithin` | crates/pink-drivers/sidevm_deployer/lib.rs:180-458 | with repeat-free lists and a limit that is never lowered, every worker stays within the limit |
| `SidevmLedgerLimit.NewRunWithin` | crates/pink-drivers/sidevm_deployer/lib.rs:180-458 | the same for every such run of a new ledger |
| `SidevmOp.Contract.constructor` | crates/pink-drivers/sidevm_deployer/lib.rs:84-99 | starts without instances |
| `SidevmOp.Contract.ClearContract` | crates/pink-drivers/sidevm_deployer/lib.rs:180-202 | in-place loop equals the clearing function |
| `SidevmOp.Contract.Recycle` | crates/pink-drivers/sidevm_deployer/lib.rs:204-219 | in-place loop equals the recycling function |
| `SidevmOp.Contract.EnsureAvailable` | crates/pink-drivers/sidevm_deployer/lib.rs:221-232 | the loop succeeds exactly when every worker has room |
| `SidevmOp.Contract.AddDeployInfo` | crates/pink-drivers/sidevm_deployer/lib.rs:234-261 | in-place form equals entering a deployment, errors included |
| `SidevmOp.Contract.RemoveAdjacentRepeats` | crates/pink-drivers/sidevm_deployer/lib.rs:309-310 | the loop removes adjacent repeats only |
| `SidevmOp.Contract.RemainingTimeToValue` | crates/pink-drivers/sidevm_deployer/lib.rs:263-273 | the credit of the caller's old instance |
| `SidevmOp.Contract.DeployFor` | crates/pink-drivers/sidevm_deployer/lib.rs:320-352 | in-place form of payment, refund and entry |
| `SidevmOp.Contract.DeployToWorkers` | crates/pink-drivers/sidevm_deployer/lib.rs:300-362 | in-place form equals the deployment function; every error leaves state and balance as they were |
| `SidevmOp.Contract.Settle` | crates/pink-drivers/sidevm_deployer/lib.rs:432-458 | in-place form of the refund and the moved deadline |
| `SidevmOp.Contract.Move` | crates/pink-drivers/sidevm_deployer/lib.rs:404-458 | in-place form of buying or returning time |
| `SidevmOp.Contract.UpdateDeadline` | crates/pink-drivers/sidevm_deployer/lib.rs:382-458 | in-place form equals the deadline function; every error leaves state and balance as they were |
| `NodeStore.StrippedPrefixedKey` | crates/phala-trie-storage/src/memdb.rs:136-144 | taking the last hash-many bytes of a prefixed key gives the hash back, whatever the prefix |
| `NodeStoreDrain.SumOrderFree` | crates/phala-trie-storage/src/memdb.rs:264-288 | the counts drained for a hash do not depend on the order of draining |
| `NodeStoreConsolidation.DrainedSum` | crates/phala-trie-storage/src/memdb.rs:264-288 | they sum up to insertions minus removals of the hash, over all prefixed keys that strip to it |
| `NodeStoreConsolidation.ConsolidateCount` | crates/phala-trie-storage/src/memdb.rs:264-288 | consolidation adds that sum to every hash's count |
| `NodeStoreConsolidation.ConsolidateGenuine` | crates/phala-trie-storage/src/memdb.rs:264-288 | an entry with a non-negative count still holds the preimage of its key |
| `NodeStoreConsolidation.ConsolidateRefinesReplay` | crates/phala-trie-storage/src/memdb.rs:264-477 | for every hash function and every drain order the consolidated store has the counts of the store on which the operations were replayed one by one, and both answer the same hashes, each with a preimage |
| `NodeStoreConsolidation.ConsolidateAnswersReplay` | crates/phala-trie-storage/src/memdb.rs:264-477 | the answers are the same value for value when no two of the values in the store and the update collide |
| `NodeStoreConsolidation.ReplacementMeetsHypotheses` | crates/phala-trie-storage/src/memdb.rs:264-288 | a store, an update and a drained transaction that meet these hypotheses, for any hash that tells three values apart |
| `NodeStoreConsolidation.PaddedDistinct` | crates/phala-trie-storage/src/memdb.rs:264-288 | such a hash: one without collisions among values of up to 31 bytes |
| `NodeStoreConsolidation.CollisionSplitsAnswers` | crates/phala-trie-storage/src/memdb.rs:264-288 | if two values do collide, replacing one by the other is seen by a replay and not by a consolidation |
| `NodeStoreConsolidation.ReplayLeavesNoZeros` | crates/phala-trie-storage/src/memdb.rs:425-477 | insertions and removals leave no entry that counts zero |
| `NodeStoreConsolidation.MergedZeroIff` | crates/phala-trie-storage/src/memdb.rs:264-288 | consolidating an entry leaves one that counts zero if and only if it is new and counts zero itself |
| `NodeStoreConsolidation.PurgedIff` | crates/phala-trie-storage/src/memdb.rs:168-189 | removing and purging gives the value away if and only if it was the last one, and otherwise does what a removal does |
| `NodeStoreCheckpoint.CheckpointRoundTripIff` | crates/phala-trie-storage/src/lib.rs:74-103 | writing values and counts and rebuilding the keys gives the store back if and only if every entry is the preimage of its key |
| `NodeStoreCheckpoint.CheckpointOfSettledStore` | crates/phala-trie-storage/src/memdb.rs:313-324 | a genuine store without negative counts survives a checkpoint |
| `NodeStoreCheckpoint.CheckpointMisplacesPlaceholder` | crates/phala-trie-storage/src/memdb.rs:458-477 | a removal ahead of its insertion does not survive one: its placeholder does not hash to its key |
| `NodeStoreCheckpoint.LoadsLast` | crates/phala-trie-storage/src/lib.rs:88-103 | of written nodes with the same hash the last one is loaded, and nothing else |
| `NodeStoreCheckpoint.LoadedProofAnswers` | crates/phala-trie-storage/src/lib.rs:205-214 | for every hash function a loaded proof answers the null node's hash with the null node, any other hash with the first of its nodes that has it, and nothing else |
| `NodeStoreCheckpoint.LoadedProofHolds` | crates/phala-trie-storage/src/lib.rs:205-214 | if its nodes do not collide, it answers a node's hash with the node if and only if it holds the node or it is the null node |
| `MemoryDb.MemoryDB.constructor` | crates/phala-trie-storage/src/memdb.rs:208-215 | starts empty |
| `MemoryDb.MemoryDB.Read` | crates/phala-trie-storage/src/memdb.rs:404-414 | answers the null node, and otherwise the value of an entry with a positive count |
| `MemoryDb.MemoryDB.Contains` | crates/phala-trie-storage/src/memdb.rs:416-423 | true exactly when a read would answer |
| `MemoryDb.MemoryDB.EmplaceNode` | crates/phala-trie-storage/src/memdb.rs:425-446 | in-place form: count up, replacing the value of a non-positive entry |
| `MemoryDb.MemoryDB.InsertValue` | crates/phala-trie-storage/src/memdb.rs:448-456 | in-place form returns the value's hash and counts it up unless it is the null node |
| `MemoryDb.MemoryDB.RemoveKey` | crates/phala-trie-storage/src/memdb.rs:458-477 | in-place form: count down, a placeholder with count -1 if absent |
| `MemoryDb.MemoryDB.RemoveAndPurgeKey` | crates/phala-trie-storage/src/memdb.rs:168-189 | in-place form: as removal, but an entry that reaches zero goes and is returned |
| `MemoryDb.MemoryDB.ConsolidateEntries` | crates/phala-trie-storage/src/memdb.rs:264-288 | the drain loop equals the consolidation function |
| `PeakCounterExact.ExchangeInv` | crates/phala-allocator/src/lib.rs:50-67 | a compare-exchange attempt, successful or not, loses no total: what it leaves with is covered by a counter or by the reader about to store it |
| `PeakCounterExact.SwapInv` | crates/phala-allocator/src/lib.rs:32-36 | zeroing the spike in the middle of other threads' loops loses nothing |
| `PeakCounterExact.StepInv` | crates/phala-allocator/src/lib.rs:32-102 | every atomic operation keeps the invariant |
| `PeakCounterExact.PeakIsExact` | crates/phala-allocator/src/lib.rs:32-69 | in every interleaving with one reader at a time a reported peak lies between the usage reached by finished allocations and that reached by any, equals the latter when no allocation was in its loop, and nothing is lost between reports |
| `PeakCounterExact.NeverHigher` | crates/phala-allocator/src/lib.rs:46-48 | no state of a run uses more than the recorded high |
| `PeakCounterExact.HighReached` | crates/phala-allocator/src/lib.rs:46-48 | some state of the run uses exactly that much |
| `PeakCounterExact.StoreKeepsIff` | crates/phala-allocator/src/lib.rs:33-36 | with any number of readers, storing a maximum loses no value from the counters if and only if it is not below the peak it overwrites or that peak is held elsewhere |
| `PeakCounterExact.TwoReadersLosePeak` | crates/phala-allocator/src/lib.rs:32-42 | two readers at once can lose the peak from all counters |
| `PeakCounterExact.PeakLostFromNew` | crates/phala-allocator/src/lib.rs:32-69 | a run of a new allocator, one allocation and two readers, after which no counter knows the usage that was reached |
| `PeakCounterUsage.CurrentIsLiveSize` | crates/phala-allocator/src/lib.rs:71-102 | the usage is the size of all live blocks plus what failed requests left behind; without failures exactly the live size |
| `PeakCounterExact.UndisturbedAdd` | crates/phala-allocator/src/lib.rs:46-69 | the three steps of an undisturbed allocation raise the spike to the new usage |
| `PeakCounterExact.UndisturbedStats` | crates/phala-allocator/src/lib.rs:32-42 | the three steps of an undisturbed reading move the spike into the peak |
| `StatSizeAllocator.Allocator.constructor` | crates/phala-allocator/src/lib.rs:23-30 | starts at zero |
| `StatSizeAllocator.Allocator.AddAllocedSize` | crates/phala-allocator/src/lib.rs:46-69 | the retry loop ends, whatever other threads make of usage and spike before the load and before each attempt, with a spike of at least the total it added up to; undisturbed, with the larger of the old spike and the new usage |
| `StatSizeAllocator.Allocator.Realloc` | crates/phala-allocator/src/lib.rs:88-102 | moves the usage by the difference; only growth can raise the spike, and then as an allocation of the difference does |
| `StatSizeAllocator.Allocator.ReadStats` | crates/phala-allocator/src/lib.rs:32-42 | stores the larger of the spike it took and the peak it loaded, over whatever other threads stored in between, and reports both with the usage read last |
| `Rcu.EffectsAppliedInOrder` | crates/phactory/src/prpc_service.rs:1443-1454 | applying the pending effects to the written-back state is applying each once, in order |
| `Rcu.StepAgrees` | crates/phactory/src/prpc_service.rs:1413-1456 | every hold of the lock keeps the state equal to the replayed log, the copy equal to the current state, and the pending list equal to the first 64 arrivals |
| `Rcu.RefinesSequential` | crates/phactory/src/prpc_service.rs:1413-1456 | after any interleaving the state is that of one sequential log in which each dispatch is followed by the first 64 effects that arrived during it; at most one copy is out and effects wait only while it is |
| `Rcu.TakenStep` | crates/phactory/src/lib.rs:776-784 | an effect is taken if and only if there is room, and nothing else changes what is taken |
| `Rcu.EveryEffectOnce` | crates/phactory/src/lib.rs:776-794 | when no dispatch sees more than 64 effects, every effect is applied or waiting, once and in order of arrival |
| `Rcu.TakenAtMostArrived` | crates/phactory/src/lib.rs:776-784 | no effect is dropped if and only if no dispatch sees more than 64 of them |
| `Rcu.LateEffectsLost` | crates/phactory/src/lib.rs:776-784 | a run of one dispatch and more than 64 effects ends in the state of the dispatch and the first 64; the others are lost |
| `Rcu.Service.constructor` | crates/phactory/src/lib.rs:775-794 | starts idle with nothing pending |
| `Rcu.Service.ApplySideEffects` | crates/phactory/src/lib.rs:776-794 | in-place form: pending while dispatching and below 64, dropped at 64, applied otherwise |
| `Rcu.Service.BeginDispatch` | crates/phactory/src/prpc_service.rs:1415-1432 | in-place form: refused while dispatching, direct without RCU, otherwise copies and marks |
| `Rcu.Service.FinishDispatch` | crates/phactory/src/prpc_service.rs:1443-1454 | the write-back loop equals applying the pending effects to the copy |

## Left out

- Fair queue arithmetic is unbounded: the 128-bit tags and the 64-bit counters of the source can overflow after astronomically long runs.
- The red-black tree is modelled as a sequence sorted by key in which an entry goes behind equal keys; the tree's own code is not part of the repository.
- A guard dropped while its receiver is already gone runs `release` inside `dispatch`, under the held lock; the model takes the release as a later step.
- FairQueueShare.BoundedShare: the flow's record is not purged over the stretch, because a flow that is purged starts over at virtual time (see `FairQueuePurge.StartsOver`).
- FairQueueDrops.RejectionLeavesNoTrace: compares with the queue in which the flow has a record, because a record made by the rejected request is older than one made later, which a purge can see.
- Purging in the run theorems of the fair queue spares flows with waiting requests; `PurgeKeepsInvIff` says what happens otherwise.
- FairQueueInvariant.RunInv: assumes a backlog cap of at least one, because a cap of zero panics on the first arrival (see `RequestScheduler.SchedulerInner.Acquire`).
- TaskScheduler.SchedulerInner.Park: an addition beyond 128 bits is a panic, as in builds with overflow checks (the testnet profile); without them it would wrap. `ClockNeverOverflows` shows when neither can happen.
- TaskQueueLag.NoStarvation: speaks of stretches without a clock reset, because a reset strands the queued keys (see `LagBrokenByReset`), and without ids that return while a stale entry is queued, because such an entry is a second turn.
- Wakers, oneshot channels, mutexes, memory orderings and wall-clock time: each locked section and each atomic operation is one step, and costs and times are inputs.
- Sequence numbers, the dispatcher's index, reference counts (32-bit) and the allocator's sizes are unbounded integers.
- Signatures are an oracle: a message is authentic only if some replica signed it with that sequence. The registry's check, the transaction-pool extension and the sender's `push_message` calls are not modelled.
- What subscribers do with received messages, typed decoding and its panic on malformed messages, and cloned receivers, which share one queue.
- SidevmLedgerExact.DeployExact: for up to 2^32 - 1 workers, beyond which the source's cast of their number wraps, and before the last 32-bit block number; so are `DeployOkIff`, `DeployFails` and `MoneyConserved`.
- MqNumbering.HoldsNumbered: speaks of stretches without a purge or a load; `NothingLost` and `LoadRestoresDump` speak of those.
- FairQueueWeights.WeightedFairness: both flows keep their average and their weight over the stretch; `Fairness` bounds the cost tags without this.
- SidevmOp.Contract.Transfer: does not model the existential deposit or fees of a transfer.
- Whitelists, owner checks, configuration setters other than prices and the limit, and calls to the system contract, which are a success flag here; two error messages about a missing deadline are one error.
- The memory-db crate's transaction type is modelled as counted nodes under prefixed keys that are not purged at zero; the trie, root computation and the plain-database variants are left out.
- Loading a trie backend from storage pairs and cloning one.
- NodeStoreConsolidation.ConsolidateAnswersReplay: assumes that the values at hand do not collide, because the answers do differ for a colliding pair (see `CollisionSplitsAnswers`); counts need no such assumption.
- A dispatch that panics, which aborts the process, and a dispatch whose request is cancelled; RPCs that write caches while a dispatch is in flight, safe mode, and the result the dispatch returns to its caller.
- Attestation, key derivation, handover, light validation, block synchronisation, codecs, RPC plumbing, the pallets other than the message queue, tests, scripts and the front end.
