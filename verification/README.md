# Checkpoint queue, flush pipeline, ranged deletion, lock-free queue and bucket shutdown

A Dafny model of the concurrent core of a membase-style server: `ep-engine` keeps, per vbucket, one list of
checkpoints that writers append to and that persistence, replication (TAP) and online-update cursors walk, and a
flusher moves what the persistence cursor reads to disk; `bucket_engine` creates and destroys such engines.

## How it is organised

- `Items`, `UnifiedQueue`, `Pending`, `Progress`: the checkpoint list as positions only. A position is a checkpoint index and
  an item index; a list iterator survives the erasure of other nodes, so an erasure renumbers the positions behind
  it. `Latest` is the last mutation of every key in a sequence, `Replay` applies a sequence to a store, and
  `Ahead` is what a cursor has still to visit, and `Due` what `nextItem` has still to hand to it.
- `Runs`, `Delivery`, `ClosedOnly`, `OnlineUpdate`, `Placement`, `Maintenance`: runs of any length in which writers,
  readers, checkpoint turnover, prefix removal, replica checkpoint starts and online update interleave in any order,
  the delivery theorems over all of them, and which accepted mutations each checkpoint holds. Operations of one
  manager hold its queue lock, so one event is one operation.
- `CheckpointState`, `CheckpointRefinement`, `CheckpointDropping`, `CheckpointSteps`, `CheckpointManager`: the
  manager as a class that updates its fields in place: key index with mutation ids, reference counters, item counts
  and cursor offsets. Every public method keeps `Valid` (list structure, index and reference counts), has the effect
  on `View()` that `UnifiedQueue` gives, and keeps `CountersExact` (the counters agree with the lists).
- `ManagerRuns`: the link between the two: any sequence of calls on a new manager is a run, so the run theorems hold
  of the manager's own fields and of the items it really accepted and handed out.
- `FlushBatch`, `FlushPipeline`, `PublishedIds`: the reverse-scan deduplication, the flush cycle over the write and
  reject queues for many vbuckets at once, and when the checkpoint ids published at its end, or by callers, are true.
- `Flusher`, `BeginFlush`, `PersistentStore`: the flusher that steps through the cycle, the draw from the managers
  that starts one, and the store that owns managers and flusher; their lives are runs of the pipeline.
- `ChunkDeletion`: the range list and the deletion job that walks it while splitting and merging it.
- `AtomicQueue`, `AtomicCalls`: the multi-producer queue as interleaved loads, compare-and-swaps and counter updates,
  and what whole calls on it have brought about when they return.
- `BucketLifecycle`: client calls, bucket deletions, shutdown threads and one global shutdown as interleaved
  critical sections.

Time, memory pressure, the store's answers and the measured deletion times are parameters that may have any value.
`flushOne` is an arbitrary number of copies pushed to the reject queue and a flag that says whether the item was
written all the same; the code really does both for a delete that is too young (`ep-engine/ep.cc:1819-1940`).

Where code and comments differ, the code is followed. A turnover whose old id is 0 reports that nothing was created,
and then no cursor hops (`ep-engine/checkpoint.cc:430-431`). `registerTAPCursor` for an unknown id counts one control
item only, so the offset it sets is exact if and only if the id was found or the last checkpoint is open; that
equivalence is the contract of `RegisterTapCursor`.

## Model

| member | source | states |
|---|---|---|
| Delivery.PersistenceDelivery | ep-engine/checkpoint.cc:26-103 | Last writer wins, over every run without clear or rollback: replaying on any store what persistence was handed and then what lies ahead of it equals replaying every accepted mutation in order, despite deduplication, turnover, prefix removal and online update |
| Delivery.TapDelivery | ep-engine/checkpoint.cc:594-662 | The same for any registered TAP cursor in any run: what it was sent since it was registered (or since the last clear or rollback), then what lies ahead of it, equals what lay ahead of it then followed by the mutations accepted since |
| Delivery.LastWriterWinsNext | ep-engine/checkpoint.cc:487-565 | Every single event keeps the last-writer-wins invariant for the persistence cursor and all TAP cursors at once |
| Delivery.EventLatest | ep-engine/checkpoint.cc:416-515 | Every operation on the list leaves the last mutation of every key ahead of any cursor as it was, except for the accepted mutation, which is added |
| Pending.AheadWrite | ep-engine/checkpoint.cc:26-103 | A requeue seen by a cursor: the new item goes last, the old copy disappears from ahead exactly if it was still ahead, and the count ahead grows by one exactly if it was not |
| Pending.AheadDraw | ep-engine/checkpoint.cc:517-565 | What persistence is handed and what is then ahead of it make up what was ahead of it before |
| Pending.AheadStep | ep-engine/checkpoint.cc:594-662 | `nextItem` hands out the first item ahead, or nothing and what is ahead stays the same; for a cursor that is not closed-only it hands one out exactly if something is ahead and the last id is not 0 |
| Progress.DueStep | ep-engine/checkpoint.cc:594-662 | Nothing due is withheld: outside backfill (last id not 0) `nextItem` hands out something exactly if something is ahead, for a closed-only cursor in closed checkpoints; it is the first such item, and the others stay due |
| Progress.NextSends | ep-engine/checkpoint.cc:594-662 | In every state that runs reach, as many calls of `nextItem` as there are items due send the cursor exactly those, in order, and fewer calls the first of them; nothing else in the queue changes |
| Progress.DrawLeaves | ep-engine/checkpoint.cc:517-565 | Outside online update a draw hands out everything ahead, leaves nothing, and reports the id before the last; during one it leaves exactly the checkpoints from the barrier on, or draws nothing if persistence is there already |
| Progress.BackOffResends | ep-engine/checkpoint.cc:774-782 | Backing off from an end item makes exactly that item due again, in front of the others; elsewhere it changes nothing |
| Runs.ApplyWF | ep-engine/checkpoint.cc:139-179 | Structure kept by every event: a non-empty list with increasing ids, only the last checkpoint possibly open, dummy and start item first, end item only in closed checkpoints and last, distinct keys, every cursor on an existing item |
| UnifiedQueue.RenameWF | ep-engine/checkpoint.cc:129-137 | Setting the open checkpoint id keeps that structure if and only if the id is above the one before it, and not 0 under the online-update barrier |
| UnifiedQueue.RenameOutOfOrder | ep-engine/checkpoint.cc:129-137 | An input at which it does not: two checkpoints, the last one set to 0 |
| UnifiedQueue.StopOnlineBreaks | ep-engine/checkpoint.cc:220-247 | Stopping an online update breaks the structure whenever the last checkpoint is closed (a build with assertions stops at `ep-engine/checkpoint.cc:27` instead); open, it never does (`StopOnlineWF`) |
| UnifiedQueue.StopOnlineOutOfShape | ep-engine/checkpoint.cc:220-247 | An input at which it does: an update whose checkpoint is closed before it stops |
| ClosedOnly.NeverFromOpen | ep-engine/checkpoint.cc:645-662 | A closed-only cursor is never handed an item of an open checkpoint |
| ClosedOnly.ClosedOnlyDelivery | ep-engine/checkpoint.cc:594-662 | What a closed-only cursor read by `nextItem` was sent, then the closed items still ahead of it, is exactly the closed contents ahead of it at registration followed by the final contents of every checkpoint closed since, in order; if a closed checkpoint is given a new id, its start item changes where it was not sent yet |
| OnlineUpdate.BarrierHolds | ep-engine/checkpoint.cc:194-218 | At any moment of any run during online update, persistence was handed only items held in front of the barrier, and the items from the barrier on have the last mutation of every key mutated since the start |
| OnlineUpdate.BarrierKept | ep-engine/checkpoint.cc:416-485 | Writes, turnover, removal, checkpoint starts that append and new ids keep the barrier checkpoint and everything in front of it; its id changes only if it is the last one and is given another |
| OnlineUpdate.StopReleases | ep-engine/checkpoint.cc:220-247 | After the stop, persistence has ahead what was held back followed by everything from the barrier on, which has every mutation since the start |
| Placement.SoundRun | ep-engine/checkpoint.cc:517-565 | Together, in every state of every run, clears and rollbacks included: delivery, the barrier, and that the mutations accepted into each checkpoint are consecutive, recorded under its id, and represented in it by the last of every key |
| Placement.UncoveredAhead | ep-engine/checkpoint.cc:517-565 | What lies ahead of persistence has the last of every key among exactly the mutations not covered by what it was handed |
| Placement.UncoveredIn | ep-engine/checkpoint.cc:543-548 | Each of those is in the checkpoint persistence is in or a later one, so under a higher id than the draw reported |
| Placement.RollbackInPlace | ep-engine/checkpoint.cc:823-870 | A rollback keeps exactly the mutations of the kept checkpoints accepted, and covered as far as they were |
| Maintenance.RollbackCorrect | ep-engine/checkpoint.cc:794-875 | For an id above 0 and a last id other than 0: exactly the checkpoints with smaller ids are kept, with their items; one new open checkpoint with that id follows; exactly the cursors in dropped checkpoints move, to its start, and have its start item ahead; the others have ahead what lay ahead in kept checkpoints and the control items |
| Maintenance.StartNames | ep-engine/checkpoint.cc:794-810 | Id 0 is ignored; when the last id is 0 the start names the last checkpoint, whose id and start item change, and nothing else |
| Maintenance.TrimSafe | ep-engine/checkpoint.cc:416-485 | Removal frees only closed checkpoints that no cursor is in, stops at one that some cursor is in, and every cursor has ahead exactly what it had, followed by the control items of the checkpoint created, if any; exactly the cursors on the last item of a checkpoint that was closed already step into the one created, the others stay where they are |
| Maintenance.RegistrationAhead | ep-engine/checkpoint.cc:309-366 | A cursor registered for a known id begins at that checkpoint and has ahead exactly it and those with higher ids, but one inside that checkpoint that is not to begin anew keeps its position; for an unknown id, exactly the last checkpoint is ahead |
| Maintenance.ClearCorrect | ep-engine/checkpoint.cc:664-694 | After a clear there is one open checkpoint, with id 1 or 0, and exactly its start item is ahead of every cursor |
| Maintenance.StartRaises | ep-engine/checkpoint.cc:194-218 | The start of an online update appends one checkpoint with the start marker, which is the barrier; everything that was ahead of persistence, with the end item that closes it, can still be drawn, and no cursor moves |
| Maintenance.StopLowers | ep-engine/checkpoint.cc:220-247 | The stop lowers the barrier and appends the end marker and a new checkpoint to what is ahead of every cursor; persistence may then be handed all of it |
| CheckpointState.NotAfterPosition | ep-engine/checkpoint.cc:38-80 | The test on mutation ids says exactly whether the old copy is at or left of the cursor |
| CheckpointState.PushIndex | ep-engine/checkpoint.cc:26-103 | Queueing keeps the index: it maps exactly the keys in the list to their nodes, with mutation ids in list order, and the counter of the checkpoint is the number of keys |
| CheckpointState.CountsKeys | ep-engine/checkpoint.hh:115-117 | So in every consistent state the counter of a checkpoint is the number of different keys in its list |
| CheckpointState.PushAbs | ep-engine/checkpoint.cc:26-103 | The item list after queueing through the key index is the requeue found by scanning the list |
| CheckpointRefinement.QueuedExact | ep-engine/checkpoint.cc:26-103 | Item count and all offsets, adjusted by mutation-id comparisons, are again the true counts; nothing is clamped |
| CheckpointRefinement.AdjustedExact | ep-engine/checkpoint.hh:494-508 | An exact cursor, its offset and position decremented on the strength of mutation ids and clamped at 0 or not, is exact after the write |
| CheckpointRefinement.QueuedConsistent | ep-engine/checkpoint.cc:26-103 | Queueing keeps list structure, index and reference counters |
| CheckpointDropping.DroppedExact | ep-engine/checkpoint.cc:457-484 | Dropping the unreferenced prefix and lowering every counter by its item count leaves all counters exact |
| CheckpointDropping.RolledBackExact | ep-engine/checkpoint.cc:823-870 | The counters after a rollback are exact for moved and unmoved cursors |
| CheckpointDropping.RolledBackConsistent | ep-engine/checkpoint.cc:823-870 | So are index and reference counters |
| CheckpointDropping.RefsReferenced | ep-engine/checkpoint.cc:696-714 | A reference counter is zero exactly if no cursor is in the checkpoint |
| CheckpointSteps.BacklogExact | ep-engine/checkpoint.hh:359-363 | With exact counters the reported backlog is the number of items ahead of the persistence cursor |
| CheckpointSteps.BacklogGrowth | ep-engine/checkpoint.cc:487-515 | A write adds one to the backlog, reported and real, exactly if no copy of the key was ahead of the persistence cursor; it never shrinks |
| CheckpointSteps.ResidencyExact | ep-engine/checkpoint.cc:735-762 | The scan with its early exit finds the key exactly if some checkpoint from the first referenced one on has it with that CAS and no larger one in front |
| CheckpointSteps.ResidencyComplete | ep-engine/checkpoint.cc:735-762 | If the non-zero CAS values of a key never decrease along the list, that is whether any such checkpoint indexes the key with that CAS |
| CheckpointManagement.CheckpointManager.constructor | ep-engine/checkpoint.hh:210-216 | A new manager with the limits given is consistent and exact: one open checkpoint, the persistence cursor at its start |
| CheckpointManagement.CheckpointManager.GetNumItemsForPersistence | ep-engine/checkpoint.hh:359-363 | With exact counters, exactly the number of items ahead of the persistence cursor |
| CheckpointManagement.CheckpointManager.ShiftPersistenceCursor | ep-engine/checkpoint.cc:38-57 | In a tidy open checkpoint the offset falls by one exactly if the erased copy is at or left of the persistence cursor |
| CheckpointManagement.CheckpointManager.ShiftTapCursors | ep-engine/checkpoint.cc:58-78 | All TAP cursors after the old copy of a key is erased, one by one |
| CheckpointManagement.CheckpointManager.QueueInLast | ep-engine/checkpoint.cc:26-103 | The whole state after an item is queued in the open checkpoint, and whether its key was new |
| CheckpointManagement.CheckpointManager.Enqueue | ep-engine/checkpoint.cc:499-515 | The state after an accepted item is queued, and whether the reported backlog changed |
| CheckpointManagement.CheckpointManager.QueueDirty | ep-engine/checkpoint.cc:487-515 | Keeps the invariants; an item is refused exactly by a closed last checkpoint of a vbucket that is not active, and else is the last in the checkpoint, with the queueing time of the copy it replaces; then a checkpoint is opened exactly if the vbucket is active and consistent, the list was shorter than the limit, and the checkpoint written to now holds at least the maximum number of keys, or one and is old; the result is true exactly if the items ahead of persistence grew by one |
| CheckpointManagement.CheckpointManager.CloseOpenCheckpoint | ep-engine/checkpoint.cc:165-179 | The last checkpoint is closed with an end item, for its own id only; consistency and exact counters are kept |
| CheckpointManagement.CheckpointManager.AddNewCheckpoint | ep-engine/checkpoint.cc:139-158 | The last checkpoint is closed and a new one with its start item appended |
| CheckpointManagement.CheckpointManager.CheckOpenCheckpoint | ep-engine/checkpoint.cc:716-733 | A rollover exactly when forced, or the last checkpoint holds the maximum number of keys, or is old and holds one; the id of the checkpoint closed |
| CheckpointManagement.CheckpointManager.MoveCursorToNextCheckpoint | ep-engine/checkpoint.cc:696-714 | Moves only out of a closed checkpoint that is not the last; both reference counters follow |
| CheckpointManagement.CheckpointManager.GetAllItemsFromCurrentPosition | ep-engine/checkpoint.cc:517-549 | Items read and items left make up what was ahead; where the read stops; the id reported |
| CheckpointManagement.CheckpointManager.GetAllItemsForPersistence | ep-engine/checkpoint.cc:551-565 | What is handed out, the id, and exactly as many items as the backlog reported before; outside online update everything that was ahead, and nothing is left ahead |
| CheckpointManagement.CheckpointManager.GetAllItemsForTapConnection | ep-engine/checkpoint.cc:567-580 | A TAP cursor is handed everything ahead, nothing is left ahead, and the id is the one before the last, or 0; unknown names get nothing and change nothing |
| CheckpointManagement.CheckpointManager.NextItem | ep-engine/checkpoint.cc:594-619 | The first item due to the cursor is handed out exactly if there is one and the last id is not 0, and then the others are due; whether it is the last mutation of its checkpoint; counters kept exact |
| CheckpointManagement.CheckpointManager.NextItemFromClosedCheckpoint | ep-engine/checkpoint.cc:621-643 | The next item of the closed checkpoint; at its end the cursor moves on if there is a next checkpoint, and is handed its start item unless it is closed-only and that checkpoint open |
| CheckpointManagement.CheckpointManager.NextItemFromOpenedCheckpoint | ep-engine/checkpoint.cc:645-662 | One step in an open checkpoint, none for a closed-only cursor |
| CheckpointManagement.CheckpointManager.IsLastMutationItemInCheckpoint | ep-engine/checkpoint.cc:784-792 | In a consistent manager, true exactly if nothing but an end item follows the cursor in its checkpoint |
| CheckpointManagement.CheckpointManager.DecrTapCursorFromCheckpointEnd | ep-engine/checkpoint.cc:774-782 | A cursor on an end item steps back over it, offset included |
| CheckpointManagement.CheckpointManager.HasNextForPersistence | ep-engine/checkpoint.cc:894-904 | True exactly if something is ahead of persistence or the last checkpoint is closed |
| CheckpointManagement.CheckpointManager.RegisterTapCursor | ep-engine/checkpoint.cc:309-366 | Where the cursor goes, whether the id was found, and that the counters stay exact if and only if it was found or the last checkpoint is open |
| CheckpointManagement.CheckpointManager.RemoveTapCursor | ep-engine/checkpoint.cc:368-378 | Exactly that cursor is gone, its reference with it; unknown names change nothing |
| CheckpointManagement.CheckpointManager.HopCursors | ep-engine/checkpoint.cc:431-455 | Cursors on the last item of the checkpoint just closed step into the new one |
| CheckpointManagement.CheckpointManager.CountUnreferenced | ep-engine/checkpoint.cc:457-466 | The longest unreferenced prefix and the number of items in it |
| CheckpointManagement.CheckpointManager.DropUnreferenced | ep-engine/checkpoint.cc:457-484 | Exactly that prefix is dropped and every counter lowered by its items |
| CheckpointManagement.CheckpointManager.RemoveClosedUnrefCheckpoints | ep-engine/checkpoint.cc:416-485 | When a checkpoint is created first, in terms of the keys it holds and the limits; whether that is reported; the resulting queue; the number reported: the keys in the checkpoints freed and two for each, which with exact counters is the number of items freed; all invariants kept |
| CheckpointManagement.CheckpointManager.SetOpenCheckpointId | ep-engine/checkpoint.cc:129-137 | The last checkpoint and its start item get the id, consistency and exact counters are kept, for exactly the ids for which the list stays in order |
| CheckpointManagement.CheckpointManager.SurveyFrom | ep-engine/checkpoint.cc:826-847 | Which cursors are in the checkpoints to be dropped, and the item count without them |
| CheckpointManagement.CheckpointManager.RollBackTo | ep-engine/checkpoint.cc:823-873 | The whole state after the rollback and whether the persistence cursor moved |
| CheckpointManagement.CheckpointManager.CheckAndAddNewCheckpoint | ep-engine/checkpoint.cc:794-875 | All four branches: ignored, renamed, appended, also during online update, and rolled back outside it; invariants kept; exactly when repositioning is reported |
| CheckpointManagement.CheckpointManager.Clear | ep-engine/checkpoint.cc:664-694 | One new checkpoint, every cursor at its start, counters exact whatever they were before |
| CheckpointManagement.CheckpointManager.StartOnlineUpdate | ep-engine/checkpoint.cc:194-218 | A new checkpoint with the start marker becomes the barrier; refused when an update is under way; one is under way afterwards |
| CheckpointManagement.CheckpointManager.StopOnlineUpdate | ep-engine/checkpoint.cc:220-247 | The end marker and a new checkpoint follow and the barrier is gone; refused when no update is under way; none is afterwards |
| CheckpointManagement.CheckpointManager.GetCasForKey | ep-engine/checkpoint.cc:16-24 | The CAS of whatever item in the list has the key, 0 if none has |
| CheckpointManagement.CheckpointManager.IsKeyResidentInCheckpoints | ep-engine/checkpoint.cc:735-762 | What the scan with its early exit finds, for every list |
| ManagerRuns.RunManager | ep-engine/checkpoint.cc:129-875 | For every sequence of calls on a new manager: the run consists of exactly the events that its calls and limits determine, in order, but for calls its callers rule out; the manager is in the state of that run; its counters are exact if no online update, empty key or unknown-id registration behind a closed last checkpoint occurs; and unless items were discarded, replaying what it really handed to persistence, and to each TAP cursor, with what lies ahead equals replaying what it really accepted |
| ManagerRuns.WithinLimit | ep-engine/checkpoint.cc:416-515 | Writes, reads, registrations, removal, closing, new ids and clears never take the list beyond its length before or the limit, whichever is larger |
| ManagerRuns.MakeCalls | ep-engine/checkpoint.cc:416-515 | So any sequence of such calls on any manager keeps the list within its initial length or the limit |
| ManagerRuns.NextItems | ep-engine/checkpoint.cc:594-662 | Calls of `nextItem` in a row on the manager hand out the items due to the cursor in order, until none is left |
| ManagerRuns.AgreesStep | ep-engine/checkpoint.cc:129-875 | One more call extends the run by its event, with the same hand-outs and the same accepted mutations |
| ManagerRuns.TapServedRun | ep-engine/checkpoint.cc:567-662 | The TAP share of it: what a cursor was really sent, and for a closed-only cursor read by `nextItem` the final contents of successive closed checkpoints |
| ManagerRuns.UncountedRegistration | ep-engine/checkpoint.cc:330-338 | The uncounted case is reachable: after a close, registering an unknown id leaves the counters inexact |
| Items.ReplayLatest | ep-engine/ep.cc:1439-1461 | Replaying a sequence of items is writing the last mutation of every key |
| FlushBatch.ScanBackwards | ep-engine/ep.cc:1439-1456 | The reverse scan collects exactly the last mutation of every key with a set or delete |
| FlushBatch.Deduplicate | ep-engine/ep.cc:1439-1461 | The batch holds exactly one item per such key, the last one |
| FlushBatch.ReorderedBatch | ep-engine/ep.cc:1476-1483 | Any permutation of a batch is again such a batch |
| FlushBatch.BatchPreservesMeaning | ep-engine/ep.cc:1433-1461 | Writing a batch in any order equals replaying everything drawn, backfill first, in order |
| PublishedIds.PublishedCheckpointsPersisted | ep-engine/ep.cc:1495-1508 | Whatever id is published for a vbucket in any run whose steps meet their guard, clears, rollbacks, new ids and ids published by callers included: every mutation in a checkpoint with that id or a lower one was processed, or a later mutation of its key was |
| PublishedIds.TruthfulStep | ep-engine/ep.cc:1385-1556 | A step keeps everything published, or about to be, true if and only if it meets its guard: no write goes to a checkpoint whose id is published or about to be; none is given such an id but for mutations that have settled or were drawn; a vbucket passed over in a draw has nothing ahead that its outdated drawn id covers; a caller publishes only what was drawn and has left the queues. Rollbacks and clears always meet it |
| PublishedIds.TruthfulRun | ep-engine/flusher.cc:225-267 | So over whole runs: everything is true in every state if and only if every step meets its guard |
| PublishedIds.GuardNecessary | ep-engine/ep.cc:1495-1508 | From a step that fails its guard the flusher's own steps alone lead to a published id that is not true |
| PublishedIds.SettledIff | ep-engine/ep.cc:1440-1461 | A mutation has settled exactly if persistence was handed it and it does not wait in a queue without having been written |
| PublishedIds.RollbackAnswered | ep-engine/tapconnection.cc:1124-1131 | A rollback that repositions persistence is safe whatever is published; its caller's publishing of the id before is safe exactly if nothing of the kept checkpoints is in a queue without having been written; and writes after it are safe exactly if no drawn id that covers the new checkpoint is about to be published |
| PublishedIds.ResetAnswered | ep-engine/ep.cc:880-909 | A vbucket reset is safe, and writes after it are exactly if no drawn id is about to be published |
| PublishedIds.PlainStep | ep-engine/checkpoint.cc:129-875 | Each step that keeps to the callers' rules meets its guard, and leaves the next one able to: a repositioning rollback gives no id that a drawn one about to be published covers, and nothing is written to that vbucket until a lower id is published; new ids and clears give no id that is published or about to be |
| PublishedIds.CallersKeepTrue | ep-engine/tapconnection.cc:1113-1131 | So in every run in which callers keep to those rules, however the vbuckets and the flusher interleave, everything published is true in every state |
| PublishedIds.UnguardedLies | ep-engine/ep.cc:1505-1506 | The input where the code does not: with checkpoint 5 drawn and 4 about to be published, a checkpoint start with id 3, a new id 3 or a clear, whatever its caller then publishes, and the next write, end with 4 published and that write not persisted |
| FlushPipeline.CyclesComplete | ep-engine/flusher.cc:225-267 | In every run, whatever is cleared, rolled back or renamed: between cycles, replaying what was processed, in the order it was processed, equals replaying everything drawn in the order it was drawn |
| FlushPipeline.NoOverlap | ep-engine/ep.cc:1485-1493 | In every run, no batch is drawn for a vbucket while an item of it is in the write or reject queue |
| FlushPipeline.PipeStep | ep-engine/ep.cc:1385-1556 | Every step of the flusher and of every vbucket's queue, discarding ones included, keeps the pipeline invariant: what was drawn last for a key is in flight or was processed last, and every mutation covered by a draw has settled or it or a later one of its key is in flight |
| FlusherCycle.CycleLosesNothing | ep-engine/ep.cc:1524-1556 | Whatever a transaction's outcomes, an item leaves the queues only by being processed, and none is made up |
| FlusherCycle.SomeTransacted | ep-engine/ep.cc:1524-1556 | A transaction that began attempts as many items as it has outcomes, in order: written are exactly those with an outcome that wrote or rejected nothing, rejected exactly as many copies of each as its outcome says, the rest waits; one that could not begin rejects all |
| FlusherCycle.WrittenExactly | ep-engine/ep.cc:1535-1546 | Which items are written, by index: an item is exactly if some attempt at it wrote it or rejected nothing |
| FlusherCycle.CompletesExactly | ep-engine/flusher.cc:225-267 | A pass completes the cycle if and only if nothing waits in the reject queue and there is nothing to write, or the transaction began, attempted every item and rejected none; then exactly the whole write queue was written |
| FlusherCycle.Flusher.FlushSome | ep-engine/ep.cc:1524-1556 | The queues after a transaction, outcome by outcome: what was written, what was rejected and what waits; all items rejected if it could not begin |
| FlusherCycle.Flusher.RequeueRejectedItems | ep-engine/ep.cc:1485-1493 | Rejected items go behind the write queue, in order |
| FlusherCycle.Flusher.DoFlush | ep-engine/flusher.cc:225-267 | The queues after one pass and what it wrote; a batch is taken only between cycles; a cycle completes exactly if both queues are empty, and exactly in a pass that attempts everything and rejects nothing; nothing drawn is lost; the pass is a run of the pipeline |
| FlusherCycle.Flusher.PublishedPersisted | ep-engine/flusher.cc:225-267 | So whatever the flusher and the vbuckets did, as long as every step met its guard, each mutation under a published id is among the items the flusher processed, or a later one of its key is |
| BeginFlush.DrawVbucket | ep-engine/ep.cc:1432-1461 | Reading a manager's persistence cursor and deduplicating is the pipeline's draw of that vbucket, for the manager and for its lane |
| BeginFlush.Begin | ep-engine/ep.cc:1421-1465 | Over the managers of all vbuckets: every vbucket is drawn with its backfill, or passed over if dead; all that persistence may be handed was drawn from the former, and the latter are as they were; the new write queue is that of this run, after which every manager is still the queue of its lane, and the drawn ids are remembered |
| PersistentStore.EventuallyPersistentStore.CallOn | ep-engine/checkpoint.cc:129-875 | Any call on a manager is the event of the run that the call and the limits determine, or none, and manager and lane go on alike |
| PersistentStore.EventuallyPersistentStore.SetPersistenceCheckpointId | ep-engine/ep.cc:1589-1592 | A caller's publishing is an event of the run |
| PersistentStore.EventuallyPersistentStore.ProcessCheckpointStart | ep-engine/tapconnection.cc:1113-1131 | A checkpoint start, followed by the publishing of the id before exactly if persistence was repositioned |
| PersistentStore.EventuallyPersistentStore.ResetVBucket | ep-engine/ep.cc:880-909 | Nothing is published for the vbucket any more, and its checkpoints are cleared |
| PersistentStore.EventuallyPersistentStore.HasItemsForPersistence | ep-engine/ep.cc:1572-1587 | True exactly if some vbucket that is not dead has items ahead of persistence, a closed last checkpoint, or backfill |
| PersistentStore.EventuallyPersistentStore.DrawBatch | ep-engine/ep.cc:1385-1470 | A batch is drawn from all vbuckets exactly if there is anything to persist, and everything persistence may be handed is then drawn |
| PersistentStore.EventuallyPersistentStore.DoFlush | ep-engine/ep.cc:1495-1508 | The queues after one pass over what was left or over a fresh batch, what it wrote and exactly when it completes the cycle; the drawn ids of the vbuckets that are not dead are then published, and no id otherwise |
| PersistentStore.NothingLeft | ep-engine/ep.cc:1421-1465 | Once a batch is drawn, a vbucket that is neither dead nor in online update has nothing ahead of persistence, and the id before its last checkpoint is the one to be published |
| PersistentStore.PersistedTrue | ep-engine/ep.cc:1495-1508 | If every step met its guard, each mutation under an id the store has published was processed by its flusher, or a later one of its key was |
| PersistentStore.RunStore | ep-engine/ep.cc:1385-1556 | Calls on managers, checkpoint starts, resets and flush passes of a new store in any order: its life is the run of the events they stand for, and what it publishes is persisted if that run meets its guard, as it does when callers keep to their rules |
| ChunkDeletion.SplitRefits | ep-engine/ep.hh:158-167 | A split keeps order, extent and coverage |
| ChunkDeletion.MergeRefits | ep-engine/ep.hh:174-197 | So does a merge, in each of its branches |
| ChunkDeletion.ResizeWindow | ep-engine/ep.cc:290-299 | After the resize the front range lies within the window of the given size and every other range begins beyond it |
| ChunkDeletion.VBDeletionChunkRangeList.Add | ep-engine/ep.hh:134-139 | To an ordered list a range is appended exactly if the list stays ordered |
| ChunkDeletion.VBDeletionChunkRangeList.SplitChunkRange | ep-engine/ep.hh:158-167 | The list after a split in place |
| ChunkDeletion.VBDeletionChunkRangeList.MergeChunkRanges | ep-engine/ep.hh:174-197 | The list after a merge in place |
| ChunkDeletion.VBDeletionChunkRangeList.FindClosestChunkByRangeSize | ep-engine/ep.hh:222-229 | The first range that ends beyond the window |
| ChunkDeletion.VBDeletionChunkRangeList.RemoveChunkRanges | ep-engine/ep.hh:207-213 | From an ordered list exactly the ranges strictly between two positions are removed, and it stays ordered |
| ChunkDeletion.ChunkAt | ep-engine/ep.hh:264-284 | Range `k` begins with row id number `k` times the chunk size and holds that many, but for the last, which holds the rest |
| ChunkDeletion.CreateRangeList | ep-engine/ep.hh:264-284 | The ranges are sorted, disjoint, begin and end with the first and last row id and contain all of them; each takes chunk size row ids, the last one the rest |
| ChunkDeletion.VBucketDeletionCallback.Advance | ep-engine/ep.cc:280-301 | After a successful chunk: the range is done, nothing is lost, and the distance to the last row id is smaller; the range size follows the measured time, but is at least 100 then, and the next range lies within the window of that size, all others beyond it |
| ChunkDeletion.VBucketDeletionCallback.Callback | ep-engine/ep.cc:253-320 | What one run of the deletion job does for each result; it asks to run again exactly if something is left, or the deletion failed |
| ChunkDeletion.RunDeletion | ep-engine/ep.cc:253-320 | For all outcomes and times: ranges deleted are disjoint and increasing, contain every row id once the job is finished, and it is finished after at most as many successes as the row ids span |
| AtomicQueues.StepInv | ep-engine/atomic.hh:163-187 | Every atomic step of every thread is memory-safe (no null or dangling queue, no slot out of bounds) and keeps the invariant |
| AtomicQueues.RunInv | ep-engine/atomic.hh:436-488 | So every schedule of up to 100 threads keeps the invariant, and no step of it is ever unsafe |
| AtomicQueues.UniqueOwner | ep-engine/atomic.hh:525-539 | Under every interleaving each inner queue is in exactly one slot or with exactly one thread |
| AtomicQueues.ExactlyOnce | ep-engine/atomic.hh:436-488 | Under every interleaving the pushed items are exactly those received or still queued, each in exactly one place |
| AtomicQueues.ProducerOrder | ep-engine/atomic.hh:462-488 | A consumer receives the items of each producer in push order |
| AtomicQueues.SizeCoversSlots | ep-engine/atomic.hh:439-488 | `numItems` is never below the number of items in the slots, and equals it when no operation is under way |
| AtomicCalls.CallPushes | ep-engine/atomic.hh:436-453 | By the time it returns, under every interleaving, a call has pushed exactly its items in its name |
| AtomicCalls.GetAllTakes | ep-engine/atomic.hh:461-488 | By the time a `getAll` returns, under every interleaving, every item that lay in a slot when it began was taken by it or by another consumer and is in no slot, unless the thread of the slot took a turn meanwhile |
| AtomicCalls.ProducerKeeps | ep-engine/atomic.hh:174-187 | That condition is needed: in every reachable state where the thread of the slot is idle, it can steal its queue back to push, and then the `getAll` returns without the item being taken |
| AtomicCalls.AloneTakes | ep-engine/atomic.hh:461-488 | A `getAll` that no other thread interferes with takes everything of exactly the threads that do not hold their queue in the middle of a call of their own, and nothing of the others |
| AtomicCalls.AloneReceives | ep-engine/atomic.hh:461-488 | What its caller receives are exactly those items, each once, after what it had |
| AtomicCalls.AloneEmpties | ep-engine/atomic.hh:461-488 | With every other thread idle, every slot is empty afterwards, everything pushed is taken and `numItems` is 0 |
| AtomicCalls.CallReturns | ep-engine/atomic.hh:163-187 | In every reachable state, a call that is left alone returns |
| BucketLifecycle.RunInv | bucket_engine/bucket_engine.c:1292-1513 | Handles, table, counter and stage of the global shutdown agree in every reachable state |
| BucketLifecycle.DestroyedExactlyOnce | bucket_engine/bucket_engine.c:1368-1412 | Under every interleaving no engine is destroyed twice, and after the global shutdown each one ever created was destroyed once |
| BucketLifecycle.WhoDestroys | bucket_engine/bucket_engine.c:1313-1335 | After the global shutdown: destroyed by its own finished thread, or else by the sweep, which is the case exactly for the entries still in the table |
| BucketLifecycle.OneShutdownThread | bucket_engine/bucket_engine.c:1477-1513 | At most one shutdown thread per bucket; a stop request with no call inside never remains unserved |
| BucketLifecycle.NobodyInside | bucket_engine/bucket_engine.c:826-884 | From the start of the shutdown thread on, no bracketed call is inside and none ever enters again |
| BucketLifecycle.ThreadAssertions | bucket_engine/bucket_engine.c:1386-1412 | The thread's assertions hold: stopping and no clients when it destroys, and the table entry it deletes is its own |
| BucketLifecycle.WaitsForThreads | bucket_engine/bucket_engine.c:1326-1333 | The counter is the number of threads at work; while it is not zero one of them can go on |
| BucketLifecycle.ThreadsEnd | bucket_engine/bucket_engine.c:1368-1471 | Every step of a thread lowers the work left, so the wait ends |
| BucketLifecycle.StopAtOnce | bucket_engine/bucket_engine.c:2188-2214 | A stop request for a running bucket stops it: with nobody inside it is stopping, with exactly one shutdown thread, just spawned; with calls inside they stay and the thread waits for them. A further request changes nothing |
| BucketLifecycle.StopForGood | bucket_engine/bucket_engine.c:1477-1513 | Whatever happens after the request, the bucket never runs again, no call gets in, and it has its one shutdown thread exactly if nobody is inside |
| BucketLifecycle.CallsInside | bucket_engine/bucket_engine.c:826-884 | A call gets in exactly if the bucket is running, and is inside until it leaves |
| BucketLifecycle.DeletionCompletes | bucket_engine/bucket_engine.c:1368-1471 | A shutdown thread left to itself ends with the engine destroyed once, the bucket stopped and its table entry gone, or, exactly if the global shutdown was under way when it began, gives way with nothing changed in the table |
| BucketLifecycle.CreateRuns | bucket_engine/bucket_engine.c:739-816 | Creating a bucket under a free name gives a new running one and leaves the others; a name in use changes nothing |
| BucketLifecycle.ShutdownProceeds | bucket_engine/bucket_engine.c:1317-1335 | The global shutdown never hangs: it waits for a thread that can go on, or its own next step is possible, one name less to visit each time |

## Left out

- Hot reload (`beginHotReload`, `endHotReload`, `getAllItemsForOnlineUpdate`): the online-update cursor is modelled from start to stop only.
- Counters during and after online update: the stop subtracts 2 from every offset regardless of position, so positions are modelled there and `CountersExact` is claimed without online update only.
- Clear, and checkpoint starts that roll back, while online update is active: the online-update cursor is not repositioned by the code; both are preconditions. Checkpoint starts that append are covered.
- Stopping an online update whose last checkpoint is closed: a precondition, since the structure is then lost (`StopOnlineBreaks`).
- Counters after a mutation with an empty key: such a mutation is modelled and delivered, but exact counters are claimed for non-empty keys.
- PublishedIds.PublishedCheckpointsPersisted: under the guard, which is exact (`TruthfulStep`, `GuardNecessary`) and without which it is false (`UnguardedLies`). What a vbucket reset deletes from disk, and that it does nothing when the hash table is empty, is not modelled.
- PersistentStore: two steps of one checkpoint start or reset are not interleaved with other calls there; `CallersKeepTrue` covers every interleaving.
- Integer widths: ids, counters, row ids and CAS values are unbounded, including the id that `checkOpenCheckpoint_UNLOCKED` keeps in an `int`.
- Memory pressure, which forces new checkpoints, is a parameter of the operations that check the open one.
- `beginFlush` for restore lists, flush-all and commit markers, and the store's own reordering beyond "any permutation".
- The inside of `flushOneDelOrSet`, expiry, data age, transactions and preemption: arbitrary outcomes instead.
- Flusher states, the dispatcher, timing and statistics.
- `getNumItemsForTAPConnection`, `hasNext` and other getters would only add easy members.
- AtomicQueues: memory ordering weaker than sequential consistency, and the destructor.
- AtomicCalls.CallReturns: for calls left alone; under interference a compare-and-swap may fail any number of times.
- BucketLifecycle: reference counts and the freeing of handles, so a thread may stop waiting for references at any time; the default engine; engines whose initialisation fails; bucket creation after the sweep of the table has begun; a second global shutdown.
- The disconnect callback and the TAP iterator shim, which do not follow the enter and release bracket.
- Hash table, stored values, TAP connections, configuration, command decoding and logging.
