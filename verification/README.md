# sf2loki in Dafny

sf2loki ships Salesforce events to Grafana Loki and promises at-least-once delivery. This project models the state
machines that promise rests on and proves what they keep:

- **Leadership and fencing** (`FileLease`, `FileLeaseLimits`, `FileLeaseTenure`, `FileStore`, `Fencing`): replicas
  contest a lease file by read, write, pause and verify-read; a winner's epoch fences the checkpoint file.
- **Compare-and-swap** (`K8sLease`, `K8sLeaseTenure`, `ObjectStore`, `ObjectStoreLimits`, `ObjectStoreSync`): the
  Kubernetes Lease with observed-time staleness, and the S3 and GCS checkpoint objects with conditional writes (sections
  13.1.1, 13.1.2 and 15.5.13 of RFC 9110), retries and lost answers.
- **The pipeline** (`BoundedQueue`, `SharedQueues`, `Pipeline`, `PipelineCauses`, `PipelineSafety`, `PipelineFlush`,
  `PipelineMemory`, `PipelineStore`, `PipelineLimits`, `Bridge`, `LokiSink`, `LokiSinkVerdicts`, `Egress`,
  `EgressProgress`): lanes with byte-bounded queues, batches, the splitting push, the rate and budget governor, commits.
- **Sources** (`BigObjectDrain`, `BigObjectCycles`, `BigObjectProgress`, `AscendingPoll`, `EventLogFile`,
  `EventLogFileCycles`, `PubSub`, `PubSubResume`, `Backfill`, `BackfillTurns`): cursors, watermarks and id windows over
  paged queries, file listings and streams.
- **End to end** (`EndToEnd`): the ascending poll and the pipeline together, through any number of crashes.

A protocol is a state machine on values: `Enabled` and `Apply` give the steps, one from each `await` to the next, a run
is a sequence of actions, and servers, clocks and schedulers may do anything the actions allow. Where the program
changes fields or loops, there are classes and methods whose contracts tie them to those steps. Every property is proved
for all runs, all interleavings and all inputs of the model. Beside what must never happen, the project states exactly
when something does happen: when a leader surrenders or a standby takes over, when a batch is flushed, pushed, dropped or
committed, where a stream resumes, what an instance knows after a commit or a reset. Timestamps are integers, token-bucket arithmetic is over
the reals, and record ids are an ordered or opaque type.

Some properties one would expect fail, and each failure comes with a witness and the exact condition under which it does
not occur: the hypotheses of the lease theorem are each needed (`FileLeaseLimits`), reading a GCS body before its
generation loses updates (`ObjectStoreLimits`), a flush after an abandoned batch commits past it (`PipelineLimits`, with
`PipelineSafety.CommittedMeansAccounted` for every run), backfill never ends on a date crowded with a page of files one
of which is empty (`BackfillTurns.EndsExactly`), a capped drain may never emit a new row
(`BigObjectCycles.CycleStarves`), a cycle over more rows of one time than the id window holds emits some of them again
(`BigObjectProgress.RepeatsExactly`), and a reset of a checkpoint store is undone by an answer under way
(`ObjectStoreSync.ResetIsUndoneExactly`).

## Model

| member | source | states |
|---|---|---|
| `FileLease.ConfirmedEpochsIncrease` | src/sf2loki/coordinate/file_lease.py:184-300 | in every interleaving of any number of replicas, with any clocks, confirmed epochs strictly increase in confirmation order if every read-to-write gap is shorter than the verify delay, the file is not deleted or corrupted and no renewer misses two reads in a row |
| `FileLease.StepKeepsInv` | src/sf2loki/coordinate/file_lease.py:184-300 | every single read, write, pause and verify step of any replica keeps the lease invariant |
| `FileLease.ConfirmKeepsInv` | src/sf2loki/coordinate/file_lease.py:217-227 | a verify read that confirms a claim confirms an epoch newer than all confirmed before |
| `FileLease.WriteKeepsInv` | src/sf2loki/coordinate/file_lease.py:363-387 | a disciplined write never lowers the epoch on file nor repeats a confirmed one |
| `FileLease.RunKeepsInv` | src/sf2loki/coordinate/file_lease.py:184-300 | the invariant holds at the end of every disciplined run |
| `FileLeaseLimits.LateClaimRepeatsEpoch` | src/sf2loki/coordinate/file_lease.py:202-227 | the gap bound is tight: one claim written exactly one verify delay after its read lets two replicas confirm the same epoch |
| `FileLeaseLimits.DeletionRepeatsEpoch` | src/sf2loki/coordinate/file_lease.py:202-207 | one deletion of the lease file restarts epochs and repeats one |
| `FileLeaseLimits.BlindRenewalRepeatsEpoch` | src/sf2loki/coordinate/file_lease.py:271-288 | one rewrite after two failed reads in a row brings a lost epoch back and repeats one |
| `FileLease.FileLeaseCoordinator.WriteFile` | src/sf2loki/coordinate/file_lease.py:363-387 | a write puts holder, expiry and epoch on file; a failed one may or may not have landed |
| `FileLease.FileLeaseCoordinator.ContestReadStep` | src/sf2loki/coordinate/file_lease.py:186-207 | the contest read takes the step of the protocol: back off, stand by, or claim the next epoch |
| `FileLease.FileLeaseCoordinator.ContestWriteStep` | src/sf2loki/coordinate/file_lease.py:208-216 | the claim write and its failure take the step of the protocol |
| `FileLease.FileLeaseCoordinator.VerifyReadStep` | src/sf2loki/coordinate/file_lease.py:217-231 | leadership and epoch change only on a confirming verify read |
| `FileLease.FileLeaseCoordinator.StartHoldStep` | src/sf2loki/coordinate/file_lease.py:241-244 | holding starts with the current time as last success |
| `FileLease.FileLeaseCoordinator.HoldReadStep` | src/sf2loki/coordinate/file_lease.py:245-271 | a foreign holder makes the leader surrender; an unreadable file makes it look again |
| `FileLease.FileLeaseCoordinator.RecheckStep` | src/sf2loki/coordinate/file_lease.py:271-286 | the second look surrenders to a foreign holder and otherwise renews |
| `FileLease.FileLeaseCoordinator.RenewWriteStep` | src/sf2loki/coordinate/file_lease.py:286-299 | renewal keeps the epoch; failures past the ttl surrender |
| `FileStore.EpochNeverDecreases` | src/sf2loki/state/file_store.py:250-297 | over any sequence of fenced commits and deletes by any replicas the persisted epoch never decreases |
| `FileStore.SmallerEpochsAreRejected` | src/sf2loki/state/file_store.py:250-297 | once an epoch has landed, every attempt under a smaller one raises and leaves the document as it is |
| `FileStore.LandedEpochsAreOrdered` | src/sf2loki/state/file_store.py:250-297 | attempts that land do so in epoch order |
| `FileStore.FileCheckpointStore.Load` | src/sf2loki/state/file_store.py:201-205 | a load answers from the cached document, read from the file when there is none |
| `FileStore.FileCheckpointStore.CommitMany` | src/sf2loki/state/file_store.py:210-226 | a commit under an epoch reads the file afresh and either raises without writing or leaves every item at its new value, every other key at its old one and the epoch stamped |
| `FileStore.FileCheckpointStore.DeleteKey` | src/sf2loki/state/file_store.py:228-272 | a delete under an epoch is fenced the same way, removes exactly the key and writes only if the key exists |
| `Fencing.LandedWritesFormRuns` | src/sf2loki/state/file_store.py:210-297 | with the lease protocol, every landed write belongs to a confirmed acquisition and the writes of the acquisitions follow each other without interleaving |
| `Fencing.LeadershipIsConfirmed` | src/sf2loki/coordinate/file_lease.py:152-227 | whoever leads under an epoch has confirmed that epoch |
| `K8sLease.RenewalReplacesOwnVersion` | src/sf2loki/coordinate/k8s_lease.py:346-411 | a renewal the server accepts only replaces a version its own holder wrote |
| `K8sLease.HolderChangesOnlyAfterWatch` | src/sf2loki/coordinate/k8s_lease.py:268-343 | a live lease changes holder only by a claim on the very version that the winner watched unchanged for the recorded duration on its own clock |
| `K8sLease.PromptLeaderIsNeverDisplaced` | src/sf2loki/coordinate/k8s_lease.py:268-446 | a leader whose accepted renewals are always less than the recorded duration apart keeps the lease, even through failed reads and lost answers |
| `K8sLease.StepKeepsInv` | src/sf2loki/coordinate/k8s_lease.py:268-446 | every step of any replica, of the network and of the server keeps the invariant |
| `K8sLease.LandsKeepsInv` | src/sf2loki/coordinate/k8s_lease.py:296-336 | a request that lands, with its answer delivered or lost, keeps the invariant |
| `K8sLease.DecisionIsSound` | src/sf2loki/coordinate/k8s_lease.py:71-87 | a standby claims only what is absent, unheld or watched for the recorded duration |
| `K8sLease.K8sLeaseCoordinator.Observe` | src/sf2loki/coordinate/k8s_lease.py:268-283 | staleness counts from when this version was first seen on the own clock |
| `K8sLease.K8sLeaseCoordinator.AcquireStep` | src/sf2loki/coordinate/k8s_lease.py:288-318 | create when absent, replace when stale, else stand by |
| `K8sLease.K8sLeaseCoordinator.HoldStep` | src/sf2loki/coordinate/k8s_lease.py:357-379 | a foreign holder makes the leader surrender; otherwise it renews the version read or, failing that, the last known one |
| `ObjectStore.NoLostUpdate` | src/sf2loki/state/s3_store.py:224-359 | for any interleaving of instances, resets, retries and lost answers the object equals the landed updates in landing order, and a cached token equal to the current one means the cached document is the stored one |
| `ObjectStore.LandingAppliesUpdate` | src/sf2loki/state/s3_store.py:265-308 | a guarded put that lands turns the stored document into that document with the update applied |
| `ObjectStore.SoundSurvivesLanding` | src/sf2loki/state/gcs_store.py:176-211 | what an instance knows about a token stays true whatever lands after |
| `ObjectStore.StepKeepsInv` | src/sf2loki/state/gcs_store.py:176-314 | every step of any instance and of the store keeps the invariant, with the generation read before the body |
| `ObjectStore.ObjectCheckpointStore.ObjectArrived` | src/sf2loki/state/s3_store.py:224-254 | an S3 load takes document and ETag together |
| `ObjectStore.ObjectCheckpointStore.GenerationArrived` | src/sf2loki/state/gcs_store.py:182-199 | a GCS load keeps the generation before it asks for the body |
| `ObjectStore.ObjectCheckpointStore.PutAnswered` | src/sf2loki/state/gcs_store.py:242-264 | only an acknowledged put moves cache and token |
| `BoundedQueue.StepKeepsBytes` | src/sf2loki/app.py:347-378 | charging, putting, taking and releasing keep the byte count equal to the cost of what is charged and not released, below budget plus one entry; a sleeping producer waits at a full budget |
| `BoundedQueue.StepKeepsFlow` | src/sf2loki/app.py:301-321 | what each source yielded is, in order, what left the queue, what is in it and what is in the hand of its producer |
| `BoundedQueue.EndedIsComplete` | src/sf2loki/app.py:403-407 | once the sentinel of a source is taken, all that it yielded has been taken |
| `BoundedQueue.LiveChanges` | src/sf2loki/app.py:403-407 | only taking a sentinel ends a source, and it ends exactly one |
| `BoundedQueue.BlockedMeansProgress` | src/sf2loki/app.py:347-378 | while a producer is blocked another task can step |
| `SharedQueues.SharedQueue.ChargeTurn` | src/sf2loki/app.py:347-367 | admit while under the budget, even past it, else sleep |
| `SharedQueues.SharedQueue.ReleaseItem` | src/sf2loki/app.py:369-378 | return the cost and wake all sleepers |
| `SharedQueues.SharedQueue.PutItem` | src/sf2loki/app.py:313-314 | a put appends the charged value |
| `SharedQueues.SharedQueue.PutEnd` | src/sf2loki/app.py:318-321 | the sentinel costs nothing and follows all that the source put |
| `SharedQueues.SharedQueue.TakeItem` | src/sf2loki/app.py:388-394 | the oldest item is taken |
| `Pipeline.FlushKeepsInv` | src/sf2loki/app.py:420-452 | an empty batch, a batch of bare tokens and an over-budget batch keep every entry accounted for before they commit |
| `Pipeline.RealEntries` | src/sf2loki/app.py:423-427 | the entries handed to the sink are those that do not only carry a token |
| `Pipeline.CommitTokens` | src/sf2loki/app.py:499-503 | the token written for a key is that of its last entry in the batch |
| `Pipeline.Consumer.AbsorbItem` | src/sf2loki/app.py:403-418 | one item more in the batch and whether it must be flushed; the last sentinel flushes |
| `PipelineSafety.LaneBytesAreBounded` | src/sf2loki/app.py:323-378 | in every reachable state the byte count is the cost of what is charged and not released, is not negative and at most budget - 1 plus the largest entry |
| `PipelineSafety.BatchesAreBounded` | src/sf2loki/app.py:409-418 | in every reachable state a batch exceeds the entry or byte limit by its last entry at most, its byte count is that of its lines, and a batch that waits for more has a deadline |
| `PipelineSafety.NoProducerIsStuck` | src/sf2loki/app.py:347-418 | in no reachable state is a producer blocked with no other task able to step |
| `Bridge.BridgeIsBoundedAndComplete` | src/sf2loki/sources/pubsub_source.py:303-341 | the bridge accounts for and bounds its bytes, also with topics spawned late, and its drain loop ends only when all that every topic enqueued was handed on |
| `Bridge.NoTopicIsStuck` | src/sf2loki/sources/pubsub_source.py:398-434 | in no reachable state is a topic task blocked with nobody able to step |
| `LokiSink.PushSettlesBatch` | src/sf2loki/sinks/loki/sink.py:238-293 | a push of two or more entries never raises the permanent error, posts at most 2n-1 batches, and on return every entry was accepted or dropped with its reason on record |
| `LokiSink.LeavesCoverBatch` | src/sf2loki/sinks/loki/sink.py:238-293 | accepted batches and dropped entries are together the batch, in order and each once; on the retryable error a prefix of it |
| `LokiSink.LeavesAreJustified` | src/sf2loki/sinks/loki/sink.py:238-293 | an entry is dropped only after it was refused alone with 400 or 413, and counted accepted only in a batch answered 2xx |
| `LokiSink.PostsAreBounded` | src/sf2loki/sinks/loki/sink.py:238-293 | at most 2n-1 batches are posted for n entries, for any server |
| `LokiSink.OnlySingleEntryIsPermanent` | src/sf2loki/sinks/loki/sink.py:238-293 | only the push of a single entry ends with the permanent error |
| `LokiSink.Sink.PushBatch` | src/sf2loki/sinks/loki/sink.py:238-293 | the recursive push posts, splits and counts drops as specified |
| `Egress.WindowIsBounded` | src/sf2loki/egress.py:62-96 | what a token bucket lets through in any window is at most rate times its length plus the larger of capacity and one batch, whoever shares the bucket |
| `Egress.GateLinesAreBounded` | src/sf2loki/egress.py:230-249 | the line bound holds when both buckets must agree |
| `Egress.GateBytesAreBounded` | src/sf2loki/egress.py:230-249 | the byte bound holds when both buckets must agree |
| `Egress.BudgetOvershootIsBounded` | src/sf2loki/egress.py:144-260 | in drop mode used plus admitted bytes never exceed the budget by more than (n-1) batches, through rollovers and restarts |
| `Egress.TokenBucket.Refill` | src/sf2loki/egress.py:81-85 | refill up to the capacity, never back in time |
| `Egress.TokenBucket.WaitTime` | src/sf2loki/egress.py:87-92 | a request over the capacity waits only for a full bucket |
| `Egress.TokenBucket.Consume` | src/sf2loki/egress.py:94-96 | tokens may go negative |
| `Egress.EgressGovernor.ThrottleTurn` | src/sf2loki/egress.py:230-249 | a turn takes from both buckets or from none, and the wait returned is the longer of the two |
| `Egress.EgressGovernor.Start` | src/sf2loki/egress.py:144-159 | the persisted counter counts only for the same day |
| `Egress.EgressGovernor.Admit` | src/sf2loki/egress.py:174-193 | admit while the day is under its budget |
| `Egress.EgressGovernor.Record` | src/sf2loki/egress.py:251-260 | a pushed batch is counted on the day it is recorded |
| `BigObjectDrain.TurnIsSound` | src/sf2loki/sources/eventlog_objects_source.py:658-704 | every turn of the paging loop, tie escape included, keeps all rows either fetched or still matched by the next query |
| `BigObjectDrain.EvictionKeepsOldest` | src/sf2loki/sources/eventlog_objects_source.py:654-656 | every evicted row is at least as new as every retained one |
| `BigObjectDrain.SortedIsDrained` | src/sf2loki/sources/eventlog_objects_source.py:704-710 | the result is sorted and holds exactly the collected rows |
| `BigObjectDrain.Collect` | src/sf2loki/sources/eventlog_objects_source.py:646-653 | a page adds the rows not collected yet |
| `BigObjectDrain.Evict` | src/sf2loki/sources/eventlog_objects_source.py:654-656 | eviction leaves at most the cap |
| `BigObjectCycles.CurrentIsSafe` | src/sf2loki/sources/eventlog_objects_source.py:464-523 | the checkpoint reached after any emitted row has nothing unprocessed behind its watermark |
| `BigObjectCycles.EmitAll` | src/sf2loki/sources/eventlog_objects_source.py:355-365 | the checkpoints carried by the emitted rows, and one alone when no row became an entry |
| `BigObjectCycles.SkipSeen` | src/sf2loki/sources/eventlog_objects_source.py:352-353 | rows whose id is remembered are skipped |
| `AscendingPoll.ResumeYieldsRest` | src/sf2loki/sources/eventlog_objects_source.py:367-523 | resuming from the checkpoint of any yielded entry yields exactly the entries after it, checkpoints included, whatever is filtered |
| `AscendingPoll.UnfilteredPoll` | src/sf2loki/sources/eventlog_objects_source.py:367-462 | with nothing filtered every row still to come is yielded once in order |
| `AscendingPoll.WalkLeavesRest` | src/sf2loki/sources/eventlog_objects_source.py:378-393 | the compound cursor after n rows selects exactly the rows after them |
| `AscendingPoll.PollObject` | src/sf2loki/sources/eventlog_objects_source.py:367-462 | the page loop terminates without a stall, yields exactly what the cursor selects and, cut off, the first part of it |
| `AscendingPoll.EmitPage` | src/sf2loki/sources/eventlog_objects_source.py:447-454 | rows are emitted in order with the checkpoint after each |
| `AscendingPoll.PollApexLogs` | src/sf2loki/sources/apexlog_source.py:157-296 | the same for Apex logs, with the window trimmed on load and downloads throttled anywhere |
| `AscendingPoll.EmitLogs` | src/sf2loki/sources/apexlog_source.py:236-277 | in-place append and trim of the window give the same checkpoints |
| `AscendingPoll.Remember` | src/sf2loki/sources/apexlog_source.py:248-250 | append, then drop the oldest id beyond the limit |
| `EventLogFile.WindowDecidesAsHistory` | src/sf2loki/sources/eventlogfile_source.py:164-215 | the trimmed window skips or reprocesses exactly as the whole history of processed pairs would, for every file listed at or after the watermark, regenerated daily files included |
| `EventLogFile.AppendSpec` | src/sf2loki/sources/eventlogfile_source.py:164-193 | the new pair replaces an older one of the same id and all pairs at the new date are kept |
| `EventLogFile.WindowFollowsHistory` | src/sf2loki/sources/eventlogfile_source.py:164-193 | processing a file extends the history the window stands for |
| `EventLogFile.EveryPrefixIsSafe` | src/sf2loki/sources/eventlogfile_source.py:490-737 | for every prefix of what is yielded, the last checkpoint marks only done files and has no undone non-empty file before its watermark |
| `EventLogFile.ReadyIsSafe` | src/sf2loki/sources/eventlogfile_source.py:555-570 | skipping unsettled files is safe because files come in date order |
| `PubSub.LatestIsNeverUsedAgain` | src/sf2loki/sources/pubsub_source.py:580-640 | once a valid position is known LATEST is never used again |
| `PubSub.StepKeepsInv` | src/sf2loki/sources/pubsub_source.py:452-651 | every step of the topic loop and of the server keeps the coverage invariant |
| `PubSub.EventKeepsInv` | src/sf2loki/salesforce/pubsub_client.py:342-370 | an event delivered moves the resume position only past events covered |
| `PubSub.DecodeErrorKeepsInv` | src/sf2loki/salesforce/pubsub_client.py:356-362 | an event that does not decode is counted and passed |
| `PubSub.FirstStays` | src/sf2loki/sources/pubsub_source.py:452-651 | a known first position stays |
| `PubSub.TopicTask.LoadPosition` | src/sf2loki/sources/pubsub_source.py:489-530 | a stored id is resumed from, a missing or corrupt one gives the configured preset, CUSTOM giving LATEST |
| `PubSub.TopicTask.OnKeepalive` | src/sf2loki/sources/pubsub_source.py:556-564 | an unchanged keepalive position is ignored |
| `PubSub.TopicTask.OnFailure` | src/sf2loki/sources/pubsub_source.py:580-640 | only INVALID_ARGUMENT on a resumed position, not denied by the trailer, falls back to EARLIEST |
| `Backfill.FreshTodo` | src/sf2loki/backfill.py:548-694 | from an empty cursor the wanted files are all non-empty files in [since, until), each once and in order |
| `Backfill.RestartResumes` | src/sf2loki/backfill.py:166-184 | restarting from the cursor after any number of pushes leaves exactly the files not yet pushed |
| `Backfill.RestartNeverSkips` | src/sf2loki/backfill.py:399-456 | a run cut anywhere and a second run with the same window push every wanted file |
| `Backfill.ChunkEntries` | src/sf2loki/backfill.py:325-343 | chunks are together the entries in order, each within both limits unless it is one oversized entry, and none could have taken the first entry of the next |
| `Backfill.PlaceEntry` | src/sf2loki/backfill.py:333-340 | a chunk is closed exactly when the next entry would not fit |
| `Backfill.ProcessFiles` | src/sf2loki/backfill.py:483-545 | files are pushed in order up to the first failure and the cursor follows |
| `Backfill.KeepFiles` | src/sf2loki/backfill.py:627-642 | files outside the window or done at the boundary are not downloaded |
| `Backfill.TypeCursor.AdvancePast` | src/sf2loki/backfill.py:173-179 | the cursor collects the ids pushed at its date and starts over at a new date |
| `FileStore.FileCheckpointStore.Reset` | src/sf2loki/state/file_store.py:191-199 | after a reset every load and commit starts from what is on file, whatever was cached |
| `K8sLease.K8sLeaseCoordinator.ClaimAnswered` | src/sf2loki/coordinate/k8s_lease.py:296-336 | an accepted claim makes the replica leader as in the protocol step; a conflict or a failure leaves it standing by, and leadership stays tied to holding |
| `K8sLease.K8sLeaseCoordinator.RenewalAnswered` | src/sf2loki/coordinate/k8s_lease.py:372-411 | success adopts the new version; conflict, deletion or a silence as long as the lease surrenders; other failures keep the version: the steps of the protocol |
| `ObjectStore.BeginCommit` | src/sf2loki/state/s3_store.py:265-300 | a commit writes the cached document overwritten by the items under the cached token, and the upload is sound whenever the cached pair is |
| `ObjectStore.BeginDelete` | src/sf2loki/state/s3_store.py:310-350 | a delete of a missing key writes nothing; otherwise the document without the key is written, soundly whenever the cached pair is sound |
| `ObjectStoreLimits.BodyFirstLosesUpdates` | src/sf2loki/state/gcs_store.py:176-211 | the store with the two requests of its load swapped has a run in which two commits land and the first one is gone |
| `ObjectStoreLimits.KeptExactly` | src/sf2loki/state/gcs_store.py:176-211 | that run loses nothing exactly when the document or the second commit already carries what the first one wrote |
| `ObjectStoreLimits.LateTokenIsSoundExactly` | src/sf2loki/state/gcs_store.py:176-211 | a document read before its token is sound under it exactly when it is still the stored one |
| `Pipeline.StepKeepsInv` | src/sf2loki/app.py:301-515 | every step of producers and consumer, for any answer of the governor and of Loki, keeps order, bytes and the account of every flushed batch |
| `Pipeline.AnswerKeepsInv` | src/sf2loki/app.py:454-497 | on an answer that settles the batch, where its entries ended is exactly its real entries in order; a retryable answer settles nothing |
| `Pipeline.CloseKeepsInv` | src/sf2loki/app.py:462-515 | a batch leaves the consumer committed, with its tokens in the store and all its real entries ended, or abandoned, with neither |
| `PipelineCauses.EveryStepCauses` | src/sf2loki/app.py:420-497 | a step ends entries only for a reason: a 2xx answer to their batch, a 400 or 413 to the entry alone, or the governor turning the batch away |
| `PipelineCauses.EndsAreCaused` | src/sf2loki/app.py:420-497 | in every run every entry that ended has its reason in a step of the run |
| `PipelineCauses.RefusalIsCaused` | src/sf2loki/app.py:474-489 | the permanent error settles a batch only if the batch is the one entry that Loki refused alone |
| `PipelineCauses.NoEntryIsDroppedForAnother` | src/sf2loki/app.py:454-497 | no good entry is ever discarded beside a poison one: every entry that ended, in every reachable lane, has its own reason |
| `PipelineSafety.CommittedMeansSettled` | src/sf2loki/app.py:301-515 | whenever a token of a key is committed it is the last one of the key among the first entries its source yielded, and exactly the real ones among those ended, in order and for a reason; up to the first abandoned batch |
| `PipelineSafety.CommittedMeansAccounted` | src/sf2loki/app.py:301-515 | in every run, abandoned batches or not: everything a source yielded up to a committed token ended for a reason or is in an abandoned batch, and the two together are what was flushed |
| `PipelineSafety.CommitsFollowYieldOrder` | src/sf2loki/app.py:499-515 | of two tokens committed for a key, the later one was yielded at the same position or later, abandoned batches or not |
| `PipelineSafety.DrainIsComplete` | src/sf2loki/app.py:403-407 | a lane that returns has flushed all that every source yielded, and without an abandoned batch every real entry ended, for a reason |
| `PipelineStore.StoredMeansSettled` | src/sf2loki/app.py:236-299 | for any number of lanes over a store with any contents: a token in the store is the one it held from the start, with nothing committed for its key since, or its lane accounts for everything before it; every end has its reason in the run |
| `PipelineStore.LaneEndsAreCaused` | src/sf2loki/app.py:236-299 | in every lane of every run, entries end only for a reason in that lane |
| `PipelineLimits.AbandonedIsSkipped` | src/sf2loki/app.py:462-469 | after a batch is abandoned on shutdown a later flush commits past it, and the abandoned entry has not ended |
| `EndToEnd.LifeSettles` | src/sf2loki/sources/eventlog_objects_source.py:228-268 | a source may poll many times and many objects, each poll from the lagging checkpoint the store holds then: stopped anywhere, the entries before the stored checkpoint have ended and polling from it yields exactly the others |
| `EndToEnd.CrashLosesNothing` | src/sf2loki/sources/eventlog_objects_source.py:283-462 | kill the process anywhere: that, and every entry that ended did so for a reason |
| `EndToEnd.AtLeastOnce` | src/sf2loki/app.py:301-515 | over any number of crashes, every entry of the first stream ended in some life, for a reason, or is still yielded by the next process |
| `EndToEnd.PollEntryLeaves` | src/sf2loki/sources/eventlog_objects_source.py:464-523 | each token a poll yields, a lone one included, leaves exactly the entries not yielded before it |
| `Egress.Conservation` | src/sf2loki/egress.py:81-96 | what a bucket let through since any moment and what it still holds never exceed what it held then plus what it earned |
| `BigObjectDrain.DrainBigObject` | src/sf2loki/sources/eventlog_objects_source.py:576-710 | unless stopped the newest-first drain terminates, never reaches a stall branch and returns every row at or after the watermark exactly once in ascending time order; capped, the oldest ones |
| `BigObjectCycles.NothingBelowWatermarkIsLost` | src/sf2loki/sources/eventlog_objects_source.py:352-365 | across any number of cycles, caps, lagging commits and crashes that lose everything not yet committed, every row from the starting watermark up to strictly below the committed one is settled |
| `BigObjectCycles.PollBigObject` | src/sf2loki/sources/eventlog_objects_source.py:314-365 | unless stopped a poll emits exactly the unseen rows of a full drain and carries exactly their checkpoints; stopped, the first of them; all checkpoints are safe |
| `BigObjectCycles.CycleEmits` | src/sf2loki/sources/eventlog_objects_source.py:617-656 | a complete capped cycle surely emits a row if the remembered rows no newer than the oldest unseen one are fewer than the cap |
| `BigObjectCycles.CycleStarves` | src/sf2loki/sources/eventlog_objects_source.py:617-656 | it emits nothing, cycle after cycle, if the remembered rows older than the oldest unseen one fill the cap |
| `BigObjectCycles.TiesMayEmit` | src/sf2loki/sources/eventlog_objects_source.py:617-656 | in between the server may cut ties so that the cycle emits |
| `BigObjectCycles.TiesMayStarve` | src/sf2loki/sources/eventlog_objects_source.py:617-656 | and so that it does not |
| `BigObjectCycles.CapOfOneStarves` | src/sf2loki/sources/eventlog_objects_source.py:617-656 | with `max_catchup_records` of one, the row last seen hides every newer one |
| `AscendingPoll.Drain` | src/sf2loki/sources/eventlog_objects_source.py:367-462 | the page loop of both polls terminates, is cut off only by a stop, a failure or a throttled download, and otherwise ends exactly when no row is left |
| `EventLogFile.ProcessEventType` | src/sf2loki/sources/eventlogfile_source.py:490-737 | for any downloads, throttles, settle skips, empty files, filtered rows and stops, every checkpoint carried is safe at the moment it is carried; a completed cycle yields exactly the rows of its files and carries the start with all settled non-empty files folded in, in order; an incomplete one yields a prefix of that and names the file that stopped it and why |
| `EventLogFile.EmitFile` | src/sf2loki/sources/eventlogfile_source.py:604-699 | with one row of lookahead only the last row of a complete download carries the checkpoint past its file; only a stop or a failing download ends the cycle there |
| `EventLogFile.EndFile` | src/sf2loki/sources/eventlogfile_source.py:636-686 | the end of a download emits the last row or gives the file up by age, and stops the cycle only if throttled or broken and not too old |
| `EventLogFileCycles.NoFileIsPassedOver` | src/sf2loki/sources/eventlogfile_source.py:490-737 | across any number of cycles, lagging commits and crashes that lose everything not yet committed, every non-empty file from the first watermark up to strictly before the committed one is settled |
| `PubSub.NothingIsSkipped` | src/sf2loki/sources/pubsub_source.py:452-651 | across any stream errors, clean ends, keepalives and EARLIEST fallbacks, every event after the first position up to the resume position was enqueued or counted as a decode error, except those the server let expire or passed over in a keepalive |
| `PubSub.KeepaliveKeepsInv` | src/sf2loki/salesforce/pubsub_client.py:373-377 | a keepalive at any position leaves nothing behind it unaccounted for |
| `BackfillTurns.EndsExactly` | src/sf2loki/backfill.py:548-694 | an uninterrupted backfill ends if and only if the first date in the window that a page or more of files share has no empty file, not done, in its first page |
| `BackfillTurns.NeverEnds` | src/sf2loki/backfill.py:636-692 | otherwise every number of turns leads to another turn |
| `BackfillTurns.CrowdedDateRepeats` | src/sf2loki/backfill.py:636-692 | from such a date every turn lists the same date again |
| `BackfillTurns.TwoFilesNeverEnd` | src/sf2loki/backfill.py:636-692 | two files of one date, one of them empty, and pages of two: a backfill that never ends |
| `BackfillTurns.RunPushes` | src/sf2loki/backfill.py:548-694 | a run that ends has pushed each wanted non-empty file exactly once in (CreatedDate, Id) order, or all of those up to the first page of the first crowded date, where it gives up |
| `BackfillTurns.BackfillType` | src/sf2loki/backfill.py:548-694 | on every listing on which it ends: the same uninterrupted, and cut off by a failure it has pushed the first of the wanted files and its cursor is past exactly those |
| `BackfillTurns.ProcessPage` | src/sf2loki/backfill.py:601-692 | one listing leads where an uninterrupted turn leads unless a download or push of one of its files fails |
| `BackfillTurns.FullPage` | src/sf2loki/backfill.py:644-692 | a full page ends at a later date, or at the same one exactly if the date is crowded |
| `FileLeaseTenure.TenureChangesExactly` | src/sf2loki/coordinate/file_lease.py:184-300 | in every run, disciplined or not, a leader stops leading exactly when it is stopped, reads a foreign holder, or fails to renew a full ttl or more after its last success; a replica starts leading exactly when its verify read finds its own unexpired lease |
| `FileLeaseTenure.SurrendersExactly` | src/sf2loki/coordinate/file_lease.py:286-299 | after any try to renew the replica leads if and only if the write succeeded or the look before it came less than a ttl after that of the last success, or after the start of holding |
| `FileLeaseTenure.ContestsExactly` | src/sf2loki/coordinate/file_lease.py:186-207 | a standby contests exactly a lease it can read and finds absent or expired on its own clock |
| `FileLeaseTenure.ClaimIsWritten` | src/sf2loki/coordinate/file_lease.py:202-216 | an unchallenged claim can always be written: the next epoch, in the own name, for one ttl |
| `FileLeaseTenure.ClaimIsConfirmed` | src/sf2loki/coordinate/file_lease.py:215-227 | a claim still on file after the verify delay makes its writer leader under that epoch |
| `FileLeaseTenure.RenewalIsWritten` | src/sf2loki/coordinate/file_lease.py:244-288 | a leader that finds its lease can always renew it, for one ttl more from its look and under the same epoch |
| `FileLeaseTenure.SecondLookComes` | src/sf2loki/coordinate/file_lease.py:271-286 | a leader that finds no lease renews only after a second look one verify delay later, and only if that shows no foreign holder |
| `FileLeaseTenure.PromptLeaderKeepsFile` | src/sf2loki/coordinate/file_lease.py:184-300 | from its confirmation on a leader keeps the file, with an expiry one ttl after its last write, in every disciplined run in which no replica looks later than that on its own clock |
| `FileLeaseTenure.DelayIsClamped` | src/sf2loki/coordinate/file_lease.py:112-114 | the verify delay is a tenth of the renew interval, between 50 ms and one second |
| `FileStore.StaleExactly` | src/sf2loki/state/file_store.py:284-292 | an attempt is rejected if and only if a newer epoch was on file from the start or has landed since |
| `FileStore.LastLandedWins` | src/sf2loki/state/file_store.py:250-297 | over any attempts the value of a key is the one of the last landed commit or delete that touched it |
| `FileStore.UntouchedStays` | src/sf2loki/state/file_store.py:250-297 | and the one from the start when none has |
| `Fencing.NewestLeaderIsHeard` | src/sf2loki/state/file_store.py:210-297 | the leader confirmed last is never rejected, unless the document carried a greater epoch from the start and nothing has landed; its write is in the document |
| `K8sLeaseTenure.DecidesExactly` | src/sf2loki/coordinate/k8s_lease.py:288-343 | in every run a standby sends a create exactly if it read nothing, a takeover of the version read exactly if that lease is unheld, lacks a field or was watched for its duration, and otherwise polls |
| `K8sLeaseTenure.TenureChangesExactly` | src/sf2loki/coordinate/k8s_lease.py:346-411 | in every run a leader stops leading exactly when stopped, on a foreign holder read, on a refused renewal, or on one that fails a full duration after the last success; it starts exactly when its claim is granted |
| `K8sLeaseTenure.SilentLeaderIsChallenged` | src/sf2loki/coordinate/k8s_lease.py:268-318 | a standby that looks twice at an unchanged lease, its duration or more apart, sends a takeover of it the second time |
| `K8sLeaseTenure.ClaimWins` | src/sf2loki/coordinate/k8s_lease.py:296-336 | a claim whose version is still current when it lands makes its sender holder and leader, for its duration in whole seconds |
| `K8sLeaseTenure.LeaderCanRenew` | src/sf2loki/coordinate/k8s_lease.py:357-380 | a leader that reads its own lease renews it and stays leader if the lease is unchanged when the renewal lands |
| `K8sLeaseTenure.BlindLeaderCanRenew` | src/sf2loki/coordinate/k8s_lease.py:357-380 | a leader that cannot read the lease sends a renewal of the version it last knew |
| `K8sLease.K8sLeaseCoordinator.StartHold` | src/sf2loki/coordinate/k8s_lease.py:346-355 | holding starts with the wall clock as last success |
| `ObjectStoreSync.S3LoadSyncs` | src/sf2loki/state/s3_store.py:224-254 | an S3 load during which nothing lands caches the stored document, under its current token exactly if the answer carried the ETag or nothing is stored |
| `ObjectStoreSync.GcsLoadOfNothingSyncs` | src/sf2loki/state/gcs_store.py:176-198 | a GCS load of an absent object ends in sync after the metadata request |
| `ObjectStoreSync.GcsGenerationArrives` | src/sf2loki/state/gcs_store.py:182-199 | otherwise the current generation is the token under which the body is awaited |
| `ObjectStoreSync.GcsBodySyncs` | src/sf2loki/state/gcs_store.py:200-211 | and the body that follows puts the instance in sync |
| `ObjectStoreSync.UploadIsAccepted` | src/sf2loki/state/s3_store.py:265-308 | the upload of an instance in sync is accepted, whatever other instances do short of landing one |
| `ObjectStoreSync.AcknowledgedIsKnown` | src/sf2loki/state/s3_store.py:306-308 | an acknowledged upload that is still the stored one is what the instance has cached, and it is in sync if and only if the answer carried the token |
| `ObjectStoreSync.UploadIsAcknowledged` | src/sf2loki/state/gcs_store.py:242-264 | the answer to an upload that landed puts the instance in sync with what it wrote |
| `ObjectStoreSync.LostAnswerIsNoticed` | src/sf2loki/state/s3_store.py:289-308 | after a lost answer cache and token are as before, and the next upload is refused unless the store issued the same token again |
| `ObjectStoreSync.SoleWriterStaysInSync` | src/sf2loki/state/s3_store.py:256-359 | a sole writer is never refused, however many commits and deletes it makes, and always has cached exactly what it wrote |
| `ObjectStoreSync.ResetForgets` | src/sf2loki/state/s3_store.py:193-202 | after a reset of an idle instance nothing is cached or uploaded before it has asked the store again |
| `ObjectStoreSync.ResetIsUndoneExactly` | src/sf2loki/state/gcs_store.py:148-157 | the next step of an instance brings an old document back after a reset exactly if the reset met an answer under way |
| `PipelineFlush.FlushesExactly` | src/sf2loki/app.py:403-418 | in every reachable lane an absorbed item starts a flush if and only if it fills the batch by count or by weight or is the last sentinel |
| `PipelineFlush.ReturnsExactly` | src/sf2loki/app.py:380-418 | a lane collects as long as a source is live; once the last sentinel is taken, the step that closes the batch in hand returns |
| `PipelineFlush.AdmittedIsPushed` | src/sf2loki/app.py:420-452 | a batch is pushed next if and only if it has real entries and was admitted; token-only and refused batches are committed next |
| `PipelineFlush.ConclusiveIsCommitted` | src/sf2loki/app.py:454-497 | a pushed batch is committed next exactly if every POST was answered 2xx, 400 or 413; otherwise it can be retried whole or abandoned |
| `PipelineFlush.OnlyAdmittedIsPushed` | src/sf2loki/app.py:440-455 | in every run a batch is pushed, or pushed again, only if the governor admitted it |
| `PipelineFlush.TurnedAwayIsDropped` | src/sf2loki/app.py:440-452 | in every continuation of every run a batch turned away is never pushed: its real entries are dropped in order, each for the budget, and it is committed with its tokens |
| `PipelineMemory.MemoryIsBounded` | src/sf2loki/app.py:323-367 | with a byte budget, lines, labels, metadata and overhead of the entries waiting in a lane never exceed budget - 1 plus the largest entry |
| `PipelineStore.NoKeyIsLost` | src/sf2loki/app.py:236-299 | the store holds exactly the keys it held from the start and those some lane has committed |
| `LokiSinkVerdicts.VerdictExactly` | src/sf2loki/sinks/loki/sink.py:238-293 | a push ends retryably if and only if some POST was not answered 2xx, 400 or 413, permanently if and only if it is one entry refused alone, and normally otherwise |
| `LokiSinkVerdicts.SentIsBounded` | src/sf2loki/sinks/loki/sink.py:262-293 | halving pays: a push of at most 2^k entries sends at most (k + 1) times their number, for any server |
| `EgressProgress.WaitIsExact` | src/sf2loki/egress.py:81-96 | a bucket left alone affords a request at a later moment if and only if the wait it returned has passed |
| `EgressProgress.SleeperPasses` | src/sf2loki/egress.py:230-249 | a lane that sleeps for the longer of the two waits passes both buckets |
| `EgressProgress.EarlierIsTurnedBack` | src/sf2loki/egress.py:230-249 | and no sooner |
| `EgressProgress.NothingIsWasted` | src/sf2loki/egress.py:81-96 | while it is never full, what a bucket let through and what it holds are exactly what it had plus what it earned |
| `EgressProgress.AdmitsExactly` | src/sf2loki/egress.py:174-193 | in every run a batch is admitted if and only if it fits into what the bytes recorded today leave of the budget |
| `EgressProgress.RestartRecovers` | src/sf2loki/egress.py:144-159 | a restart on the same day takes up the counter last persisted |
| `EgressProgress.LaneIsFreed` | src/sf2loki/egress.py:251-260 | after a recorded or abandoned push the lane can ask again |
| `BigObjectProgress.CheckpointReached` | src/sf2loki/sources/eventlog_objects_source.py:464-493 | the checkpoint after n rows has the time of the last one and the newest ids seen, up to 500 |
| `BigObjectProgress.RepeatsExactly` | src/sf2loki/sources/eventlog_objects_source.py:314-365 | a row emitted by a complete cycle is emitted again by the next if and only if it shares the newest time and more rows were emitted from it on than the window holds |
| `BigObjectProgress.EmitQueuesToken` | src/sf2loki/sources/eventlog_objects_source.py:355-360 | every unseen row can be emitted, and a kept one puts the checkpoint past it in line |
| `BigObjectProgress.FinishYieldsTokens` | src/sf2loki/sources/eventlog_objects_source.py:355-365 | a cycle of the machine leaves the very checkpoints in line that the poll returns |
| `BigObjectProgress.CommitMovesOn` | src/sf2loki/app.py:499-515 | a committed checkpoint is where the next cycle starts |
| `EventLogFile.YieldsOnlyWhatIsDue` | src/sf2loki/sources/eventlogfile_source.py:555-699 | a cycle yields rows only of files past the settle window, with a checkpoint exactly on those the transforms keep, and gives up only incomplete downloads |
| `EventLogFile.YieldsAllThatIsDue` | src/sf2loki/sources/eventlogfile_source.py:555-699 | and every row of every settled file, in listing order and row order, except the one a broken download leaves in the lookahead |
| `EventLogFile.AppendForgetsLittle` | src/sf2loki/sources/eventlogfile_source.py:164-193 | up to 200 pairs are never trimmed |
| `EventLogFile.ProcessFile` | src/sf2loki/sources/eventlogfile_source.py:555-699 | one listed file is skipped, given up, emitted or ends the cycle, and the last only for a stop or a download that fails and is not too old |
| `EventLogFileCycles.CycleYieldsTokens` | src/sf2loki/sources/eventlogfile_source.py:490-737 | every cycle can run to its end and puts the checkpoints its events carry in line, in order |
| `EventLogFileCycles.CommitMovesOn` | src/sf2loki/app.py:499-515 | a committed checkpoint is where the next cycle starts |
| `PubSubResume.ResumesExactly` | src/sf2loki/sources/pubsub_source.py:485-651 | in every run a stream begins at the last position received; at the oldest event once a replay id was refused; before any position, at the oldest event if EARLIEST is configured and at the head otherwise |
| `PubSubResume.RefusalIsNotFinal` | src/sf2loki/sources/pubsub_source.py:580-640 | after a refused replay id the next stream can begin at once |
| `PubSubResume.EventIsEnqueued` | src/sf2loki/sources/pubsub_source.py:566-578 | the next event that decodes is enqueued and the stream goes on behind it |

## Left out

- HTTP, gRPC, Avro, snappy and OAuth clients, and the JSON, base64 and date formats: servers are arbitrary oracles and checkpoints are abstract values.
- Configuration, command line, doctor and state commands, metrics, logs, readiness, failure counters and backoff delays: they decide nothing modelled here.
- Transforms, sampling, labels and shaping: an arbitrary keep-or-drop decision per row; the per-file sort of backfill rows by timestamp and line capping in the sink are not modelled.
- Atomicity of files: a rename is one atomic register write, and the fresh read plus write of a fenced commit is one step; fsync and flock are not modelled.
- Legacy bare-id checkpoints, unparseable dates and empty record ids.
- Rows that arrive behind a cursor: the source theorems are about a frozen table. `WindowDecidesAsHistory` covers files regenerated in place; `NoFileIsPassedOver` does not.
- Pause mode of the egress budget and its wake-up at midnight; only drop mode is bounded. A batch that a stop lets pass while its lane is throttled takes no tokens and is not modelled.
- Shutdown grace, task cancellation and the bytes of a producer cancelled between charge and put. A consumer that dies in a commit is modelled, the restart of the process that follows is not, except in `EndToEnd`.
- Deletion of the S3 or GCS object by others, and bucket versioning.
- EndToEnd.AtLeastOnce: follows each life up to its first abandoned batch; the table is frozen and polls run to a prefix of what their checkpoint leaves.
- FileLease.ConfirmedEpochsIncrease: holds under its three hypotheses only; the code does not enforce them, as `FileLeaseLimits` shows for each.
- PipelineSafety.CommittedMeansSettled: stops at the first batch abandoned on shutdown, because the code then commits past it; `CommittedMeansAccounted` covers every run.
- BackfillTurns.BackfillType: is stated for the listings on which the loop ends, which `EndsExactly` characterises; a push of a file is one step that succeeds or aborts the run; the retries within it and partially pushed files are not told apart.
- PubSub.NothingIsSkipped: events the server let expire, or passed over by reporting a later position in a keepalive, are exempt; the theorem names them. Positions are event numbers.
- BigObjectDrain.DrainBigObject: a failing query, which ends the cycle with nothing emitted, is not modelled.
