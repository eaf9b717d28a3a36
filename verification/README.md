# Hotel booking backend: verified protocols

A Dafny model of the parts of the backend that are protocols: several processes share database rows through row
locks, leases, fencing tokens and version guards, and a crash, a duplicate or a late answer may fall between any two
steps. Each protocol is a set of steps over explicit state, and the main results hold for every run of them. Code that
only computes is modelled as functions; code that changes rows or loops is modelled as classes and methods whose
contracts tie the new state to those functions.

## What is modelled

- **Booking allocator** (`BookingModel`, `RoomTimePolicy`, `BookingProtocol`, `BookingSafety`, `BookingDeadlock`,
  `BookingKeys`). Create, approve, edit, reject, both cancellations, room-time administration and the purge of expired
  idempotency keys are cut at every locking read: an approval or an edit reads a snapshot without any lock, takes its
  rooms in increasing order, then the booking, then the windows, re-checks, and writes. A transaction is its program counter and what it has read, and the locks it holds
  follow from that. The proof is a rely/guarantee argument: what a transaction has read stays true because nobody may
  write under a room, booking or key lock it holds.
- **Lifecycle stream and read model** (`LifecycleCodec`, `StatsProjection`, `LifecycleStream`,
  `LifecycleDraining`, `BookingReadModel`, `BookingCatchUp`).
  The payload and envelope codecs; the version-guarded upsert with its left-to-right SET list; relays that check each
  payload, die, lose leases and publish twice; a log of JSON messages; a consumer that parses and replays; rebuilds
  interrupted anywhere. `BookingReadModel` runs the allocator and the stream as one system, over the real codecs.
- **Scheduled-run ledger and retention** (`ScheduledRuns`, `ScheduledRunLaws`, `RetentionRun`, `RetentionFleet`). Claim,
  recovery, hand-back, finalizers and closing, the six retention tasks, the run that records them, and many replicas
  doing so at once.
- **Token-fenced attempts** (`Outbox`, `ExportAttempts`, `ExportObjects`, `MailDelivery`, `StorageOwnership`). Export jobs
  and their objects, notification mail with redrives, and the ownership of attachment objects.
- **Attachment positions** (`AttachmentPositions`), **booking ids** (`BookingIds`) and the **catalogue search term**
  (`LikeSearch`).

## What the proofs found

- **A tie in the progress test.** The recovery statement charges no attempt when `progressed_at >= started_at`. If a
  hand-back and its recovery fall in the same microsecond, the old stamp passes for the new attempt's own progress and
  a later continuation that removed nothing is free. `TieBreaksTheBound` gives the run; `ClaimBound` is the bound
  with ties counted, `BoundIsTight` reaches it, and it is the documented one when the clock advances in between.
- **A late upload can name a deleted object.** Completing an upload only asks that its safeguard exists and is
  unleased. Once the safeguard has fallen due, a cleanup worker may have deleted the object and then released the task,
  because the answer or the deletion of its own row failed. `AttemptsTellEverything`: the completion is safe in every
  run exactly when the safeguard's claim count is zero, a column the completion has already read and locked.
- **A redelivered export can lose its result.** The object key is the job and the claim token, so a queue job delivered
  twice gives two workers one key. When one has published, the other, past its last renewal, may still insert a safeguard
  for that key, because the insert checks no claim; once it falls due, cleanup deletes the object the unexpired job
  names. `RedeliveryLosesTheObject` gives the run, and `TimelyHarmless` the exact condition, which the insert's
  transaction could check on the job row. Checking that the claim still stands is enough (`StandingClaimsSuffice`) as
  long as cleanup keeps to its lease, and not otherwise (`LateDeletionLosesTheObject`). Without redelivery nothing is
  lost (`ExportsArePresent`).
- **Mail job ids repeat.** The queue job id is the event and the attempt number, without the claim token. A release or
  a redrive brings an attempt number back, and a queue that still remembers the id drops the new claim while the
  dispatcher counts it as queued; the claim then waits for its lease. `ReleaseRepeatsTheJobId` and
  `RedriveRepeatsTheJobId` give the runs; `DroppedByReuse` says that a claim is dropped exactly when its number was used
  before and is remembered, `NoneDropped` that nothing is dropped unless an attempt was given
  back, and `RedriveWastesClaims` how many claims a redrive costs.
- **An idempotency key lasts as long as its row.** Retention deletes expired keys, after which the same key creates
  another booking. `OneCreationPerPurge` counts the creations of a key exactly; `UnexpiredKeyStays` says that nothing
  happens before the expiry, and `OneKeyBooksTwice` gives the run that books twice after it.

## Model

| member | source | states |
|---|---|---|
| `BookingModel.OverlapIsSharedNight` | src/bookings/booking-overlap.ts:18-24 | the half-open comparison holds exactly when some night belongs to both stays |
| `BookingModel.OrderedUniqueRoomIds` | src/bookings/booking-lock-order.ts:1-8 | strictly increasing, the same rooms, none added or lost |
| `RoomTimePolicy.UsageOf` | src/bookings/room-time-usage.repository.ts:70-87 | a zero count means no booking, or no live booking, names the window |
| `RoomTimePolicy.EditCountedOnce` | src/bookings/room-time-usage.repository.ts:89-111 | departures plus arrivals from another window count every change row once per window it touches |
| `RoomTimePolicy.FindByRoomTimeIds` | src/bookings/room-time-usage.repository.ts:37-68 | exactly the requested windows, each with its true booking, live-booking and change counts |
| `RoomTimePolicy.CountBookings` | src/bookings/room-time-usage.repository.ts:56-61 | requested windows with and without rows get their booking counts, changes still zero |
| `RoomTimePolicy.AddChanges` | src/bookings/room-time-usage.repository.ts:62-66 | adds each row to its window's change count and touches nothing else |
| `BookingSafety.Stable` | src/bookings/bookings.service.ts:331-376 | whatever a transaction read under its locks survives any commit by a transaction sharing none of them |
| `BookingSafety.NoConflictStable` | src/bookings/bookings.service.ts:848-872 | a conflict-free answer for a locked room stays true until the lock is released |
| `BookingSafety.UsageStable` | src/rooms/room-times.service.ts:85-130 | a window found unused under its room's lock is still unused at the write |
| `BookingSafety.ApprovalKeeps` | src/bookings/bookings.service.ts:377-387 | an approval's commit keeps all table invariants and changes only what it locked |
| `BookingSafety.EditKeeps` | src/bookings/bookings.service.ts:557-590 | so does an edit that moves a booking between rooms |
| `BookingSafety.ClosingKeeps` | src/bookings/bookings.service.ts:216-242 | so do reject and both cancellations, which lock the booking and no room |
| `BookingSafety.CreateKeeps` | src/bookings/bookings.service.ts:1027-1049 | so does a creation |
| `BookingSafety.WindowKeeps` | src/rooms/room-times.service.ts:37-110 | adding or changing a window never strands a live booking and never overlaps another active window |
| `BookingSafety.RemovalKeeps` | src/rooms/room-times.service.ts:112-129 | nor does removing one |
| `BookingSafety.StepKeeps` | src/bookings/bookings.service.ts:316-392 | every enabled step of every transaction keeps the invariant |
| `BookingSafety.RunKeeps` | src/bookings/bookings.service.ts:460-566 | so does every interleaving |
| `BookingSafety.OneGuestPerNight` | src/bookings/bookings.service.ts:848-872 | in every interleaving no night of a physical room is confirmed to two bookings |
| `BookingSafety.LiveBookingsAreHoused` | src/rooms/room-time-policy.ts:30-59 | in every reachable state a pending or confirmed booking is in a stored, active window containing its stay |
| `BookingSafety.OneWindowPerStay` | src/rooms/room-times.service.ts:168-199 | at most one active window of a room can hold a stay |
| `BookingSafety.StreamTellsTheStory` | src/bookings/bookings.service.ts:918-963 | a booking's lifecycle rows are versions 1, 2, 3, ..., each starting from what the last left, ending in the stored row |
| `BookingSafety.NothingFollowsTheEnd` | src/bookings/booking-lifecycle-event.constants.ts:49-62 | no change follows a terminal status |
| `BookingSafety.PurgeKeeps` | src/retention/retention-delete.repository.ts:91-105 | so does the purge of expired keys |
| `BookingKeys.OneCreationPerPurge` | src/common/idempotency/idempotency.repository.ts:44-88 | in every run a key creates as many bookings as it was purged, plus one if it is spent at the end: a second creation exactly when a purge came between |
| `BookingKeys.KeyNamesItsBooking` | src/bookings/bookings.service.ts:1009-1020 | until it is purged a spent key names its booking and creates no other |
| `BookingKeys.UnexpiredKeyStays` | src/retention/retention-due.ts:62-77 | no run whose purges read a clock before the expiry forgets the key |
| `BookingKeys.ExpiredKeyCreatesAgain` | src/retention/retention-due.ts:62-77 | from every quiet state an expired key can be purged and create again |
| `BookingKeys.OneKeyBooksTwice` | src/bookings/bookings.service.ts:1009-1049 | a run from the empty hotel in which one key creates two bookings |
| `BookingDeadlock.WindowUnderItsRoom` | src/bookings/bookings.service.ts:1051-1075 | whoever locks a window holds its room's lock |
| `BookingDeadlock.WindowsNeverWait` | src/bookings/bookings.service.ts:530-547 | so a window row is never waited for |
| `BookingDeadlock.RoomsTakenInOrder` | src/bookings/bookings.service.ts:473-479 | held rooms come before the room asked for |
| `BookingDeadlock.ProbeMeetsNoWaiter` | src/bookings/bookings.service.ts:855-871 | a probe only waits for a booking whose holder is not itself probing |
| `BookingDeadlock.WalkersAscend` | src/retention/retention-delete.repository.ts:97-103 | a purge waits only for a key its holder has walked past |
| `BookingDeadlock.WaitsAscend` | src/bookings/bookings.service.ts:331-376 | along two waits the lock order strictly increases |
| `BookingDeadlock.NoWaitCycle` | src/bookings/booking-lock-order.ts:1-8 | no reachable state has a cycle of waiting transactions, of any length |
| `LifecycleCodec.GateAcceptsValid` | src/bookings/booking-lifecycle-payload.ts:76-157 | every payload that meets the contract parses to itself |
| `LifecycleCodec.GateAcceptsOnlyValid` | src/bookings/booking-lifecycle-payload.ts:76-157 | whatever parses is exactly the encoding of the valid payload returned |
| `LifecycleCodec.ReadBookingExact` | src/bookings/booking-lifecycle-payload.ts:159-201 | the booking record parses to a stay and price exactly when it is their encoding |
| `LifecycleCodec.ReadPreviousExact` | src/bookings/booking-lifecycle-payload.ts:159-175 | the previous stay is null or exactly a stay record |
| `LifecycleCodec.MessageRoundTrip` | src/bookings/booking-lifecycle-message.ts:28-107 | a published message parses back to its event id, time and payload |
| `LifecycleCodec.ConsumerAcceptsOnlyPublished` | src/bookings/booking-lifecycle-message.ts:65-107 | the consumer accepts nothing the relay could not have published |
| `LifecycleCodec.GateIsExact` | src/bookings/booking-lifecycle-relay.service.ts:147-163 | the gate returns a built payload unchanged exactly when it meets the contract, and nothing otherwise |
| `LifecycleCodec.HistoryPassesTheGate` | src/bookings/booking-lifecycle-payload.ts:33-157 | in every run of the booking transactions each lifecycle row passes the relay's gate unchanged, price and order of versions included |
| `StatsProjection.GuardedUpdateReplacesIfNewer` | src/reports/booking-stats-fact.repository.ts:36-42 | the left-to-right assignment list is an atomic replace-if-newer |
| `StatsProjection.VersionMustComeLast` | src/reports/booking-stats-fact.repository.ts:27-35 | assigning the version first would freeze the other columns of a newer event |
| `StatsProjection.FoldThroughNewest` | src/reports/booking-stats-projection.service.ts:58-72 | keeping only the newest message of each booking in a batch loses nothing |
| `StatsProjection.FoldOfDistinct` | src/reports/booking-stats-projection.service.ts:75-83 | writing distinct bookings in any order is the merge of the two tables |
| `StatsProjection.FoldSplits` | src/reports/booking-stats-fact.repository.ts:57-62 | chunks and batches may be cut anywhere |
| `StatsProjection.FoldIgnoresOrder` | src/reports/booking-stats-projection.service.ts:54-92 | with unique versions the table depends only on which messages arrived, not on order, repeats or batches |
| `StatsProjection.FoldNeverOlder` | src/reports/booking-stats-fact.repository.ts:27-42 | a stored version never goes back |
| `StatsProjection.FoldReaches` | src/reports/booking-stats-fact.repository.ts:27-42 | no applied message is missed |
| `StatsProjection.FactStore.UpsertChunk` | src/reports/booking-stats-fact.repository.ts:63-82 | one statement is the fold of its rows |
| `StatsProjection.FactStore.Upsert` | src/reports/booking-stats-fact.repository.ts:53-84 | all chunks together are the fold of all rows |
| `StatsProjection.FactStore.ApplyBatch` | src/reports/booking-stats-projection.service.ts:54-92 | the table becomes the fold of the batch's valid messages in order; counts of applied and skipped are exact |
| `StatsProjection.FactStore.DeleteFacts` | src/reports/booking-stats-rebuild.service.ts:63-74 | terminates with an empty table and the exact total |
| `LifecycleStream.JsonWireIsFaithful` | src/bookings/booking-lifecycle-message.ts:28-107 | what the relay publishes the consumer reads back as the row's own fact; published exactly when valid |
| `LifecycleStream.CarriedIsEntries` | src/reports/booking-stats-projection.service.ts:58-72 | handling a batch of the log is applying its parsed messages |
| `LifecycleStream.PreparedIsHonest` | src/bookings/booking-lifecycle-relay.service.ts:139-165 | a claim splits into messages that decode to their rows and rows the gate refuses |
| `LifecycleStream.NothingLostByRows` | src/bookings/booking-lifecycle-relay.repository.ts:66-157 | rows may only stop owing their message once it is in the log or refused |
| `LifecycleStream.FinishKeeps` | src/bookings/booking-lifecycle-relay.service.ts:104-131 | finishing a claim, also one whose lease was recovered, loses no change |
| `LifecycleStream.HandleApplies` | src/reports/booking-stats-batch.ts:28-60 | whatever lies before the consumer's position has reached the table |
| `LifecycleStream.RunKeeps` | src/bookings/booking-lifecycle-relay.service.ts:75-132 | every run keeps the stream's invariant |
| `LifecycleStream.NothingRefused` | src/bookings/booking-lifecycle-relay.repository.ts:106-115 | no change that the gate passes is ever marked failed |
| `LifecycleStream.LatestReached` | src/reports/booking-stats-batch.ts:28-60 | a drained table shows a booking's latest change unless the gate refused that very change |
| `LifecycleStream.ReadModelConverges` | src/reports/booking-stats-rebuild.service.ts:35-74 | after any duplicates, foreign messages, retries, deaths, replays and interrupted rebuilds a drained stream leaves exactly each booking's latest change |
| `BookingReadModel.ChangeIsAppended` | src/bookings/bookings.service.ts:918-963 | a commit appends one lifecycle row to the booking it changed and none to any other |
| `BookingReadModel.InsertIsEnabled` | src/bookings/booking-lifecycle-recorder.ts:35-60 | the row always carries the version after those already recorded |
| `BookingReadModel.InsertFits` | src/bookings/booking-lifecycle-recorder.ts:35-60 | the inserted row meets the payload contract |
| `BookingReadModel.StepKeeps` | src/bookings/bookings.service.ts:934-938 | the outbox history stays, row for row, the bookings' own history |
| `BookingReadModel.RefusedOutgrew` | src/bookings/booking-lifecycle-relay.service.ts:98-104 | the gate refuses a change only of a booking whose version outgrew the contract's integers |
| `BookingReadModel.ReadModelMirrorsBookings` | src/reports/booking-stats-projection.service.ts:54-92 | end to end, through gate, log and parser: in every run of both systems nothing is refused, and a drained read model has one row per booking and shows it as the bookings table holds it |
| `LifecycleDraining.CanDrain` | src/bookings/booking-lifecycle-relay.service.ts:75-132 | no state of the stream is stuck: from every one the stream alone can reach a drained one |
| `BookingCatchUp.ReadModelCatchesUp` | src/reports/booking-stats-batch.ts:28-60 | from every state of both systems the stream alone can bring the read model to mirror the bookings |
| `BookingCatchUp.SomeBookingIsMirrored` | src/bookings/bookings.service.ts:1002-1049 | a run from the empty hotel to a drained state that holds a booking, which the read model shows |
| `ScheduledRuns.Accumulated` | src/retention/scheduled-run.repository.ts:56-82 | counts add up table by table |
| `ScheduledRuns.ScheduledRunRepository.Claim` | src/retention/scheduled-run.repository.ts:119-328 | insert wins, else recover an expired claim with budget, else close an exhausted one; when it wins and why it does not |
| `ScheduledRuns.ScheduledRunRepository.Complete` | src/retention/scheduled-run.repository.ts:330-358 | exactly the token's live claim succeeds, with its counts added; every other row is untouched and the token can write nothing more |
| `ScheduledRuns.ScheduledRunRepository.Fail` | src/retention/scheduled-run.repository.ts:369-417 | with budget left the window is open to recovery at once, otherwise closed; every other row is untouched and the token can write nothing more |
| `ScheduledRuns.ScheduledRunRepository.CloseAbandonedBefore` | src/retention/scheduled-run.repository.ts:512-534 | no earlier window is left expired, only those changed, counts and attempts kept, and the number returned is that of the rows changed |
| `ScheduledRunLaws.AttemptsWithinBudget` | src/retention/scheduled-run.repository.ts:206-239 | attempts stay in 1..max in every run |
| `ScheduledRunLaws.TerminalForever` | src/retention/scheduled-run.repository.ts:330-417 | a succeeded or failed window never changes again |
| `ScheduledRunLaws.FencedWritesNothing` | src/retention/scheduled-run.repository.ts:336-357 | a token that holds no live claim changes nothing |
| `ScheduledRunLaws.LostClaimStaysLost` | src/retention/scheduled-run.repository.ts:378-398 | a claim lost to expiry, hand-back or recovery can never write again, in any continuation |
| `ScheduledRunLaws.OneWriter` | src/retention/scheduled-run.repository.ts:206-229 | a window has one writer at most and a token writes one window at most |
| `ScheduledRunLaws.ClaimsWithinBudget` | src/retention/scheduled-run.repository.ts:206-239 | from any reachable ledger, further claims are bounded by the budget left |
| `ScheduledRunLaws.ClaimBound` | src/retention/scheduled-run.repository.ts:206-239 | a window is claimed at most max times, plus its progressing hand-backs, plus recoveries tied with the progress they follow |
| `ScheduledRunLaws.BoundIsTight` | src/retention/scheduled-run.repository.ts:206-239 | the bound is exact: for every budget of two or more and any numbers of ties and of further progressing hand-backs some run claims that often |
| `ScheduledRunLaws.TieBreaksTheBound` | src/retention/scheduled-run.repository.ts:210-216 | without counting ties the bound is false: four claims where three are allowed |
| `ScheduledRunLaws.CountsAreConserved` | src/retention/scheduled-run.repository.ts:56-82 | deleted counts are the sum of every accepted report and of nothing else |
| `RetentionRun.Purge` | src/retention/retention-tasks.service.ts:80-96 | removes only due rows, counts them, and says nothing waits only if nothing is left |
| `RetentionRun.DrainStorageTasks` | src/retention/retention-tasks.service.ts:105-138 | deletions and refusals are counted apart; nothing waits only if a claim came back empty, uninterrupted |
| `RetentionRun.CollectNotificationEvents` | src/retention/retention-tasks.service.ts:149-204 | events go with all their deliveries and attempts, and the three counts are exact |
| `RetentionRun.DeleteObjects` | src/retention/retention-tasks.service.ts:236-276 | exactly the jobs before the interruption that have no object or whose object was deleted may go |
| `RetentionRun.CollectExportResults` | src/retention/retention-tasks.service.ts:216-311 | a job whose object was refused keeps its rows; the rest is removed and counted |
| `RetentionRun.RunBatch` | src/retention/retention-tasks.service.ts:48-72 | for all six tasks: what was tried, removed and refused is tied to what was due, and the answer reports it |
| `RetentionRun.QuietMeansEmptied` | src/retention/retention-tasks.service.ts:80-311 | for all six tasks: nothing waiting and nobody refused means everything due was removed |
| `RetentionRun.CompletesOnlyDrained` | src/retention/retention-run.service.ts:231-243 | only a run whose last batch emptied its task, with no refusal in any batch, is recorded as complete |
| `RetentionRun.RetentionRunService.Batches` | src/retention/retention-run.service.ts:156-183 | each batch is a real batch of what it met, counts and refusals are their sums, and the last batch tells which of shutdown, budget and refusal ended the loop |
| `RetentionRun.RetentionRunService.RunClaimed` | src/retention/retention-run.service.ts:146-294 | each ending writes its own code and counts under the claim, or nothing once the claim is lost; success exactly when drained and recorded |
| `RetentionRun.RetentionRunService.RunTask` | src/retention/retention-run.service.ts:110-294 | a window is newly succeeded only if everything due at its last read was removed and no provider refused anything in the run |
| `RetentionFleet.SucceededWasDrained` | src/retention/retention-run.service.ts:110-293 | so over any interleaving of replicas, recoveries and closings: every succeeded window of a task was closed by a run that drained that task |
| `ExportAttempts.RoomExportAttemptRepository.Claim` | src/reports/room-export-attempt.repository.ts:37-85 | starts the job exactly when the claim, the lease and the job status allow it |
| `ExportAttempts.RoomExportAttemptRepository.Renew` | src/reports/room-export-attempt.repository.ts:95-116 | a renewed claim cannot be taken for a full lease and is still the token's; a token that fails to renew has lost it or can lose it now |
| `ExportAttempts.RoomExportAttemptRepository.End` | src/reports/room-export-attempt.repository.ts:158-322 | moves event and job together or neither |
| `ExportAttempts.RowsNeverDisagree` | src/reports/room-export-attempt.repository.ts:158-271 | processed exactly when completed, failed exactly when failed, a result exactly when completed, in every run |
| `ExportAttempts.NeverBroken` | src/reports/room-export-attempt.repository.ts:273-288 | the job-state error is unreachable |
| `ExportAttempts.PublishedOnce` | src/reports/room-export-consumer.service.ts:80-213 | once published or failed, in every run, retention included, both rows are as they were or gone, and no attempt is claimed or started again |
| `ExportAttempts.WinnersKey` | src/reports/room-export-attempt.repository.ts:158-201 | the result is published under the token of the claim that still stood |
| `MailDelivery.MailStore.End` | src/notifications/delivery-result.repository.ts:33-96 | event first, delivery only if that matched |
| `MailDelivery.MailStore.MatchResolvedDelivery` | src/notifications/delivery-result.repository.ts:98-126 | the event follows a delivery somebody else resolved |
| `MailDelivery.MailStore.Redrive` | src/notifications/notification-redrive.repository.ts:37-199 | the verdict, and both rows reset exactly when it allows it |
| `MailDelivery.RecordsNeverContradict` | src/notifications/delivery-worker.service.ts:82-273 | sent exactly when processed, and then some provider accepted; failed and live events have a matching delivery or none |
| `MailDelivery.ResolvedBranchesUnreachable` | src/notifications/delivery-preparation.service.ts:49-90 | the already-resolved and already-sent branches are never taken while only this code writes |
| `MailDelivery.SentIsFinal` | src/notifications/notification-redrive.repository.ts:37-116 | once sent, in every run, retention included, the rows are as they were or gone, and the mail is never claimed, offered or redriven again |
| `MailDelivery.DroppedByReuse` | src/notifications/outbox-dispatcher.service.ts:113-141 | in every run a claim is dropped exactly when another one was queued under its attempt number and the id is remembered |
| `MailDelivery.NoneDropped` | src/notifications/outbox-dispatcher.service.ts:123-130 | in every run without a release or a redrive no claim is dropped |
| `MailDelivery.ReleaseRepeatsTheJobId` | src/notifications/outbox-dispatcher.service.ts:143-174 | a release after a lost answer can repeat a remembered job id, and the next claim is dropped |
| `MailDelivery.RedriveRepeatsTheJobId` | src/notifications/outbox-dispatcher.service.ts:123-130 | a redrive can repeat a remembered job id, and its claim is dropped |
| `MailDelivery.RedriveWastesClaims` | src/notifications/notification-redrive.repository.ts:150-184 | after a redrive with n ids remembered, in every continuation without forgetting, each new claim numbered up to n is dropped, and n + 1 are made before one reaches a worker |
| `StorageOwnership.ObjectsAreOwned` | src/files/attachments.service.ts:78-227 | in every run a stored attachment object is named by a live attachment or a cleanup task |
| `StorageOwnership.LiveObjectsArePresent` | src/files/attachments.service.ts:122-155 | if every completion finds its safeguard unclaimed, no live attachment ever names a missing object |
| `StorageOwnership.CarelessCompletionLosesTheObject` | src/files/attachments.service.ts:122-130 | a completion is harmless exactly when the object is there and no deletion is on its way |
| `StorageOwnership.AttemptsTellEverything` | src/files/storage-cleanup.service.ts:45-132 | completing at a claim count is harmless in every run exactly when the count is zero |
| `ExportObjects.ExportsAreOwned` | src/reports/room-export-attempt.repository.ts:126-201 | in every run, redelivered jobs included, a stored export object is named by its job or covered by a cleanup task |
| `ExportObjects.CompletePublishes` | src/reports/room-export-attempt.repository.ts:158-201 | a completion publishes the key and retires its safeguard exactly when it is the key's own worker and its claim still stands |
| `ExportObjects.CarefulExportsArePresent` | src/reports/room-export-consumer.service.ts:138-168 | if every safeguard is inserted carefully, no unexpired export ever names a missing object |
| `ExportObjects.HarmlessExactlyWhenCareful` | src/reports/room-export-attempt.repository.ts:126-148 | an insert is harmless in every continuation exactly when the job does not name the key with a result that outlives the safeguard and no older deletion is on its way while the claim stands |
| `ExportObjects.TimelyHarmless` | src/files/storage-cleanup.service.ts:81-132 | with cleanup in its lease, exactly when the job does not name the key with a result that outlives the safeguard |
| `ExportObjects.StandingClaimsSuffice` | src/reports/room-export-attempt.repository.ts:95-148 | with cleanup in its lease, inserting only while the claim stands keeps every unexpired export's object, however often jobs are delivered |
| `ExportObjects.ExportsArePresent` | src/reports/room-export-consumer.service.ts:80-179 | in every run that starts no claim twice an unexpired export names an object that is there |
| `ExportObjects.RedeliveryLosesTheObject` | src/reports/room-export-attempt.repository.ts:64-148 | a run with one job delivered twice that leaves an unexpired export without its object |
| `ExportObjects.LateDeletionLosesTheObject` | src/files/storage-cleanup.service.ts:45-75 | the claim alone is not enough if a delete request can outlive its lease |
| `AttachmentPositions.ShiftIsSafe` | src/files/attachment-metadata.ts:177-186 | the shift keeps the unique key in every visiting order exactly when no two positions lie the offset apart |
| `AttachmentPositions.PlaceIsSafe` | src/files/attachment-metadata.ts:188-209 | so does the second statement, from shifted rows |
| `AttachmentPositions.RewriteIsSafe` | src/files/attachment-metadata.ts:166-210 | from contiguous positions with any rows gone, the key holds after every single row of both statements, in any visiting order, and the result is the order asked for |
| `AttachmentPositions.OnePhaseCollides` | src/files/attachment-metadata.ts:12-19 | without the shift some visiting order breaks the key exactly when the order changes at all |
| `AttachmentPositions.OrderCheck` | src/files/attachments.service.ts:199-206 | the three comparisons are together the permutation test |
| `AttachmentPositions.Album.FindTargetAttachments` | src/files/attachment-metadata.ts:40-52 | the target's rows by ascending position |
| `AttachmentPositions.Album.RewriteAttachmentPositions` | src/files/attachment-metadata.ts:171-210 | positions become 0..n-1 in the given order |
| `AttachmentPositions.Album.CompleteUpload` | src/files/attachments.service.ts:117-155 | next position, replacement or refusal; positions stay 0..n-1 within the limit |
| `AttachmentPositions.Album.Detach` | src/files/attachments.service.ts:162-186 | removes one row, closes the gap, keeps the others' order |
| `AttachmentPositions.Album.Reorder` | src/files/attachments.service.ts:192-210 | accepts exactly the permutations of the current rows |
| `BookingIds.EncodeUlidPart` | src/bookings/booking-create.helpers.ts:84-92 | the loop writes the fixed-width base-32 digits |
| `BookingIds.DecodeEncoded` | src/bookings/booking-create.helpers.ts:84-92 | decoding the digits recovers the number |
| `BookingIds.EncodedPreservesOrder` | src/bookings/booking-create.helpers.ts:84-92 | fixed-width digits sort as the numbers do |
| `BookingIds.IdIsCanonical` | src/bookings/booking-create.helpers.ts:7-15 | every id matches the public pattern and decodes to its timestamp and random part |
| `BookingIds.NextLast` | src/bookings/booking-create.helpers.ts:20-29 | each id is later than the last whatever the clock says; exhausted exactly when the random part is |
| `BookingIds.BookingIdGenerator.CreateMonotonicBookingId` | src/bookings/booking-create.helpers.ts:16-31 | the id of the next state, sorting after the previous id |
| `BookingIds.IdsIncrease` | src/bookings/booking-create.helpers.ts:16-31 | over any sequence of calls and clock readings the ids strictly increase in string order |
| `LikeSearch.EscapedIsLiteral` | src/rooms/room-filters.ts:33-40 | an escaped term matches exactly itself, wherever it stands in a pattern |
| `LikeSearch.SearchIsSubstring` | src/rooms/room-filters.ts:20-26 | the search pattern matches exactly the strings that contain the term |

## Assumptions

- Every booking save adds one to its version, starting at 1; claim tokens and row ids are fresh; public booking ids and
  outbox ids are unique columns.
- Row locks cover exactly the rows a locking query returns, and a locking read sees committed state. A transaction's
  writes become visible together with the release of its locks.
- A put ends before its safeguard falls due, and so does the transaction that publishes an export. No bound is assumed
  on when an attachment upload completes, nor, except in a `timely` world of `ExportObjects`, on cleanup and its requests.
- An export expires before retention may remove it, and the attempt and batch budgets of retention are at least one.
- The stream is on throughout, and a rebuild deletes facts only while no consumer is active.
- Clocks, lease lengths, provider answers, interruptions and the queue's memory are inputs and may be anything.
- Days and instants are integers; identifiers are numbers, and `LifecycleCodec.Spelling` says how they are written. The
  ids and dates of a committed change are ones the columns hold, and its currency is a known code.
- Booking versions stay within the integers that JSON carries exactly; `RefusedOutgrew` shows that nothing else can make
  the gate refuse a change.

## Left out

- HTTP, authentication, configuration validation, logging, health checks, templates and workbook generation.
- The Kafka, queue, storage and mail clients: each is a step that may succeed, fail, repeat or be lost.
- Field paths in the payload parser's errors: a refused message is `None`.
- UUID version digits, the text of ISO instants and the JSON text itself: JSON is a tree over named fields.
- Completing bookings after the stay, changes of a room's status or type, request fingerprints, and replaying the stored
  response of an idempotent create.
- The price of a booking and its currency are inputs of its creation, the amount checked against the contract's bound;
  base price times nights is not computed.
- Gap locks and isolation levels below row-lock granularity.
- Backoff formulas, error classification and whether a failed export or mail is retried or given up: any ending is
  allowed to any attempt.
- The loop of a retention run over the six tasks: each window of each task is independent.
- The bookkeeping columns `locked_at`, `finished_at` and the logs.
- Case folding and collation of the catalogue search, and trimming of the term.
- Timestamps of 2^48 milliseconds and above in booking ids.
- Retention of the topic itself: the log keeps everything.
- StatsProjection.FactStore.ApplyBatch: writes the rows of a batch in any key order; the original sorts them to avoid
  deadlocks between batches, and the result does not depend on it.
- StorageOwnership.ObjectsAreOwned: follows one object key; every statement addresses rows by one key or one task id,
  and a replacing upload is an attach of one key and a detach of another.
- ExportObjects.ExportsAreOwned: follows one key next to the whole attempt protocol of its event; whether an object is
  there is modelled, and its bytes are not, so a second put of a key is not compared with the recorded checksum.
- ExportAttempts.RowsNeverDisagree: follows one event and its job, which no other event's statements can match.
- MailDelivery.RecordsNeverContradict: follows one event and its one delivery.
- AttachmentPositions.Album.CompleteUpload: takes whether the safeguard is free as an input; `StorageOwnership` models
  the safeguard.
- RetentionRun.DrainStorageTasks: takes what each claim finds due as an input, since other runners change it meanwhile.
