# Busyclaw: the durable engine, its authorization and its edges

Busyclaw runs agents durably over a SQL database. This project models the parts of it where correctness hangs on
which row a conditional update pins, which rule a decision walks, or which character a parser stops at, and proves
what those parts promise.

**The SQL engine.** Runs, tasks, leases, inbox messages and events are rows that any number of workers, heartbeats,
sweepers and callers read and conditionally overwrite. It is modelled at two granularities.

- `LeaseProtocol` and `InboxNumbering` interleave single storage operations, one per step, by any number of
  processes that may crash between any two. `LeaseSafety`, `LeaseSteps`, `LeaseTheorems` and `LeaseBudget` prove the
  lease protocol by rely and guarantee: each step stays within `Guarantee`, and what a process remembers survives it.
- `StoreSpec`, `InboxSpec`, `RunSpec` and `SliceSpec` give each method as one function of the database, and the
  classes `EngineStore.Store`, `SqlEngine.Engine` and `SqlEngine.Slice` are the methods themselves, each proved to
  compute that function. `StoreLaws`, `RunLaws` and `InboxLaws` say what those functions do to each row, in the words of
  its columns and without their helpers. `LeaseRecovery.ClaimAlone`, `BeatAlone`, `SettleAlone` and `SweepAlone` tie the two
  granularities: a process nobody disturbs does what its method does.
  Over whole histories of methods, a worker's batches among them (`BatchClaims`), `RunVerdicts`, `RunQueue` and
  `RunLatch` prove the run invariants, `InboxDelivery` and `InboxRestart` the delivery across slices, `InboxAdoption` the
  conservation of messages across turns. `LeaseWitness`, `StrandedRun` and `RunWitness` are schedules and histories that
  show where the code falls short.

**Authorization.** `ApiAccess` renders an access rule into an entity graph and decides it as Cedar does: some permit
matches, no forbid does, and `in` is a path over parents. `PolicyBundle`, `PolicyFloor` and `AuthzModel` carry the
sealed floor from policy text to decision; `Projection` and `CedarText` the part of a tool's arguments a policy may
read; `PolicyRouter` and `BundleKey` the cached routing to a boundary's bundle; `BulkFilter` a listing's row filter.

**Edges.** `EventStream` and `EventPrinter` are the two ends of a server-sent event stream (section 9.2.6 of the
WHATWG HTML Standard); `Routes` and `Dispatch` are route conflicts and request dispatch.

Hashes are injective, drawn ids never repeat, timestamps compare like numbers, and a conditional update is atomic.

## What the code does not do

Each of these is a property with an exact condition proved, and where the code falls short a concrete input.

- A claim that read its candidate before another claim opened and lapsed loses that claim from the count:
  `LeaseBudget.CountKeptIffFresh`, `LeaseWitness.StaleClaimGoesUncounted`.
  A task's moves lower its measure but for just such a claim: `LeaseBudget.MoveDescendsIff`.
- The failure path writes `failed` over any end: `RunVerdicts.RelabelledIffExhausted`, `RunWitness.CompletedTurnsFailed`.
- The seed of a missing inbox counter is written without pinning that the counter is missing
  (`packages/engines/sql/src/store.ts:1379-1386`), so it can set a counter back, and a new message is answered as already
  known. Left unseeded from then on, a live run can come to lose a message if and only if a number on its way in is taken,
  or its counter is below a number it holds or one on its way in; the write of a seed brings that about exactly when the
  seed is below such a number, and a seed that finds the counter still missing never is:
  `InboxNumbering.CanLoseIffUnsound`, `InboxNumbering.SeedLosesIffBelow`,
  `InboxNumbering.FirstSeedCovers`, `InboxNumbering.SeedRaceDropsMessage`.
- The drain's comment says its update is pinned on `pending`; the update names the row alone
  (`packages/engines/sql/src/store.ts:1325-1331`). A slice that outlives its run revives an adopted message:
  `InboxAdoption.ReadKeepsCopiesIff`, `InboxAdoption.ZombieReadCopies`.
- A continuation after an approval does not pass on how far its transcript reaches
  (`packages/foundation/runtime/src/runtime.ts:2639-2664`), so it reads its inbox from the start again:
  `InboxRestart.ApprovalIsFaithfulIffEmpty`, `InboxRestart.NoteIsShownTwice`.
- The policy floor is sealed for the engine's own approval flag and no other: `PolicyFloor.SealHoldsIff`.
- An integer that JSON allows and Cedar's `Long` does not passes the filter: `Projection.FilteredIsWellTyped`,
  `Projection.BigIntegerIsIllTyped`.
- A colon in a scope label joins two boundaries, in the access graph and in the bundle key:
  `ApiAccess.BoundariesAreApart`, `ApiAccess.ColonJoinsBoundaries`, `BundleKey.KeysEqualIff`, `BundleKey.ColonSharesKey`.
- The route check reads an empty route id as no route: `Dispatch.AcceptedIff`, `Dispatch.EmptyIdsHideAClash`.
- A bundle is built after the key it is cached under was read, so a boundary's first policy can be cached as the bundle
  of every boundary nobody changed, and answer for one of those. An answer is the fresh one if and only if its build gave
  what it would have given when its key was read; a host that counts a boundary's changes again once it has built, and
  fails the build if the count moved, always answers fresh: `PolicyRouter.AnswersAsFreshIff`,
  `PolicyRouter.CountedHostAnswersAsFresh`, `PolicyRouter.SharedKeyCrossesBoundaries`.
- The bulk filter keeps a row that cannot be loaded when the engine permits a resource nobody owns:
  `BulkFilter.FilterIsSingleIff`, `BulkFilter.UndecidableRowIsKept`.

## Model

| member | source | states |
|---|---|---|
| LeaseBudget.Fencing | packages/engines/sql/src/store.ts:701-764 | under every interleaving with crashes anywhere, the claims on a task open and close in turn, each lease closes at most once, and no lease is ever put on two tasks |
| LeaseBudget.OnlyTheHolderSettles | packages/engines/sql/src/store.ts:1031-1097 | a task is completed or charged a failure only by a write presenting the token minted with the lease the task is held under at that moment |
| LeaseBudget.FinishedRests | packages/engines/sql/src/store.ts:697-728 | a completed or dead task never changes again under any continuation; at most its row is pruned |
| LeaseBudget.NoOrphans | packages/engines/sql/src/store.ts:701-728 | in every reachable state, mid-method crashes included, each leased task names an existing lease row that names it and its worker back, and every row is within its claim and error budget |
| LeaseBudget.CountKeptIffFresh | packages/engines/sql/src/store.ts:713-720 | a winning claim leaves the stored attempt equal to the claims observed if and only if its candidate's count was still current |
| LeaseBudget.ClaimBudget | packages/engines/sql/src/store.ts:584-608 | with fresh candidates the stored attempt and error count are exactly the claims and failures observed, and a task is claimed at most 8 times and opens and closes at most 16 times |
| LeaseBudget.EveryMoveDescends | packages/engines/sql/src/store.ts:1061-1097 | with fresh candidates every status change of a task, by whatever mix of lapses and failures, strictly lowers one bounded measure |
| LeaseBudget.MoveDescendsIff | packages/engines/sql/src/store.ts:713-720 | over any schedule a status change lowers the measure if and only if it is not a claim whose candidate counted fewer claims than the row does |
| LeaseTheorems.AlwaysInv | packages/engines/sql/src/store.ts:579-765 | every schedule of single storage operations keeps the protocol's invariant over tables, processes and history |
| LeaseWitness.StaleClaimGoesUncounted | packages/engines/sql/src/store.ts:956-967 | a schedule of two claims by primary key after which two claims opened and the row counts one |
| LeaseWitness.CrashLosesVerdict | packages/engines/sql/src/store.ts:658-683 | a schedule in which a claim crashes between settling a stopped run and recording it, and leaves a cancelled run without its event |
| LeaseRecovery.SweepRecovers | packages/engines/sql/src/store.ts:1481-1576 | from every reachable state one undisturbed sweep leaves no task leased under a lease expired at its timestamp, lapses exactly the tasks whose lease had expired, and touches no other |
| LeaseRecovery.ClaimAlone | packages/engines/sql/src/store.ts:579-765 | a claim process nobody disturbs ends with the database and the answer of the claim method |
| LeaseRecovery.BeatAlone | packages/engines/sql/src/store.ts:969-1029 | a heartbeat process nobody disturbs ends with the database of the heartbeat method |
| LeaseRecovery.SettleAlone | packages/engines/sql/src/store.ts:1031-1097 | a settling process nobody disturbs ends with the database of the complete or fail method |
| LeaseRecovery.SweepAlone | packages/engines/sql/src/store.ts:1481-1576 | a sweep process nobody disturbs ends with the database of the sweep method over exactly the leases expired at its timestamp |
| StoreSpec.ReapRows | packages/engines/sql/src/store.ts:1503-1559 | a sweep lapses exactly the rows held under a lease it found and leaves every other task as it was |
| ClaimScan.BatchHoldsAll | packages/engines/sql/src/store.ts:927-954 | a batch claims no more than asked, only candidates and in due order, and each task it returns is still held under a drawn lease that names it back when the batch is done |
| EngineStore.Store.UpdateRunIfStatus | packages/engines/sql/src/store.ts:872-889 | the patch is applied exactly when the run's status is one of those named, and nothing else changes |
| EngineStore.Store.AttemptClaim | packages/engines/sql/src/store.ts:579-765 | the whole new database and the answer of one claim attempt, on every branch |
| EngineStore.Store.ClaimTask | packages/engines/sql/src/store.ts:956-967 | a targeted claim is a claim attempt on the row as read, and nothing for a missing one |
| EngineStore.Store.ClaimDueTasks | packages/engines/sql/src/store.ts:927-954 | one sweep, then the earliest due tasks within the window, attempted in order until enough are held |
| EngineStore.Store.ListDue | packages/engines/sql/src/store.ts:932-948 | exactly the due pending tasks, earliest due first, and any left out is due no earlier than those listed |
| ClaimScan.BatchGoesOn | packages/engines/sql/src/store.ts:927-954 | a batch attempts its candidates in order and leaves one out only when it holds as many tasks as were asked for |
| EngineStore.Store.HeartbeatLease | packages/engines/sql/src/store.ts:969-1029 | the renewal, and the answer of the task write that fences it |
| EngineStore.Store.CompleteTask | packages/engines/sql/src/store.ts:1031-1059 | completes the task and drops its lease exactly for its current holder |
| EngineStore.Store.FailTask | packages/engines/sql/src/store.ts:1061-1097 | releases the task with one error more, dead once its errors are spent, and drops the lease presented |
| EngineStore.Store.ReapExpiredLeases | packages/engines/sql/src/store.ts:1481-1576 | sweeps exactly the leases expired now, each with the run write its exhaustion calls for |
| EngineStore.Store.DeadLetterPendingTasks | packages/engines/sql/src/store.ts:1455-1479 | kills exactly the run's pending tasks and counts them |
| StoreLaws.SpentClaim | packages/engines/sql/src/store.ts:584-608 | a claim of a task claimed eight times kills it if it is pending, fails its run if that is queued, and changes nothing else |
| StoreLaws.WithheldClaim | packages/engines/sql/src/store.ts:609-687 | of a run with a latch no task is claimed: a pending one is killed, and then, unless the run is running or a task of it is in somebody's hands, a suspend leaves the run waiting and anything higher cancels it, with its event and the latch cleared |
| StoreLaws.OpenClaim | packages/engines/sql/src/store.ts:689-765 | a due pending task of a live run is leased to the caller for `ttl`, its run runs and one claim more is counted |
| StoreLaws.RetiredClaim | packages/engines/sql/src/store.ts:734-764 | where the run is finished or gone the task is killed and no lease is left |
| StoreLaws.EarlyClaim | packages/engines/sql/src/store.ts:697-728 | a task gone, not pending or not yet due is left alone |
| StoreLaws.BeatExtends | packages/engines/sql/src/store.ts:969-1029 | the holder of an unexpired lease moves it and its task to `ttl` from now, a lease its task no longer names is dropped, anybody else changes nothing |
| StoreLaws.BeatSparesTask | packages/engines/sql/src/store.ts:969-1029 | no sweep before the renewed expiry touches the task |
| StoreLaws.HolderCompletes | packages/engines/sql/src/store.ts:1031-1059 | exactly the holder of the unexpired lease completes its leased task |
| StoreLaws.HolderFails | packages/engines/sql/src/store.ts:1061-1097 | the holder gives its task back with one error more, due after its delay, or dead once its errors are spent; the lease presented is dropped even when the task is no longer leased |
| StoreLaws.SweepFailsRunIff | packages/engines/sql/src/store.ts:1568-1573 | a sweep fails a run if and only if the run is live, be it queued, running or waiting, and a task of it claimed eight times is held under an expired lease; no other run changes |
| StoreLaws.SweepLapsesTask | packages/engines/sql/src/store.ts:1503-1559 | a sweep lapses a task if and only if it is held under an expired lease: pending after its delay with no error charged, or dead once claimed eight times |
| StoreLaws.SweepDropsLease | packages/engines/sql/src/store.ts:1503-1559 | a sweep drops a lease if and only if it has expired and holds its task or has lost it |
| StoreLaws.DeadLetterKills | packages/engines/sql/src/store.ts:1455-1479 | exactly the run's pending tasks are dead, each otherwise as it was |
| InboxLaws.AdmitsOne | packages/engines/sql/src/store.ts:1350-1453 | a missing run is none, a finished one bounces, and a live one counts one more and is given one unread row under that number, unless the id or the number is taken |
| InboxLaws.DrainDelivers | packages/engines/sql/src/store.ts:1287-1335 | a drain delivers, ascending, exactly the run's rows past the watermark, not left for the turn's end, before the first from another sender, and names that sender |
| InboxLaws.DrainMarks | packages/engines/sql/src/store.ts:1322-1330 | it marks exactly those delivered, whatever their status was |
| InboxLaws.TurnIsGivenCopy | packages/engines/sql/src/store.ts:1117-1205 | every unread message of a finished run of the thread has an unread copy in the next run, from the same sender with the same body, urgent if it was and else for the next step |
| EngineStore.Store.AdmitMessage | packages/engines/sql/src/store.ts:1350-1453 | admits, recognises a redelivery, bounces off a finished run or finds no run, with the number minted in each case |
| EngineStore.Store.DrainMessages | packages/engines/sql/src/store.ts:1287-1335 | delivers the rows past the watermark in order up to the first foreign sender, marks exactly those, and names that sender |
| EngineStore.Store.AdoptThreadInbox | packages/engines/sql/src/store.ts:1117-1205 | re-admits what the thread's finished runs left unread, and counts the rows it added |
| SqlEngine.Engine.StartRun | packages/engines/sql/src/engine.ts:188-247 | creates the run, adopts, enqueues and claims in one transaction |
| SqlEngine.Engine.ProceedRun | packages/engines/sql/src/engine.ts:323-400 | refuses a missing or finished run, schedules one record once, and queues the run again |
| SqlEngine.Engine.ControlRun | packages/engines/sql/src/engine.ts:444-553 | ignores, refuses, settles at once or latches, with the whole row written in each case |
| SqlEngine.Engine.ResumeRun | packages/engines/sql/src/engine.ts:610-660 | wakes a waiting run with one task per checkpoint |
| SqlEngine.Slice.Ask | packages/engines/sql/src/worker.ts:863-915 | one control point: the park, the delivered messages, and whom the slice must hand over to |
| SqlEngine.Slice.Yield | packages/engines/sql/src/worker.ts:1117-1185 | completes the task and enqueues the continuation under whom it was handed to, unless the run was decided meanwhile |
| SqlEngine.Slice.Settle | packages/engines/sql/src/worker.ts:1187-1480 | every other good end of a slice: the task completes, and the run moves only while it is live |
| SqlEngine.Slice.FailClaim | packages/engines/sql/src/worker.ts:416-445 | the failure path, which marks the run failed whatever its status once the task is dead |
| RunLaws.StartsQueued | packages/engines/sql/src/engine.ts:188-247 | a run begins queued, nothing asked of it, with one task that is due |
| RunLaws.TurnStartsQueued | packages/engines/sql/src/engine.ts:188-247 | so does a turn on a thread, every other run and task as it was |
| RunLaws.DrivenStartRuns | packages/engines/sql/src/engine.ts:234-247 | a start that drives leaves the run running and its task in the caller's hands |
| RunLaws.ProceedQueues | packages/engines/sql/src/engine.ts:323-393 | a missing run is not found, a finished one refused, a record named before changes nothing, and else the run is queued, waiting for nothing, with one task of that kind |
| RunLaws.ResumeWakes | packages/engines/sql/src/engine.ts:610-660 | only a waiting run is woken, once for each checkpoint, its row left alone |
| RunLaws.RefusedIff | packages/engines/sql/src/engine.ts:53-62 | a request of a live run is refused if and only if as much was asked before: an abort lets nothing through, a stop only an abort, a suspend anything but another |
| RunLaws.RunningIsLatched | packages/engines/sql/src/engine.ts:480-553 | a running run's latch takes the intent asked, one sequence on, with when and by whom it was first asked written once |
| RunLaws.IdleIsSettled | packages/engines/sql/src/engine.ts:498-538 | a queued or waiting run is settled at once: waiting for a suspend, else cancelled, the latch clear and no task of it pending any more |
| RunLaws.NothingToControl | packages/engines/sql/src/engine.ts:444-473 | of a missing run nothing is asked, and of a finished one the request is noted and nothing else |
| RunLaws.GoodEnd | packages/engines/sql/src/worker.ts:1117-1480 | outcome by outcome, what the holder's slice makes of its live run, its task, its lease and the event stream |
| RunLaws.LateEnd | packages/engines/sql/src/worker.ts:1143-1154 | where the run was decided meanwhile only the task is completed, and a skip noted |
| RunLaws.BadEnd | packages/engines/sql/src/worker.ts:416-445 | a failure charges the task, and with its last error marks the run failed, whatever the run was |
| RunLaws.ParkIff | packages/engines/sql/src/worker.ts:885-915 | a poll says to suspend exactly where a suspend is latched, to stop exactly where anything higher is, and to hand over exactly where nothing is latched and the inbox, read, runs into another's message |
| RunLaws.PollReads | packages/engines/sql/src/worker.ts:871-899 | a poll reads nothing where neither counter has news, and else exactly what a drain delivers |
| RunLaws.PolledParkEnds | packages/engines/sql/src/worker.ts:1353-1418 | a slice that polls a latch and parks on it leaves its run waiting and wakeable for a suspend, cancelled for anything higher, the latch clear and the checkpoint kept |
| RunVerdicts.NoResurrection | packages/engines/sql/src/store.ts:734-763 | over any history of whole methods a finished run never lives again and is given no further verdict |
| RunVerdicts.VerdictMatchesStatus | packages/engines/sql/src/worker.ts:1434-1480 | a run has at most one verdict in its event stream, none while it is live, and a completed or cancelled status always has its matching event |
| RunVerdicts.RelabelledIffExhausted | packages/engines/sql/src/worker.ts:416-445 | a finished run changes status in a step if and only if the holder of one of its tasks spends that task's last error, and then it turns failed |
| RunWitness.CompletedTurnsFailed | packages/engines/sql/src/worker.ts:416-445 | a history of a run completed by one of its slices, and a last failure of another of them that turns it failed |
| RunVerdicts.ClaimWinsIff | packages/engines/sql/src/store.ts:579-765 | a claim wins if and only if its task is pending, due and within its claims, and its run is live with no control requested |
| RunVerdicts.FinishedRunGetsNoSlice | packages/engines/sql/src/store.ts:729-763 | once a run is finished no claim of its tasks ever wins again, whatever happens after |
| RunQueue.NoStrandedRun | packages/engines/sql/src/engine.ts:360-393 | after every history a queued run with no control latch has a pending task of its own |
| StrandedRun.SweepStrandsRun | packages/engines/sql/src/store.ts:1503-1573 | a schedule in which eight claims die before they start the run, and the last sweep crashes between abandoning the task and failing the run, which stays queued with every task dead |
| StrandedRun.ClaimStrandsRun | packages/engines/sql/src/store.ts:584-607 | a schedule in which a claim crashes between killing a task claimed eight times and failing its run, which stays queued with every task dead |
| BatchClaims.BatchIsSweepAndClaims | packages/engines/sql/src/store.ts:927-954 | a worker's batch after any history is that history continued by one sweep and then claims alone, so the run invariants cover batches |
| RunLatch.LatchIsRunningMaximum | packages/engines/sql/src/engine.ts:53-62 | while the latch is set its intent is the highest requested since it was last clear, refused requests included, and its requester is the first |
| RunLatch.LatchNamesTheHighest | packages/engines/sql/src/engine.ts:53-62 | while the latch is set it is an abort if and only if one was asked since it was clear, a stop if and only if no abort but a stop was, else a suspend, and names who asked first |
| RunLatch.ControlSeqCountsLatchWrites | packages/engines/sql/src/engine.ts:480-497 | the control sequence grows by one on every latch write and on nothing else |
| RunLatch.ClaimClearsLatchIff | packages/engines/sql/src/store.ts:613-687 | a claim clears a set latch if and only if it withholds a pending task of that run while the run is queued or waiting and no live lease of it exists |
| InboxNumbering.NumbersAreDistinct | packages/engines/sql/src/store.ts:1350-1453 | under interleaved admissions the rows of any run whose seeds covered its numbers, whatever rows it began with, carry pairwise distinct numbers, none above its counter; a run born with its counter is such a run |
| InboxNumbering.ConflictIsRedelivery | packages/engines/sql/src/store.ts:1441-1446 | on such a run an insert loses if and only if its own row is already there, so nothing new is answered as known |
| InboxNumbering.MintsOnlyWhileLive | packages/engines/sql/src/store.ts:1391-1426 | a run's counter moves one at a time and only while the run is live, or by a seed, and a run born with its counter has none |
| InboxNumbering.UndisturbedAdmission | packages/engines/sql/src/store.ts:1350-1453 | an admission nobody disturbs ends as one admission should: no run, a bounce, a redelivery or a row under the next number |
| InboxNumbering.CanLoseIffUnsound | packages/engines/sql/src/store.ts:1350-1453 | from any reachable state a live run nobody seeds can come to answer a new message as known if and only if some number on its way in is taken or shared, or its counter is below a number held or on its way |
| InboxNumbering.SeedLosesIffBelow | packages/engines/sql/src/store.ts:1379-1386 | writing a seed makes a sound live run liable to lose a message if and only if the seed is below a number some row holds or a new message on its way in will |
| InboxNumbering.FirstSeedCovers | packages/engines/sql/src/store.ts:1373-1387 | a seed written into a counter still missing is never below, so pinning the write on that would lose nothing |
| InboxNumbering.SeedRaceDropsMessage | packages/engines/sql/src/store.ts:1377-1387 | a schedule on a run with one old row and no counter after which a new message is answered as known and no row holds it |
| InboxDelivery.DeliveredInOrder | packages/engines/sql/src/store.ts:1287-1335 | whatever slices opened, crashed, resumed and handed over, where approvals were continued only from transcripts that showed no inbox message yet, a slice's transcript is exactly the first messages of the run's inbox, each once, in order, each entered under its own sender |
| InboxRestart.DeliveredSinceRestart | packages/foundation/runtime/src/runtime.ts:2639-2664 | over every history, approvals included, a slice's transcript ends with exactly the first messages of the run's inbox up to its watermark, each once, in order, each under its own sender, and that is all of it if and only if transcript and watermark agree |
| InboxRestart.PollReachesAll | packages/engines/sql/src/worker.ts:863-915 | over every history, after a poll everything the run was sent is within the watermark, or the slice hands over to the sender of the very next message |
| InboxDelivery.PollLeavesNothing | packages/engines/sql/src/worker.ts:863-915 | after a poll a slice whose transcript was never restarted has entered everything its run was sent, or hands over to the sender of the very next message |
| InboxDelivery.ShortcutSkipsNothing | packages/engines/sql/src/worker.ts:881-892 | where a poll finds neither counter moved, a drain would have delivered nothing and changed nothing |
| InboxRestart.HandoverDelivers | packages/engines/sql/src/worker.ts:1158-1179 | over every history, the slice a handover enqueued runs as the sender it was handed to, and its first poll delivers that sender's message |
| InboxRestart.ApprovalIsFaithfulIffEmpty | packages/foundation/runtime/src/runtime.ts:2639-2664 | a slice continued after an approval agrees with its transcript if and only if that transcript shows no inbox message |
| InboxRestart.ApprovalShowsTwice | packages/foundation/runtime/src/runtime.ts:2639-2664 | when the first message shown came from the run's own principal, the first poll after an approval delivers it again |
| InboxRestart.NoteIsShownTwice | packages/foundation/runtime/src/runtime.ts:2639-2664 | a history in which the slice continued after an approval shows the one message sent twice over |
| InboxAdoption.OneLiveCopy | packages/engines/sql/src/store.ts:1117-1205 | over any chain of turns each message ever admitted has exactly one live copy, and a message never admitted has none |
| InboxAdoption.OpenRunAdopts | packages/engines/sql/src/engine.ts:223-228 | opening a run withdraws every message left over on its thread and appends a copy of each, numbered from 1 in the order they were left |
| InboxAdoption.TurnTakesExactlyTheLeftOver | packages/engines/sql/src/store.ts:1144-1168 | a turn changes exactly the unread rows of the thread's finished runs, and leaves them none |
| InboxAdoption.CopiesKeepContent | packages/engines/sql/src/store.ts:1170-1188 | every row, however many turns it was carried over, has the sender and body of the message its sender had admitted |
| InboxAdoption.NextTurnReadsAll | packages/engines/sql/src/store.ts:1174-1182 | the new run's first read finds a copy of every message left over, whatever its mode was, and those one run left keep that run's order |
| InboxAdoption.ReadKeepsCopiesIff | packages/engines/sql/src/store.ts:1325-1331 | a drain keeps the number of live copies of a message if and only if no row it is about to take is a withdrawn one of it, and while the run is live none is |
| InboxAdoption.ZombieReadCopies | packages/engines/sql/src/store.ts:1325-1331 | two turns and one late drain after which one message has two live copies |
| ApiAccess.BuildApiEntities | packages/foundation/authz/src/api.ts:168-259 | the rendered graph: each base's chain of levels once, the caller under what it holds, the resource with its three attributes |
| ApiAccess.GraphIsPlainRule | packages/foundation/authz/src/api.ts:87-92 | the baseline over the rendered graph allows a call if and only if its caller owns the resource, holds its boundary or is reached by a grant at the required level or above, or the method creates |
| ApiAccess.DecideApiCall | packages/foundation/authz/src/api.ts:268-296 | a call is permitted exactly when a caller is named, not blank, and the plain rule holds of it |
| ApiAccess.RuleByName | packages/foundation/authz/src/api.ts:45-92 | by name: its owner is let through, who holds its boundary or is reached by a grant at a level that covers the one required, where managing covers everything and using covers reading, and anybody for a method that creates |
| ApiAccess.CallerIsIn | packages/foundation/authz/src/api.ts:202-216 | the caller is in a node by Cedar's transitive walk exactly when it holds that base at the node's level or above |
| ApiAccess.ActionIsIn | packages/foundation/authz/src/cedar.ts:154-172 | every governed method is in the umbrella group, and in the create group exactly when it creates |
| ApiAccess.LowerLevelIsAllowed | packages/foundation/authz/src/api.ts:45-52 | a call allowed at a level is allowed at every lower one |
| ApiAccess.BoundariesAreApart | packages/foundation/authz/src/api.ts:185-186 | with colon-free labels a held scope satisfies a boundary exactly when label, id and level do |
| ApiAccess.ColonJoinsBoundaries | packages/foundation/authz/src/api.ts:185-186 | a caller of one boundary that holds another because a label contains a colon |
| PolicyBundle.LoadPolicyBundle | packages/foundation/authz/src/policy-bundle.ts:44-67 | a bundle is refused exactly when a slice that counts reuses a name; otherwise its live and shadow sets are the merges, and shadow exists only for shadow slices |
| PolicyBundle.SystemSurvives | packages/foundation/authz/src/policy-bundle.ts:48-66 | in any accepted bundle every system rule keeps its own name and text, live and shadowed |
| PolicyBundle.SliceSurvives | packages/foundation/authz/src/policy-bundle.ts:48-66 | in any accepted bundle every enforced slice keeps its own name and text |
| PolicyBundle.RefusedIff | packages/foundation/authz/src/policy-bundle.ts:44-60 | a bundle is refused if and only if a slice that counts is named like a system rule, like a name a record answers for, or like another that counts |
| PolicyBundle.BundleHolds | packages/foundation/authz/src/policy-bundle.ts:61-66 | under its name each slice that counts has its own text, and a shadowed one is not in the live set |
| PolicyBundle.PolicyIds | packages/foundation/authz/src/cedar-engine.ts:51-83 | a name's lone policy has the name for its id, and of several each a number sign and its place after it |
| PolicyBundle.NamedPolicySet | packages/foundation/authz/src/cedar-engine.ts:51-83 | the set is refused exactly when a text does not parse or two policies share an id; otherwise it holds each policy under its id and nothing else |
| PolicyFloor.Decide | packages/foundation/authz/src/cedar-engine.ts:266-309 | one evaluation and one as if confirmed, with every failed evaluation a denial |
| PolicyFloor.DecidesOnBothReadings | packages/foundation/authz/src/cedar-engine.ts:266-309 | a call is permitted if it is allowed as not confirmed, whatever its context said of that, and needs approval if it is not but would be as confirmed |
| PolicyFloor.FloorDecides | packages/foundation/authz/src/system-posture.ts:33-37 | by the floor alone reads run, writes need approval, what is neither is denied, and a read that is also a write runs only interactively |
| PolicyFloor.FloorIsLoaded | packages/foundation/authz/src/system-posture.ts:33-37 | the engine built from any accepted bundle holds the three floor rules under their own ids |
| PolicyFloor.FloorIsSealed | packages/foundation/authz/src/system-posture.ts:33-37 | over any other policies and any context, a write whose run is not known to be interactive is never simply permitted |
| PolicyFloor.SealHoldsIff | packages/foundation/authz/src/cedar-engine.ts:275-276 | with another approval flag some policy set permits an unattended write if and only if its context carries a confirmation other than false |
| PolicyFloor.UnattendedWriteNeedsApproval | packages/foundation/authz/src/cedar-engine.ts:287-302 | such a write needs approval if and only if both evaluations can be made and nothing forbids the confirmed call |
| AuthzModel.BuildAuthzModel | packages/foundation/authz/src/build.ts:75-125 | the model is refused exactly on a repeated id; otherwise every action has its declared groups and its access group, an undeclared one that of writes |
| AuthzModel.ActionAsDeclared | packages/foundation/authz/src/build.ts:75-125 | an action has the access declared, else write, exactly the groups declared and that of its access, and the type declared, else the default |
| AuthzModel.ActionEntitiesFromModel | packages/foundation/authz/src/cedar.ts:128-141 | the entities hold every group and action of the model, the actions under exactly their groups |
| AuthzModel.WithinIff | packages/foundation/authz/src/cedar.ts:128-141 | walking those entities, an action is within itself and its own groups and nothing else, where no action is named like a group |
| AuthzModel.InWritesIff | packages/foundation/authz/src/build.ts:93-95 | an action is walked to the writes if and only if it is not declared a read, declares that group, or is named so |
| AuthzModel.UndeclaredActionIsSealed | packages/foundation/authz/src/build.ts:93-95 | from inputs and slices to decision: a call of an action not declared a read, not known to be interactive, is never simply permitted |
| Projection.Project | packages/foundation/authz/src/projection.ts:33-64 | the projected shape of any schema |
| Projection.Filter | packages/foundation/authz/src/projection.ts:98-115 | the filtered value at any shape |
| Projection.ProjectsIffReadable | packages/foundation/authz/src/projection.ts:33-64 | exactly the schemas policy can read project, each to the shape that describes it: of an object the readable properties, required as it lists them |
| Projection.FilterReads | packages/foundation/authz/src/projection.ts:98-115 | at every path within the shape the filtered value holds what the call had there, and nothing at any other |
| Projection.FilteredIsWellTyped | packages/foundation/authz/src/projection.ts:98-115 | for every schema that projects and every conforming value, what the filter leaves has the closed type at every depth if and only if its integers fit a Long |
| Projection.BigIntegerIsIllTyped | packages/foundation/authz/src/projection.ts:37 | a conforming integer whose filtered value is not well typed |
| Projection.FilterIsIdempotent | packages/foundation/authz/src/projection.ts:98-115 | filtering twice is filtering once, for every shape and value |
| Projection.WellTypedIsKept | packages/foundation/authz/src/projection.ts:98-115 | a value that already has the type is left as it is |
| CedarText.QuotedReadsBack | packages/foundation/authz/src/projection.ts:68-70 | an escaped name followed by its quote and anything else reads back as that name and leaves the rest |
| CedarText.TwoPassesAreOne | packages/foundation/authz/src/projection.ts:68-70 | the two replacement passes together escape each character once |
| CedarText.TypeReadsBack | packages/foundation/authz/src/projection.ts:73-93 | a rendered type, its fields in any order, reads back as exactly its shape and leaves what follows |
| CedarText.TextsAreApart | packages/foundation/authz/src/projection.ts:73-93 | no two shapes share a text |
| CedarText.FieldWrittenOut | packages/foundation/authz/src/projection.ts:73-93 | the text of a record: its quoted name, a mark if it is not required, a colon and its type, in braces |
| PolicyRouter.Router.Route | packages/foundation/authz/src/router.ts:60-82 | a hit moves its entry to the newest place, a miss starts a build there and lets the oldest go until the bound holds |
| PolicyRouter.Router.OnFailure | packages/foundation/authz/src/router.ts:73-75 | a failed build leaves the cache only if it is still the one under its key |
| PolicyRouter.AnswersAsFreshIff | packages/foundation/authz/src/router.ts:45-85 | over any interleaving of decisions, failing builds and changes, an answer is the one its own boundary's bundle would have given when its key was read if and only if the build it waited for gave what it would have given when its own key was read |
| PolicyRouter.CountedHostAnswersAsFresh | packages/busyclaw/src/authz-floor.ts:196-219 | for a host that keys by its count of changes, with colon-free labels, and whose builds end under the count they were keyed by, every answer of every history is the fresh one |
| PolicyRouter.ChangedBoundaryIsAnsweredByItsOwn | packages/busyclaw/src/authz-floor.ts:196-219 | whatever changes meanwhile, a boundary with changes of its own is answered by its own bundle as it was when built |
| PolicyRouter.SharedKeyCrossesBoundaries | packages/busyclaw/src/authz-floor.ts:196-219 | a history in which a boundary nobody changed is answered by another's first bundle and not by its own |
| PolicyRouter.SteadyAnswersAsFresh | packages/foundation/authz/src/router.ts:45-85 | while nothing changes every answer is the one a bundle built for its own boundary would give |
| PolicyRouter.CacheIsLru | packages/foundation/authz/src/router.ts:62-82 | the cache never exceeds its bound, holds one build per key in order of last lookup, and no build whose failure was seen |
| PolicyRouter.LookupStartsIffAbsent | packages/foundation/authz/src/router.ts:58-72 | a lookup starts a build if and only if its key is not cached, and otherwise waits for the one that is |
| PolicyRouter.OnlyOldestLeaves | packages/foundation/authz/src/router.ts:77-81 | a key leaves the cache in a lookup only to make room, and only the least recently touched |
| PolicyRouter.EvictsItsOwn | packages/foundation/authz/src/router.ts:73-75 | a failed build takes its own entry out and no other, not one put under its key since |
| BundleKey.KeysEqualIff | packages/foundation/authz/src/policy-bundle.ts:81-87 | two keys are one if and only if both boundaries are uncustomized or their joined labels and counts agree |
| BundleKey.ColonFreeKeysAreApart | packages/foundation/authz/src/policy-bundle.ts:81-87 | with colon-free labels a customized key names one boundary and one count |
| BundleKey.ColonSharesKey | packages/foundation/authz/src/policy-bundle.ts:81-87 | two boundaries that share a customized key because a label contains a colon |
| BulkFilter.ByTargets | packages/busyclaw/src/authz-pep.ts:618-652 | every shape of a page is the one its row would get alone, whatever the width of the loads, from one read of the grants |
| BulkFilter.FilterRows | packages/busyclaw/src/authz-pep.ts:840-878 | the rows kept, in order, in every posture |
| BulkFilter.LoadedShape | packages/busyclaw/src/authz-pep.ts:583-599 | a loaded row's shape has its owner and boundary, and exactly the grants the store lists for it or for a resource it inherits from |
| BulkFilter.OtherShapes | packages/busyclaw/src/authz-pep.ts:537-566 | a boundary is nobody's, an absent row and an unknown kind are nobody's, and a kind of core's without its store cannot be decided |
| BulkFilter.InheritedGrantPasses | packages/busyclaw/src/authz-pep.ts:231-241 | a caller whom a grant names on a resource the row inherits from, at the required level or above, passes the row, alone and in a listing |
| BulkFilter.ReservedScopeIsIgnored | packages/busyclaw/src/authz-pep.ts:770-792 | a reserved scope changes no decision, whatever the host's resolver says |
| BulkFilter.OthersAreHeld | packages/busyclaw/src/authz-pep.ts:770-792 | scopes of which none is reserved are all held |
| BulkFilter.KeptIff | packages/busyclaw/src/authz-pep.ts:793-817 | a row is kept if and only if its single check passes, or cannot be made and is not dropped either |
| BulkFilter.FilterIsSingleIff | packages/busyclaw/src/authz-pep.ts:840-878 | in force the filter keeps exactly the rows whose own check would pass if and only if the engine denies the resource nobody owns or every row can be decided |
| BulkFilter.NobodysResource | packages/busyclaw/src/authz-pep.ts:156-159 | the baseline permits the resource nobody owns for exactly the methods that create |
| BulkFilter.UndecidableRowIsKept | packages/busyclaw/src/authz-pep.ts:618-652 | a row no single check lets through that a create method's filter keeps |
| EventStream.Reader.Push | packages/busyclaw/src/client/watch.ts:114-123 | the frames a chunk completes and the buffer it leaves |
| EventStream.ChunksDoNotMatter | packages/busyclaw/src/client/watch.ts:38-62 | however a text is cut into chunks, even inside a line end, the parser gives the frames of the whole text and keeps the same rest |
| EventStream.CutsAtBlankLines | packages/busyclaw/src/client/watch.ts:38-62 | a text is cut at its first blank line, with or without carriage returns, and the rest likewise |
| EventStream.FrameSays | packages/busyclaw/src/client/watch.ts:38-62 | a frame has the last id and name its lines give and all their data joined, and a part that gives neither data nor an id is none |
| EventPrinter.PrintStream | packages/adapter/core/src/index.ts:648-659 | the printed stream, cut into any chunks, is read back as exactly its events if and only if every id and name holds no line feed and ends in no carriage return |
| EventPrinter.RoundTripIff | packages/adapter/core/src/index.ts:652-658 | an event reads back as itself if and only if its id and name hold no line feed and end in no carriage return |
| EventPrinter.StreamRoundTripsIff | packages/busyclaw/src/client/watch.ts:38-62 | the parser undoes the printer over any events and any chunks exactly under that condition |
| Routes.MatchOne | packages/adapter/core/src/index.ts:309-330 | a pattern matches a request exactly segment by segment, and binds its parameters |
| Routes.MatchBinds | packages/adapter/core/src/index.ts:309-330 | a pattern matches segment for segment, and binds exactly the names after its colons, each to its last segment, decoded |
| Routes.CheckRouteConflicts | packages/adapter/core/src/index.ts:376-412 | a list is accepted exactly when no key is reused but for an empty id and no two patterns of a method overlap |
| Routes.OverlapIffJointMatch | packages/adapter/core/src/index.ts:363-373 | two patterns overlap if and only if some path matches both |
| Dispatch.DispatchRequest | packages/adapter/core/src/index.ts:1211-1231 | literals first, the last of its key, then the first pattern that matches |
| Dispatch.LiteralAnswers | packages/adapter/core/src/index.ts:1211-1231 | where some route spells the path out the last of them answers, binding nothing |
| Dispatch.PatternAnswers | packages/adapter/core/src/index.ts:1211-1231 | and else the first pattern that matches, with what it binds |
| Dispatch.NobodyAnswers | packages/adapter/core/src/index.ts:1211-1231 | and nobody where none does |
| Dispatch.AcceptedIff | packages/adapter/core/src/index.ts:376-412 | a list is accepted if and only if no request could reach two of its routes by one rule, save literals repeated after an empty id |
| Dispatch.NamedAcceptedIffClear | packages/adapter/core/src/index.ts:376-412 | where every route has an id a list is accepted if and only if no two of its routes clash |
| Dispatch.OnePatternMatches | packages/adapter/core/src/index.ts:376-412 | in an accepted list at most one pattern matches a request |
| Dispatch.OrderFreeIff | packages/adapter/core/src/index.ts:1211-1231 | however an accepted list is permuted every request is given the same route and parameters, if and only if the routes the list repeats are one route over again |
| Dispatch.OrderDoesNotMatter | packages/adapter/core/src/index.ts:1211-1231 | the order of a clear list decides nothing |
| Dispatch.EmptyIdsHideAClash | packages/adapter/core/src/index.ts:376-391 | two literal routes accepted in either order whose dispatch depends on it |

## Left out

- The agent runtime, its model calls, tools, checkpoint and approval stores: a slice ends in an arbitrary outcome, and opens from any transcript saved before.
- Storage adapters and isolation levels: a conditional update is one step, a transaction is one step, and transactions are serial.
- Cedar's text parser and evaluator: policies are functions that are satisfied, unsatisfied or err, and the parser is a parameter.
- EngineStore.Store.AdmitMessage: one uninterrupted pass; the retries and the seeding of a missing counter are in `InboxNumbering`, which interleaves them.
- EngineStore.Store.ClaimDueTasks: the sweep and the scan share one reading of the clock.
- SqlEngine.Slice.Settle: the control latch is read in the same step as the transaction that follows it, where the source reads it just before.
- LeaseBudget.EveryMoveDescends: stated for schedules whose winning claims read their candidates fresh; the exact condition for a single move is `MoveDescendsIff`.
- LeaseBudget.ClaimBudget: the exact counts are stated for schedules whose winning claims read their candidates fresh; the exact condition for a single claim is `CountKeptIffFresh`.
- InboxDelivery.DeliveredInOrder: stated for histories in which a slice continued after an approval shows no inbox message yet; `InboxRestart.DeliveredSinceRestart` is what holds of every history.
- RunQueue.NoStrandedRun: each method is one step. A claim kills a spent task and fails its run in two writes (`packages/engines/sql/src/store.ts:584-607`), a sweep abandons a task and fails its run in two (`packages/engines/sql/src/store.ts:1503-1573`), and a crash between them leaves a queued run with no task at all, as `StrandedRun.ClaimStrandsRun` and `StrandedRun.SweepStrandsRun` show.
- RunVerdicts.VerdictMatchesStatus: each method is one step. The claim path settles a latched run and records it in two writes (`packages/engines/sql/src/store.ts:658-683`), and a crash between them leaves `cancelled` without its event, as `LeaseWitness.CrashLosesVerdict` shows.
- LeaseProtocol: a heartbeat is sent only for a lease that a claim returned; any caller may present any token to settle.
- The recorded scope of a run, the control reason, payloads, outputs and error texts: columns no modelled branch reads.
- A heartbeat's timers, abort controllers and run-stream writes: the outcome of a slice stands for them.
- `pruneRuns`: it deletes rows by design; the lease protocol lets single task rows vanish at any time.
- PolicyRouter.CountedHostAnswersAsFresh: a boundary's bundle is taken to be determined by its count of changes; writing a slice and its entry in the log is not modelled.
- Annotations on policies, the contents hash of a model and the sorting of its actions: reported, not decided on.
- Base-path stripping, request bodies and headers: dispatch begins at the normalized path.
- Reconnecting and backing off after a dropped stream: the parser begins anew on each connection.
