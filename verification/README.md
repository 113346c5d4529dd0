# Verified model of the host's scheduling, delivery and retention machinery

The host is one process with one event loop: the code between two awaits is one atomic step, and
what can go wrong is an interleaving. This project models the parts of the host where that matters
as state machines over those steps, proves what every run of them keeps, and proves imperative
methods, written in the form of the source, to take exactly those steps. Algorithms without
concurrency (the splitter, the lexer, the canonical serialisation, the payload scan) are proved
against an independent description of what they should compute.

`dafny verify dfyconfig.toml` checks everything.

| file | what it models |
|---|---|
| `AdmissionQueue.dfy`, `AdmissionFairness.dfy` | the queue of capacity-rejected wakes, its failure budget, and the fairness of its picks |
| `ContainerHost.dfy`, `HostFairness.dfy` | container slots: registry, in-flight wakes, slot hand-off, shutdown; the fairness bounds over runs of the host |
| `OutboundContract.dfy`, `Delivery.dfy`, `DeliveryResults.dfy`, `DeliveryRetry.dfy`, `DeliveryLoop.dfy`, `DrainPool.dfy` | the payload contract, one session's delivery with retries, timeouts, failing writes and crashes, what its runs guarantee, when a failed row is sent again, its drain loop, and the worker pool over sessions |
| `RosterReservation.dfy` | reserve-before-send for directed messages, its rollback, and the invites and consents that share its tables |
| `SessionArchive.dfy` | archiving an idle session against live traffic |
| `StateLocks.dfy`, `StateLists.dfy` | the locks and the bounded queues of the SQLite state adapter |
| `RateLimiter.dfy`, `SigningProxy.dfy` | the fixed-window limiter, and the signing proxy's request handling over its token and audit tables |
| `HostSweep.dfy` | the stuck-container rules and the inbound retry sweep |
| `ScopeRetention.dfy` | expiry of abandoned user scopes |
| `TextSplit.dfy`, `ParenLexer.dfy`, `CanonicalJson.dfy` | the message splitter, the parenthesis matcher, canonical JSON |
| `JsonTree.dfy`, `Wrappers.dfy`, `SetFacts.dfy` | shared datatypes, and sizes of sets |

## Where the code and its own comments differ

The model follows the code. Each difference below is a lemma with a concrete run or an exact condition.

- The third failed admission is called an eviction (src/admission-queue.ts:232-242). It clears the
  budget, but a session whose failed wake had put it back stays queued: `ThirdFailureForgets` says
  exactly when, `EvictionCanLeaveQueued` is such a run of the host.
- A rollback is said to keep an independently revoked grant revoked (src/db/dm-grants.ts:747-757).
  It does exactly while fewer messages than the cap are charged: `RevocationSurvivesRollbackIff`,
  `OptOutCanBeLost`.
- Release is keyed by session, not by process (src/container-runner.ts:509-534). The process bound
  needs every exit to find its own entry; `StepKeepsOwned` is the exact condition,
  `StaleCloseBreaksTheBound` the run without it.
- An adopted scope is said never to be deleted on the tick that adopts it
  (src/scope-retention.ts:161, 249). With old session evidence it is: `AdoptedCanExpireAtOnce`.
- The archive's quiet check reads the activity stamp, which some host writes do not move: routing and
  delivery marks, direct replies (src/session-manager.ts:269-297, 531-568) and scheduled task rows
  (src/modules/scheduling/db.ts:17, 128). A message of a user is never lost. Such a silent write, a
  task row too, is missing from the archive exactly when it comes between the read of its file and
  the delete: `ArchiveIsExactIff`, `SilentWriteCanBeMissed`.
- The signing proxy's header promises to sign the bytes it received; it signs a re-serialised body.
  As trees the two are equal exactly when no object repeats a key (`SignedAsReceivedIff`,
  `RepeatedKeyIsCollapsed`); spacing and escapes of the bytes are not modelled.
  `SignedBodiesClaimTheirGroup` is what the change is for.
- The limiter grants one request per window even for a limit below one (`FirstRequestIsGranted`), so
  the limit is kept exactly from one up (`LimitIsKeptIff`).
- In the lexer a backslash before a quote always hides it, even one that is itself escaped. It agrees
  with the language, where backslashes pair up, exactly while no string ends after a nonempty even
  run of them (`LexersAgreeIff`), and exactly then the search can be relied on (`SearchIsRightIff`).
- Marking a session running happens after its slot is registered; if it throws, nothing ever frees
  the slot (`ThrowLeaks`, `LeakedSlotIsNeverFreed`): a slot can be freed exactly if that mark did not
  throw (`FreedIffWatched`).

## Model

| member | source | states |
|---|---|---|
| `AdmissionQueue.SelectNextIndex` | src/admission-queue.ts:147-168 | The scan returns the leftmost entry among those whose bucket holds fewest slots; an empty queue gives 0. |
| `AdmissionQueue.Select` | src/admission-queue.ts:147-168 | As a function of queue and loads, the pick is least loaded and leftmost. |
| `AdmissionQueue.SelectIsUnique` | src/admission-queue.ts:147-168 | Being leftmost among the least loaded determines the pick: the scan can return nothing else. |
| `AdmissionQueue.Queue.EnqueueAdmission` | src/admission-queue.ts:90-97 | Whole new state: a queued id is left alone; otherwise it goes to the tail, and an existing wait clock and bucket are kept. |
| `AdmissionQueue.Queue.RequeueTail` | src/admission-queue.ts:112-117 | Whole new state: tail insertion unless queued, clocks untouched. |
| `AdmissionQueue.Queue.RequeueFront` | src/admission-queue.ts:119-125 | Whole new state: the id moves to the head from wherever it stood. |
| `AdmissionQueue.Queue.Pop` | src/admission-queue.ts:170-179 | Takes the pick (the head without a load function) out of list and set; None on an empty queue. |
| `AdmissionQueue.Queue.ObserveWait` | src/admission-queue.ts:209-215 | Drops clock and bucket of a session that got its slot. |
| `AdmissionQueue.Queue.NoteFailure` | src/admission-queue.ts:217-242 | Whole new state of a failed admission: head, tail, or forgotten, by the count. |
| `AdmissionQueue.Queue.OnWakeSettled` | src/admission-queue.ts:281-294 | The continuation of a drain's wake: success clears budget and clocks, failure counts. |
| `AdmissionQueue.Queue.DrainAdmissionSlot` | src/admission-queue.ts:252-297 | The loop ends, and leaves state and pick of the recursive specification Drain. |
| `AdmissionQueue.RunKeepsInv` | src/admission-queue.ts:90-297 | After any sequence of rejections, drains and settled wakes: no duplicates, list and set agree, clocks and buckets have one domain, fail counts stay in 1..2, and every step keeps the clock and bucket of a waiting session. |
| `AdmissionQueue.FirstFailureTakesHead` | src/admission-queue.ts:217-224 | The first failure puts the session at the head even if it was re-queued meanwhile, and reorders nobody else. |
| `AdmissionQueue.RejectJoinsTail` | src/admission-queue.ts:90-97 | A rejected wake stands at the end of the queue, its clock and bucket those of its first rejection; one that already stands in it changes nothing. |
| `AdmissionQueue.SecondFailureRotates` | src/admission-queue.ts:225-231 | The second failure puts the session at the end, or leaves it where a rejection has put it, and moves nobody else. |
| `AdmissionQueue.SuccessClears` | src/admission-queue.ts:281-289 | A wake that succeeds clears exactly the session's budget, clock and bucket. |
| `AdmissionQueue.ThirdFailureForgets` | src/admission-queue.ts:225-242 | The third failure clears budget, clock and bucket, and leaves the queue itself as it is. |
| `AdmissionQueue.BudgetCountsModuloThree` | src/admission-queue.ts:217-242 | In every run the stored count is the number of consecutive failures (since a success or a drop) modulo three. |
| `AdmissionQueue.DrainForgetsDropped` | src/admission-queue.ts:263-278 | A drain resets the budget of exactly the sessions it drops. |
| `AdmissionQueue.DrainIsFilterThenPick` | src/admission-queue.ts:252-297 | A drain wakes the least-loaded, leftmost eligible entry; it drops only ineligible ones, keeps the rest in order, wakes at most one, and with nothing eligible empties the queue. |
| `AdmissionFairness.NoStarvation` | src/admission-queue.ts:147-297 | Over any run of rejections, drains and settled wakes, from any reachable queue: a session at position p whose bucket holds no slot is taken off within p+1 drains and one more for each other session that took the head meanwhile; woken, unless there is nothing to wake. |
| `AdmissionFairness.EqualLoadsAreFifo` | src/admission-queue.ts:90-297 | In such a run, while loads are equal and nobody takes the head: those taken off in their order and then those still queued are those queued at first in theirs and then the rejected and rotated in theirs. |
| `AdmissionFairness.EvenDrainIsFifo` | src/admission-queue.ts:252-297 | Under equal loads a drain takes entries off from the head: the last of them is woken, the others are not eligible. |
| `AdmissionFairness.SelectTakesLeast` | src/admission-queue.ts:147-168 | The bucket the scan picks from is one of the queued sessions' buckets and none of those holds fewer slots: what a pick is in the balance results. |
| `AdmissionFairness.NoBucketPullsAhead` | src/admission-queue.ts:147-179 | From any loads, over any picks, registrations, failed spawns, exits and direct wakes: of a bucket backlogged at every pick no other gets further ahead, its spawns in flight included, than it was or than it ever had spawns in flight, plus the slots the waiting bucket gave back and the wakes of the other past the queue. |
| `AdmissionFairness.OneSlotAhead` | src/admission-queue.ts:147-179 | So a lead of at most one slot stays at most one, while the waiting bucket keeps its slots and the other starts only through the queue, one at a time. |
| `AdmissionFairness.BackloggedBucketsStayLevel` | src/admission-queue.ts:147-179 | Two such buckets that start at most one slot apart never differ by more, whatever all others do. |
| `HostFairness.FirstMoves` | src/container-runner.ts:238-534 | What a step of the host does before its drain is one move of the fairness book: a start, a registration, a failed spawn, a slot given back, or nothing. |
| `HostFairness.SecondMoves` | src/container-runner.ts:485-534 | And its drain is one more: a pick of a least-loaded bucket among those of the eligible sessions, or nothing. |
| `HostFairness.HostBucketsStayClose` | src/container-runner.ts:347-395 | The bound for the host itself: between any two states of any run, no bucket gets further ahead of one that could have been picked at every pick, beyond its initial lead or its spawns in flight, but for slots given back and wakes past the queue. |
| `ContainerHost.BucketsAreDistinct` | src/admission-queue.ts:69-73 | Buckets of users, groups and bare sessions never collide; within a kind there is one bucket per id. |
| `ContainerHost.CountSlotsHeldBy` | src/container-runner.ts:260-278 | The loop counts the registered entries of a bucket. |
| `ContainerHost.CapHoldsInEveryRun` | src/container-runner.ts:347-395 | In every interleaving of wakes, registrations, settlements, failures, exits, drains and shutdown, the sessions registered or in flight never exceed the cap, and a spawn still to register never belongs to a registered session. |
| `ContainerHost.WakeStartsIffRoom` | src/container-runner.ts:326-395 | A wake of a session neither registered nor in flight starts it exactly when registered plus in-flight sessions are fewer than the cap, and queues it at the end exactly otherwise. |
| `ContainerHost.WakeJoins` | src/container-runner.ts:347-360 | A wake of a registered session answers true, of one in flight joins its wake; neither changes anything. |
| `ContainerHost.NoSlotIsWithheld` | src/container-runner.ts:347-395 | Over any run a wake leaves its session queued, registered or in flight; newly queued only when the cap was reached, newly in flight only when it was not. |
| `ContainerHost.SumCanExceedCap` | src/container-runner.ts:326-332 | A reachable state in which active plus in-flight, as the admission test adds them, exceeds the cap. |
| `ContainerHost.StepKeepsOwned` | src/container-runner.ts:223-250 | Registry and running processes stay in agreement through a step exactly when the step is not a stale exit. |
| `ContainerHost.ProcessesBounded` | src/container-runner.ts:467-534 | In a run without stale exits at most cap processes live at once, and never two of one session. |
| `ContainerHost.StaleCloseBreaksTheBound` | src/container-runner.ts:509-534 | A run in which a late close releases the successor's slot and two processes of one session live under a cap of one. |
| `ContainerHost.ThrowLeaks` | src/container-runner.ts:467-494 | A throw while marking the session running leaves a registered slot whose process has no exit handlers. |
| `ContainerHost.LeakedSlotIsNeverFreed` | src/container-runner.ts:467-494 | Such a slot stays taken for the rest of every run without stale exits. |
| `ContainerHost.FreedIffWatched` | src/container-runner.ts:467-534 | Exactly: some step other than a stale exit can free a slot if and only if its process has exit handlers. |
| `ContainerHost.EvictionCanLeaveQueued` | src/admission-queue.ts:232-242 | For any two sessions a run of the host, 24 steps from its start, after which the one evicted by its third failed admission is still queued, without clock, bucket or budget; every exit in it comes after that session's wake has settled. |
| `ContainerHost.ReleaseLowersOneBucket` | src/container-runner.ts:238-250 | A release lowers the bucket of the slot it frees by one and no other: the exits the fairness bounds allow for. |
| `ContainerHost.ShutdownIsFinal` | src/container-runner.ts:562-566 | Once shutdown began, no later exit in any run admits a queued session. |
| `ContainerHost.HandOffAdmitsOne` | src/container-runner.ts:485-492 | A hand-off wakes at most one session, the one filter-then-pick names, and that wake is admitted or re-queued. |
| `ContainerHost.SlotIsOfferedIff` | src/container-runner.ts:223-250 | An exit makes one attempt for the queue exactly when it is its container's first, before shutdown, of a clean or ten-second run, and some queued session is live, has due work and holds no slot. |
| `ContainerHost.KilledExitIsNotClean` | src/container-runner.ts:509-534 | In any run the exit of a session that was killed, or registered at shutdown, never counts as a clean one. |
| `ContainerHost.LifetimeCountsFromRegistration` | src/container-runner.ts:467-494 | In any run a container keeps the session and the time it was registered with: what the ten seconds are counted from. |
| `ContainerHost.SettleAnswersWaiters` | src/container-runner.ts:382-391 | A settled wake answers every attempt that waits for it with the outcome its spawn left, and no other. |
| `ContainerHost.SpawnOutcome` | src/container-runner.ts:397-494 | That outcome is true for a container marked running and for a group that is gone, and false for a failed spawn or mark. |
| `ContainerHost.RegisterBumpsOneBucket` | src/container-runner.ts:467-475 | Registering raises its own bucket by one and no other: the step the fairness bound counts. |
| `ContainerHost.ContainerRunner.WakeContainer` | src/container-runner.ts:347-395 | Whole new state and answer of a wake request: running, joined, rejected and queued, or started; WakeStartsIffRoom and WakeJoins say which, in numbers. |
| `ContainerHost.ContainerRunner.OnSpawned` | src/container-runner.ts:467-494 | Registration of a spawn as one step, marked running or left without exit handlers by a throw. |
| `ContainerHost.ContainerRunner.OnWakeSettled` | src/container-runner.ts:382-391 | Settlement removes the promise and answers everyone waiting on it. |
| `ContainerHost.ContainerRunner.ReleaseContainer` | src/container-runner.ts:238-250 | Release by session id, whichever process holds the entry. |
| `ContainerHost.ContainerRunner.HandOffSlot` | src/container-runner.ts:485-492 | One drain per container at most, and only after a healthy exit. |
| `ContainerHost.ContainerRunner.OnClose` | src/container-runner.ts:509-522 | Close: outcome, release, hand-off, in that order, as one step. |
| `ContainerHost.ContainerRunner.OnError` | src/container-runner.ts:524-534 | Spawn error: release and hand-off as a crash. |
| `ContainerHost.ContainerRunner.StopAllContainers` | src/container-runner.ts:562-585 | Shutdown disables drains and marks every registered session killed. |
| `ContainerHost.ContainerRunner.OnAttemptSettled` | src/admission-queue.ts:281-294 | The drain's continuation runs once per attempt and books it in the queue. |
| `OutboundContract.ScanIsExact` | src/outbound-contract.ts:61-86 | The early-exit scan complains exactly when something anywhere is nested too deep or some object holds a forbidden key. |
| `OutboundContract.AdmissionIsExact` | src/outbound-contract.ts:88-107 | A payload is admitted exactly when small enough, an object, at most 12 deep and free of forbidden keys at every depth. |
| `Delivery.RunIsSerial` | src/delivery.ts:290-301 | Over overlapping polls and crashes at most one drain of the session is live, and its rows stay in the poll's order. |
| `Delivery.RunKeepsRow` | src/delivery.ts:341-461 | Every row's account of sends, copies, failures, backoff and table entry balances in every run, with writes of the table that throw. |
| `DeliveryResults.CopiesAreAccountedFor` | src/delivery.ts:343-461 | A row lands at most once plus its timeouts, the crashes between send and mark, and the delivered marks that threw; a delivered row did land; with none of the three one copy. |
| `DeliveryResults.AttemptsAreBounded` | src/delivery.ts:394-458 | At most 10 failures are recorded, at most 117360 s of backoff are ordered, and only crashes and failures that could not be recorded add sends beyond 10. |
| `DeliveryRetry.FailureIsScheduled` | src/delivery.ts:437-445 | In any run the n-th recorded failure of a row, at time t, leaves it due at t plus 60, 300, 1800, 7200 and from then on 21600 seconds; the tenth leaves it never due. |
| `DeliveryRetry.NoSendBeforeDue` | src/db/session-db.ts:436-452 | Whenever a send of a failed row begins, a poll at or past that time took the row, and fewer than ten failures are recorded. |
| `DeliveryRetry.TakenExactlyWhenDue` | src/db/session-db.ts:436-452 | A poll that finds no drain running takes a failed row exactly when it is listed, has fewer than ten failures, and its delay is over. |
| `DeliveryResults.RejectedRowIsNeverSent` | src/delivery.ts:394-416 | A row the contract rejects is never sent, and once handled is dead-lettered on its first attempt. |
| `DeliveryResults.DeliveredIsFinal` | src/db/session-db.ts:454-507 | A delivered row keeps its entry for the rest of every run: a later failure never downgrades it. |
| `DeliveryResults.SendsFollowTheOrder` | src/delivery.ts:341-461 | When a send begins, every earlier row of that poll already has an entry: delivered, or failed before. |
| `DeliveryLoop.SessionDelivery.HandleRow` | src/delivery.ts:343-461 | One pass of the loop body, whichever of its calls and writes throws: the new table, and whether the loop goes on; only the failing row stops it. |
| `DeliveryLoop.SessionDelivery.SendRow` | src/delivery.ts:354-461 | A begun send, its mark and its failures: marked delivered, or the attempt counted if that can be written; a throw after the mark ends the loop and leaves the mark. |
| `DeliveryLoop.SessionDelivery.DeliverSessionMessages` | src/delivery.ts:290-485 | An uninterrupted poll: guard, filter, loop; its table is DrainTable's and its steps are a run of the machine. |
| `DrainPool.PassIsBoundedAndInOrder` | src/delivery.ts:250-264 | Whatever order the drains end in: sessions start in list order, no more at once than the limit, and no worker idles while sessions wait. |
| `DrainPool.OverMeansAllDrained` | src/delivery.ts:250-264 | When all workers are done every session was drained as often as listed, thrown drains included; with no worker, none. |
| `DrainPool.PassTerminates` | src/delivery.ts:250-264 | At most as many drains end as sessions were listed. |
| `DrainPool.DrainPass.constructor` | src/delivery.ts:250-253 | Creating the workers gives each its first session, in order. |
| `DrainPool.DrainPass.OnDrainEnds` | src/delivery.ts:253-261 | The worker whose drain ended takes the next session or stops. |
| `RosterReservation.RunKeepsInv` | src/delivery.ts:1058-1141 | Over any run of consents, invites, attempts, timeouts, errors, revocations and crashes: each grant counter is the number of messages charged to it, each window row the number of its standing charges and invites. |
| `RosterReservation.LandedWithinCap` | src/delivery.ts:1058-1141 | Every message that may have landed is charged, so no capped grant lets more distinct messages land than its cap. |
| `RosterReservation.LandedKeepsCharge` | src/delivery.ts:1118-1141 | Once a copy may have landed, the message keeps that charge: later failures never take it back. |
| `RosterReservation.RenewedConsentKeepsCap` | src/db/dm-grants.ts:87-124 | A renewed consent lifts the revocation and nothing else, so the cap of the first consent bounds the messages that land under the grant for good. |
| `RosterReservation.WindowsWithinLimit` | src/db/dm-grants.ts:553-703 | A window row is its standing charges plus its invites, and within the limit; only the daily row holds both, and a scope makes at most three invites a minute. |
| `RosterReservation.InvitesAreNeverRefunded` | src/roster-invite.ts:124-160 | An invite keeps its share of the daily row whatever fails later: sends standing in that window and the invites made so far stay within the cap together. |
| `RosterReservation.InviteAllowedIff` | src/db/dm-grants.ts:553-566 | In every reachable state an invite is allowed exactly when its scope made fewer than three in this window and, with a daily cap, sends and invites together are below it. |
| `RosterReservation.Ledger.ChargeInvite` | src/db/dm-grants.ts:553-572 | All checks before any bump: whole new state, or a refusal that changes nothing. |
| `RosterReservation.Ledger.InsertDmGrant` | src/db/dm-grants.ts:87-124 | A first consent opens a grant with an empty count; a renewed one keeps count and cap. |
| `RosterReservation.RollbackUndoesReserve` | src/db/dm-grants.ts:735-776 | A rollback restores grants and charges, and the ledger exactly when it falls in the same windows, which is why both use one timestamp. |
| `RosterReservation.RevocationSurvivesRollbackIff` | src/db/dm-grants.ts:747-757 | A revoked grant stays revoked through a rollback exactly when fewer messages than its cap are charged. |
| `RosterReservation.OptOutCanBeLost` | src/db/dm-grants.ts:747-757 | A concrete run in which an opt-out is undone by a rollback. |
| `RosterReservation.ReserveAllowedIff` | src/db/dm-grants.ts:643-716 | In every reachable state a message not yet charged is reserved afresh exactly when the grant exists, is not revoked, is uncapped or below its cap in charged messages, and every window (charges plus invites) is below its limit. |
| `RosterReservation.FreshReserveIsExact` | src/db/dm-grants.ts:665-712 | A fresh reservation charges the message, raises each of its rows by one and no other, and revokes the grant exactly when its cap is reached. |
| `RosterReservation.ReserveIsIdempotent` | src/db/dm-grants.ts:653-656 | A standing reservation is used again and charges nothing. |
| `RosterReservation.RevokedTakesNoCharge` | src/db/dm-grants.ts:660-683 | Over any run, while a grant stays revoked no message is newly charged to it. |
| `RosterReservation.OptOutEndsCharging` | src/db/dm-grants.ts:660-757 | Over any run, after a revocation no message is newly charged to the grant until a new consent, or the rollback at its cap that lifts it. |
| `RosterReservation.CrashRefundsNothing` | src/delivery.ts:1118-1141 | A crash leaves grants, ledger and charges as they are; every message in flight counts as one that may have landed. |
| `RosterReservation.ConsentLiftsRevocation` | src/db/dm-grants.ts:87-124 | A consent leaves the grant not revoked; a renewed one keeps count and cap. |
| `RosterReservation.WindowsTumble` | src/db/dm-grants.ts:455-461 | Two times share a window exactly if the second lies within one length of the first one's window start; windows start at time zero. |
| `RosterReservation.Ledger.ReserveRosterSend` | src/db/dm-grants.ts:643-716 | All or nothing: the whole charge, a standing reservation reused, or an abort that changes nothing; ReserveAllowedIff and FreshReserveIsExact say which and what. |
| `RosterReservation.Ledger.RollbackRosterReservation` | src/db/dm-grants.ts:735-776 | Whole new state of a rollback; without a reservation nothing. |
| `RosterReservation.Ledger.SendReserved` | src/delivery.ts:1058-1141 | One attempt is one begin and one outcome step: rollback only for a fresh explicit failure. |
| `SessionArchive.NoAcceptedMessageIsLost` | src/session-archive.ts:118-207 | Whatever interleaves with the tar, every accepted message is in the directory or the archive, and overlapping ticks never archive a session twice at once. |
| `SessionArchive.DeleteOnlyWhatIsArchived` | src/session-archive.ts:118-143 | The delete happens only with the container stopped and every message and reply in the archive. |
| `SessionArchive.DeletedIffUntouched` | src/session-archive.ts:118-207 | When its tar has finished, a session is deleted exactly if no message was accepted and no container started since the archive began; otherwise it stays and the tarball goes. |
| `SessionArchive.OnlyIdleIsDeleted` | src/session-archive.ts:247-262 | A deleted session had been idle for the whole time to live before its archive began. |
| `SessionArchive.ArchiveIsExactIff` | src/session-archive.ts:118-143 | For each database, and for the whole: archive and deleted directory are equal exactly when no silent write to the file came between the step that read it and the delete. |
| `SessionArchive.NothingMovesBeforeDelete` | src/session-archive.ts:118-207 | Between candidate test and delete no message was accepted and no container started, not even briefly. |
| `SessionArchive.SilentWriteCanBeMissed` | src/session-archive.ts:118-143 | A run whose archive misses a write that moves no stamp. |
| `SessionArchive.SessionStore.WriteSessionMessage` | src/session-manager.ts:306-372 | A write appends and stamps, or is refused when the directory is gone. |
| `SessionArchive.SessionStore.MarkContainerRunning` | src/session-manager.ts:711-713 | A start stamps activity. |
| `SessionArchive.SessionStore.MarkContainerStopped` | src/session-manager.ts:721-723 | A stop does not. |
| `SessionArchive.SessionStore.BeginArchive` | src/session-archive.ts:155-161 | The in-progress set admits one archive per session. |
| `SessionArchive.SessionStore.OnTarDone` | src/session-archive.ts:118-143 | Delete exactly when the row is still as the candidate test saw it; else the tarball goes. |
| `SessionArchive.SessionStore.FinishArchive` | src/session-archive.ts:173-206 | The status flips after the delete, and the session leaves the in-progress set. |
| `StateLocks.GrantIsExclusive` | src/state-sqlite.ts:85-115 | When a lock is granted every earlier handle of the thread was released, forced or expired, and never again can it release or extend anything. |
| `StateLocks.EndedStaysEnded` | src/state-sqlite.ts:85-115 | A hold that ended stays ended, in the way it ended. |
| `StateLocks.RefusedIffHeld` | src/state-sqlite.ts:85-95 | In every run a lock is refused exactly when some earlier handle of the thread was not released, not forced and has not expired. |
| `StateLocks.LockLasts` | src/state-sqlite.ts:85-111 | A lock granted or last extended at t for d, and neither released nor forced, makes every other acquire of the thread up to t+d refused. |
| `StateLocks.LockLapses` | src/state-sqlite.ts:85-111 | And unless someone else got it meanwhile, an acquire is granted exactly after t+d. |
| `StateLocks.RunKeepsInv` | src/state-sqlite.ts:85-115 | In every run each granted token holds its row or has ended, never both; while it holds, row and handle show the end of its term, and an expired one's term was over. |
| `StateLocks.LockTable.AcquireLock` | src/state-sqlite.ts:85-95 | New table and handle of an acquire; the handle shows the row's own expiry. |
| `StateLocks.LockTable.ReleaseLock` | src/state-sqlite.ts:97-99 | Deletes only the row with this token. |
| `StateLocks.LockTable.ExtendLock` | src/state-sqlite.ts:101-111 | Moves row and handle together, or neither. |
| `StateLocks.LockTable.ForceReleaseLock` | src/state-sqlite.ts:113-115 | Deletes the thread's row whoever holds it. |
| `StateLocks.LockTable.CleanupLocks` | src/state-sqlite.ts:173-178 | Deletes exactly the expired rows. |
| `StateLists.AppendRefines` | src/state-sqlite.ts:119-133 | An append keeps exactly the last max of q+[v], at contiguous indices, restarting at 0 when the list was empty. |
| `StateLists.AppendObeysBound` | src/state-sqlite.ts:119-133 | A bounded append leaves at most max rows and keeps the new one, whatever expiry and cleanup did to the indices. |
| `StateLists.DequeueRefines` | src/state-sqlite.ts:153-161 | Deleting the smallest index leaves the tail of the queue. |
| `StateLists.CountRefines` | src/state-sqlite.ts:163-169 | Counting rows gives the length of the queue. |
| `StateLists.CleanupKeepsQueues` | src/state-sqlite.ts:173-178 | Cleanup never touches a queue. |
| `StateLists.CleanupTakesThePast` | src/state-sqlite.ts:173-178 | Cleanup takes exactly the rows whose time is past; twice is once at the later time. |
| `StateLists.FirstIs` | src/state-sqlite.ts:153-161 | The smallest index holds the oldest element. |
| `StateLists.AppendToList` | src/state-sqlite.ts:119-133 | The statements compute Append. |
| `StateLists.QueueAdapter.Enqueue` | src/state-sqlite.ts:147-151 | A bounded FIFO: the queue becomes the last maxSize of old and new, its length is returned, other threads unchanged. |
| `StateLists.QueueAdapter.Dequeue` | src/state-sqlite.ts:153-161 | Returns and removes the oldest, or nothing. |
| `StateLists.QueueAdapter.QueueDepth` | src/state-sqlite.ts:163-169 | The length of the thread's queue. |
| `StateLists.QueueAdapter.RunCleanup` | src/state-sqlite.ts:173-178 | Leaves every queue as it was. |
| `RateLimiter.Limiter.Request` | src/gateway-signing-proxy.ts:448-464 | Answer and buckets of one request, garbage collection loop included. |
| `RateLimiter.GcIsUnobservable` | src/gateway-signing-proxy.ts:448-464 | Under a nondecreasing clock every request gets the answer it would get without collection. |
| `RateLimiter.GrantsAreBounded` | src/gateway-signing-proxy.ts:448-464 | At most limit grants per window (one below limit one), and fewer than twice that in any interval of a window's length. |
| `RateLimiter.GrantedExactlyWhenRoom` | src/gateway-signing-proxy.ts:448-464 | Exactly those requests are granted that open a window or find fewer than limit granted in the token's current one. |
| `RateLimiter.FirstRequestIsGranted` | src/gateway-signing-proxy.ts:448-464 | The first request of a token is granted whatever the limit, also below one. |
| `RateLimiter.LimitIsKeptIff` | src/gateway-signing-proxy.ts:448-464 | No window of any run exceeds the limit exactly when the limit is at least one. |
| `RateLimiter.BoundIsMet` | src/gateway-signing-proxy.ts:448-464 | With limit two, three grants within one window's length: the bound is attained. |
| `SigningProxy.SignedBodyIsUnambiguous` | src/gateway-signing-proxy.ts:262-283 | The body that is signed repeats no key at any depth. |
| `SigningProxy.ReadersAgree` | src/gateway-signing-proxy.ts:262-283 | A first-wins and a last-wins reader of the signed body agree on every key, with the last member of the received one. |
| `SigningProxy.SignedAsReceivedIff` | src/gateway-signing-proxy.ts:262-283 | The tree that is signed is the one received exactly when no object in it repeats a key. |
| `SigningProxy.RepeatedKeyIsCollapsed` | src/gateway-signing-proxy.ts:262-283 | A family of bodies that change: of two `agent` members the last is signed, in the first one's place. |
| `SigningProxy.SignedBodiesClaimTheirGroup` | src/gateway-signing-proxy.ts:262-351 | In every run every body ever signed claims the group it is signed for, to a first-wins and to a last-wins reader. |
| `SigningProxy.EveryForwardPassedTheGates` | src/gateway-signing-proxy.ts:218-390 | Each forward of a run comes from one request that found every gate open, and carries its id, caller, path, body and its group's key. |
| `SigningProxy.OpenGatesForward` | src/gateway-signing-proxy.ts:218-390 | And there is no other gate: a request that finds them all open is forwarded, as the next forward of every longer run. |
| `SigningProxy.EveryForwardIsOnRecord` | src/gateway-signing-proxy.ts:367-390 | In every run each forward has an audit row of its own naming the token's group as signed for, under a token pinned to its caller. |
| `SigningProxy.TokensAreExclusive` | src/db/gateway-proxy-token.ts:81-162 | One token never serves two addresses, and a session never has two live tokens. |
| `SigningProxy.RevokedTokenForwardsNothing` | src/db/gateway-proxy-token.ts:169-186 | Once revoked, a token never has anything forwarded under it again. |
| `SigningProxy.ExitEndsForwarding` | src/db/gateway-proxy-token.ts:81-186 | After a session's container exits, after its next token and after a restart nothing is forwarded under any token it had before. |
| `SigningProxy.AnswerIsRecorded` | src/db/gateway-audit.ts:112-126 | An answer settles the forward's row as the answer was, and touches no other row. |
| `SigningProxy.MismatchIsRecorded` | src/gateway-signing-proxy.ts:303-324 | A body that claims another group is not forwarded, and the attempt is on record under the token's own group if the database takes it. |
| `SigningProxy.SettledForGood` | src/db/gateway-audit.ts:112-126 | A finalised audit row never changes. |
| `SigningProxy.RestartSettlesEveryRow` | src/db/gateway-audit.ts:128-144 | Reconciling at start leaves no row open, and no row says ok of a request that was not forwarded. |
| `SigningProxy.ForwardsAreRateLimited` | src/gateway-signing-proxy.ts:250-254 | In one life of the host fewer than twice the limit are forwarded per token in any window's length. |
| `SigningProxy.Proxy.VerifyProxyToken` | src/db/gateway-proxy-token.ts:118-159 | Trust on first use: accepted exactly if known, live, unexpired and unpinned or pinned to this address, and then pinned. |
| `SigningProxy.Proxy.NoteRefusal` | src/gateway-signing-proxy.ts:305-351 | A refusal's intent and outcome rows, both best effort. |
| `SigningProxy.Proxy.RecordAndForward` | src/gateway-signing-proxy.ts:367-409 | Nothing is forwarded without a stored intent. |
| `SigningProxy.Proxy.ProcessSigningProxyRequest` | src/gateway-signing-proxy.ts:218-409 | Effects in the handler's order compute verdict and new state of the request step. |
| `SigningProxy.Proxy.OnAnswer` | src/gateway-signing-proxy.ts:409-436 | The answer finalises the row, best effort. |
| `SigningProxy.Proxy.MintProxyToken` | src/db/gateway-proxy-token.ts:81-110 | Minting revokes the session's earlier tokens. |
| `HostSweep.DecideStuckAction` | src/host-sweep.ts:170-206 | `Ok` exactly when no rule fires; the ceiling rule goes first; a claim kill names the first stuck claim, with ages and limits. |
| `HostSweep.LimitsAre` | src/host-sweep.ts:153-206 | Ceiling and tolerance in numbers: 30 minutes or the host's setting, a minute at least; a minute per claim; either raised to the timeout a running Bash command declares. |
| `HostSweep.BeatingContainerIsNeverKilled` | src/host-sweep.ts:170-206 | A container that beats within the tolerance after each claim, and at least once per ceiling, is never killed. |
| `HostSweep.SurvivesIffHeard` | src/host-sweep.ts:170-206 | Exactly: it survives iff it has never beaten or did within the ceiling, and has beaten since each claim older than the tolerance. |
| `HostSweep.SweepEachSession` | src/host-sweep.ts:246-267 | Every session is visited in order, even if whether a sweep throws depends on all sweeps before it; swept and failed add up. |
| `HostSweep.SessionDbs.ResetStuckProcessingRows` | src/host-sweep.ts:576-636 | Each claimed pending message is rescheduled or failed once, even if listed twice; then the claims go, or stay if that fails. |
| `HostSweep.SessionDbs.MarkMessageFailed` | src/db/session-db.ts:251-253 | Fails that row only. |
| `HostSweep.SessionDbs.Retry` | src/db/session-db.ts:287-291 | One more try, due after the backoff, in whole seconds. |
| `HostSweep.RepeatingTheResetIsIdle` | src/host-sweep.ts:584-616 | Inside its backoff window, or once failed, a message is not changed by another reset. |
| `HostSweep.ResetIsExact` | src/host-sweep.ts:584-616 | A claimed message that is pending and due waits 5, 10, 20, 40 and 80 s after its five retries, from the whole second of the update, and then fails. |
| `HostSweep.ResetActsOnEachMessage` | src/host-sweep.ts:576-636 | Seen from one message the reset of the whole session is the step its run is made of. |
| `HostSweep.RetriesAreBounded` | src/host-sweep.ts:594-616 | Until requeued a message is rescheduled at most 5 times, 155 s in all; a failed one has had all five and all their seconds have passed. |
| `HostSweep.FailsExactlyWhenSpent` | src/host-sweep.ts:585-606 | A message fails exactly when a reset finds it claimed, due and out of tries. |
| `HostSweep.FailedForGood` | src/host-sweep.ts:585-606 | A failed message stays failed unless a container answers after all or an operator requeues it. |
| `ScopeRetention.IndexScopes` | src/scope-retention.ts:116-144 | One pass gives the live scopes and the newest evidence of each. |
| `ScopeRetention.IndexIsExact` | src/scope-retention.ts:116-144 | Live means some active session; the evidence is the newest stamp among its sessions. |
| `ScopeRetention.NewestIsNewest` | src/scope-retention.ts:136-141 | The evidence belongs to a session of the scope and none is newer. |
| `ScopeRetention.RemovedIff` | src/scope-retention.ts:176-337 | A tick removes a scope exactly when on, not a preview, listed, without active session, at or before the cutoff by marker or else evidence, on record, and the delete succeeds. |
| `ScopeRetention.DryRunChangesNothing` | src/scope-retention.ts:278-287 | A dry run, or a tick with retention off, changes no stored state. |
| `ScopeRetention.ResultCounts` | src/scope-retention.ts:237-333 | The result counts each listed scope once and each scope that is gone. |
| `ScopeRetention.CountersCount` | src/scope-retention.ts:237-300 | The other counters are the numbers of scopes skipped as live, adopted, and in a dry run those a real tick would take. |
| `ScopeRetention.AdoptedCanExpireAtOnce` | src/scope-retention.ts:249-276 | A scope adopted with old evidence is removed by the same tick. |
| `ScopeRetention.AdoptionStampsEvidence` | src/scope-retention.ts:247-258 | A landed adoption writes the newest evidence, not the time of the tick. |
| `ScopeRetention.AdoptedExpiresWithEvidence` | src/scope-retention.ts:247-332 | In any run, until a spawn, a later tick removes an adopted scope exactly when its evidence is at or before the cutoff and the other conditions of a removal hold. |
| `ScopeRetention.UseRestartsTheClock` | src/state-scope.ts:92-108 | A scope mounted at t with a landed stamp is there until a tick's cutoff reaches t. |
| `ScopeRetention.AuditRowsAccountForRemovals` | src/scope-retention.ts:289-332 | In any run audit rows equal removals plus outstanding deletes, exactly within one process life. |
| `ScopeRetention.RemovalIsOnRecord` | src/scope-retention.ts:289-332 | A removal has an audit row written since any point without an outstanding delete. |
| `ScopeRetention.AuditRowBetweenRemovals` | src/scope-retention.ts:289-332 | Between two removals of one scope an audit row was written, restarts or not. |
| `ScopeRetention.StuckDeleteIsAuditedOnce` | src/scope-retention.ts:146-154 | A delete that keeps failing is recorded once per process life. |
| `ScopeRetention.UnvouchedScopeGetsAFullWindow` | src/scope-retention.ts:249-276 | Without marker and evidence a scope survives its first tick and, its stamp landed, a full window. |
| `ScopeRetention.Retention.TouchScopeAccess` | src/state-scope.ts:92-108 | Stamped, written at the current time only, or refused; true only for the first. |
| `ScopeRetention.Retention.ExpireScope` | src/scope-retention.ts:289-332 | No audit row, no delete; a failed delete stays outstanding and may have lost the marker. |
| `ScopeRetention.Retention.VisitScope` | src/scope-retention.ts:237-333 | State and counters after one scope. |
| `ScopeRetention.Retention.SweepExpiredScopes` | src/scope-retention.ts:176-337 | The nested loops compute the tick over all readable listings. |
| `TextSplit.SplitForLimit` | src/channels/chat-sdk-bridge.ts:107-121 | The loop ends and returns the chunks of the recursive specification. |
| `TextSplit.CutPrefersBreaks` | src/channels/chat-sdk-bridge.ts:111-116 | The cut is the last paragraph break within the limit, else line break, else space, else the limit. |
| `TextSplit.ChunkEndsAtCut` | src/channels/chat-sdk-bridge.ts:107-121 | While the text is too long, the first chunk is what stands before the preferred cut, trimmed, and the others are those of the trimmed rest. |
| `TextSplit.ChunksAreTrimmed` | src/channels/chat-sdk-bridge.ts:107-121 | Each chunk but the last ends in a visible unit, each but the first starts with one, and the last ends in one or is the end of the text. |
| `TextSplit.ChunksAreFaithful` | src/channels/chat-sdk-bridge.ts:107-121 | Every chunk fits, only the first can be empty, and the text is the chunks joined by white space alone. |
| `TextSplit.NothingVisibleIsLost` | src/channels/chat-sdk-bridge.ts:107-121 | Read without white space, text and chunks are the same sequence. |
| `TextSplit.ZeroLimitMakesNoProgress` | src/channels/chat-sdk-bridge.ts:107-121 | With limit zero the body maps such a text to itself: why the limit must be at least one. |
| `ParenLexer.FindMatchingParenIndex` | scripts/observability-coverage-lib.ts:630-710 | The five-flag loop returns the first position where a code-level parenthesis closes the depth, or -1, under the source's escape rule; also under the language's when no string ends after an escaped backslash before it; at most one flag is ever set. |
| `ParenLexer.LexersAgreeIff` | scripts/observability-coverage-lib.ts:630-710 | The source's rule and the language's agree on the mode at every position up to n exactly when no string before n ends right after an escaped backslash. |
| `ParenLexer.AfterEscapedBackslashIsEvenRun` | scripts/observability-coverage-lib.ts:630-710 | That is: after a nonempty run of backslashes of even length. |
| `ParenLexer.SearchIsRight` | scripts/observability-coverage-lib.ts:630-710 | Without such an end up to where the search stops, an answer is the search's exactly when it is the right one. |
| `ParenLexer.SearchIsRightIff` | scripts/observability-coverage-lib.ts:630-710 | For a call still open at n: the search is right on every part of the text up to n followed by any number of closing parentheses, exactly when there is no such end before n. |
| `ParenLexer.ClosedIsMissed` | scripts/observability-coverage-lib.ts:630-710 | From any such end, enough closing parentheses close the call, and the search never finds the last of them. |
| `ParenLexer.MatchIsFirstReturnToZero` | scripts/observability-coverage-lib.ts:630-710 | Under either rule, from an opening parenthesis that is the first return of the depth to zero, all shorter prefixes positive; -1 iff there is none. |
| `ParenLexer.LineCommentRunsToNewline` | scripts/observability-coverage-lib.ts:643-683 | A line comment runs to the next newline, and to the end without one. |
| `ParenLexer.BlockCommentRunsToClose` | scripts/observability-coverage-lib.ts:648-689 | A block comment runs to the next closing pair after the pair that opens it. |
| `ParenLexer.StringRunsToQuote` | scripts/observability-coverage-lib.ts:656-704 | A string runs to the next quote of its own kind without a backslash right before it. |
| `ParenLexer.PlainStaysCode` | scripts/observability-coverage-lib.ts:630-710 | Every other character of code leaves the lexer in code. |
| `ParenLexer.EscapedBackslashHidesTheClose` | scripts/observability-coverage-lib.ts:630-710 | The shortest such call, closed at its last character and not found. |
| `CanonicalJson.SortSorts` | src/db/audit-export.ts:94-101 | Sorting orders the keys and loses or invents no member. |
| `CanonicalJson.LessIsFirstDifference` | src/db/audit-export.ts:94-101 | The key order is the one by the first place where two keys differ. |
| `CanonicalJson.ReadsBack` | src/db/audit-export.ts:91-103 | A reader of the printed tokens gets the value back, whatever follows it. |
| `CanonicalJson.CanonicalFormReadsBack` | src/db/audit-export.ts:90-103 | Read back, a canonical form is the value up to member order, with the keys of every object increasing. |
| `CanonicalJson.PrintIsInjective` | src/db/audit-export.ts:91-103 | Printing to tokens loses nothing: different trees give different token sequences, whatever follows. |
| `CanonicalJson.SameFormIffEquivalent` | src/db/audit-export.ts:90-103 | Two values have the same canonical token sequence exactly when equal up to member order at every depth. |
| `CanonicalJson.CanonIsIdempotent` | src/db/audit-export.ts:90-103 | Canonicalising keeps the value, and twice is once. |

## Left out

- Docker, `tar`, HTTP, sockets, the file system and the SQLite engine: their outcomes are parameters of the steps.
- Metrics, spans, logging, typing indicators, progress marks and user-facing text.
- Cryptography: tokens and ids are fresh, scope keys and token hashes injective, signatures only their key and body.
- AdmissionQueue.Queue.Pop: an empty session id would end a drain early, because the source tests it for truth; ids are generated non-empty.
- HostFairness.HostBucketsStayClose: queued sessions are still in the buckets they were queued under; a session whose bucket changes while it waits is picked by its old one.
- ContainerHost: a failed `kill` of a process that stays alive, and spawn preparation other than its success or failure.
- Delivery: rows without routing fields or adapter (marked delivered without a send), the notification after a permanent failure, requeueing from the dead-letter tool, and agent or system routing.
- DeliveryLoop.SessionDelivery.DeliverSessionMessages: the method is one poll nothing interrupts; interleavings are the state machine's, to which it is tied.
- DrainPool: the per-session guard is modelled in Delivery, not repeated in the pool.
- RosterReservation.Ledger.SendReserved: the method is one attempt nothing interrupts; what interleaves with it is in the state machine its two steps belong to.
- RosterReservation: the gates before the reservation (grant liveness, gateway authority, membership) and before an invite (one per person, membership), pruning of the ledger, resetting a grant by hand, and a consent for a slot that another person holds, which is refused.
- SessionArchive: one session only; hard delete, a host crash inside an archive, and a failure of the status update after the delete.
- StateLocks and StateLists: key-value entries and subscriptions; a negative maximum size; a list key that looks like a queue's.
- StateLists.QueueAdapter.Enqueue: append and count are one step; the source yields once between them, so a concurrent call on the same thread can show in the count.
- SigningProxy: metrics, headers, the HTTP server, exceptions of the token lookup or the key lookup (answered 500), purging of tokens and of audit rows, and the clock being read several times within one request.
- SigningProxy.SignedAsReceivedIff: a body is a tree whose leaves parsing keeps; the engine also puts integer-like keys before the others (`{"b":0,"1":0}`) and changes number literals it cannot hold (`1e400`, integers of twenty digits).
- HostSweep: the token-budget kill, pausing and editing of scheduled tasks, recurrence, and the reading of the two databases; fractions of a millisecond in file times; one database-clock reading per reset pass.
- ScopeRetention: the once-only policy log, removal of scopes with a decommissioned agent group, purging of audit rows, and the memo of hashed owners.
- TextSplit.SplitForLimit: limits below one, on which the source loops for ever on some texts (ZeroLimitMakesNoProgress).
- ParenLexer: substitutions inside template strings and regular expression literals, which neither rule looks into; cutting the call slice out of the source around the match, and the coverage report.
- CanonicalJson: how the engine writes numbers and escapes strings, its special order for integer-like keys, its order of characters beyond the basic plane, and a key `__proto__`, which the sorting step drops and no database row has; building and signing the export.
- OutboundContract: the readers of single fields.
- Config parsing, autowiring, command gates and the other command-line scripts: easy members only.
