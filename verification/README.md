# Long Haul: a verified model of delivery, leases, checkpoints and scheduling

Long Haul coordinates work on a fleet of machines. This project models the parts of it that carry guarantees over whole
runs, and proves those guarantees for every run, log or input.

**Flash delivery.** A job is offered through a queue, claimed under a lease by one of many workers, and completed once. The
in-memory object of `flash_delivery.py` is the class `FlashDelivery.FlashDeliveryFixture`; its whole life is proved to be a
run of the abstract `LeaseMachine`. The durable protocol of `flash_storage.py` runs on a versioned blob per job, a queue with
rotating receipts and a write-once claim index. `DurableWorker` is the code of one worker cut at its I/O calls, `DurableSystem`
puts any number of workers on shared storage, and a step is one I/O call, a local stretch of code, an incoming call, a crash
or a clock tick. A conditional write can commit, conflict, fail after committing or fail without committing; a queue delete
can take effect and still report failure. `DurableInvariant` holds the invariant, `DurableRuns` proves it for every reachable
state, and `DurableTheorems`, `DurableRefusals`, `DurableRetries`, `DurableDeliveries` and `DurableClaims` draw the
consequences. The conditional requests are those of sections 13.1.1 and 13.1.2 of RFC 9110. `NotificationPages` is the paged
notification recovery with its durable cursor.

What the answers of the durable workers mean is proved on the I/O log. `DurableTraces` takes the entries a worker made since a
call reached it; `DurableEnqueues`, `DurableGrants`, `DurableHolds`, `DurableCompletions`, `DurableLookups` and
`DurableRecoveries` say, operation by operation, which requests and replies stand behind each answer, without naming the
worker's code; `DurableCalls` proves that every call goes that way in every run, whatever the other workers do;
`DurableOutcomes` and `DurableAnswers` are the results, in both directions: what an answer rests on, and which replies lead
to a good one.

Where to find an operation of `DurableFlashDelivery` in `DurableWorker`: enqueue in `EnqueueTurn` and `EnqueueResume`; claim,
message settlement and pruning in `ClaimTurn` and `ClaimResume`; renew and abandon in the functions of those names; complete
on a held claim, index write and settling in `CompleteTurn` and `CompleteResume`; complete on a forgotten claim in `LookupTurn`
and `LookupResume`; notification recovery in `RecoverTurn` and `RecoverResume`.

**Fleet leases.** `FleetReplay` folds an event log into vessels, attempts and missions (a class updated in place, with a
functional specification), `FleetHistory` says what replay guarantees for every log, `FleetController` is the controller whose
guards read the replayed state, and what every log it produces satisfies. `FleetFailures` says exactly when replay raises,
`FleetMissions` what the status of a mission means, and `FleetRecords` tells every attempt and vessel by the events behind it.

**Checkpoints and digests.** `Checkpoint` is the incremental checkpoint, each field proved equal to a definition over the
contract's whole log; `CheckpointHistory` says what those definitions mean. `Digest` is the greedy selection of items under a
bound, and `DigestRendering` renders a checkpoint by it: which items, under which titles, laid out how.

**Progress.** `Progress` is the windowed repetition and stagnation monitor, proved to decide as the full history would;
`ProgressReasons` says when it answers, and what, by the steps and their positions.

**Scheduling.** `Scheduler` gates plans on evidence and ranks them; `SchedulerChoice` proves the choice optimal and
independent of collection order, and `SchedulerGrounds` tells eligibility, reasons and evidence by the fields of vessels,
leases, records and profiles. `ScopePaths` is the path scope of a work contract.

## Where a stated property needs a condition

* A failure can be closed only under its own id exactly when neither its id nor its detail contains a colon
  (`CheckpointHistory.FailureIsIsolatedIff`); otherwise a resolution of "db" drops "db:1" (`ResolutionDropsAnotherFailure`).
* The architecture document says that a digest reports omissions explicitly. Its truncation flag says whether anything is
  missing from the text exactly when the header fits or some section has an item (`Digest.FlagIsTrueIff`); a header cut with
  nothing below it is not flagged (`Digest.CutHeaderIsNotFlagged`). The text is complete exactly when everything fits
  (`Digest.CompleteIff`).
* Normalising a scope twice equals normalising it once exactly when the first result does not end in whitespace
  (`ScopePaths.NormalisationStableIff`, with an example in `NormalisationCanMove`); which paths are their own normal form is
  stated on the path alone in `NormalFormsAre`, and for which paths normalising is idempotent in `IdempotentIff`.
* Replay keeps missions exact for exactly the logs that never start an attempt id twice (`FleetHistory.ExactIffStartsAreFresh`;
  a log that does, in `RestartIsNotExact`).
* Replay raises exactly when some event is invalid where it stands or about a crew member who was not there from the start
  (`FleetFailures.ReplayRaisesIff`). The controller replays without any crew, so it works exactly as long as no event about a
  crew member stands in its log (`MixedLogsReplayIff`; a log where it stops, in `CrewEventStopsController`).
* A renewal covers what the old lease covered exactly when the old lease had an end (`FleetController.RenewalCoversIffBounded`;
  a produced log in which it does not, in `RenewalCanShorten`).
* A repeated failure can be reported at all exactly when the window holds as many failures as the limit
  (`Progress.RepeatedFailuresReportedIff`; a valid policy that never reports one, in `ShortWindowNeverReports`).
* A completion is refused although its job is accepted under it exactly when its own accepting write took effect, was
  repeated by the client, and met its own effect as a conflict (`DurableRefusals.WinnerIsNeverRefused`,
  `OwnCommitCanBeRefused`); every later retry returns the result or fails on storage
  (`DurableRetries.RetryReturnsOrStorageFails`).
* The scopes of a contract survive being stored and validated again exactly when none of them ends in whitespace
  (`ScopePaths.ReloadKeepsScopesIff`; scopes rejected on reading back, in `ReloadCanReject`).
* The lease of an accepted result may end between the last clock check and the accepting write; `DurableTheorems.AcceptanceCommitPoint`
  therefore speaks of the check, taken after the read of exactly the version the write replaces. That the lease can be over
  when the write commits is shown by `AcceptanceCanOutliveItsLease` for every run that gets that far, and by the history
  `DurableJob.AcceptanceAfterTheLease`.

## Model

| member | source | states |
|---|---|---|
| `LeaseMachine.RunIsWellFormed` | src/long_haul/work/flash_delivery.py:60-76 | in every run, attempts stay within budget, a held lease belongs to the latest attempt and ends by the wall deadline |
| `LeaseMachine.AcceptanceIsFinal` | src/long_haul/work/flash_delivery.py:78-85 | once a result is accepted nothing about the job changes any more, and only stuttering steps follow |
| `LeaseMachine.AttemptsOnlyGrow` | src/long_haul/work/flash_delivery.py:60-68 | attempt numbers never go back, and every claim between two states raises them |
| `LeaseMachine.LeasesNeverOverlap` | src/long_haul/work/flash_delivery.py:65-76 | at a claim, every lease held earlier in the run has ended by the claim's clock or was itself abandoned before it |
| `LeaseMachine.LeaseEndsWithinTerm` | src/long_haul/work/flash_delivery.py:68-76 | with one lease length, a lease never reaches further than that length past the current time, nor past the deadline |
| `LeaseMachine.UniformRenewalsExtend` | src/long_haul/work/flash_delivery.py:87-93 | with one lease length and a clock that never runs back, a renewal never gives a lease an earlier end |
| `FlashDelivery.FlashDeliveryFixture.constructor` | src/long_haul/work/flash_delivery.py:32-48 | a new object is the fresh machine at its first clock reading |
| `FlashDelivery.FlashDeliveryFixture.Claim` | src/long_haul/work/flash_delivery.py:60-76 | grants exactly when nothing is accepted, the deadline is ahead, an attempt is left and the last lease is over at the readings taken, a fresh delivery for one lease length up to the deadline; otherwise answers None and changes nothing; either way as the machine does |
| `FlashDelivery.FlashDeliveryFixture.RequireCurrent` | src/long_haul/work/flash_delivery.py:78-85 | succeeds exactly when the lease is the current one, unexpired, and nothing is accepted yet |
| `FlashDelivery.FlashDeliveryFixture.Renew` | src/long_haul/work/flash_delivery.py:87-93 | renews exactly when the lease is held at the check, for one lease length up to the deadline, otherwise raises and changes nothing |
| `FlashDelivery.FlashDeliveryFixture.Abandon` | src/long_haul/work/flash_delivery.py:95-97 | gives the lease up exactly when it is held, otherwise raises and changes nothing |
| `FlashDelivery.FlashDeliveryFixture.Complete` | src/long_haul/work/flash_delivery.py:99-119 | accepts only a result the verifier approves in this very call, under a lease held before and after; a verifier that rejects or raises changes nothing; afterwards only the same lease and result are answered, everything else raises and changes nothing |
| `FlashDelivery.LifeIsSafe` | src/long_haul/work/flash_delivery.py:29-119 | over the whole life of an object: budget kept, each lease ended or itself abandoned before a later claim, the accepted result approved by the verifier and frozen |
| `DurableJob.LawfulIsSound` | src/long_haul/work/flash_storage.py:70-86 | every record of a history has generation equal to attempt number within budget, a lease end within the deadline, and all acceptance fields or none, agreeing with the generation |
| `DurableJob.SettlementIsFinal` | src/long_haul/work/flash_storage.py:189-194 | after acceptance or a terminal reason only the notification flags still change, and after the notification is marked sent nothing does |
| `DurableJob.AtMostOneAcceptance` | src/long_haul/work/flash_storage.py:312-318 | a history holds at most one acceptance, and none together with a terminal record |
| `DurableJob.TerminationSparesLiveLeases` | src/long_haul/work/flash_storage.py:195-209 | a terminal record is only written over a lease that is absent or over, and names the exhausted attempts exactly when they are |
| `DurableJob.AcceptanceAfterTheLease` | src/long_haul/work/flash_storage.py:310-318 | a history whose acceptance was checked before and committed after the end of its lease |
| `DurableJob.CommitRefines` | src/long_haul/work/flash_storage.py:210-219 | each kind of commit is one timed move of the in-memory lease machine, its guard evaluated at the reading the worker took |
| `DurableJob.HistoryRefinesLeaseMachine` | src/long_haul/work/flash_storage.py:185-321 | a lawful history is commit for commit a run of the lease machine; terminal and notification writes stutter |
| `DurableJob.GenerationsNeverOverlap` | src/long_haul/work/flash_storage.py:195-219 | a claim is committed at a reading by which every earlier lease has ended or been abandoned by a commit of its own generation |
| `DurableRequests.RequestIsJustified` | src/long_haul/work/flash_storage.py:185-321 | in any reachable state, whatever a worker asks of storage, queue, verifier or notifier is backed by what it has read and checked |
| `DurableEffects.KeepShared` | src/long_haul/work/flash_storage.py:456-472 | whatever the service does with a justified request, answered or not, the shared invariant is kept and nothing recorded is lost |
| `DurableReplies.ReplyLands` | src/long_haul/work/flash_storage.py:185-321 | after any reply, the worker again stands where everything it relies on is true, and stays true under the other workers |
| `DurableRuns.StepKeepsInv` | src/long_haul/work/flash_storage.py:121-540 | every step of the system, crashes and clock ticks included, keeps the invariant |
| `DurableRuns.RunKeepsInv` | src/long_haul/work/flash_storage.py:121-540 | the invariant holds in every state of every run |
| `DurableRuns.RunGrows` | src/long_haul/work/flash_storage.py:456-472 | blob histories, the claim index, issued tokens and the I/O log only ever grow along a run, and a deleted queue message never returns |
| `DurableTheorems.ProtocolRefinesLeaseMachine` | src/long_haul/work/flash_storage.py:170-321 | in every reachable state the committed history of every job is a run of the in-memory lease machine, renewals never shortening |
| `DurableTheorems.LeasesAreBounded` | src/long_haul/work/flash_storage.py:195-219 | generations count attempts within budget, leases end by the deadline, a claim is granted only over an ended lease and raises the generation by one, a renewal never shortens |
| `DurableTheorems.LeasesOfAJobNeverOverlap` | src/long_haul/work/flash_storage.py:195-219 | leases of successive generations never overlap, in any interleaving: each earlier one has ended, or was abandoned in its own generation, by the clock of the claim |
| `DurableTheorems.AcceptedOnceAndForAll` | src/long_haul/work/flash_storage.py:280-318 | acceptance fields and a terminal reason never change once set, exclude each other, and at most one acceptance is ever committed |
| `DurableTheorems.LiveAttemptsAreSpared` | src/long_haul/work/flash_storage.py:195-209 | no trigger, duplicate or not, terminalizes a job while a lease on it is live |
| `DurableTheorems.AcceptanceCommitPoint` | src/long_haul/work/flash_storage.py:288-318 | every acceptance was preceded, in order, by verifier approval of that result, this claim's index entry successfully written or read back, and a read of exactly the version it replaces, under a claim current in that version and unexpired at a clock reading after the read |
| `DurableTheorems.AcceptanceCanOutliveItsLease` | src/long_haul/work/flash_storage.py:310-318 | any run that has come to an accepting write with a passing check can commit it after the lease has ended |
| `DurableTheorems.OldGenerationsAreFenced` | src/long_haul/work/flash_storage.py:434-440 | after a claim is committed, no renewal, abandonment or acceptance by a holder of an older generation ever commits |
| `DurableTheorems.CompletionMeansAcceptance` | src/long_haul/work/flash_storage.py:270-321 | complete returns normally only for the token and result the job was accepted with, so a different result is never confirmed |
| `DurableTheorems.CompletionsAgree` | src/long_haul/work/flash_storage.py:270-321 | any two normal completions of a job, by any workers at any times, agree on token and result |
| `DurableTheorems.AcceptanceIsIndexedForGood` | src/long_haul/work/flash_storage.py:298-304 | an accepted job has, for good, a claim-index entry under the winning token that agrees with the record |
| `DurableTheorems.NoTriggerIsLost` | src/long_haul/work/flash_storage.py:155-168 | from an acknowledged send on, some queue message for the job exists or the job is durably accepted or terminal; that an enqueue sends is `DurableOutcomes.EnqueueReturns` |
| `DurableTheorems.TriggersStay` | src/long_haul/work/flash_storage.py:416-424 | a reference once in the queue stays there in some message until its job is durably accepted or terminal, whatever workers do |
| `DurableTheorems.StoredSendsAreTriggers` | src/long_haul/work/flash_storage.py:155-168 | a send that took effect leaves such a reference for good, also when its response was lost |
| `DurableTheorems.DeletionFollowsOutcome` | src/long_haul/work/flash_storage.py:416-424 | a queue message is only ever deleted for a job already settled, and only a message of that job |
| `DurableTheorems.OutboxIsExact` | src/long_haul/work/flash_storage.py:347-372 | an accepted job is exactly one of pending and sent, and sent means some notifier call for it succeeded |
| `DurableTheorems.NotificationsAgree` | src/long_haul/work/flash_storage.py:350-355 | all notifier calls ever made for a job carry the same attempt id and the accepted result |
| `DurableTheorems.ClaimsAreExclusive` | src/long_haul/work/flash_storage.py:434-440 | two workers never both hold a current claim on one job |
| `DurableRefusals.AcceptedClaimIsIndexed` | src/long_haul/work/flash_storage.py:404-414 | the claim index holds the winning token of every accepted job |
| `DurableRefusals.WinnerIsNeverRefused` | src/long_haul/work/flash_storage.py:270-287 | a retry of the winning completion, by any worker before or after restarts, never ends in a lease or verification error; only the accepting write itself can, when it meets its own effect as a conflict |
| `DurableRefusals.OwnCommitCanBeRefused` | src/long_haul/work/flash_storage.py:460-472 | every accepting write that commits can be answered with such a conflict, and its completion is then refused although it won |
| `DurableRetries.WinnerFailsOnStorageAlone` | src/long_haul/work/flash_storage.py:270-287 | any other error of such a retry comes from a call to storage or the queue that failed |
| `DurableRetries.CompletionsEndInKind` | src/long_haul/work/flash_storage.py:270-321 | a completion that no crash cuts off ends in its own result or in an error of that very call; which, and for what reason, is `DurableOutcomes.CompletionEndsBy` |
| `DurableRetries.RetryReturnsOrStorageFails` | src/long_haul/work/flash_storage.py:270-287 | called when the job is already accepted under its token and result, it returns that result or ends at a storage or queue call that failed |
| `DurableDeliveries.DeliveriesAreCommitted` | src/long_haul/work/flash_storage.py:222-256 | a delivery handed out by claim or renew is exactly what the job record grants at that moment |
| `DurableClaims.LocalClaimsAreBounded` | src/long_haul/work/flash_storage.py:170-174 | a worker never holds more local claims than its options allow |
| `DurableOutcomes.EnqueueReturns` | src/long_haul/work/flash_storage.py:155-168 | an enqueue that returns has itself uploaded a fresh record first, and then sent the reference or read the job as accepted under this very contract; the job then exists under that contract, and the queue refers to it unless it is over |
| `DurableOutcomes.EnqueueRaisesOnlyIf` | src/long_haul/work/flash_storage.py:144-168 | any other end of an enqueue is its own error, for an unsafe id before any call, for a job read under another contract, or for a last call that raised |
| `DurableOutcomes.CompletionEndsBy` | src/long_haul/work/flash_storage.py:270-321 | a completion on a held claim returns only after it won the job, took its message off the queue and recovered a page; it ends in a verification error only if the verifier rejected this result under the job's contract, in a lease error only if a reply stood against it or the claim was not held at a reading of the clock, and in another error only if its last call raised |
| `DurableOutcomes.RefusalComesFrom` | src/long_haul/work/flash_storage.py:426-440 | a refused completion met another acceptance, a differing index entry or a conflict, or its last step read the clock and the claim was not held then under the record just read |
| `DurableOutcomes.HeldCompletionSucceeds` | src/long_haul/work/flash_storage.py:270-321 | a completion whose readings all find the claim held, whose verifier approves, whose uploads are done and of whose calls none raises returns the result, and the job is accepted for it |
| `DurableOutcomes.RepeatedCompletionEndsBy` | src/long_haul/work/flash_storage.py:499-516 | on a claim no longer held, it returns only if the index names the job and its record is accepted for that claim with this result, and is refused only if not |
| `DurableAnswers.ClaimEndsBy` | src/long_haul/work/flash_storage.py:170-228 | a claim delivers exactly the grant it committed over a record that was open at a clock reading, after recovering a page and draining messages of accepted jobs; it returns nothing only for want of room, message or open record, on a conflict, or at the drain limit |
| `DurableAnswers.OpenRecordIsDelivered` | src/long_haul/work/flash_storage.py:195-228 | if the record of the last message received is open and stays so to the end, writes and deletions are done and no call raises, the claim delivers that job |
| `DurableAnswers.RenewalEndsBy` | src/long_haul/work/flash_storage.py:230-256 | a renewal delivers only after it hid the message on, read the record again and moved its lease to the end it reports; it is refused only if the claim is unknown, not held under a record just read, out of time or lost to a conflict; the receipt kept is the newest |
| `DurableAnswers.HeldClaimIsRenewed` | src/long_haul/work/flash_storage.py:230-256 | a claim held throughout is renewed, if the old delivery is not over and no full lease has run since the first reading |
| `DurableAnswers.AbandonmentEndsBy` | src/long_haul/work/flash_storage.py:258-268 | an abandonment returns only after the lease was given up in the record and then the message made visible; it is refused only if the claim is unknown, not held, or lost to a conflict |
| `DurableAnswers.HeldClaimIsAbandoned` | src/long_haul/work/flash_storage.py:258-268 | a claim held throughout is abandoned when asked for |
| `DurableAnswers.RecoveryEndsBy` | src/long_haul/work/flash_storage.py:327-374 | a recovery that returns listed a page, read every job on it, notified for each that was waiting and marked it as sent if that succeeded, and saved the cursor only after that; otherwise its last call raised |
| `DurableAnswers.CallsAreBounded` | src/long_haul/work/flash_storage.py:155-374 | no call goes on for ever: each kind makes at most a fixed number of I/O calls, given by the scan and drain limits |
| `NotificationPages.Outbox.Recover` | src/long_haul/work/flash_storage.py:327-374 | one pass visits exactly one page, hands every waiting job on it to the notifier, clears those delivered and marked, and moves the cursor unless the process dies |
| `NotificationPages.EnoughCallsAttemptEveryJob` | src/long_haul/work/flash_storage.py:327-374 | among any recovery calls, ceil(n / k) + 1 that do not die attempt every waiting job, from any stored cursor |
| `NotificationPages.PagesIsCeiling` | src/long_haul/work/flash_storage.py:330-335 | the number of pages of a listing is its length divided by the page limit, rounded up |
| `NotificationPages.PagesReachEveryJob` | src/long_haul/work/flash_storage.py:335-341 | from any stored cursor, every job lies on one of the next ceil(n / k) + 1 pages |
| `NotificationPages.EveryWaitingJobIsAttempted` | src/long_haul/work/flash_storage.py:355-374 | after ceil(n / k) + 1 cursor moves, one more if passes were under way at the start, every job waiting at the start was attempted, whatever fails, dies or overlaps |
| `NotificationPages.UnmovedCursorReplaysItsPage` | src/long_haul/work/flash_storage.py:396-402 | passes that die or lose the cursor race leave the next pass on the same page |
| `NotificationPages.UndisturbedPassIsRecover` | src/long_haul/work/flash_storage.py:327-374 | a pass that no other worker disturbs does what one call of the recovery method does |
| `FleetReplay.FleetState.End` | src/long_haul/events/store.py:84-106 | ends a running attempt once and recomputes its mission; leaves everything else alone |
| `FleetReplay.FleetState.ApplyDisappeared` | src/long_haul/events/store.py:140-151 | marks the vessel gone and interrupts the listed attempts in order, or fails on a timeout reason |
| `FleetReplay.FleetState.ApplyStarted` | src/long_haul/events/store.py:154-168 | records the attempt as running and lists it as active in its mission |
| `FleetReplay.FleetState.ApplyEvent` | src/long_haul/events/store.py:128-215 | the in-place update agrees with the functional meaning of every event, and fails exactly where its handler raises |
| `FleetReplay.Materialize` | src/long_haul/events/store.py:224-237 | replaying a log in place over initial crew and vessels gives the fold of its events, or fails exactly when the handler of some event raises |
| `FleetFailures.ReplayRaisesIff` | src/long_haul/events/store.py:109-151 | replay raises iff some event is invalid where it stands or about a crew member not there from the start |
| `FleetFailures.MixedLogsReplayIff` | src/long_haul/ephemeral.py:131-134 | whatever other writers mix into its log, the controller can replay it iff no event is about a crew member, and then the log is one it produces |
| `FleetFailures.CrewEventStopsController` | src/long_haul/events/store.py:109-116 | an admission followed by an event about a crew member no longer replays |
| `FleetHistory.AttemptsWereStarted` | src/long_haul/events/store.py:154-168 | the attempts after replay are exactly those the log started |
| `FleetHistory.ReplayOrders` | src/long_haul/events/store.py:154-168 | the attempts are kept once each, in the order of their first start |
| `FleetHistory.InitialVesselsDoNotTouchWork` | src/long_haul/events/store.py:224-237 | initial vessels make no difference to attempts, missions and unavailable vessels |
| `FleetHistory.ExactIffStartsAreFresh` | src/long_haul/events/store.py:71-106 | active ids are precisely the running attempts, every attempt is listed once in one mission, and a mission is active iff an attempt of it is: for exactly the logs that never reuse an attempt id |
| `FleetHistory.RestartIsNotExact` | src/long_haul/events/store.py:154-168 | a log of two events that starts one id twice lists the attempt twice |
| `FleetHistory.EndedForGood` | src/long_haul/events/store.py:92-98 | on such logs an ended attempt keeps its status, termination and end event through every later event |
| `FleetMissions.MissionStatusByHistory` | src/long_haul/events/store.py:99-106 | with fresh attempt ids a mission is active iff one of its attempts runs, and otherwise completed iff the last event that ended one of them was a completion |
| `FleetRecords.AttemptByHistory` | src/long_haul/events/store.py:84-203 | an attempt is the one its last start event describes; it runs exactly while no event since has named it as over, and otherwise has the status, reason, time and event of the first that did |
| `FleetRecords.VesselByHistory` | src/long_haul/events/store.py:128-137 | a vessel is the one last admitted under its id, or first given, under the lease of its last renewal since |
| `FleetRecords.UnavailableByHistory` | src/long_haul/events/store.py:128-143 | a vessel is unavailable exactly if its removal, from under the lease recorded, is the last word on it |
| `FleetController.FleetLeaseController.Admit` | src/long_haul/ephemeral.py:136-150 | appends the admission exactly when the guard holds on the replayed state, otherwise raises and leaves the log alone |
| `FleetController.FleetLeaseController.Renew` | src/long_haul/ephemeral.py:152-181 | appends the extended lease exactly when the current lease matches, is renewable, active, and would be extended |
| `FleetController.FleetLeaseController.StartAttempt` | src/long_haul/ephemeral.py:183-216 | appends a start exactly when the lease is current and active and the attempt id is new |
| `FleetController.FleetLeaseController.Disappear` | src/long_haul/ephemeral.py:218-253 | appends a disappearance that lists exactly the attempts running under the lease, each once, in the order of their first start |
| `FleetController.FleetLeaseController.RecordExecutionTimeout` | src/long_haul/ephemeral.py:255-268 | appends a timeout exactly for a running attempt |
| `FleetController.ProducedLogsKeepLeases` | src/long_haul/ephemeral.py:111-253 | every log the controller produces, with completions and interruptions but no crew events mixed in, replays without error to a fleet whose running attempts all sit on available vessels under their own current lease |
| `FleetController.DisappearanceEndsExactlyItsAttempts` | src/long_haul/ephemeral.py:237-253 | a disappearance ends every attempt running on the vessel, with its reason and event, and no other |
| `FleetController.AdmissionInheritsNothing` | src/long_haul/ephemeral.py:143-150 | a vessel admitted, first or again, carries no running attempt |
| `FleetController.RenewalCoversIffBounded` | src/long_haul/ephemeral.py:174-176 | a permitted renewal covers all times the old lease covered iff the old lease had an end |
| `FleetController.RenewalCanShorten` | src/long_haul/ephemeral.py:174-176 | a produced log in which renewing an unbounded lease gives it an end |
| `Checkpoint.UnresolvedSnoc` | src/long_haul/work/checkpoints.py:95-111 | one more event drops from the definition of the open failures what it clears and adds what it reports |
| `Checkpoint.RemainingSnoc` | src/long_haul/work/checkpoints.py:82-92 | one more event changes the definition of the remaining subgoals as the in-place update does |
| `Checkpoint.WorkCheckpoint.ApplyFact` | src/long_haul/work/checkpoints.py:71-75 | the facts stay the first event of every fact text in the log |
| `Checkpoint.WorkCheckpoint.ApplyConstraint` | src/long_haul/work/checkpoints.py:78-79 | the constraints stay the distinct constraint texts of the log in first-seen order |
| `Checkpoint.WorkCheckpoint.ApplySubgoal` | src/long_haul/work/checkpoints.py:82-92 | completed and remaining subgoals stay the functions of the log that bear their names |
| `Checkpoint.WorkCheckpoint.ApplyFailure` | src/long_haul/work/checkpoints.py:95-103 | the open failures stay those of the log that nothing later clears |
| `Checkpoint.WorkCheckpoint.ApplyFailureResolution` | src/long_haul/work/checkpoints.py:106-111 | the open failures stay those of the log that nothing later clears |
| `Checkpoint.WorkCheckpoint.ApplyArtifact` | src/long_haul/work/checkpoints.py:114-122 | the artifact stays the last one of the log with a fingerprint |
| `Checkpoint.WorkCheckpoint.ApplyEvent` | src/long_haul/work/checkpoints.py:125-137 | every kind of event keeps all fields equal to their definitions |
| `Checkpoint.MaterializeCheckpoint` | src/long_haul/work/checkpoints.py:140-149 | the checkpoint is the one defined by the contract's own events, in order |
| `CheckpointHistory.SubgoalsByHistory` | src/long_haul/work/checkpoints.py:82-92 | remaining are exactly the subgoals marked remaining and never completed, in order of first mark; completed in order of completion; hence disjoint and without repetition |
| `CheckpointHistory.ConstraintsByHistory` | src/long_haul/work/checkpoints.py:66-79 | constraints are exactly the texts ever stated, each once, in order of first statement |
| `CheckpointHistory.FactsByHistory` | src/long_haul/work/checkpoints.py:71-75 | facts are exactly the texts ever stated, each once, in order, credited to the event that first stated them |
| `CheckpointHistory.ArtifactByHistory` | src/long_haul/work/checkpoints.py:114-122 | the artifact is that of the last verifying event with a fingerprint, and absent only if there is none |
| `CheckpointHistory.UnresolvedByHistory` | src/long_haul/work/checkpoints.py:95-111 | with colon-free ids the open failures are exactly the last reports of ids with no later resolution, in order of those reports |
| `CheckpointHistory.FailureIsIsolatedIff` | src/long_haul/work/checkpoints.py:99-111 | whatever follows, a failure is closed only under its own id iff its id and detail contain no colon |
| `CheckpointHistory.ResolutionDropsAnotherFailure` | src/long_haul/work/checkpoints.py:106-111 | a resolution of one id can drop the open failure of another |
| `CheckpointHistory.RedeliveryChangesNothing` | src/long_haul/work/checkpoints.py:140-149 | delivering any tail of a log a second time leaves every field as it was |
| `CheckpointHistory.OthersDoNotMatter` | src/long_haul/work/checkpoints.py:144-146 | an event of another contract, anywhere in the log, makes no difference |
| `CheckpointHistory.OwnEventsStay` | src/long_haul/work/checkpoints.py:144-148 | no event of the contract itself is skipped or moved |
| `DigestRendering.RenderDigest` | src/long_haul/work/checkpoints.py:152-182 | considers the artifact line, active constraints, unresolved failures, remaining subgoals, completed subgoals and facts, in this order and newest first, each under its title; renders each item exactly if the layout so far has room for it, and counts the others; if the full layout fits, it is the text; a bound below one is an error |
| `DigestRendering.TextIsBlocks` | src/long_haul/work/checkpoints.py:165-179 | any selection of the items reads as the header and below it one block for each section that has rendered items |
| `Digest.EveryItemIsConsidered` | src/long_haul/work/checkpoints.py:155-169 | each item of each section is considered once, under its own title |
| `Digest.FirstDifferenceIsRendered` | src/long_haul/work/checkpoints.py:165-178 | of all selections that fit, the rendered one includes the first item on which it differs from another: it is lexicographically greatest |
| `Digest.NoRoomForOmitted` | src/long_haul/work/checkpoints.py:170-178 | no omitted item, with its title if absent, could be rendered whole beside those that are |
| `Digest.MoreRoomRendersEarlier` | src/long_haul/work/checkpoints.py:170-178 | under a larger bound, the first item treated differently is one that is now rendered |
| `Digest.OnlyLongerItemsGiveWay` | src/long_haul/work/checkpoints.py:169-178 | a newer item gives way to an older one of its section only if it is longer |
| `Digest.DigestIsDetermined` | src/long_haul/work/checkpoints.py:152-182 | checkpoint and bound determine the digest |
| `Digest.DigestIsBounded` | src/long_haul/work/checkpoints.py:179-182 | the text never exceeds the bound, and rendered plus omitted items are all items |
| `Digest.CompleteIff` | src/long_haul/work/checkpoints.py:180-182 | the text says everything iff everything fits, which is iff it is not flagged truncated and the header fits |
| `Digest.FlagIsTrueIff` | src/long_haul/work/checkpoints.py:179-182 | the truncation flag says whether anything is missing iff the header fits or some section has an item |
| `Digest.CutHeaderIsNotFlagged` | src/long_haul/work/checkpoints.py:180-182 | a checkpoint without items under a bound of one: the text is cut and the flag is off |
| `Progress.ProgressMonitor.Observe` | src/long_haul/work/progress.py:76-122 | the windowed state stays a window onto the full history, and the answer is the one the full history calls for |
| `ProgressReasons.AnswersByPositions` | src/long_haul/work/progress.py:76-122 | the answer is None iff none of four grounds holds of the steps: a failure repeated among the last recentWindow failures, one action in all of the last consecutiveLimit steps, a non-verifying action repeated among the last recentWindow + 1 steps, no renewing step among the last maxNoProgressSteps; else its reason is the first that holds, and its numbers are those of the steps |
| `ProgressReasons.FailureCountByPositions` | src/long_haul/work/progress.py:95-100 | the count of remembered failures is the number of positions, among the last window failures, that fail alike |
| `Progress.ProgressMonitor.Remember` | src/long_haul/work/progress.py:77-100 | windows, run length and budget counter are updated to those of the longer history |
| `Progress.TrailingRunIsLongest` | src/long_haul/work/progress.py:80-85 | the consecutive count is the longest stretch of last steps repeating the last action |
| `Progress.SinceResetCounts` | src/long_haul/work/progress.py:87-93 | the budget counter counts the steps after the last one that reset it |
| `Progress.RecentCountByPositions` | src/long_haul/work/progress.py:78-83 | the recent count is the number of occurrences among the last window + 1 steps, the current one included |
| `Progress.StopsExactlyOnExhaustedBudget` | src/long_haul/work/progress.py:102-122 | a terminating intervention is issued iff the last budget-many steps hold none that resets the budget |
| `Progress.QuietRunsVaryActions` | src/long_haul/work/progress.py:105-106 | a run without interventions nowhere repeats an action as often in a row as the limit |
| `Progress.QuietRunsMakeProgress` | src/long_haul/work/progress.py:109-110 | every budget-long stretch of a run without interventions holds a step that resets the budget |
| `Progress.RepeatedFailuresReportedIff` | src/long_haul/work/progress.py:97-104 | some history has a repeated failure reported iff the limit is at most the window |
| `Progress.ShortWindowNeverReports` | src/long_haul/work/progress.py:34-39 | a valid policy under which no history has a repeated failure reported |
| `Scheduler.CurrentRuntimes` | src/long_haul/scheduler/core.py:58-62 | a runtime is current iff every report of its id agrees on it |
| `Scheduler.Create` | src/long_haul/scheduler/core.py:50-62 | a scheduler is built from what it is given iff its time carries a zone |
| `Scheduler.ValidationFor` | src/long_haul/scheduler/core.py:71-84 | the validation found is the one all certifying records agree on, and there is none if they disagree |
| `Scheduler.EvidenceFor` | src/long_haul/scheduler/core.py:86-99 | the evidence found is comparable, all comparable records differ from it in id only, and its id is the latest |
| `Scheduler.HostIds` | src/long_haul/scheduler/core.py:67 | exactly the ids of the vessels hosting a participating resource, each once |
| `Scheduler.Generate` | src/long_haul/scheduler/core.py:63-70 | one plan per profile and mode, in order |
| `Scheduler.BuildLeaseReasons` | src/long_haul/scheduler/core.py:156-169 | the reasons raised by missing vessels and unfit leases |
| `Scheduler.BuildPlacementReasons` | src/long_haul/scheduler/core.py:141-154 | the reasons raised by mission, placement, leases, memory and links, in order |
| `Scheduler.Evaluate` | src/long_haul/scheduler/core.py:118-140 | the candidate with all its reasons; it is eligible iff no reason but missing evidence was raised; what each reason and the preference mean is `SchedulerGrounds.ReasonsAreGrounds` and `SchedulerChoice.PreferenceIff` |
| `Scheduler.RankCandidates` | src/long_haul/scheduler/core.py:193-204 | ranks every eligible candidate and sorts by eligibility, rank and plan id |
| `Scheduler.CandidatesAreSortable` | src/long_haul/scheduler/core.py:204 | the sort key is a strict weak order |
| `Scheduler.Select` | src/long_haul/scheduler/core.py:205-210 | answers None iff no plan is eligible, and otherwise the eligible plan before every other |
| `SchedulerChoice.EligibleIff` | src/long_haul/scheduler/core.py:118-191 | a plan is eligible iff validation, mission, placement, leases, memory and links all permit it, spelled out; evidence plays no part |
| `SchedulerChoice.NoMemoryIssueIff` | src/long_haul/scheduler/core.py:177-191 | memory is no issue iff nothing is required or one known capacity meets the largest requirement |
| `SchedulerChoice.PreferenceIff` | src/long_haul/scheduler/core.py:126-132 | under the policy that prefers preemptible capacity a candidate's preference is 0 iff the last vessel of some id it names is held under a preemptible lease, and under every other policy it is 0 |
| `SchedulerChoice.ChosenIsBest` | src/long_haul/scheduler/core.py:193-204 | against every other eligible plan the chosen one has evidence if the other has; then, where it is preferred, uses preemptible capacity if the other does; then avoids a pipeline if the other does; then is at least as fast; then has the lesser id |
| `SchedulerChoice.ChoiceIsUnique` | src/long_haul/scheduler/core.py:193-210 | at most one plan can be the choice |
| `SchedulerChoice.LatestKeepsLast` | src/long_haul/scheduler/core.py:206 | of profiles sharing an id exactly the last is considered |
| `SchedulerChoice.SelectionIsOrderFree` | src/long_haul/scheduler/core.py:205-210 | permuting or repeating vessels, links, observations, validations or runtimes, or permuting profiles, changes neither the candidates nor the choice |
| `SchedulerGrounds.EligibleOnGrounds` | src/long_haul/scheduler/core.py:118-191 | a plan is eligible iff all records about its profile agree and permit it, the mission allows it, each vessel it names is there with a lease that covers the present and may be used, one resource has the memory asked for, and a synchronous pipeline has a direct link that joins its vessels |
| `SchedulerGrounds.ReasonsAreGrounds` | src/long_haul/scheduler/core.py:118-191 | a candidate carries a reason iff what the reason says is so |
| `SchedulerGrounds.EvidenceOnGrounds` | src/long_haul/scheduler/core.py:86-116 | the evidence for a plan is a sound, recent, successful measurement of just this plan, profile, workload and current runtime, all such records agreeing but for their ids, with the greatest of these ids |
| `SchedulerGrounds.CandidatesArePlans` | src/long_haul/scheduler/core.py:63-70 | a candidate's plan runs its profile's resources on exactly the vessels hosting one of them, named once each in ascending order |
| `SchedulerGrounds.EveryModeIsCandidate` | src/long_haul/scheduler/core.py:63-70 | every profile is a candidate in every mode |
| `ScopePaths.WithinIffSegmentPrefix` | src/long_haul/work/contracts.py:133-134 | the string-prefix test holds iff the root's segments are a prefix of the candidate's |
| `ScopePaths.PermittedIffSegments` | src/long_haul/work/contracts.py:131-135 | a path is permitted iff some allowed root's segments are a prefix of its own and no forbidden root's are |
| `ScopePaths.ForbiddenExcludesDescendants` | src/long_haul/work/contracts.py:135 | a forbidden root shuts out itself and all its descendants |
| `ScopePaths.PermissionReachesDescendants` | src/long_haul/work/contracts.py:131-135 | below a permitted path everything is permitted that no forbidden root covers |
| `ScopePaths.ScopeShape` | src/long_haul/work/contracts.py:14-18 | a normalised scope is non-empty and relative, without backslashes, trailing slash or upward segment |
| `ScopePaths.NormalisationStableIff` | src/long_haul/work/contracts.py:14-18 | normalising again changes nothing iff the scope does not end in whitespace |
| `ScopePaths.NormalFormsAre` | src/long_haul/work/contracts.py:14-18 | a path is its own normal form iff it is relative, free of backslashes, upward segments and a trailing slash, and neither starts nor ends in whitespace |
| `ScopePaths.IdempotentIff` | src/long_haul/work/contracts.py:14-18 | normalising a path twice equals normalising it once iff the character in front of the slashes and whitespace at its end is no whitespace |
| `ScopePaths.NormalisationCanMove` | src/long_haul/work/contracts.py:14-18 | a path whose normal form is normalised further |
| `ScopePaths.ReloadKeepsScopesIff` | src/long_haul/work/contracts.py:119-126 | validating the scopes of a contract again keeps them iff none ends in whitespace |
| `ScopePaths.ReloadCanReject` | src/long_haul/work/contracts.py:119-126 | two scopes accepted as distinct are rejected as equal when the stored contract is validated again |

## Left out

- DurableRuns.RunKeepsInv: the durable protocol is modelled on values as a step machine, because its point is what concurrent workers see of shared storage; aliasing of contexts and in-place update of the claim map are not captured, and one worker instance runs one operation at a time.
- DurableTheorems.NotificationsAgree: inside the protocol a recovery page is any list of existing jobs up to the limit; the cursor is exact only in `NotificationPages`, over a fixed listing.
- DurableDeliveries.DeliveriesAreCommitted: the checks that a message carries a receipt, that a new token is long and unused, and that decoded blobs and messages have the right version and job id are not modelled; tokens are globally fresh and the hash is injective.
- Scheduler.EvidenceFor: freshness of all evidence of one selection is judged at one clock reading, while the source reads the clock for every record.
- Scheduler.RankCandidates: a candidate given evidence with a non-finite metric ranks as if it had none; evaluation never produces such a candidate.
- Scheduler.Evaluate: reasons carry the vessel id or rationale, not the message text.
- SchedulerChoice.SelectionIsOrderFree: reordering vessels is covered where no two different vessels and no two different resources share an id, reordering profiles where their ids are distinct; elsewhere the last entry of an id counts and order matters.
- Storage SDK clients, HTTP status decoding, JSON encoding and SHA-256: storage is a map of versioned records, results and option trees are their canonical text, hashes are injective.
- `completed_result`, the HTTP layer and the dispatch gateway: reads and plumbing over the delivery core.
- Crew records: events about a crew member are modelled by whether they raise; what they write into the record, the lists of ruptures and repairs, and the list of active vessels are not.
- Work evaluation, decisions, benchmark storage, experiments, discovery and adapters: short checks or input and output.
- Token budgets, predicate ids and the other fields of a work contract that neither delivery nor path scopes look at.
- Time stamps without a zone outside the scheduler, floating-point rounding (clocks and metrics are real numbers), log messages and exception texts.
- Liveness under redelivery timing or a fair network: beyond the bounded cursor coverage, only safety is proved.
