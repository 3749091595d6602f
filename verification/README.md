# Orders, money and events: a verified model

The system coordinates orders, the money that guards them, and the events that announce what
happened. This project models its four linked state machines, and the smaller protocols beside
them, and proves what they keep over every run.

**Money.** A wallet's money is held, captured in legs, refunded, voided or left to expire, against
an append-only ledger. A command reads committed rows and stages writes; a commit applies all of
them or none and runs the deferred ledger check last (`Money`). Run alone, commands never trip a
constraint, every account balances, nobody is overdrawn and repeating a command changes nothing
(`MoneyRuns`, `MoneyChanges`, `MoneyLedgerLaws`). Run concurrently, a stale leg commits exactly when
it missed nothing (`MoneyRaces`). `MoneyStore` and `MoneyService` are the reference store, with its
undo journal, and the service over it, as objects whose methods are proved against those functions.
`MoneyEffects` says of each command when it succeeds, what it moves by how much, and that its
refusals are true. `ReferenceText` says when the ledger's textual references are unambiguous, and
`ReferenceLookups` what a store that looks them up by text does over whole runs, when they are and
when they are not.

**Fulfillment.** An order's lifecycle commits together with the capture or release of its hold
(`Fulfillment`, `FulfillmentService`), and which report ends it how is `FulfillmentEffects`. What a
closed fulfillment records about its hold is true and stays true (`FulfillmentSerial`); under
arbitrary interleavings of stale reads and commits each order is fulfilled once and closed once
(`FulfillmentRaces`); the marker for work done after a cancellation is announced once in serial runs
(`FulfillmentMarkers`), and what interleaving does to it is exact (`MarkerRaces`).

**Queues and the relay.** Workers claim rows by writing a lease and a fresh token; recovery takes
expired leases away against a budget of its own; an acknowledgement must present the current token
(`Queue`, `QueueRuns`, `QueueBudgets`, `QueueStore`); what a claim, a retry and a recovery mean in
clocks is `QueueEffects`. The relay marks an event published and queues its deliveries in one
transaction (`Relay`); the stores, the fan-out and both drains are loops over objects, with
everything other processes do in between as an argument (`RelayService`, `DeliveryWorker`,
`RelayBudgets`), and `RelayEffects` says how each item ends and is counted. `RelayCrews` lets any
number of them stall and resume between the steps of their drains and derives the bound on claims
from what those steps do. `Revival` is the operator's paging over dead rows while it revives them.

**Subscriptions.** Calendar arithmetic after section 21.4.1 of ECMA-262 (`Calendar`), contiguous
billing periods (`SubscriptionTimelines`), the renewal sweep and its fixpoint
(`SubscriptionSweeps`), charges that reuse the money ledger exactly once (`SubscriptionBilling`),
what can stop a charge or a renewal (`SubscriptionRefusals`), when sweeps go through, when they do
not, and whom that starves (`SubscriptionProgress`), the sweep's report (`SubscriptionReports`),
what a charge, a cancellation and a renewal change (`SubscriptionEffects`), and the store and
service as objects (`SubscriptionService`).

**Beside them.** The idempotency-key table (`IdempotencyKeys`), the in-process bus and its inbox
(`EventBus`), reputation as a fold (`Reputation`, `ReputationStore`), and notifications, whose
claims charge the attempt up front (`Notifications`, `NotificationService`) and whose dispatchers
never send more often than they may, whatever becomes of them in between
(`NotificationDispatchers`); `NotificationEffects` says how each answer ends a message. `Positions`,
`Totals`, `Backoff` and `Common` are shared.

"Serial" means that each command is one atomic step. A run is a list of commands or steps from the
empty state; a statement about every run quantifies over all lists. `RunHub(h, log)` and its
siblings are the state a list leads to. A ghost history records claims and how they ended.

## What the code does not promise

Nine expectations fail for inputs that can be named. Each has a lemma with such an input and one that
says exactly when the expectation does hold.

- The outbox's claim loop tests its limit after it has claimed a row, so a limit of 0 claims one row
  where the other queues claim none (`Queue.FormsDifferAtLimitZero`: one due row, limit 0;
  `Queue.FormsAgreeExactlyWhen`: the limit is positive, nothing is due, or a negative limit leaves one
  row).
- The ledger answers by text. A credit whose caller names it like a hold's capture makes that capture
  report success and move nothing (`ReferenceLookups.ReservedCreditSilencesTheCapture`: the text
  `capture:` and the hold's identifier). A lookup is right exactly when no namesake comes first
  (`ReferenceLookups.TextFindsTheReferenceExactlyWhen`), and always while credits keep off the two
  prefixes (`ReferenceLookups.TextRunsAreRuns`).
- A sweep is not isolated per subscription: one renewal whose next end is out of the range of dates
  throws, and nothing that comes after it is renewed or expired by that sweep or a later one
  (`SubscriptionProgress.OneBadDateStarvesTheRest`, an input: `SubscriptionProgress.FarRenewalIsStuck`;
  exactly when:
  `SubscriptionProgress.SweepThrowsExactlyWhen` and `SubscriptionProgress.SweepingCatchesUpExactlyWhen`).
- A capture staged before a void commits after it and reopens the hold, because a void moves no money
  and the deferred check compares money (`MoneyRaces.StaleCaptureReopensAVoidedHold`,
  `MoneyRaces.ClosedHoldReopensExactlyWhenTotalsAreCurrent`).
- Recording an accepted job on a closed fulfillment writes a whole stale row, and so can erase the
  marker for execution after cancellation; the next report then publishes its event a second time
  (`MarkerRaces.StaleTraceErasesTheMarker`: a run of ten steps; exactly when:
  `MarkerRaces.TraceErasesTheMarkerExactlyWhen`; the cost: `MarkerRaces.ErasedMarkerIsAnnouncedAgain`).
- `Date.UTC` reads the years 0 to 99 as 1900 to 1999, so an interval that ends there lands in another
  century (`Calendar.YearOneHasSuchAnInstant`: a month after 1 January of year 1;
  `Calendar.LandsInTheAskedMonthExactlyWhen`: exactly when the target year is outside 0 to 99).
- Chained renewals drift to an earlier day of the month where one longer interval would not
  (`Calendar.MonthEndsDrift`: month by month from 31 January; `Calendar.ChainingKeepsTheDayExactlyWhen`).
- A handler that fails with an empty error text, or a bus configured for no attempts at all, makes
  `publish` return as if all were well (`EventBus.EmptyTextLooksLikeSuccess`;
  exactly when: `EventBus.PublishReturnsExactlyWhen` with attempts allowed, and always without,
  `EventBus.NoAttemptsLookLikeSuccess`).
- A notification the provider accepted can go out once more, because nothing checks the claim before a
  send: a dispatcher that was handed it earlier and stalled still sends it when it resumes
  (`NotificationEffects.AcceptedMessageGoesOutTwice`: one claims and stalls, a second takes over, sends
  and is told it was passed on; `NotificationEffects.AnsweredIsSentAgainExactlyWhen`: exactly when some
  dispatcher was handed the message and has not sent it yet).

## Model

| member | source | states |
|---|---|---|
| `MoneyStore.MemoryJournal.Defer` | src/platform/persistence/transaction.ts:114-121 | a deferred check is registered once per key however often it is asked for |
| `MoneyStore.InMemoryMoneyRepository.InsertWallet` | src/modules/money/repository.ts:85-105 | accepted exactly when no other wallet has the owner and currency; whatever happens, unwinding the journal still leads back to the rows the transaction began with |
| `MoneyStore.InMemoryMoneyRepository.InsertAuthorization` | src/modules/money/repository.ts:114-131 | accepted exactly when the shape, the wallet and the unique reference allow it, and undoable |
| `MoneyStore.InMemoryMoneyRepository.UpdateAuthorization` | src/modules/money/repository.ts:310-315 | a rewrite checks the shape at once, defers the agreement with the ledger to the commit, and is undoable |
| `MoneyStore.InMemoryMoneyRepository.InsertTransaction` | src/modules/money/repository.ts:316-354 | a ledger row needs a fresh reference, no zero entry and a hold exactly when it is not a credit; balance and agreement are deferred; undoable |
| `MoneyStore.InMemoryMoneyRepository.AssertLedgerAgreement` | src/modules/money/repository.ts:202-228 | the summing loop passes exactly when captured and refunded equal what the ledger says moved for that hold |
| `MoneyStore.InMemoryMoneyRepository.FindTransactionByReference` | src/modules/money/repository.ts:355-357 | the first ledger row with the reference, or none |
| `MoneyStore.InMemoryMoneyRepository.FindAuthorizationByReference` | src/modules/money/repository.ts:255-257 | a hold with the reference is found exactly when there is one |
| `MoneyStore.InMemoryMoneyRepository.Rollback` | src/platform/persistence/transaction.ts:89-100 | undoing in reverse restores exactly the rows the recorded inverses lead back to, so every write since the transaction began is taken back |
| `MoneyStore.InMemoryMoneyRepository.Verify` | src/platform/persistence/transaction.ts:122-125 | passes exactly when every deferred check holds of the rows about to commit |
| `MoneyStore.ChecksAreDeferred` | src/modules/money/repository.ts:188-200 | what a write owes at commit is exactly the checks it put on the journal |
| `MoneyService.MoneyService.WithTransaction` | src/platform/eventing/unit-of-work.ts:55-84 | staged writes are all applied when every one is accepted and every deferred check holds; otherwise the rows are as they were |
| `MoneyService.MoneyService.Balance` | src/modules/money/service.ts:122-147 | refuses an unknown wallet; otherwise posted is the ledger's sum, available is posted minus the unexpired remainders, and held plus expired is every open remainder |
| `MoneyService.MoneyService.CreateWallet` | src/modules/money/service.ts:65-103 | answers with the one wallet of the owner in the currency, and says `created` exactly when there was none; the rows take the step of the specification |
| `MoneyService.MoneyService.Credit` | src/modules/money/service.ts:149-190 | answers with the transaction the ledger holds for the reference, or with the refusal of the serial step; on sound books it succeeds exactly for a known wallet and a valid amount, and a new reference raises that wallet by exactly the amount and moves nothing else |
| `MoneyService.MoneyService.Authorize` | src/modules/money/service.ts:192-245 | answers with the hold that carries the reference, or the refusal; on sound books a new reference succeeds exactly when the wallet is active, has the amount available and the expiry is to come, and leaves one new open hold of exactly that wallet, amount, reference and expiry |
| `MoneyService.MoneyService.Capture` | src/modules/money/service.ts:310-378 | answers with the leg the ledger holds and the hold as it now stands, or the refusal; on sound books a new leg succeeds exactly for an open, unexpired hold and a part of at most what is left, and then captures exactly that part from that wallet |
| `MoneyService.MoneyService.Refund` | src/modules/money/service.ts:432-510 | answers with the refund the ledger holds for the key, or the refusal; on sound books a new key succeeds exactly when key and reason are given and the amount asked for, or all of it when none is, is positive and at most captured minus refunded, and gives exactly that back |
| `MoneyService.MoneyService.VoidAuthorization` | src/modules/money/service.ts:524-548 | answers with the hold as stored afterwards, or with the refusal; on sound books an open hold is closed with what it had captured and no money moves |
| `MoneyService.MoneyService.ExpireDueAuthorizations` | src/modules/money/service.ts:554-566 | the sweep, one transaction a hold, closes exactly the expired open holds, leaves every other row alone, and lists each closed hold as it is now stored |
| `MoneyEffects.CreditIsExact` | src/modules/money/service.ts:149-190 | when a credit succeeds, and the one posting and the two balances it changes, by the amount |
| `MoneyEffects.AuthorizeIsExact` | src/modules/money/service.ts:192-245 | when an authorization succeeds, the one hold it adds, and that exactly its wallet has that much less available |
| `MoneyEffects.CaptureIsExact` | src/modules/money/service.ts:310-378 | when a capture succeeds, how far it moves its hold on, and the one posting and the two balances it changes, by the part asked for or all that is left |
| `MoneyEffects.RefundIsExact` | src/modules/money/service.ts:432-510 | the same for a refund, by the amount asked for or all that was captured and not refunded |
| `MoneyEffects.VoidIsExact` | src/modules/money/service.ts:524-548 | when a void succeeds, and that it closes its hold as it stands and moves no money |
| `MoneyEffects.SweepIsExact` | src/modules/money/service.ts:554-566 | after a sweep no hold is both open and expired; each one that was is closed with what it had captured, every other row and the ledger are as before |
| `MoneyEffects.OpeningIsExact` | src/modules/money/service.ts:65-103 | opening always succeeds and adds one active wallet exactly when the owner has none in the currency |
| `MoneyEffects.RefusalsAreTrue` | src/modules/money/service.ts:149-548 | each refusal of a serial command names something that is so in the rows it met |
| `MoneyRuns.LegCommitsExactlyWhenCurrent` | src/modules/money/repository.ts:202-228 | a hold rewritten together with its ledger row commits if and only if the reference is new and the new totals are the committed ones plus what the row moves |
| `MoneyRuns.ReleaseCommitsExactlyWhenCurrent` | src/modules/money/repository.ts:202-228 | a hold rewritten alone commits if and only if it keeps the committed totals |
| `MoneyChanges.ChangeKeepsSound` | src/modules/money/repository.ts:140-228 | every committed change keeps shapes, unique references, and totals equal to the ledger |
| `MoneyChanges.ChangeConserves` | src/modules/money/service.ts:664-687 | every committed change keeps the accounts summing to zero and `clearing:captured` equal to captured minus refunded over all holds |
| `MoneyChanges.WaitingReleases` | src/modules/money/service.ts:122-147 | time passing alone never lowers an available balance, because a hold that expires stops counting |
| `MoneyChanges.AffordableKeepsCovered` | src/modules/money/service.ts:192-245 | a change whose new hold was affordable leaves no wallet overdrawn |
| `MoneyLedgerLaws.SerialCommandsNeverTripAConstraint` | src/modules/money/service.ts:310-378 | a serial command fails exactly when its reading refuses it: no deferred check and no constraint ever rejects what a command staged |
| `MoneyLedgerLaws.EveryRunConserves` | src/modules/money/service.ts:149-624 | conservation and agreement with the ledger hold after every serial run from the empty books |
| `MoneyLedgerLaws.NoRunOverdraws` | src/modules/money/service.ts:192-245 | after every serial run whose clock does not go back, no wallet's available balance is negative then or later |
| `MoneyLedgerLaws.StepKeepsLaws` | src/modules/money/service.ts:310-619 | each serial command keeps the laws, and no closed hold changes its status or totals except by refund |
| `MoneyLedgerLaws.SuccessIsAnswered` | src/modules/money/service.ts:149-158 | a command that succeeded has left the mark that answers its repeat |
| `MoneyLedgerLaws.AnsweredForEver` | src/modules/money/service.ts:325-332 | no later serial command removes that mark |
| `MoneyLedgerLaws.RepeatChangesNothing` | src/modules/money/service.ts:201-202 | a second copy of a successful command, anywhere later in a run, leaves the whole run's outcome as without it |
| `MoneyRaces.EveryInterleavingIsSound` | src/modules/money/repository.ts:140-228 | reads and commits of any number of commands interleaved arbitrarily keep every committed state sound |
| `MoneyRaces.CommitsExactlyWhenNothingWasMissed` | src/modules/money/repository.ts:202-228 | a staged rewrite of a hold commits if and only if the totals it read are still the committed ones and its reference is still free |
| `MoneyRaces.ProgressNeverFalls` | src/modules/money/service.ts:310-378 | what moved on a hold never goes back, a fully captured hold stays so, and each committed leg moves it strictly on |
| `MoneyRaces.MissedLegAborts` | src/modules/money/service.ts:310-378 | a capture, refund or void, the expiry sweep's included, whose snapshot missed a committed leg on its hold always aborts, however much happens in between |
| `MoneyRaces.ClosedHoldReopensExactlyWhenTotalsAreCurrent` | src/modules/money/service.ts:568-593 | a stale capture reopens a released hold if and only if the totals it read still stand and its reference is free |
| `MoneyRaces.StaleCaptureReopensAVoidedHold` | src/modules/money/service.ts:568-593 | a run of ten steps from empty books in which it does: a void moves no money, so the deferred check cannot see it |
| `ReferenceText.TextIsUnambiguous` | src/modules/money/service.ts:325-332 | outside the reserved prefixes, two ledger references have the same text exactly when they are the same reference |
| `ReferenceText.ReservedTextsCollide` | src/modules/money/service.ts:149-158 | a credit whose caller chose a reserved text does collide with a capture |
| `ReferenceLookups.TextFindsTheReferenceExactlyWhen` | src/modules/money/repository.ts:355-357 | looking a reference up by its text finds that transaction, or its absence, if and only if no other transaction of the same text comes first |
| `ReferenceLookups.TextRunsAreRuns` | src/modules/money/service.ts:149-165 | over every serial run whose credits keep off the reserved texts, the store that looks up by text and the machine that looks up by reference are in the same state |
| `ReferenceLookups.ReservedCreditSilencesTheCapture` | src/modules/money/service.ts:325-336 | and not otherwise: once a credit carries the text of a hold's capture, capturing that hold moves nothing |
| `ReferenceLookups.TextRepeatChangesNothing` | src/modules/money/service.ts:158-158 | repeating a command changes nothing in any run of the store that looks up by text, reserved texts included |
| `FulfillmentService.InMemoryFulfillmentRepository.FindByOrderReference` | src/modules/fulfillment/service.ts:244-254 | found exactly when some row has the order reference |
| `FulfillmentService.InMemoryFulfillmentRepository.JobReferenceTaken` | src/modules/fulfillment/service.ts:193-203 | taken exactly when another row has the job reference |
| `FulfillmentService.InMemoryFulfillmentRepository.InsertIfAbsent` | src/modules/fulfillment/service.ts:169-179 | inserts only when the order has no row yet, and says which happened |
| `FulfillmentService.InMemoryFulfillmentRepository.UpdateIfStatusIn` | src/modules/fulfillment/service.ts:214-224 | writes only while the stored status is one of those allowed |
| `FulfillmentService.InMemoryFulfillmentRepository.Update` | src/modules/fulfillment/service.ts:180-184 | writes whatever is stored, guarded by the job reference alone |
| `FulfillmentService.InMemoryFulfillmentRepository.MarkExecutedAfterCancellation` | src/modules/fulfillment/service.ts:226-243 | sets the marker only on a cancelled row that has none |
| `FulfillmentService.FulfillmentService.WithTransaction` | src/platform/eventing/unit-of-work.ts:55-84 | row, money and events commit together or not at all |
| `FulfillmentService.FulfillmentService.Handle` | src/modules/fulfillment/service.ts:440-506 | takes the serial step; a command that is refused, or whose conditional write loses, changes nothing; otherwise the whole unit of work is in place; it is refused exactly for an unknown order or one closed or dispatched otherwise |
| `FulfillmentSerial.ReleaseTellsTheTruth` | src/modules/fulfillment/service.ts:1222-1273 | the outcome a release records is the state its writes leave the hold in |
| `FulfillmentSerial.SettleTellsTheTruth` | src/modules/fulfillment/service.ts:1155-1207 | the outcome a settlement records is the state its writes leave the hold in, in all its branches |
| `FulfillmentSerial.IntakeIsTruthful` | src/modules/fulfillment/service.ts:626-712 | an intake commits, and what it records about the hold is true |
| `FulfillmentSerial.ClosureIsTruthful` | src/modules/fulfillment/service.ts:807-919 | a rejection, completion or cancellation commits together with its money and records the truth |
| `FulfillmentSerial.EveryRunIsTruthful` | src/modules/fulfillment/service.ts:626-919 | after every serial run of fulfillment and money commands, each row's settlement is true of its hold, and `completed` implies `none` or `captured` |
| `FulfillmentSerial.ClosureIsForEver` | src/modules/fulfillment/service.ts:1019-1039 | a closed fulfillment keeps its status and settlement through every later command, and the settlement stays true of the hold |
| `FulfillmentSerial.DispositionOfReachableRows` | src/modules/fulfillment/domain.ts:138-214 | `inconsistent` exactly when `unsettled`; otherwise a decision is pending exactly when the marker stands or the hold was captured in part; a consistent closed row's hold is wholly captured or voided untouched, as its status says |
| `FulfillmentEffects.CompletionIsExact` | src/modules/fulfillment/service.ts:807-882 | from a truthful office: a delivered report on an open order completes it and captures all that is left of its hold exactly when there is no hold, it is open and unexpired, or it was captured as a whole before; every other report fails the order, captures nothing and closes an open hold |
| `FulfillmentEffects.RejectionIsExact` | src/modules/fulfillment/service.ts:807-843 | a rejection of an open order fails it, captures nothing and closes an open hold |
| `FulfillmentEffects.CancellationIsExact` | src/modules/fulfillment/service.ts:884-919 | a cancellation of an open order cancels it, captures nothing and closes an open hold |
| `FulfillmentEffects.AcceptanceIsExact` | src/modules/fulfillment/service.ts:714-805 | an acceptance of a coordinating order dispatches it under that job, and announces it |
| `FulfillmentEffects.LateAcceptanceIsExact` | src/modules/fulfillment/service.ts:714-805 | one that comes later only records its job, on a cancelled order, while no other order has it |
| `FulfillmentEffects.IntakeIsExact` | src/modules/fulfillment/service.ts:626-712 | a new order is taken exactly when its hold can guard it, and otherwise failed with the hold let go; a known one changes nothing |
| `FulfillmentEffects.ClosedIsLeftAlone` | src/modules/fulfillment/service.ts:541-615 | a closed order stays as it is under rejections, cancellations and reports, but for the first delivery reported after a cancellation |
| `FulfillmentRaces.EveryInterleavingIsSound` | src/modules/fulfillment/service.ts:440-506 | read phases and commits interleaved arbitrarily keep rows, announcements and money sound |
| `FulfillmentRaces.OneFulfillmentPerOrder` | src/modules/fulfillment/service.ts:482-506 | in every interleaving an order reference has at most one fulfillment |
| `FulfillmentRaces.SingleClosure` | src/modules/fulfillment/service.ts:440-470 | in every interleaving a fulfillment has one closure event if it is closed and none otherwise, and is created and dispatched at most once |
| `FulfillmentRaces.LosingChangesNothing` | src/modules/fulfillment/service.ts:400-413 | a unit that loses or aborts might as well never have tried: whatever happens afterwards comes to the same rows, money and events as without its commit |
| `FulfillmentRaces.ClosureWinsExactlyWhileOpen` | src/modules/fulfillment/service.ts:440-449 | a staged closure commits if and only if the row is still open and its money still commits, and then the stored row is the staged one |
| `FulfillmentRaces.SecondClosureLoses` | src/modules/fulfillment/service.ts:214-224 | once one closure of a row committed, every later one aborts whatever happened in between |
| `FulfillmentRaces.ClosedForEver` | src/modules/fulfillment/service.ts:214-224 | no interleaving changes a closed status |
| `FulfillmentMarkers.EveryMarkerIsAnnouncedOnce` | src/modules/fulfillment/service.ts:568-615 | after every serial run the marker for execution after cancellation stands exactly where its event was published, once |
| `MarkerRaces.StaleTraceErasesTheMarker` | src/modules/fulfillment/service.ts:794-798 | a run of ten steps from the empty store in which an acceptance does so, and after which the event was published twice |
| `MarkerRaces.TraceErasesTheMarkerExactlyWhen` | src/modules/fulfillment/service.ts:781-804 | over every interleaving, the unconditional write of an acceptance that read a cancelled row erases the marker if and only if it read none, a report has marked the row since and no unmarked write came after that, and no other row took the job |
| `MarkerRaces.ErasedMarkerIsAnnouncedAgain` | src/modules/fulfillment/service.ts:568-615 | after that, in every run, the next delivery report that finds the row unmarked sets the marker again and publishes the event again |
| `Queue.SortThenSkipIsFilterThenSort` | src/platform/eventing/outbox.ts:227-264 | skipping rows that are not due while walking the sorted table gives the due rows sorted |
| `Queue.ScannedIsSorted` | src/platform/eventing/outbox.ts:227-264 | the outbox's loop, skipping, pushing and then comparing, claims the first due rows in order, as many as the limit but at least one |
| `Queue.FormsAgreeExactlyWhen` | src/platform/eventing/outbox.ts:227-264 | the outbox's loop and the filter-sort-slice of the other queues choose the same rows in the same order if and only if the limit is at least 1, nothing is due, or a negative limit happens to leave one row |
| `Queue.FormsDifferAtLimitZero` | src/platform/eventing/outbox.ts:227-264 | one due row and a limit of 0: the loop claims it, the slice does not |
| `Queue.BatchIsAPrefix` | src/platform/eventing/queue-order.ts:52-63 | no due row left behind precedes a claimed one |
| `QueueStore.SuccessiveBatchesAreDisjoint` | src/platform/eventing/outbox.ts:227-264 | what a batch leaves due is exactly the rest, so a second batch at the same instant shares no row with it |
| `QueueStore.LeasedQueue.ClaimDueByScan` | src/platform/eventing/outbox.ts:227-264 | the outbox's loop claims the batch of the specification, in order, and hands out the rows as stored; what the lease in them is worth is `QueueEffects.ClaimLastsItsLease` |
| `QueueStore.LeasedQueue.ClaimDueBySlice` | src/platform/eventing/delivery.ts:340-364 | the filter-sort-slice form does the same |
| `QueueStore.LeasedQueue.ReclaimExpired` | src/platform/eventing/outbox.ts:267-306 | each abandoned row is released or, its recoveries spent, dead-lettered; both are counted |
| `QueueStore.LeasedQueue.Settle` | src/platform/eventing/fencing.ts:65-68 | an acknowledgement is applied exactly when the row holds the presented token |
| `QueueStore.LeasedQueue.Revive` | src/platform/eventing/outbox.ts:418-433 | revives exactly a dead row |
| `QueueEffects.ClaimLastsItsLease` | src/platform/eventing/outbox.ts:227-264 | a row claimed at an instant is its holder's for the whole lease: through any run in which the holder does not acknowledge and no recovery is clocked that late, the row stays as claimed |
| `QueueEffects.LeaseRunsOut` | src/platform/eventing/outbox.ts:267-306 | a recovery from then on with room for every abandoned row takes it back: one more recovery charged, and due at once or dead when those are spent |
| `QueueEffects.DeadHolderLosesTheRow` | src/platform/eventing/outbox.ts:227-306 | so a worker that dies holds a row up for its lease and no longer |
| `QueueEffects.WaitsThroughout` | src/platform/eventing/outbox.ts:227-264 | a row waiting for an instant is left alone by every claim before it |
| `QueueEffects.AppendIsExact` | src/platform/eventing/outbox.ts:182-200 | a row is inserted once, due at once, with nothing charged to it |
| `QueueEffects.DueIsServed` | src/platform/eventing/outbox.ts:227-264 | and taken by any claim from then on with room for every due row |
| `QueueEffects.SoonerIsServedFirst` | src/platform/eventing/queue-order.ts:52-63 | no claim takes a row and leaves waiting one that is due and comes first by instant, arrival and id |
| `QueueEffects.AcknowledgementIsExact` | src/platform/eventing/outbox.ts:317-416 | under the row's token each acknowledgement ends the claim with its own status, instant and attempts and touches no other row; under any other token nothing changes |
| `QueueEffects.RetryWaits` | src/platform/eventing/outbox.ts:338-371 | a retry waits for its instant however often is claimed before it |
| `QueueEffects.RevivedIsServed` | src/platform/eventing/outbox.ts:418-433 | a revived row is served by the next claim with room, its attempts kept and its recoveries given back |
| `QueueEffects.RecoveryCountsItsRows` | src/platform/eventing/outbox.ts:267-306 | the two numbers a recovery reports are those of the rows it changed and of the rows it buried |
| `QueueRuns.EveryRunIsConsistent` | src/platform/eventing/outbox.ts:227-433 | row state and recorded history agree after every run of any number of workers |
| `QueueRuns.FenceSafety` | src/platform/eventing/fencing.ts:65-68 | in every run no (row, token) is claimed twice or ends twice; every applied acknowledgement comes from the row's latest claim with nothing on the row since; a finished row is never touched again |
| `QueueRuns.AppliedExactlyWhenHeld` | src/platform/eventing/outbox.ts:317-371 | an acknowledgement changes the queue if and only if the last thing that happened to the row is the claim with that token |
| `QueueBudgets.WorkIsBounded` | src/platform/eventing/reclaim.ts:46-48 | under workers that keep to the policy a row is claimed at most maxAttempts + maxReclaims times since its insertion, and a row revived with its attempts spent at most maxReclaims + 1 times more |
| `QueueBudgets.TheAllowanceIsReached` | src/platform/eventing/publisher.ts:155-182 | under every policy some run needs the whole allowance, so the bound cannot be lowered |
| `RelayService.InMemoryDeliveryStore.InsertSubscription` | src/platform/eventing/delivery.ts:244-264 | refused exactly when another subscription has the subscriber and event type |
| `RelayService.InMemoryDeliveryStore.Queue` | src/platform/eventing/delivery.ts:304-317 | queued exactly when the pair of event and subscription has no delivery yet |
| `RelayService.Eventing.QueueFor` | src/platform/eventing/delivery.ts:647-677 | the fan-out loop, with a journal of exactly the deliveries it added |
| `RelayService.Eventing.Rollback` | src/platform/persistence/transaction.ts:94-100 | takes back exactly the journalled deliveries |
| `RelayService.Eventing.PublishWithin` | src/platform/eventing/publisher.ts:132-146 | the relay's transaction: fan-out and mark both, or nothing but spent identifiers when the claim was lost |
| `RelayService.Eventing.RelayOne` | src/platform/eventing/publisher.ts:122-183 | one claimed event, with whatever others do while it is on the bus, ends by the specified step and count; what that is for the event is `RelayEffects.PublishEndsAsItShould` |
| `RelayService.Eventing.DrainOutbox` | src/platform/eventing/publisher.ts:91-188 | a whole drain is the run of its steps and everybody else's, with its counters read off that run |
| `RelayEffects.PublishEndsAsItShould` | src/platform/eventing/publisher.ts:122-183 | without the claim nothing changes but spent identifiers; with it the event is published exactly when nothing failed, waits for the base backoff doubled once for each earlier attempt exactly when it failed within its budget, and is dead otherwise, a failure costing one attempt |
| `RelayEffects.RelayCountsTheEnding` | src/platform/eventing/publisher.ts:147-182 | published and fenced are counted as the claim went, failed and dead by the budget; with the claim kept the counter that grew is the one the row names |
| `Backoff.BackoffDoubles` | src/platform/eventing/publisher.ts:172-172 | the backoff is the base, doubled for each earlier attempt |
| `Relay.RelayIsAtomic` | src/platform/eventing/publisher.ts:122-150 | in every reachable state with several relays, each published event has exactly one delivery for each subscription active when it committed, and every delivery's event is published |
| `Relay.AudienceIsFixedAtCommit` | src/platform/eventing/delivery.ts:280-286 | an event becomes published only by a relay holding its claim, for the subscriptions active at that moment, and the audience never changes afterwards |
| `Relay.PublishedOnce` | src/platform/eventing/outbox.ts:317-336 | no event is marked published twice, revivals included |
| `Relay.HeldPublishReachesTheActive` | src/platform/eventing/delivery.ts:304-317 | a relay holding the claim delivers to exactly the active subscriptions, none of which had a delivery of the event |
| `DeliveryWorker.AttemptEndsAsItShould` | src/platform/eventing/delivery.ts:773-914 | one attempt with others acting before and during the request: without the claim nothing changes; with it the row is delivered exactly when a request went out to a subscription active then and succeeded, waits exactly when a retry is worth it and within budget, and only a switched-off subscription costs no attempt |
| `RelayEffects.DeliveryCountsTheEnding` | src/platform/eventing/delivery.ts:773-914 | each delivery is counted as what its row then says, or as fenced when the claim was lost |
| `DeliveryWorker.DeliveryDrainIsARun` | src/platform/eventing/delivery.ts:741-917 | a whole drain, interference included, is a run of the hub, so every law of runs holds of it |
| `DeliveryWorker.EveryDeliveryIsCountedOnce` | src/platform/eventing/delivery.ts:741-917 | every claimed delivery is counted in exactly one counter |
| `DeliveryWorker.Worker.DeliverOne` | src/platform/eventing/delivery.ts:773-915 | the loop body over mutable stores takes exactly the specified step and count |
| `DeliveryWorker.Worker.DrainOnce` | src/platform/eventing/delivery.ts:741-917 | recover, claim, send: the state and all seven counters the specification gives |
| `RelayBudgets.DrainObeysThePolicy` | src/platform/eventing/publisher.ts:155-182 | a relay's drain keeps to its budgets from the attempts it read at the claim, whatever others do in between |
| `RelayBudgets.DeliveryDrainObeys` | src/platform/eventing/delivery.ts:875-913 | so does a delivery worker's drain, with others acting before and during each request |
| `RelayBudgets.EventsAndDeliveriesAreBounded` | src/platform/eventing/reclaim.ts:46-48 | every run of relays, workers and operators within their policies claims no event and no delivery more often than its allowance |
| `RelayCrews.CrewIsARun` | src/platform/eventing/publisher.ts:91-188 | every interleaving of relays and workers that stall, die and resume between the steps of their drains is a run within the budgets, because each acts on the attempts it was handed with its claim |
| `RelayCrews.CrewsAreBounded` | src/platform/eventing/reclaim.ts:46-48 | so no event and no delivery is claimed more often than its allowance since it was inserted or last revived, with nothing assumed of the workers |
| `Revival.CursorAgreesWithOrder` | src/platform/eventing/revival.ts:184-200 | being after the cursor is coming later in the sort order, and equal positions are the same row |
| `Revival.SeparateColumnsAreNotTheOrder` | src/platform/eventing/revival.ts:184-192 | comparing the two columns separately would not be that order |
| `Revival.PageLeavesTheRest` | src/platform/eventing/outbox.ts:392-415 | after a page is revived, what the next selection will see is exactly what this one left |
| `Revival.PagesVisitEveryDeadRowOnce` | src/platform/eventing/outbox.ts:392-433 | paging to the end while reviving visits exactly the matching rows that were dead at the start, in order, whatever is refused on the way |
| `Revival.EachOnce` | src/platform/eventing/outbox.ts:392-433 | each of them in exactly one place, and nothing else |
| `Revival.PagingRevivesExactly` | src/platform/eventing/outbox.ts:392-433 | after paging to the end every matching row that was dead and not refused is pending as a revival leaves it, and every other row is as it was |
| `Revival.RunRevival` | src/platform/replay/revive.ts:242-354 | one page is revived but for the refused rows; the counts and the resume position are exact |
| `Revival.ReviveList` | src/platform/replay/revive.ts:272-309 | the loop over candidates moves the cursor past refused and revived rows alike |
| `Calendar.YearsStartByTheFormula` | src/modules/subscription/domain.ts:167-194 | counting months gives the first day of each year that the standard's DayFromYear formula gives (section 21.4.1 of ECMA-262), for every year |
| `Calendar.YearsAreReadByTheFormula` | src/modules/subscription/domain.ts:167-194 | the year read from a day is the one whose DayFromYear bounds contain it |
| `Calendar.MonthsAreReadByTheTable` | src/modules/subscription/domain.ts:167-194 | month and date read from a day are those of the standard's table of month lengths |
| `Calendar.DateRoundTrip` | src/modules/subscription/domain.ts:167-194 | month and date to day and back is the identity |
| `Calendar.EndIsAfterStart` | src/modules/subscription/domain.ts:167-194 | a billing interval always ends strictly after it starts |
| `Calendar.LandsInTheAskedMonthExactlyWhen` | src/modules/subscription/domain.ts:167-194 | the shifted month is the one asked for if and only if its year is not 0 to 99, the date is the smaller of the day and the last day there, and the time of day is kept |
| `Calendar.TwoDigitYearsLeaveTheirCentury` | src/modules/subscription/domain.ts:167-194 | a concrete start for which it is not: years 0 to 99 are read as 1900 to 1999 |
| `Calendar.YearOneHasSuchAnInstant` | src/modules/subscription/domain.ts:167-194 | that start: a month after 1 January of year 1 ends in 1901 |
| `Calendar.WeeksAreExact` | src/modules/subscription/domain.ts:167-194 | n weeks are 7n days, to the day, at the same time of day |
| `Calendar.YearIsTwelveMonths` | src/modules/subscription/domain.ts:167-194 | n years and 12n months are the same end |
| `Calendar.BillingDayNeverIncreases` | src/modules/subscription/service.ts:684-691 | over any number of chained renewals the day of the month never rises and a start day of at most 28 never changes |
| `Calendar.ChainingKeepsTheDayExactlyWhen` | src/modules/subscription/service.ts:684-691 | two chained renewals end where one of their sum would if and only if the first did not cut the day below what the second month allows |
| `Calendar.MonthEndsDrift` | src/modules/subscription/domain.ts:167-194 | a start where they do not: from 31 January 1970 month by month to 28 March, in one step to 31 March |
| `Subscriptions.ReferencesDiffer` | src/modules/subscription/domain.ts:276-278 | two periods never share a charge reference |
| `SubscriptionTimelines.EveryRunIsContiguous` | src/modules/subscription/repository.ts:293-385 | after every serial run each subscription's periods are numbered from 1 without repeats and each starts where the one before it ended |
| `SubscriptionTimelines.CoverageLaws` | src/modules/subscription/repository.ts:293-305 | of one subscription's periods at most one covers an instant, numbers are unique and none is missing, and successive periods meet |
| `SubscriptionTimelines.NoGap` | src/modules/subscription/service.ts:684-691 | every instant between the first start and the last end is covered |
| `SubscriptionTimelines.RenewalInserts` | src/modules/subscription/service.ts:655-735 | a due renewal within the range of dates always inserts the next period and then charges it; outside the range it throws and changes nothing |
| `SubscriptionSweeps.SweepComesCloser` | src/modules/subscription/service.ts:655-735 | a sweep that goes through brings whoever is furthest behind strictly closer |
| `SubscriptionSweeps.CaughtUpIsAFixpoint` | src/modules/subscription/service.ts:655-735 | once everybody is caught up a sweep at the same instant changes nothing |
| `SubscriptionSweeps.SweepingReachesAFixpoint` | src/modules/subscription/service.ts:655-778 | from every reachable desk some number of sweeps at one instant either throws or leaves every live subscription with a plan covered past it and every ended cancelled one expired, after which a further sweep changes nothing |
| `SubscriptionProgress.SweepThrowsExactlyWhen` | src/modules/subscription/service.ts:669-732 | a sweep throws if and only if some renewal that is due has its next end outside the range of dates |
| `SubscriptionProgress.SweepingCatchesUpExactlyWhen` | src/modules/subscription/service.ts:655-778 | after every run that leaves periods' references alone: if every live subscription with a plan can be renewed past the instant, no sweep at it ever throws and from some number of sweeps on everybody is caught up; otherwise all sweeps from some number on throw |
| `SubscriptionProgress.OneBadDateStarvesTheRest` | src/modules/subscription/service.ts:669-732 | a renewal out of range starves whatever comes after it: however often and whenever sweeps are tried again, neither it nor any later subscription is renewed or expired |
| `SubscriptionProgress.FarRenewalIsStuck` | src/modules/subscription/service.ts:669-732 | a run of three commands after which that is so: a plan charged every 100,019,000 days, taken from the first instant a date can have |
| `SubscriptionBilling.BillingIsExactlyOnce` | src/modules/subscription/service.ts:370-491 | after every serial run, crashes between hold and capture included, at most one hold carries a period's reference, and a settled period that costs something has that hold, captured by the ledger for exactly its amount |
| `SubscriptionBilling.HoldsAreNotShared` | src/modules/subscription/repository.ts:308-319 | no hold settles two periods |
| `SubscriptionBilling.SettledForEver` | src/modules/subscription/repository.ts:404-423 | a settled period never changes again and keeps agreeing with its hold under every later command |
| `SubscriptionBilling.CollectedOnce` | src/modules/subscription/service.ts:370-413 | charging again after a collection answers the same and changes nothing |
| `SubscriptionBilling.CrashTakesOneHold` | src/modules/subscription/service.ts:370-413 | after a crash between hold and capture, charging again takes no second hold |
| `SubscriptionRefusals.ChargeThrowsExactlyWhen` | src/modules/subscription/service.ts:370-413 | a charge throws if and only if the period is unknown or voided, or a hold that somebody else took under its reference is captured and does not fit it |
| `SubscriptionRefusals.NothingElseStopsACharge` | src/modules/subscription/service.ts:424-558 | the same after every run; where nobody else takes a period's reference no such hold exists, so every other refusal becomes a record on the period |
| `SubscriptionRefusals.OnlyDatesStopARenewal` | src/modules/subscription/service.ts:655-735 | after every run that leaves periods' references alone a renewal throws if and only if the next end is outside the range of dates |
| `SubscriptionRefusals.RenewalThrowsExactlyWhen` | src/modules/subscription/service.ts:655-735 | without that assumption: also when somebody else took, under the reference of the period about to begin, a hold that does not fit it |
| `SubscriptionEffects.ChargeIsExact` | src/modules/subscription/service.ts:370-558 | where no hold of somebody else's stands in the way an unpaid period is collected if and only if it is free, or its wallet can give the hold and a hold taken for it before can be captured; then its one hold is captured for its whole amount and its wallet pays what was missing, otherwise no money moves; period and subscription say which |
| `SubscriptionEffects.CancellationIsExact` | src/modules/subscription/service.ts:570-643 | throws exactly without a reason, or for an unknown or expired subscription; a live one ends at the end of the current period if that is settled and now otherwise, an unpaid current period is voided, and nothing else changes |
| `SubscriptionEffects.RenewalIsExact` | src/modules/subscription/service.ts:655-778 | nothing happens before the last period is over; then a cancelled subscription expires, keeping the end it was given, and a live one gets exactly one period: right after the last, one interval long, at the plan's price, or the sweep throws because there is no such date |
| `SubscriptionEffects.EveryRunIsOwned` | src/modules/subscription/service.ts:230-331 | after every serial run each subscription is paid from a wallet of its owner, and nobody has two live subscriptions to one plan |
| `SubscriptionEffects.RetiredForEver` | src/modules/subscription/service.ts:186-245 | a retired plan takes no subscription any more, whatever a run does later |
| `SubscriptionService.InMemorySubscriptionRepository.PeriodOverlapClash` | src/modules/subscription/repository.ts:293-305 | the scan finds a clash exactly when another period of the subscription overlaps |
| `SubscriptionService.InMemorySubscriptionRepository.SequenceTaken` | src/modules/subscription/repository.ts:359-378 | the scan finds a clash exactly when another period of the subscription has the number |
| `SubscriptionService.InMemorySubscriptionRepository.AuthorizationClash` | src/modules/subscription/repository.ts:308-319 | the scan finds a clash exactly when another period has the hold |
| `SubscriptionService.InMemorySubscriptionRepository.WritePeriod` | src/modules/subscription/repository.ts:359-385 | a period is written exactly when its shape and all three uniqueness rules allow it |
| `SubscriptionService.InMemorySubscriptionRepository.LatestPeriod` | src/modules/subscription/repository.ts:448-452 | a period with the highest number, or none exactly when there is no period |
| `SubscriptionService.InMemorySubscriptionRepository.FindPeriodCovering` | src/modules/subscription/repository.ts:439-447 | a period covering the instant, or none exactly when there is none |
| `SubscriptionService.InMemorySubscriptionRepository.LiveSubscription` | src/modules/subscription/service.ts:264-268 | found exactly when the owner has a live subscription to the plan |
| `SubscriptionService.SubscriptionService.Subscribe` | src/modules/subscription/service.ts:230-331 | both rows or neither, then the charge: the step of the specification, and the two identifiers exactly when the rows were written |
| `SubscriptionService.SubscriptionIsCreated` | src/modules/subscription/service.ts:230-331 | a subscription that was taken is live, to that plan, and its first period begins where it was asked to and ends one interval later |
| `SubscriptionService.SubscriptionService.SettlePeriod` | src/modules/subscription/service.ts:424-491 | capture and billing record land together or not at all, rolled back over both stores |
| `SubscriptionService.SubscriptionService.MarkUncollectible` | src/modules/subscription/service.ts:501-558 | the refusal itself is recorded on the period, and the subscription goes past due, together |
| `SubscriptionService.SubscriptionService.ChargePeriod` | src/modules/subscription/service.ts:370-413 | the whole charge, settled answer first |
| `SubscriptionService.SubscriptionService.CancelSubscription` | src/modules/subscription/service.ts:570-643 | paid time is honoured to its end; unpaid time ends now, and its period is voided, answered with, and the only one to change |
| `SubscriptionService.SubscriptionService.RenewOne` | src/modules/subscription/service.ts:669-732 | one candidate of the sweep, and what it gave the sweep to do |
| `SubscriptionService.SubscriptionService.RenewDuePeriods` | src/modules/subscription/service.ts:655-735 | the sweep loop takes the specified sweep and returns the specified report |
| `SubscriptionReports.ReportIsExact` | src/modules/subscription/service.ts:655-735 | the report of a sweep that went through lists exactly the subscriptions due to expire, in order; for each one due to renew, in order, the period begun for it; and exactly those of these periods that were not collected |
| `IdempotencyKeys.EachClaimEndsOnceByItsOwner` | src/platform/http/pg-retry.ts:119-230 | in every run a claim ends at most once, and never after the key was taken over |
| `IdempotencyKeys.StaleTokenWritesNothing` | src/platform/http/pg-retry.ts:192-230 | complete and release with any token but the latest claim's write nothing |
| `IdempotencyKeys.AnswerStaysUntilItExpires` | src/platform/http/pg-retry.ts:119-190 | a completed answer stays as it is through everything that happens before it expires |
| `IdempotencyKeys.EveryClaimGetsTheAnswer` | src/platform/http/pg-retry.ts:170-189 | every claim asked and answered before the expiry loses and is told that answer, or `reused` when its fingerprint differs, whatever happens between its two statements |
| `IdempotencyKeys.OneWinnerUntilTheHorizon` | src/platform/http/pg-retry.ts:119-170 | a claim can only win over an earlier one once that one is past the horizon or its row is gone |
| `IdempotencyKeys.FreeOnlyWhenReleased` | src/platform/http/pg-retry.ts:218-230 | a key has no row exactly when it was never claimed or its last claim was released |
| `IdempotencyKeys.ClaimWinsExactlyWhen` | src/platform/http/pg-retry.ts:119-170 | over every run a claim wins if and only if its key was never taken, or its latest claim was released, is past the retention, or is still open and past the horizon; a winner writes that key only, under a token of its own |
| `IdempotencyKeys.EndingsExactlyWhen` | src/platform/http/pg-retry.ts:192-230 | an answer is recorded if and only if it comes from the key's latest claim, still open and within the retention; a key is let go if and only if that claim, still open, says so |
| `IdempotencyKeys.PgRetryStore.Upsert` | src/platform/http/pg-retry.ts:138-170 | the conditional upsert writes and returns a fresh token exactly when the key is free, expired or abandoned |
| `IdempotencyKeys.PgRetryStore.Claim` | src/platform/http/pg-retry.ts:119-190 | the winner keeps the row; a loser changes nothing and is told what the row says when it reads it |
| `IdempotencyKeys.PgRetryStore.CompleteClaim` | src/platform/http/pg-retry.ts:192-216 | completes exactly under the row's own token, still claimed and not expired |
| `IdempotencyKeys.PgRetryStore.ReleaseClaim` | src/platform/http/pg-retry.ts:218-230 | deletes exactly under the row's own token, still claimed |
| `EventBus.DeliverRecordsSuccess` | src/platform/eventing/bus.ts:89-111 | with at least one attempt, a consumer is recorded afterwards exactly when it was before or some attempt succeeded; a failed one is left unrecorded and reports its last error |
| `EventBus.PublishReturnsExactlyWhen` | src/platform/eventing/bus.ts:71-86 | a publish returns without throwing if and only if every matching consumer it left unrecorded failed last with an empty error text |
| `EventBus.DeadLettersAreTheMissed` | src/platform/eventing/bus.ts:89-111 | a publish leaves a dead letter for a consumer if and only if it leaves it unrecorded, with its last error and the full count of attempts, empty texts included |
| `EventBus.NoAttemptsLookLikeSuccess` | src/platform/eventing/bus.ts:89-111 | with no attempts allowed every publish returns, nobody is run, exactly the matching consumers are recorded besides those that were, and each new one leaves a dead letter of no attempts and no text |
| `EventBus.EmptyTextLooksLikeSuccess` | src/platform/eventing/bus.ts:71-86 | a handler that always throws an empty text is never recorded, yet the publish returns |
| `EventBus.EachHandlerSucceedsAtMostOnce` | src/platform/eventing/inbox.ts:49-71 | over any redeliveries each consumer's handler succeeds at most once per event, and what succeeded is recorded |
| `EventBus.RecordedExactlyWhenServed` | src/platform/eventing/inbox.ts:49-71 | with at least one attempt allowed, the pairs recorded are exactly those some handler succeeded at |
| `EventBus.InMemoryInbox.Claim` | src/platform/eventing/inbox.ts:49-64 | claims exactly a pair that is not recorded |
| `EventBus.LocalEventBus.Deliver` | src/platform/eventing/bus.ts:89-111 | the retry loop ends as specified, and leaves one dead letter, with its error and its count of attempts, exactly when it failed |
| `EventBus.LocalEventBus.PublishEvent` | src/platform/eventing/bus.ts:71-86 | a malformed envelope is refused before anything happens; otherwise every matching subscription is delivered to, inbox and dead letters are as specified, and it throws, naming the failures, exactly when one was counted |
| `Reputation.StandingIsTheCount` | src/modules/reputation/domain.ts:217-312 | grouping by kind and then folding the groups equals counting the signals directly: totals, retractions, ratings, each kind's count, the first and last time, and the average as the rounded mean |
| `Reputation.OrderDoesNotMatter` | src/modules/reputation/domain.ts:307-312 | the standing depends only on which signals there are, not on their order |
| `Reputation.RetractionMovesOneContribution` | src/modules/reputation/repository.ts:155-188 | retracting one standing signal moves exactly its own contribution to the retracted count |
| `Reputation.AverageIsTheRoundedMean` | src/modules/reputation/domain.ts:267-304 | an average over well-shaped ratings lies in 1000 to 5000 and within half of the exact mean |
| `ReputationStore.GroupSignals` | src/modules/reputation/domain.ts:217-252 | the accumulating loop yields the groups of the specification |
| `ReputationStore.DeriveStanding` | src/modules/reputation/domain.ts:267-304 | the folding loop yields the standing of the specification |
| `ReputationStore.InMemoryReputationRepository.InsertIfAbsent` | src/modules/reputation/repository.ts:113-153 | a row that breaks a check constraint is refused, retraction fields included; a known source reference is a duplicate; anything else is inserted; all three exactly, with shapes and uniqueness kept |
| `ReputationStore.InMemoryReputationRepository.RetractIfStanding` | src/modules/reputation/repository.ts:155-188 | refuses a retraction without a reason; otherwise marks the one standing signal of the source, or changes nothing because there is none |
| `ReputationStore.InMemoryReputationRepository.BySource` | src/modules/reputation/repository.ts:230-241 | the row of the source, or none exactly when there is none |
| `Notifications.ClaimEndsAtMostOnce` | src/modules/notification/repository.ts:304-308 | in every run, whatever budgets its workers use, each (row, token) claim is acknowledged or taken back at most once |
| `Notifications.EveryRunIsFenced` | src/modules/notification/repository.ts:244-391 | rows and history agree after every run: tokens are never given twice, only the holder of the current token ends a claim, and nothing is sent twice under one token |
| `Notifications.TerminalIsForEver` | src/modules/notification/domain.ts:94-94 | an accepted, delivered or failed notification never changes again through any further run |
| `NotificationService.ItemStaysConsistent` | src/modules/notification/service.ts:479-514 | processing one claimed message keeps every count within the budget, whatever others do before and during the send within theirs |
| `NotificationService.DrainStaysConsistent` | src/modules/notification/service.ts:327-371 | a whole drain, over every row it claims, keeps every count within the budget |
| `NotificationDispatchers.DrainIsARun` | src/modules/notification/service.ts:327-371 | a dispatcher's drain, with whatever other dispatchers do between and during its sends, is a run of the office's actions: its own and theirs in the order they fell |
| `NotificationDispatchers.EverySendIsRecorded` | src/modules/notification/service.ts:378-469 | in every run each send a dispatcher makes is a send under a claim it was handed, and goes on record |
| `NotificationDispatchers.SentAtMostMaxAttempts` | src/modules/notification/repository.ts:244-301 | over every run of any number of dispatchers, stalled and resumed anywhere, a notification is sent no more often than it was claimed, and claimed at most maxAttempts times (once if that is less than one) |
| `NotificationService.EveryDrainCounts` | src/modules/notification/service.ts:327-371 | a drain counts every claimed message exactly once and every recovered row |
| `NotificationEffects.ItemEndsAsItShould` | src/modules/notification/service.ts:378-514 | without the claim nothing changes; with it the message is accepted exactly when it was passed on, delivered exactly when it was taken, waits exactly when the answer settled nothing and attempts are left, for what the provider asked or the doubled backoff, and has failed otherwise |
| `NotificationEffects.ItemCountsTheEnding` | src/modules/notification/service.ts:378-514 | exactly one counter grows: the one the row then names, or `fenced` |
| `NotificationEffects.AnsweredIsSentAgainExactlyWhen` | src/modules/notification/service.ts:416-443 | once such an answer was applied the row says so for ever and is never claimed again; it can be sent again if and only if some dispatcher was handed the message and has not sent it yet |
| `NotificationEffects.AcceptedMessageGoesOutTwice` | src/modules/notification/service.ts:327-371 | a run in which that happens, wherever two attempts are allowed |
| `NotificationEffects.ArrivalIsExact` | src/modules/notification/service.ts:200-240 | a message arrives due at once, or failed at once without an address |
| `NotificationEffects.ClaimLastsItsLease` | src/modules/notification/repository.ts:244-274 | a claim charges one attempt and leaves the row to its holder for the whole lease, through any run without its acknowledgement and without so late a recovery |
| `NotificationEffects.LeaseRunsOut` | src/modules/notification/repository.ts:276-301 | a recovery from then on with room takes it back, due again or failed when its attempts are spent |
| `NotificationEffects.WaitsThroughout` | src/modules/notification/repository.ts:244-274 | a message that waits is left alone by every claim before its instant |
| `NotificationEffects.DueIsServed` | src/modules/notification/repository.ts:244-274 | and taken by any claim from then on with room for every due row |
| `NotificationEffects.SoonerIsServedFirst` | src/modules/notification/repository.ts:244-274 | no claim takes a message and leaves waiting one that is due and comes first |
| `NotificationService.InMemoryNotificationStore.ClaimRows` | src/modules/notification/repository.ts:244-274 | claims the due batch in order, each row with a token of its own and its attempt charged, and hands out what it stored |
| `NotificationService.InMemoryNotificationStore.ReclaimRows` | src/modules/notification/repository.ts:276-301 | releases abandoned rows, failing those whose attempts are spent |
| `NotificationService.InMemoryNotificationStore.Mark` | src/modules/notification/repository.ts:304-391 | an acknowledgement is applied exactly when the row is processing under the presented token |
| `NotificationService.NotificationDispatcher.ProcessClaimed` | src/modules/notification/service.ts:378-469 | one message with others acting before and during the send: state and counter as specified, which is what `NotificationEffects.ItemEndsAsItShould` and `NotificationEffects.ItemCountsTheEnding` say of it |
| `NotificationService.NotificationDispatcher.DrainOnce` | src/modules/notification/service.ts:327-371 | recover, claim, process: state and all six counters as specified |

## Left out

Contracts stated weaker than one might wish:

- `MoneyLedgerLaws.NoRunOverdraws`: serial runs only; two authorizations that read the same balance can both commit, and nothing in the code prevents it.
- `MoneyLedgerLaws.StepKeepsLaws`: that closed holds stay closed is serial, see `MoneyRaces.StaleCaptureReopensAVoidedHold`.
- `MoneyLedgerLaws.EveryRunConserves`: sums are mathematical integers; a balance beyond 2^53 - 1 would lose precision in the original. The bound on each single amount is modelled.
- `ReferenceText.TextIsUnambiguous`: credit references must not begin with `capture:` or `refund:`, which the code leaves to its callers; identifiers are decimal numbers rather than UUIDs, all that matters being that they hold no colon.
- `FulfillmentSerial.EveryRunIsTruthful`: serial runs; interleaved with a void the hold of a closed row can be reopened.
- `FulfillmentMarkers.EveryMarkerIsAnnouncedOnce`: serial runs, for the reason shown by `MarkerRaces.StaleTraceErasesTheMarker`.
- `SubscriptionTimelines.EveryRunIsContiguous`: serial runs; two sweeps renewing one subscription at once are left to the store's constraints, not modelled as an interleaving.
- `SubscriptionBilling.BillingIsExactlyOnce`: serial runs, with a crash allowed between hold and capture.
- `SubscriptionSweeps.SweepingReachesAFixpoint`: says what sweeps reach unless one throws; when none does is `SubscriptionProgress.SweepingCatchesUpExactlyWhen`.
- `SubscriptionSweeps.SweepComesCloser`: speaks of a sweep that goes through; when one does is `SubscriptionProgress.SweepThrowsExactlyWhen`.
- `SubscriptionProgress.SweepingCatchesUpExactlyWhen`: assumes that nobody but billing authorizes under a period's reference; with such a hold in place see `SubscriptionRefusals.RenewalThrowsExactlyWhen`.
- `QueueRuns.FenceSafety`: acknowledgements under `UNFENCED` are outside the claim.
- `Relay.RelayIsAtomic`: a relay configured without a transaction boundary is not modelled.
- `QueueBudgets.WorkIsBounded`: takes the workers' discipline as given; `RelayCrews.CrewsAreBounded` derives it from the relay's and the delivery worker's own steps.
- `RelayCrews.CrewsAreBounded`: all relays are configured alike, and all delivery workers alike; the bound speaks of budgets of at least one attempt.
- `Revival.ReviveList`: takes a page whose rows are still dead, as `Revival.RunRevival` does.
- `Revival.RunRevival`: nobody else touches the table during one page, so no row is skipped as no longer dead; the stop on a database failure, the lock and the journal are left out, and which rows are refused is an argument.
- `Reputation.AverageIsTheRoundedMean`: the rounding is of the exact quotient, not of its floating-point approximation.
- `NotificationService.DrainStaysConsistent`: takes what other workers do during the drain as given; `NotificationDispatchers.SentAtMostMaxAttempts` derives it from the dispatchers' own steps.
- `NotificationDispatchers.SentAtMostMaxAttempts`: all dispatchers run under one attempt limit.
- `MoneyService.MoneyService.WithTransaction`: the money rows only; that domain rows, money and outbox events commit together is `FulfillmentService.FulfillmentService.WithTransaction`, and audit records are left out.
- `MoneyService.MoneyService.CreateWallet`: takes the currency already normalised and the owner as one text.
- `MoneyLedgerLaws.SuccessIsAnswered`: references are told apart by construction; for a store that tells them apart by text see `ReferenceLookups.TextRunsAreRuns`.
- `MoneyLedgerLaws.RepeatChangesNothing`: the same; for such a store the law is `ReferenceLookups.TextRepeatChangesNothing`.
- `ReferenceLookups.TextRunsAreRuns`: the texts of holds' own references are a separate table and are compared as texts everywhere.
- `SubscriptionService.SubscriptionService.Subscribe`: every refusal before the first write is one outcome, `Threw`, without its text.
- `SubscriptionService.InMemorySubscriptionRepository.WritePeriod`: the three-letter form of a currency is not checked, and agreement with the money is checked as part of the write, where the store defers it to the end of the same transaction.
- `EventBus.LocalEventBus.PublishEvent`: whether an envelope is well formed is an argument.
- `FulfillmentService.FulfillmentService.WithTransaction`: audit records are left out.
- `FulfillmentService.FulfillmentService.Handle`: the row the service answers with is left out, and so is the winner it reads again after losing, since nothing comes between its reading and its commit here; a unit that loses is `FulfillmentRaces.LosingChangesNothing`.
- `QueueStore.LeasedQueue.Settle`: always presents a token; acknowledging under `UNFENCED` is left out.
- `MoneyEffects.AuthorizeIsExact`: serial, like the other commands of that module; what interleaving does to them is `MoneyRaces`.
- `FulfillmentEffects.CompletionIsExact`: serial, like the other commands of that module, and from an office whose records are true, as every serial run leaves it.
- `SubscriptionEffects.ChargeIsExact`: a charge that dies between hold and capture is `SubscriptionBilling.CrashTakesOneHold`, and one that meets somebody else's hold is `SubscriptionRefusals.ChargeThrowsExactlyWhen`.
- `QueueEffects.LeaseRunsOut`: with more abandoned rows than its limit a recovery takes the earliest ones first, and the row may have to wait for another.
- `NotificationEffects.AnsweredIsSentAgainExactlyWhen`: whether a provider drops a repeated message by its idempotency key is up to the provider and not part of this model.
- `NotificationDispatchers.DrainIsARun`: others act around every send of the drain; that they act between its recovery and its claim is a run of the office, but not one of the drain as a loop.

What the model leaves out of the system:

- Timestamps are numbers, and identifiers and tokens are counters with a total order; that a UUID never repeats is assumed of the counter.
- Texts arrive trimmed, and most refusal texts are abbreviated to their kind.
- A wallet's or subscription's owner is one text instead of a type and an id.
- Audit records, metrics, event payloads and correlation ids.
- The HTTP routes, parsing, rate limits, signing, transports and message rendering: foreign calls and text; a send is an arbitrary answer.
- The Postgres adapters other than the idempotency-key table: the in-memory stores state the same rules.
- Plan drafts, feature grants, usage records and the entitlement decision: each is a lookup followed by a comparison.
- Fan-out of notifications to recipients and the recipient registry: the same uniqueness rule as deliveries.
- The inbound store and its replay selection: the same queue and the same cursor shape as the outbox and its revival.
- The revival filter of deliveries, and queue tallies and ages: filters and counters over one table.
- The foreign key from a fulfillment to its hold is checked at intake and not again: holds are never deleted.
- Identity, sessions, organizations and geography.
