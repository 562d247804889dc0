# Verified models of the gokeel messaging, transaction and configuration cores

This project models five parts of gokeel and proves what they promise.

- **The distributed bus** (`sqlbus`). The tables and the meaning of every statement (`SqlBusModel`), the store that
  updates the tables in place (`SqlBusStore`), a node's dispatch loops (`SqlBusDispatcher`), and the whole cluster as
  a state machine (`SqlBusProtocol`): any number of nodes interleave publish, commit, materialize, advance, find,
  claim, settle, resubmit, retention and sweep, each acting on what it captured earlier. Theorems about all runs are
  in `SqlBusSettlement`, `SqlBusFrontier`, `SqlBusRepeats`, `SqlBusRetries`, `SqlBusOvertaking`, `SqlBusOrdering`,
  `SqlBusHandlers` and `SqlBusCompletions`; runs that show why the premises are needed are in `SqlBusWitnesses`. What
  a node's loops do is proved to continue a run of the state machine.
- **The transaction manager** (`transaction`). Work is a program of writes, publications, marks, registrations,
  failures, panics and nested Runs. `TransactionModel` gives it a snapshot semantics that has no savepoints;
  `TransactionManager` is the manager with its savepoint stack, callback slices and guarded phases, proved to compute
  that semantics for every program and every pattern of driver failures. `TransactionLaws`, `TransactionLifecycle`,
  `TransactionOutcomes` and `TransactionPropagation` prove what follows for callers.
- **The outbox** (`outbox`). The guarded statements (`OutboxModel`), the store and the registry with its recovery pass
  (`OutboxRegistry`, `OutboxRecovery`), and any number of dispatchers, resubmitters and archive transactions as a
  state machine (`OutboxProtocol`, `OutboxFencing`, `OutboxArchive`, `OutboxResubmission`, `OutboxListing`). Every
  registry method is proved to continue a run of the state machine.
- **The in-memory broker** (`eventbus`). The queue and dead-letter operations in place (`MemoryBroker`), and the
  goroutines, condition variables, timers, wait group and Stop as a state machine (`BrokerProtocol`, `BrokerWakeup`,
  `BrokerWorkers`, `BrokerConservation`, `BrokerContents`, `BrokerGuarantees`, `BrokerOrder`, `BrokerRaces`).
  `BrokerExecution` runs each critical section on the objects under any schedule, and is proved to continue a run of
  the state machine.
- **Configuration** (`conf`). Placeholder evaluation (`ConfModel`, `ConfResolver`, `ConfLaws`, `ConfReading`) and the
  destructive merge of documents on a heap of shared objects (`ConfTree`, `ConfLoader`).

In the three state machines one SQL statement, or one mutex-held section, is one atomic step, and a run is any finite
sequence of steps. What the environment has to keep is a named premise (`SqlBusProtocol.Premise`): the commit of one
message within the grace of its publication date (`TimelyCommit`) or of all messages (`TimelyCommits`), an age cap
that removes no message with an uncompleted row (`NoUnfinishedDeletion`), no revival of exhausted rows (`NoRevival`),
a registration that persists (`Persists`) or is at least not made below the ceiling of a scan already made
(`CleanRegistration`). All nodes share one clock that never goes back, but may act on times they read earlier, and are
configured with the same lease, grace and budgets. Identifiers and tokens are drawn fresh. Everything not marked with
a premise holds of all runs.

Where the code does less than its prose, the code is kept, a concrete run shows it, and the exact condition is proved:

- A lease steal adds an attempt without looking at the budget, so an attempt counter can pass the maximum
  (`sqlbus/store_sql.go:451-486`): `BudgetCanBeOverrun`, `OverrunOnlyByStealing`.
- A stale resubmission can fence an attempt that started after its observation, against `outbox/store.go:68-73`:
  `StaleResubmissionFencesALaterAttempt`, `StaleResubmissions`.
- A mark made in a before-commit or before-completion callback is not honoured, against
  `transaction/context.go:265-267`: `LateMarkIsNotHonoured`, `MarkHonouredExactly`.
- Only the first Stop waits for the handlers, against `eventbus/broker_memory.go:322-324`: `SecondStopReturnsEarly`. A
  Stop that finds the broker running waits (`FirstStopWaits`); one that finds it stopped keeps the promise iff the
  wait group is at zero when it is called (`LaterStopExactly`).
- The frontier can pass a covered message that has no row, against `sqlbus/dispatcher.go:240-243`:
  `LateCommitStrands`, `ReregistrationStrands`. It happens by exactly two kinds of steps, a commit behind the scan
  without a local row and a registration below a scan already made (`SkippedExactly`, `StrandedExactly`), and over a
  run iff one of these occurs (`NeverSkippedExactly`).
- The claims of a FIFO consumer can go back in publication order, against `sqlbus/message.go:65-72`:
  `ForcedDeletionReorders`. A row falls behind by exactly three kinds of steps, a revival or a creation of it after a
  later message was claimed, and a claim of a later message while the row is undelivered and its message gone
  (`BehindExactly`, over a run `NeverBehindExactly`); the claims are in order iff none is of a row that has fallen
  behind (`FifoOrderExactly`).
- Two handlers of a FIFO consumer can overlap inside their leases, against the same lines: `AgeCapOverlaps`,
  `ReregistrationOverlaps`. They do iff a claim is made beside a running winner whose row was swept (`OverlapExactly`,
  `FifoHandlersExactly`), and a winner drops out of sight by exactly such a sweep (`UnseenExactly`,
  `NeverUnseenExactly`).
- A delivery whose registration does not persist can complete twice: `ReregistrationCompletesAgain`. It does iff a
  settlement completes a row made anew after the completion (`ReopenedExactly`, `NeverReopenedExactly`,
  `OneCompletionExactly`).
- Two publishers can reverse the order of a FIFO consumer of the in-memory broker, against `eventbus/broker.go:14-17`:
  `RacingPublishersReorder`. A delivery is taken after a later one iff it was inserted below one taken already
  (`TakenLateExactly`, `BrokerOrder.FifoOrderExactly`).
- A key that ends in a backslash cannot stand before a default in a placeholder; every other balanced key can
  (`SplitRoundTrip`).
- The merge of documents is not associative: `MergeIsNotAssociative`, `AssociativeExactly`.

## Model

| member | source | states |
|---|---|---|
| SqlBusStore.SqlStore.CreateDeliveries | sqlbus/store_sql.go:146-166 | a publisher's rows and materialized rows for the same key converge: existing rows win |
| SqlBusStore.SqlStore.RegisterConsumer | sqlbus/store_sql.go:193-218 | the first registration is stored as given; a later one keeps boundary, frontier and mode and takes the new heartbeat; other consumers stay |
| SqlBusStore.SqlStore.MaterializeDeliveries | sqlbus/store_sql.go:257-299 | exactly the visible messages of the type from the frontier on that have no row get a pending one |
| SqlBusStore.SqlStore.ExpireBroadcastConsumers | sqlbus/store_sql.go:615-627 | exactly the broadcast registrations with an older heartbeat go; competing ones never expire |
| SqlBusStore.SqlStore.AdvanceFrontier | sqlbus/store_sql.go:306-320 | the frontier becomes the later of the old and the new one, only of a registered consumer; nothing else of any consumer changes |
| SqlBusStore.SqlStore.FindDueDeliveries | sqlbus/store_sql.go:369-419 | the rows that are pending, past their backoff or past their lease, ascending by date and identifier, up to the limit, none skipped; of a FIFO consumer only below the frontier with nothing unfinished before |
| SqlBusStore.FifoFindsOnlyTheHead | sqlbus/store_sql.go:369-374 | a FIFO consumer yields at most its queue head, before which nothing is incomplete |
| SqlBusStore.SqlStore.ClaimDelivery | sqlbus/store_sql.go:451-486 | claims iff the row is pending, past its backoff or past its lease at the observed attempt count; counts the attempt under the new token and date and keeps every other column |
| SqlBusStore.SqlStore.ClaimDeliveryInOrder | sqlbus/store_sql.go:488-522 | additionally claims only if nothing earlier is incomplete and nothing else of the consumer runs under a live lease |
| SqlBusStore.SqlStore.CompleteDelivery | sqlbus/store_sql.go:524-554 | settles iff the row is still processing under this token |
| SqlBusStore.SqlStore.FailDelivery | sqlbus/store_sql.go:556-588 | settles iff the row is still processing under this token: cause and next attempt date are recorded, exhausted from the last attempt on |
| SqlBusStore.SqlStore.ResubmitDelivery | sqlbus/store_sql.go:590-613 | revives failed and exhausted rows with a fresh budget, no others |
| SqlBusStore.SqlStore.DeleteSettledMessages | sqlbus/store_sql.go:629-655 | a message goes iff it is older than the cutoff and every covering consumer has a completed row for it; the others stay as they are |
| SqlBusStore.SqlStore.DeleteOrphanDeliveries | sqlbus/store_sql.go:670-696 | exactly the rows with a message and a registered consumer remain |
| SqlBusDispatcher.Node.Attach | sqlbus/bridge.go:361-375 | a registration at the present time is always clean: it continues the run under any premises, and a repeated one keeps boundary and frontier |
| SqlBusDispatcher.Node.Publish | sqlbus/bridge.go:459-498 | the message and a pending row for each local listener become visible together, nothing else changes, and an immediate commit continues the run under any premises |
| SqlBusDispatcher.StartNode | sqlbus/dispatcher.go:231-284 | from empty tables, attaching and one whole pass continue a run under any premises, with the frontier at the present less the grace |
| SqlBusDispatcher.Node.DispatchDelivery | sqlbus/bridge.go:536-622 | a lost claim changes nothing; a won one leaves the row completed, or exhausted, or failed with its cause and claimable again exactly from the end of the backoff on, or processing if the node shuts down; no other row changes, and the run continues |
| SqlBusDispatcher.Node.DispatchLocal | sqlbus/bridge.go:516-534 | the fast path attempts every fresh row of an unordered listener it was given, reports exactly those that did not succeed, and never touches another row |
| SqlBusDispatcher.Node.Batch | sqlbus/dispatcher.go:258-276 | a batch touches only the found rows, and attempts all of them if no row of a FIFO consumer is running |
| SqlBusDispatcher.Node.ProcessAttachment | sqlbus/dispatcher.go:231-284 | every scanned message has a row, the frontier is at the ceiling captured before the scan; with succeeding handlers a drained pass leaves nothing due and any other completes sixteen batches; all of it continues the run under the same premises |
| SqlBusDispatcher.Node.Maintain | sqlbus/dispatcher.go:329-357 | exactly the expired broadcast registrations go, exactly the messages past the age cap or old and completed by every covering consumer, and exactly the rows without message or consumer |
| SqlBusSettlement.SettlementHolds | sqlbus/store_sql.go:451-613 | over all runs: a processing row carries the attempt count and date its token's holder recorded, a settled token never passes the fence again, statuses and failed settlements stay within the attempt budget |
| SqlBusSettlement.OverrunOnlyByStealing | sqlbus/store_sql.go:451-486 | a claim passes the maximum iff it steals an expired claim whose budget was spent |
| SqlBusSettlement.RowsAreTyped | sqlbus/store_sql.go:257-299 | over all runs, the rows of a listener are for messages of its event type |
| SqlBusRetries.RetryWaitsExactly | sqlbus/store_sql.go:325-330 | over any run, after an attempt refused with budget left the next claim of the row wins iff it is made at the next attempt date or later and its other guards hold, unless the row was resubmitted or swept |
| SqlBusWitnesses.BudgetCanBeOverrun | sqlbus/store_sql.go:451-486 | a run, under any premises, in which the attempt count exceeds the maximum |
| SqlBusSettlement.AtMostOneCompletion | sqlbus/store_sql.go:524-554 | a delivery of a persisting registration completes at most once, across steals, resubmissions, retention and sweeps |
| SqlBusCompletions.ReopenedExactly | sqlbus/store_sql.go:257-299 | a step reopens a completed delivery iff it makes its row anew |
| SqlBusCompletions.NeverReopenedExactly | sqlbus/store_sql.go:257-299 | over any run, a delivery is never reopened iff no step makes its row anew after it completed |
| SqlBusCompletions.OneCompletionExactly | sqlbus/store_sql.go:524-554 | over any run, a delivery completes at most once iff no settlement completes a reopened row |
| SqlBusWitnesses.ReregistrationCompletesAgain | sqlbus/dispatcher.go:302-322 | a run in which a delivery completes twice, its registration removed and made again below it |
| SqlBusRepeats.SweptForGood | sqlbus/dispatcher.go:351-356 | a row swept from a registered consumer had lost its message, and neither the row nor the message is ever there again |
| SqlBusRepeats.RolledBackForGood | sqlbus/store_sql.go:132-166 | a publication rolled back with its transaction never becomes visible and no one gets a row for it |
| SqlBusRepeats.AbandonedIsNeverSettled | sqlbus/bridge.go:584-600 | a claim given up by a node that shuts down is never settled |
| SqlBusFrontier.NothingArrivesBelowTheFrontier | sqlbus/dispatcher.go:237-246 | a message that commits within its grace never becomes visible below a frontier, on any node, ever after |
| SqlBusFrontier.SkippedExactly | sqlbus/store_sql.go:257-320 | a step leaves a covered message without a row behind the scan iff it commits it there without a local row, or registers the consumer below a scan already made |
| SqlBusFrontier.StrandedExactly | sqlbus/store_sql.go:306-320 | a step leaves a covered message without a row below the frontier iff it commits it there without a local row, or advances the frontier over a skipped one |
| SqlBusFrontier.StrandedStays | sqlbus/store_sql.go:257-299 | a stranded message gets no row as long as it and the registration last |
| SqlBusFrontier.NeverSkippedExactly | sqlbus/store_sql.go:257-320 | over any run, a message is never behind the scan without its row iff no step of the run is such a commit or registration |
| SqlBusFrontier.FrontierCompleteness | sqlbus/store_sql.go:257-320 | if this message commits within its grace and the registration is clean, however often removed and made again: a message from the boundary to the frontier that exists or ever becomes visible is visible and has its row |
| SqlBusFrontier.PersistingFrontierCompleteness | sqlbus/store_sql.go:257-320 | the same of every message, with all commits timely and a persisting registration |
| SqlBusWitnesses.FrontierCovers | sqlbus/dispatcher.go:237-246 | a run, under any premises, in which the frontier passes two visible messages |
| SqlBusWitnesses.LateCommitStrands | sqlbus/dispatcher.go:240-243 | without timely commits a message is stranded below the frontier |
| SqlBusWitnesses.ReregistrationStrands | sqlbus/dispatcher.go:302-322 | a registration removed and made again between materialization and advance strands a message |
| SqlBusOrdering.FifoIsSerial | sqlbus/store_sql.go:351-367 | at most one delivery of a FIFO consumer is processing under a live lease, with no premise at all |
| SqlBusOvertaking.BehindExactly | sqlbus/store_sql.go:488-522 | a step lets a row of a FIFO consumer fall behind a claimed later message iff it revives the exhausted row or makes it anew after that claim, or claims a later message while the row is undelivered and its message gone |
| SqlBusOvertaking.NeverBehindExactly | sqlbus/store_sql.go:488-522 | over any run, a row never falls behind iff no step of the run is of the three kinds for it |
| SqlBusOvertaking.FifoOrderExactly | sqlbus/message.go:65-72 | over any run, the claims of a FIFO consumer never go back in (date, identifier) iff no ordered claim wins a row that has fallen behind |
| SqlBusOvertaking.NothingOvertakesKeepsOrder | sqlbus/message.go:65-72 | without the three kinds of steps the claims are in order |
| SqlBusOrdering.FifoClaimsInOrder | sqlbus/store_sql.go:488-522 | with timely commits, no unfinished deletion, no revival and a persisting registration: of two claims of a FIFO consumer the earlier precedes in (date, identifier), or both are of one row and the earlier was settled or its lease ran out |
| SqlBusRepeats.RepeatsAreRetriesOrSteals | sqlbus/store_sql.go:451-522 | a row of a persisting registration is claimed again only after the earlier claim was settled or its lease ran out |
| SqlBusWitnesses.TwoClaimsInOrder | sqlbus/store_sql.go:488-522 | a run, under any premises, with two ordered claims |
| SqlBusHandlers.UnseenExactly | sqlbus/store_sql.go:670-696 | a step hides a running winner from the guards of the ordered claim iff it sweeps its row, the message or the registration being gone |
| SqlBusHandlers.NeverUnseenExactly | sqlbus/store_sql.go:670-696 | over any run, a running winner is never hidden iff no sweep takes its row while it runs |
| SqlBusHandlers.OverlapExactly | sqlbus/store_sql.go:488-522 | a step makes two handlers of a FIFO consumer overlap inside their leases iff it is an ordered claim beside a hidden winner |
| SqlBusHandlers.FifoHandlersExactly | sqlbus/message.go:65-72 | over any run, two handlers of a FIFO consumer never overlap inside their leases iff no ordered claim is made beside a hidden winner |
| SqlBusHandlers.FifoHandlersAreSerial | sqlbus/bridge.go:517-543 | with timely commits, no unfinished deletion and a persisting registration: two unsettled claims of a FIFO consumer whose leases are both live are the same claim |
| SqlBusWitnesses.AgeCapOverlaps | sqlbus/dispatcher.go:345-356 | a run in which the age cap and a sweep let two handlers of a FIFO consumer overlap |
| SqlBusWitnesses.ReregistrationOverlaps | sqlbus/dispatcher.go:302-322 | a run in which the same delivery runs twice at once, its registration removed, swept and made again |
| SqlBusWitnesses.ForcedDeletionReorders | sqlbus/store_sql.go:488-522 | the ordered claim does not look at the message again, so the age cap can reverse two claims |
| TransactionManager.SortByOrder | transaction/context.go:214-218 | the in-place sort gives the hooks of the phase by order, ties by registration |
| TransactionOrder.OrderedIsOrdered | transaction/context.go:81-86 | the callback order is exactly the hooks of the phase, strictly by (order, registration) |
| TransactionOrder.OrderIsUnique | transaction/context.go:214-218 | membership and order determine the callback sequence |
| TransactionManager.DriverTransaction.RollbackTo | transaction/manager.go:276-283 | goes back to the rows of the named savepoint and drops the later ones |
| TransactionManager.Manager.RunInside | transaction/manager.go:66-104 | any program inside a unit of work, run with savepoints, equals the snapshot semantics |
| TransactionManager.Manager.Participate | transaction/manager.go:106-140 | a joining Run never begins or commits; its fatal error dooms the unit, an incompatible option does not |
| TransactionManager.Manager.RunNested | transaction/manager.go:253-295 | savepoint, rollback-to and release equal going back to the rows the step started from, also when release or rollback-to fails |
| TransactionManager.Manager.RunNew | transaction/manager.go:142-229 | begin, guarded phases, commit or rollback and the after phases equal the snapshot semantics for every failure pattern |
| TransactionManager.Manager.RunOutside | transaction/manager.go:66-104 | any program run without an active transaction equals the snapshot semantics |
| TransactionPropagation.OutsideTable | transaction/manager.go:65-104 | without an active transaction: Supports and Never run the work as it is, Mandatory and an invalid timeout are refused, and a failed begin leaves everything as it was |
| TransactionPropagation.InsideTable | transaction/manager.go:65-140 | inside one: Never and incompatible options are refused, Required, Supports and Mandatory join, and the unit is doomed iff it was or the error is fatal |
| TransactionPropagation.NestedTable | transaction/manager.go:253-295 | a nested Run keeps what unfailing work wrote; a fatal error brings the rows back, or dooms the unit if that fails |
| TransactionPropagation.BeginsFirst | transaction/manager.go:142-162 | a Required or Nested Run without an active transaction begins one before anything else happens |
| TransactionPropagation.Settlement | transaction/manager.go:171-229 | the database when the after phases begin: as the before phases left it iff the Run commits, as before the Run if it rolls back or the commit is lost |
| TransactionPropagation.FailedWorkIsUndone | transaction/manager.go:164-208 | work that panics, is marked or fails fatally is reported and undone |
| TransactionPropagation.RunReports | transaction/manager.go:195-229 | which panic or which errors the caller gets, exactly |
| TransactionPropagation.RollbackRules | transaction/definition.go:83-105 | every error rolls back without rules, a no-rollback rule alone commits, a rollback rule wins |
| TransactionPropagation.WriteIsKept | transaction/manager.go:142-229 | a write of a transaction that commits is there afterwards and nothing else changed |
| TransactionPropagation.AfterCallbackWrites | transaction/context.go:149-218 | a callback registered for an after phase runs after the settlement, outside the transaction |
| TransactionPropagation.VetoUndoes | transaction/manager.go:178-190 | the error of a before-commit callback undoes the work and comes back |
| TransactionPropagation.CompletionErrorIsIgnored | transaction/context.go:166-182 | the error of a before-completion callback is ignored and the work is committed |
| TransactionPropagation.ControlTable | transaction/manager.go:66-104 | work stops at its first failure; an error that is swallowed does not stop it, a panic does |
| TransactionPropagation.PublicationIsHandled | outbox/publisher.go:56-76 | a publication of a transaction that commits is committed with it and handled once after it |
| TransactionLaws.InsideExtends | transaction/context.go:88-121 | inside a unit marks and registrations are never taken back, and every drafted publication is in the rows or lost, never both |
| TransactionLaws.NoHandlerForUndoneWork | outbox/publisher.go:56-76 | a handler runs only for a committed publication, at most once, never for one rolled back with its transaction or savepoint |
| TransactionOutcomes.CommittedIsHandled | outbox/publisher.go:56-76 | after a successful commit every publication drafted and not undone has been handed to its handler |
| TransactionLifecycle.Lifecycle | transaction/manager.go:164-229 | the callback trace of a begun transaction has the documented phases in order, one settlement, after-commit once each iff committed, after-completion once each with the true status; nil implies committed |
| TransactionOutcomes.EveryTransactionSettles | transaction/manager.go:164-229 | over any program every begun transaction settles exactly once before the next begins, and no handler runs while one is open |
| TransactionOutcomes.DoomedUnitNeverCommits | transaction/manager.go:175-176 | a unit doomed at any point of its work rolls back, keeps none of its writes and reports an error, whatever follows |
| TransactionOutcomes.FatalJoinDoomsThroughNested | transaction/manager.go:106-123 | a fatal join inside a nested step dooms the whole unit even if the error is swallowed and the step undone |
| TransactionOutcomes.NestedFailureIsContained | transaction/manager.go:258-295 | a failed nested step discards exactly its own writes, or dooms the unit when rolling back to the savepoint fails |
| TransactionOutcomes.MarkHonouredExactly | transaction/manager.go:171-194 | of the marked units that nothing else rolls back, exactly those marked by the time their work returned roll back |
| TransactionOutcomes.LateMarkIsNotHonoured | transaction/manager.go:175-194 | a unit marked inside a before-commit or before-completion callback commits |
| OutboxRegistry.OutboxStore.ClaimProcessing | outbox/store_sql.go:183-202 | claims iff published or resubmitted at that generation; the generation stays |
| OutboxRegistry.OutboxStore.MarkFailed | outbox/store_sql.go:204-217 | settles iff processing at that generation |
| OutboxRegistry.OutboxStore.MarkCompleted | outbox/store_sql.go:219-247 | settles by the completion mode iff processing at that generation |
| OutboxRegistry.OutboxStore.Archive | outbox/store_sql.go:249-308 | undisturbed, the three statements move the row and never overwrite an archive entry |
| OutboxRegistry.OutboxStore.MarkResubmitted | outbox/store_sql.go:310-339 | re-enters delivery under the next generation iff still at the observed one and not completed |
| OutboxRegistry.OutboxStore.FindIncomplete | outbox/store_sql.go:355-381 | exactly the uncompleted rows, with a reference only those whose last attempt, or publication where there is none, is before it, once each in publication order |
| OutboxRegistry.Registry.Publish | outbox/registry.go:52-94 | one claimable first-generation row per subscribed listener, nothing else changes, and the run continues by drafts and commits |
| OutboxRegistry.Registry.DispatchOne | outbox/registry.go:110-144 | the winner of the claim settles its handler's outcome, a loser changes nothing and reports nothing; both are steps of one task that continue the run |
| OutboxRegistry.Registry.Dispatch | outbox/registry.go:96-108 | over any pending publications, exactly those it could claim and whose listener failed are reported, and the run continues |
| OutboxRegistry.Registry.ResubmitIncomplete | outbox/registry.go:155-213 | the pass observes the listed rows, recovers each as it was listed, reports exactly the undecodable and failing ones, and continues the run |
| OutboxListing.ListedExactly | outbox/store_sql.go:364-380 | over any run, a listing with a reference holds exactly the uncompleted publications whose latest draft, claim or resubmission is before it |
| OutboxRecovery.RecoveryPassRows | outbox/registry.go:161-213 | what the pass makes of each row, whatever the order and the four incomplete states |
| OutboxRecovery.RecoveryLeaves | outbox/registry.go:161-213 | a row is incomplete after a pass iff it was before and was not considered, not decodable or its listener failed |
| OutboxRecovery.RecoveryLosesNothing | outbox/store_sql.go:219-308 | a row leaves the table only by completing, into the archive in archive mode |
| OutboxFencing.GenerationFencing | outbox/store_sql.go:173-247 | over all runs each generation is claimed, handled and settled at most once, only by its claimant and with its handler's outcome; a publication completes at most once and leaves or is completed only by completing |
| OutboxArchive.ArchiveConservation | outbox/store_sql.go:249-308 | every committed publication is in exactly one table at every moment, and is archived iff it completed, under the generation that completed |
| OutboxArchive.ArchiveMovesTheRow | outbox/store_sql.go:275-306 | the commit of an archive transaction moves exactly the row it deletes, whatever ran since it was read |
| OutboxArchive.RunsGoOnward | outbox/store_sql.go:310-339 | the attempt counter never decreases, also into the archive; events never change; rows that left never return |
| OutboxResubmission.StaleResubmissions | outbox/store_sql.go:310-339 | each generation is left at most once and the counter counts these; a resubmission fences a later attempt iff it observed published and the row is processing |
| OutboxResubmission.StaleResubmissionFencesALaterAttempt | outbox/store.go:65-73 | a run in which a stale resubmission fences an attempt claimed after the observation |
| BrokerModel.InsertedInOrder | eventbus/broker_memory.go:80-96 | inserting the latest arrival keeps the queue by date with ties in arrival order |
| BrokerModel.InsertedMembers | eventbus/broker_memory.go:80-96 | the insertion adds the delivery and keeps all others |
| BrokerModel.OrderIsUnique | eventbus/broker_memory.go:80-96 | contents and order determine the queue |
| MemoryBroker.MemoryConsumer.Enqueue | eventbus/broker_memory.go:84-96 | growing, shifting and filling the gap in place is the ordered insertion |
| MemoryBroker.MemoryConsumer.Await | eventbus/broker_memory.go:97-111 | pops the head, blocks on an empty queue, leaves once stopped |
| MemoryBroker.DeadLetters.Resubmit | eventbus/broker_memory.go:286-320 | takes out the first letter with the reference, so a second call finds none |
| MemoryBroker.DeadLetters.FindExhausted | eventbus/broker_memory.go:273-284 | the oldest letters up to the limit |
| BrokerExecution.Broker.Await | eventbus/broker_memory.go:97-111 | under any schedule the section continues the run, and the delivery a worker takes precedes all that it leaves in the queue |
| BrokerExecution.Broker.Enqueue | eventbus/broker_memory.go:80-96 | under any schedule the section continues the run, the queue gains the delivery and is in publication order, ties by arrival |
| BrokerExecution.Broker.Park | eventbus/broker_memory.go:256-271 | the letter gets a reference no other letter has, and the run continues |
| BrokerExecution.Broker.Resubmit | eventbus/broker_memory.go:286-320 | revives iff the broker runs and the reference is known; the letter's consumer is registered, and afterwards no letter has the reference |
| BrokerExecution.Broker.Stop | eventbus/broker_memory.go:322-343 | the call will wait iff it is the first, and the run continues |
| BrokerWakeup.NoLostWakeup | eventbus/broker_memory.go:50-119 | while a worker sleeps, ready deliveries are matched by woken workers and signals still to be sent; no worker sleeps through a stop |
| BrokerWakeup.BoundedConcurrency | eventbus/broker_memory.go:121-153 | a FIFO consumer works on one delivery at a time, an unordered one on at most its workers |
| BrokerWorkers.WorkersAreStarted | eventbus/broker_memory.go:121-153 | until the broker stops, exactly the configured number of workers of an unordered consumer live, and one of a FIFO consumer |
| BrokerWorkers.ReadyWorkIsServed | eventbus/broker_memory.go:50-153 | while a consumer with workers has ready deliveries, some worker of it is busy, polling, woken or owed a signal |
| BrokerWorkers.RetriesWaitInPlace | eventbus/broker_memory.go:202-225 | over all runs, the retries of a FIFO consumer wait in its worker and those of an unordered one in timers |
| BrokerWorkers.HandlerTable | eventbus/broker_memory.go:202-225 | a delivery is done, parked from the last attempt on, retried in place or by a timer |
| BrokerWakeup.WaitGroupDiscipline | eventbus/broker_memory.go:227-242 | the counter equals the live workers and retry timers, and is never raised from zero once stopped |
| BrokerWakeup.StopQuiescence | eventbus/broker_memory.go:322-343 | after the waiting Stop returned, in every later state no worker or timer lives and no handler runs or can start |
| BrokerWakeup.FirstStopWaits | eventbus/broker_memory.go:322-343 | a Stop that finds the broker running returns only after waiting, and no worker or timer lives and none can start from then on |
| BrokerWakeup.LaterStopExactly | eventbus/broker_memory.go:325-330 | a Stop that finds the broker stopped returns at once; every later state is quiet iff the wait group was at zero at the call |
| BrokerGuarantees.SecondStopReturnsEarly | eventbus/broker_memory.go:325-330 | a run in which a second Stop returns while a handler still runs |
| BrokerGuarantees.EveryDeliveryInOnePlace | eventbus/broker_memory.go:158-271 | each delivery is in exactly one place, and none is dropped before the broker is cancelled |
| BrokerGuarantees.QueuesInPublicationOrder | eventbus/broker_memory.go:80-111 | queues stay sorted by publication date with ties in arrival order, and hold only deliveries of their consumer |
| BrokerOrder.BehindExactly | eventbus/broker_memory.go:80-111 | a step leaves a delivery waiting after a later one was taken iff it inserts it below one taken already |
| BrokerOrder.TakenLateExactly | eventbus/broker_memory.go:80-111 | a delivery is taken after one published later iff an insertion of the run put it below one taken already |
| BrokerOrder.FifoOrderExactly | eventbus/broker.go:14-17 | over any run, the deliveries of a consumer are taken by ascending publication date iff none of those taken was inserted below one taken already |
| BrokerRaces.RacingPublishersReorder | eventbus/broker_memory.go:158-179 | a run in which two publishers reverse the order of a FIFO consumer |
| BrokerGuarantees.DeadLettersAreExhausted | eventbus/broker_memory.go:256-271 | a dead letter consumed exactly the budget of a registered consumer, and a reference is revived at most once |
| BrokerGuarantees.AttemptsWithinBudget | eventbus/broker_memory.go:202-225 | no handler call exceeds the attempt budget |
| ConfResolver.PlaceholderAt | conf/placeholder.go:102-119 | finds the brace that closes the placeholder, or none |
| ConfResolver.SplitPlaceholder | conf/placeholder.go:147-178 | cuts at the first separating colon |
| ConfResolver.Resolver.ResolveText | conf/placeholder.go:67-100 | the loop over the builder computes the resolution and restores the visited keys on every exit |
| ConfResolver.Resolver.ResolvePlaceholder | conf/placeholder.go:121-145 | key, value and default in turn, with the visited keys restored on every exit |
| ConfLaws.SuccessIsIndependent | conf/placeholder.go:67-145 | a successful result does not depend on the keys in progress |
| ConfLaws.CyclesAreExact | conf/placeholder.go:25-31 | a cycle is reported iff following the references would never end; otherwise the answer is that of following them |
| ConfLaws.PiecesAreBalanced | conf/placeholder.go:102-178 | the content of a placeholder, its key and its default have balanced braces |
| ConfLaws.BalancedContentIsRead | conf/placeholder.go:102-119 | a balanced content is read back whole, whatever follows it |
| ConfLaws.SplitRoundTrip | conf/placeholder.go:147-178 | any balanced key with protected colons and any default are split back, unless the key ends in a backslash and has a default: then no content at all is split into them |
| ConfLaws.EscapedTextIsLiteral | conf/placeholder.go:73-80 | a text with each prefix escaped resolves to itself |
| ConfReading.PlaceholderInText | conf/placeholder.go:67-100 | what precedes a placeholder, its value and what follows it stand in this order, and the leftmost error is reported |
| ConfReading.PlaceholderValue | conf/placeholder.go:121-145 | a key in the lookup gives its value resolved whatever the default, another its default resolved, one without default is reported |
| ConfReading.OpenPrefixIsText | conf/placeholder.go:82-87 | a prefix that never closes is text, with all that follows it |
| ConfTree.LayeredLookup | conf/loader.go:119-124 | after folding any documents, any path gives the answer of the last document that decides it |
| ConfTree.OtherValuesReplace | conf/loader.go:209-222 | a value that is not an object replaces what is beneath it, lists included |
| ConfTree.AtExactly | conf/loader.go:244-262 | the value at a path is the one its segments lead to, object by object |
| ConfTree.AssociativeExactly | conf/loader.go:209-222 | overlaying is associative on three trees iff no value between two objects cuts off something that the last does not bring again |
| ConfTree.MergeIsNotAssociative | conf/loader.go:209-222 | three documents on which the two groupings differ |
| ConfTree.SegmentsRoundTrip | conf/loader.go:276-289 | the segments are dot-free and give the path back |
| ConfTree.DottedRoundTrip | conf/loader.go:276-289 | any dot-free segments are read back from their path |
| ConfLoader.SplitPath | conf/loader.go:276-289 | the index loop yields the segments |
| ConfLoader.MergeTree | conf/loader.go:209-222 | the in-place merge of two object trees leaves the overlay of their values, and changes nothing but the base and its own objects |
| ConfLoader.DocumentValue | conf/loader.go:244-274 | walking the objects gives the scalar at the path: text and digits as they are, booleans by name, and nothing for objects, lists and null |
| ConfLoader.Load | conf/loader.go:146-163 | the fold over the sources gives the overlay of the readable documents without the root schema key, or the first error that is not a missing optional file |
| ConfLoader.CollectedExactly | conf/loader.go:146-163 | a load fails iff some source fails other than an optional one that is missing, with the error of the first such |
| ConfLoader.CollectedInOrder | conf/loader.go:146-163 | the readable documents take part in the order of their sources |
| ConfLoader.LookUp | conf/loader.go:146-163 | loading and then walking a dotted path gives the answer of the last readable document that decides the path, the root schema key aside |

## Left out

- PostgreSQL isolation anomalies, clock skew between nodes and driver errors other than a failed begin, savepoint, rollback-to, release, rollback or commit: statements are atomic and the cluster shares one clock.
- SqlBusDispatcher.Node.ProcessAttachment: the clock stands still during one pass of a node; other nodes and time passing between its statements are covered by the state machine, not by this method.
- The mode arbitration of RegisterListenerMode, Attach and Detach with their mutex-held slices, heartbeats on their own cadence and the poll loop: they decide who calls the modelled operations, and keep no invariant of the tables.
- Timestamps as text: times are integers, as the fixed-width layout intends.
- TransactionManager.Manager.RunNew: callbacks are lists of primitive actions, so a callback that opens a nested Run is not modelled; a timeout is an ordinary work failure.
- The six callback slices are one map from phase to indices over one list of hooks; savepoint names are their counters.
- Execution listeners, RunResult, context plumbing and logging: observation only.
- TransactionManager.Manager.HandlePublication: the outbox inside the transaction model is reduced to a row that is published or handled; its generations are in the outbox modules.
- OutboxRegistry.OutboxStore.Archive: the sequential method has no rollback to show; OutboxProtocol interleaves the statements of any number of archive transactions and rolls them back.
- Asynchronous dispatch is any interleaving of tasks in OutboxProtocol; its timeout is a task that crashes.
- The order in which a condition variable wakes its waiters: a signal may wake any of them.
- Duplicate subscription identifiers and the matching of events to consumers: Publish is given its distinct targets.
- ConfModel.Resolve: the lookup is a finite map; relaxed environment names, which give one variable many names, and the precedence of the environment over the document are not part of this model.
- resolveTree, the typed binding and the schema generation: they work by reflection and on third-party code that is not part of this model, or recurse once per node.
- ConfLoader.Load: decoding is the caller's, as object trees that share nothing.
- SQL rendering, serialization, migrators and the documentation site: plumbing.
