# Invoice ledger, outbox pipeline and merchant scope, verified

This project models the logic of a multi-merchant invoicing platform and proves what its services rely on.
It covers three coupled state machines and two algorithmic pieces beneath them.

**The money ledger.** Captures, refunds, manual status changes and idempotent creations run as concurrent
transactions over invoices, payments, refunds, receipts, idempotency records, audit and outbox.
`Ledger` says what each request does when it runs alone; `LedgerService` is the two services as a class over
mutable tables, proved against it. `LedgerInvariants` has the invariant that ties statuses, sums, versions,
the event log and the audit log together. `Concurrency` runs any number of requests one statement at a time,
with only the row locks, version guards and unique keys that the code itself uses, and with aborts anywhere;
`ConcurrencyProof` shows that every statement moves the database by one whole atomic operation or not at all.
`LedgerTheorems` draws the consequences for clients and auditors. `LedgerAnswers` writes out, in the columns of the
tables, when each request is accepted, what it then leaves behind and how it is refused otherwise.
`LedgerSchedules` has schedules of one request at a time.

**From event to delivery.** `Pipeline` interleaves relays with 30 s leases, a queue that may be wiped at any
time, workers that retry, and retention. `PipelineProof` has what holds in every run. The other guarantees are
stated for one event at a time, under conditions on the steps that concern this event (`PipelineDelivery.Care`):
a wipe stops its processor, a look-up of earlier deliveries does not fail once a success is recorded, a success is
not committed and then reported as failed, last failures are reported, nothing comes between an accepted send and
its record, a send is not accepted by the provider and then seen to fail. Each theorem asks only for the ones it needs: `PipelineDelivery`, `PipelineBounds`, `PipelineTheorems`,
`PipelineFinished` and `PipelineOnce` have the theorems, and `PipelineCounterexamples` has a run for each condition
of each of them, in which its other conditions hold and the conclusion fails. `OutboxRelay` and `Processor` are the
relay and the job processor as classes, one call at a time; `OutboxRefinement` and `Processor` prove each call to
be a run of the interleaved machine, so that one made in a reachable state ends in a reachable state.
`OutboxLeases` writes out how long a lease lasts and what the machine's relays and retention write.
`OutboxDrain` has the effect of one poll and the drain bound, `Retention` the batched purges and how long each
table keeps its rows.

**Merchant scope** (`MerchantScope`): the bounded upward walk and the bounded downward search, both proved
against one relation over parent links that may contain cycles, and compared.

**Pure pieces.** `CanonicalJson*`: the fingerprint text, a parser that recovers the key-sorted value from it,
and its consequence that two texts agree exactly for values equal up to object key order; `CanonicalJsonText` writes
the text out in code units. `InvoiceMath`:
invoice arithmetic in doubles against exact integers, for any rounding that is monotone and exact on numbers a
53-bit significand holds (integers, and multiples of 2^-14, up to the bound).

## What turned out false of the code

- *A SUCCEEDED record is never overwritten.* `SuccessChangesExactly` says when it is: exactly when a processor of the
  same event and attempt number reports a failure. That happens to a processor that outlives a wiped queue
  (`SurvivorLosesSuccess`), in a redelivered job whose first query fails (`FailedLookUpLosesSuccess`), and, since the
  success is written inside the `try` block, when its upsert commits but its acknowledgement is lost
  (`UnheardSuccessIsLost`; at the last attempt the success becomes DEAD_LETTERED, `UnheardSuccessIsDeadLettered`).
  Without these three it never happens (`SuccessIsKept`). `TerminalityIsLostExactly` gives the exact step in which
  an event stops being terminal.
- *No send starts once a success is recorded, and an event has at most `maxAttempts` settled attempts between wipes.*
  The first fails for a processor that outlives a wiped queue (`SurvivorSendsTwice`), and otherwise holds
  (`NoSendAfterSuccess`). The second fails for such a processor (`SurvivorExceedsAttempts`) and when a look-up fails
  after a success (`FailedLookUpExceedsAttempts`), and otherwise holds while the event's outbox row exists (`AttemptsAreBounded`).
- *At most one send per event succeeds.* docs/ARCHITECTURE.md says that duplicate delivery is blocked by event ID. It
  is not when the provider accepts but its answer is late or lost: sends are given up after five seconds, the attempt
  is reported as failed, and the next one is accepted as well (`UnheardSendSendsTwice`). Nor is it when a processor
  outlives a wipe (`SurvivorSendsTwice`), a look-up fails after a success (`FailedLookUpLosesSuccess`), or something
  comes between an accepted send and its acknowledged record (`UnheardSuccessIsLost`, `RefusedRecordSendsTwice`,
  `CrashSendsTwice`, `WipeSendsTwice`). Without all of these it is, while the event's outbox row exists (`AcceptedOnce`).
- *A purged receipt's body is always refused by the event-time window.* True from 91 days of retention on
  (`PurgedBodyRefused`), false for every setting up to 90 (`ShortRetentionReadmits`), and 90 is configurable.
  Money still never moves twice (`AppliedBodyNeverApplies`).
- *The two authorization algorithms agree.* The walk takes 15 parent steps, the search 16. They differ exactly on
  merchants whose nearest path to the actor is 16 long (`AcceptedIsListed`, `DeepChainDisagrees`).
- *A claimable event with k claimable rows at or before it is published within ceil(k / 25) polls.* Older rows whose
  back-off ends meanwhile go first (`BackedOffRowsCount`). An event that waits is published after n polls exactly
  when some poll m of them, counted from 0, finds fewer than 25 (m + 1) of the rows that were before it claimable
  (`DrainExactly`); the bound holds when k counts the rows that are claimable by the last poll (`DrainBound`).
- *A finished job always has a terminal record.* For every maximum there is a run in which the last failure report
  cannot be written and the failed job hides the event (`UnreportedFailureHides`). A last failed attempt leaves a
  terminal record exactly when it is reported (`LastFailureHides`), and a finished job has one whenever the last
  failures of its own event were (`FinishedMeansRecorded`).

## Model

| member | source | states |
|---|---|---|
| ConcurrencyProof.StepIsAtomic | apps/api/src/payments/payment.service.ts:79-120 | whatever statement of whatever request runs next, the database and the replies move by one whole atomic operation or not at all |
| ConcurrencyProof.Run | apps/api/src/payments/payment.service.ts:281-288 | after any schedule the committed database is the serial replay of the replies in commit order, each reply being the one its operation gives alone |
| ConcurrencyProof.CaptureIsAtomic | apps/api/src/payments/payment.service.ts:141-176 | sums read under the invoice lock and the earlier "no duplicate" reads are still exact when a capture commits |
| ConcurrencyProof.RefundIsAtomic | apps/api/src/payments/payment.service.ts:208-255 | the same for a refund, including that its guarded payment update always matches |
| ConcurrencyProof.ChangeIsAtomic | apps/api/src/invoices/invoice.service.ts:194-214 | a matching version means the status read without a lock is still current |
| ConcurrencyProof.CreationIsAtomic | apps/api/src/invoices/invoice.service.ts:132-140 | a creation that reaches its commit is the one the atomic ledger would make |
| ConcurrencyProof.ApplyFrame | database/migrations/002_payment_operations.sql:48 | the rows a commit writes are covered by its locks, so no other transaction's view changes |
| LedgerService.Tables.CapturedTotal | apps/api/src/payments/payment.service.ts:328-334 | the loop computes the captured sum of one invoice |
| LedgerService.Tables.RefundedTotal | apps/api/src/payments/payment.service.ts:336-342 | the loop computes the refunded sum of one invoice |
| LedgerService.Tables.HandleWebhook | apps/api/src/payments/payment.service.ts:46-121 | tables and reply are those of the atomic ledger, for every outcome |
| LedgerService.Tables.Capture | apps/api/src/payments/payment.service.ts:135-199 | tables and reply are those of the capture decision |
| LedgerService.Tables.Refund | apps/api/src/payments/payment.service.ts:201-279 | tables and reply are those of the refund decision |
| LedgerService.Tables.Transition | apps/api/src/invoices/invoice.service.ts:188-257 | tables and reply are those of the atomic ledger |
| LedgerService.Tables.Create | apps/api/src/invoices/invoice.service.ts:43-151 | tables and reply are those of the atomic ledger |
| LedgerAnswers.TransitionExactly | apps/api/src/invoices/invoice.service.ts:194-256 | a manual move is accepted exactly to CANCELLED from DRAFT or ISSUED, or to PAID from ISSUED or PARTIALLY_PAID, by an authorized actor with the current version; the rows it leaves, and every refusal |
| LedgerAnswers.UnsoundIsRefused | apps/api/src/payments/payment.service.ts:55-77 | a webhook of another provider, unsigned, or outside 90 days back and 5 minutes ahead is refused in that order and changes nothing |
| LedgerAnswers.AppliedEventIsKnown | apps/api/src/payments/payment.service.ts:80-88 | once an event is applied and its receipt not purged, a webhook with its ID is a duplicate exactly when its body is the same, is refused otherwise, and changes nothing |
| LedgerAnswers.CaptureExactly | apps/api/src/payments/payment.service.ts:141-198 | when a capture is accepted, with which rows and status, and with which error it is refused otherwise |
| LedgerAnswers.RefundApplied | apps/api/src/payments/payment.service.ts:230-278 | the rows and the status that a refund that is not refused leaves |
| LedgerAnswers.RefundRefused | apps/api/src/payments/payment.service.ts:215-228 | the refusals of a refund, in order, none of which changes anything |
| LedgerAnswers.RefundWithoutPayment | apps/api/src/payments/payment.service.ts:207-215 | a refund without a refund ID, or of no known payment, is refused |
| LedgerAnswers.KnownKey | apps/api/src/invoices/invoice.service.ts:54-60 | under a known key the same request gets the recorded reply, another one is refused, and nothing changes |
| LedgerAnswers.CreationApplied | apps/api/src/invoices/invoice.service.ts:62-150 | the invoice, numbered lines, event, audit row, record and reply of a creation that is not refused |
| LedgerAnswers.CreationRefused | apps/api/src/invoices/invoice.service.ts:62-63 | an unauthorized, unacceptable or unstorable creation is refused and changes nothing |
| LedgerAnswers.PurgeExactly | apps/worker/src/main.ts:154-169 | a pass removes exactly the named receipts and records whose days are over |
| LedgerInvariants.AtomicKeeps | apps/api/src/payments/payment.service.ts:142-176 | every operation, whatever its outcome, keeps the ledger invariant |
| LedgerTheorems.EveryScheduleKeepsTheLedger | apps/api/src/payments/payment.service.ts:208-255 | in every reachable state of every schedule the ledger is a serial replay and satisfies the invariant |
| LedgerTheorems.StatusMeansMoney | apps/api/src/payments/payment.service.ts:218-251 | refunded ≤ captured ≤ total, and what each status says about the sums; REFUNDED exactly when every payment is fully refunded; PAID means captured = total without manual moves |
| LedgerTheorems.HistoryAndVersion | packages/domain/src/index.js:3-11 | every status history follows the pairs of the table, written out, up to repetition, version = number of events ≤ 2·total + 2, the last event has the current status, events and audit rows pair up |
| LedgerTheorems.OneCreationPerRecord | database/migrations/001_initial_schema.sql:75 | creations under a key equal its purged records plus one if a record is there now |
| LedgerTheorems.RepliesIdentical | apps/api/src/invoices/invoice.service.ts:154-162 | two successes under one unpurged key answer the same fingerprint with the identical response, and nothing was created in between |
| LedgerTheorems.CreationEffect | apps/api/src/invoices/invoice.service.ts:67-149 | a committed creation adds one invoice, its lines, one event, one audit row and one record, and touches nothing else |
| LedgerTheorems.MoneyMovesOnce | apps/api/src/payments/payment.service.ts:147-168 | no payment or refund ID is applied twice, and per invoice the tables hold exactly the money the replies announced |
| LedgerTheorems.PurgedBodyRefused | apps/api/src/payments/payment.service.ts:71-77 | with 91 days of receipts or more, an applied body whose receipt is gone is refused by the event-time window |
| LedgerSchedules.ShortRetentionReadmits | apps/worker/src/config.ts:48-50 | for every shorter retention there is a schedule after which such a body passes the window again |
| LedgerSchedules.CreationRuns | apps/api/src/invoices/invoice.service.ts:53-151 | a creation that runs alone, and that the atomic ledger would commit, commits with its effect and reply |
| LedgerSchedules.CaptureRuns | apps/api/src/payments/payment.service.ts:79-102 | the same for a capture |
| LedgerSchedules.RefundRuns | apps/api/src/payments/payment.service.ts:201-279 | the same for a refund |
| LedgerSchedules.ChangeRuns | apps/api/src/invoices/invoice.service.ts:194-256 | the same for a manual transition |
| LedgerTheorems.AppliedBodyNeverApplies | apps/api/src/payments/payment.service.ts:225-228 | an applied body never commits again, receipts purged or not |
| PipelineProof.NothingStranded | apps/worker/src/outbox-relay.ts:29-97 | in every run each committed event was purged after a terminal record, or is terminal, or will be claimable after lease and back-off, or is a reconciliation candidate |
| PipelineProof.RowsWellFormed | apps/worker/src/outbox-relay.ts:44-57 | PROCESSING exactly with a lease, PUBLISHED exactly with a publication time, and a published event was really queued |
| PipelineTheorems.PublishedForGood | apps/worker/src/outbox-relay.ts:70-93 | a published row is the same row in every later state, or was purged after a terminal record and does not come back |
| PipelineProof.OnlyCommittedEventsTravel | apps/worker/src/outbox-relay.ts:37-43 | no job, attempt, send or relay memory is about an event that was not committed |
| PipelineProof.EveryRun | apps/worker/src/main.ts:56-65 | RETRYING is recorded only below the maximum, DEAD_LETTERED only at it, and job counters stay within it, in every run |
| PipelineDelivery.AloneInRun | apps/worker/src/main.ts:35-46 | if wipes stop the event's processor, its processor holds its job alone, with the job's attempt number, and sends only while no delivery is recorded |
| PipelineDelivery.NoSendAfterSuccess | apps/worker/src/main.ts:39-46 | then no send starts or is under way once a success is recorded, and no two processors work for the event, whatever look-ups and writes fail |
| PipelineBounds.AttemptsAreBounded | apps/worker/src/main.ts:37-67 | if also no look-up fails after a success, the event has at most `maxAttempts` settled attempts between wipes while its outbox row exists |
| PipelineTheorems.TerminalityIsLostExactly | apps/worker/src/main.ts:56-65 | with its row present, an event stops being terminal in exactly one kind of step |
| PipelineTheorems.SuccessChangesExactly | apps/worker/src/main.ts:47-65 | a SUCCEEDED row changes exactly when a failure of its event and attempt is reported, becoming RETRYING or DEAD_LETTERED, or retention removes it |
| PipelineTheorems.SuccessIsKept | apps/worker/src/main.ts:47-54 | with wipes that stop the processor, no failed look-up after a success and no unheard success, a SUCCEEDED row changes exactly when retention removes it, after its outbox row |
| PipelineTheorems.TerminalUntilPurged | apps/worker/src/main.ts:123-153 | under the same conditions an event that has had a terminal record stays terminal while its outbox row exists |
| PipelineFinished.FinishedMeansRecorded | apps/worker/src/main.ts:56-67 | if the event's own last failures are reported, its completed or failed job means that it has had a terminal record, whatever is wiped, survives or fails |
| PipelineFinished.LastFailureHides | apps/worker/src/main.ts:56-67 | a last failed attempt leaves a failed job that every add runs into, and a terminal record exactly when it is reported |
| PipelineFinished.FinishedNeverHides | apps/worker/src/outbox-relay.ts:129-137 | if wipes also stop its processor, a reconciliation candidate never has a finished job, whatever look-ups and writes fail |
| PipelineOnce.AcceptedOnce | apps/worker/src/main.ts:46-54 | with wipes that stop the processor, no failed look-up after a success, nothing between an accepted send and its record and no accepted send that is seen to fail, an event is accepted at most once while its outbox row exists, and exactly once when a success is recorded |
| PipelineCounterexamples.UnheardSendSendsTwice | apps/worker/src/provider.ts:50-59 | only a send is accepted and seen to fail: the next attempt is accepted and recorded as well |
| PipelineCounterexamples.FailedLookUpLosesSuccess | apps/worker/src/main.ts:39-41 | only a look-up fails: the success is replaced, the event is not terminal, and it is accepted twice |
| PipelineCounterexamples.FailedLookUpExceedsAttempts | apps/worker/src/main.ts:37 | only a look-up fails: `maxAttempts` + 1 settled attempts, for every maximum |
| PipelineCounterexamples.SurvivorSendsTwice | apps/worker/src/main.ts:39-46 | a processor outlives a wipe: a send is under way after a recorded success, and two are accepted |
| PipelineCounterexamples.SurvivorLosesSuccess | apps/worker/src/main.ts:56-65 | a processor outlives a wipe: its failure replaces a success, and the completed job hides the event |
| PipelineCounterexamples.SurvivorExceedsAttempts | apps/worker/src/main.ts:37 | a processor outlives a wipe: `maxAttempts` + 1 settled attempts, for every maximum |
| PipelineCounterexamples.UnheardSuccessIsLost | apps/worker/src/main.ts:47-65 | only a success is committed and reported as failed: it is replaced by RETRYING and the event accepted twice |
| PipelineCounterexamples.UnheardSuccessIsDeadLettered | apps/worker/src/main.ts:47-65 | the same at the last attempt, for every maximum: the success becomes DEAD_LETTERED |
| PipelineCounterexamples.RefusedRecordSendsTwice | apps/worker/src/main.ts:46-54 | only a record is refused: two sends are accepted |
| PipelineCounterexamples.CrashSendsTwice | apps/worker/src/main.ts:46-54 | only a crash after an accepted send: two are accepted, for every maximum |
| PipelineCounterexamples.WipeSendsTwice | apps/worker/src/main.ts:46-54 | only a wipe after an accepted send: two are accepted, for every maximum |
| PipelineCounterexamples.UnreportedFailureHides | apps/worker/src/outbox-relay.ts:42 | only a last failure is not reported: a failed job without a terminal record that every re-add runs into, for every maximum |
| OutboxRelay.Relay.Query | apps/worker/src/outbox-relay.ts:70-81 | selects exactly the rows that are available, pending or under a lease that is over, and have fewer than `limit` older ones of that kind |
| OutboxRelay.Relay.Claim | apps/worker/src/outbox-relay.ts:67-97 | leases exactly those rows for 30 s, counting one more attempt, and changes no other |
| OutboxRelay.ClaimedExactly | apps/worker/src/outbox-relay.ts:70-80 | the query's specification selects exactly those rows |
| OutboxLeases.LeaseHolds | apps/worker/src/outbox-relay.ts:74 | a row leased at t is in no claim that reads the clock at t + 30 s or before, and stays as it is |
| OutboxLeases.LeaseEnds | apps/worker/src/outbox-relay.ts:73-80 | afterwards, if available and with fewer than 25 older rows in line, it is claimed; a published row never is |
| OutboxLeases.MachineClaims | apps/worker/src/outbox-relay.ts:70-94 | the machine's claim takes a row exactly then, and leases it for 30 s from the reading made for the lease |
| OutboxLeases.MachinePublishes | apps/worker/src/outbox-relay.ts:44-47 | the publishing update writes a row exactly when it is still PROCESSING |
| OutboxLeases.MachineResets | apps/worker/src/outbox-relay.ts:49-57 | so does the failure path, which puts the row back with its back-off |
| OutboxLeases.MachineRechecks | apps/worker/src/outbox-relay.ts:112-124 | reconciliation takes up exactly the events published for more than 30 s without a terminal attempt |
| OutboxLeases.MachinePurges | apps/worker/src/main.ts:127-148 | the machine's retention removes rows and attempts exactly under these conditions |
| OutboxRelay.Relay.Deliver | apps/worker/src/outbox-relay.ts:35-58 | add, publish or put back, each of the three calls acknowledged, refused, or carried out and seen to fail |
| OutboxRelay.Relay.Reconcile | apps/worker/src/outbox-relay.ts:129-137 | adds the overdue events in turn until an add throws, having reached the queue or not |
| OutboxRelay.Relay.Poll | apps/worker/src/outbox-relay.ts:29-65 | a whole poll against its specification, with its own clock readings and failures of the claim, of each call and of the recheck query; a poll under way makes another one do nothing |
| OutboxDrain.PollExactly | apps/worker/src/outbox-relay.ts:33-59 | if claim and failure path work, each claimed row ends published and queued, or pending with its back-off; no other row changes |
| OutboxDrain.StopsAtThrow | apps/worker/src/outbox-relay.ts:48-57 | a failure path that fails ends the poll; later claims stay as they are |
| OutboxDrain.RechecksTheOldest | apps/worker/src/outbox-relay.ts:111-127 | an event published for more than 30 s without a terminal attempt is rechecked, or passed over for 100 published no later |
| OutboxDrain.RechecksOnly | apps/worker/src/outbox-relay.ts:112-127 | only published events without a terminal attempt are rechecked, after more than 30 s, at most 100 |
| OutboxDrain.DrainExactly | apps/worker/src/outbox-relay.ts:29-59 | a waiting event is published after n polls exactly when one of them finds few enough of the rows before it claimable, whatever arrives later |
| OutboxDrain.DrainBound | apps/worker/src/outbox-relay.ts:29-59 | so it is published within ceil(k / 25) polls, k counting the rows at or before it that are claimable by the last poll |
| OutboxDrain.BackedOffRowsCount | apps/worker/src/outbox-relay.ts:53 | counting only the rows claimable at the first poll is not enough |
| OutboxRefinement.PollIsARun | apps/worker/src/outbox-relay.ts:29-60 | every poll, whatever its calls answer, is a run of the interleaved machine, each step at its own time, after which the relay remembers nothing |
| OutboxRefinement.PollStaysReachable | apps/worker/src/outbox-relay.ts:29-60 | a poll from a reachable state ends in a reachable state: its rows are well formed, published ones were queued, none is stranded |
| Processor.Deliveries.Process | apps/worker/src/main.ts:35-71 | when the processor sends, records, reports and throws, and the table it leaves, including a send or a write that takes effect and is seen to fail |
| Processor.ProcessIsARun | apps/worker/src/main.ts:35-71 | every invocation is a run of the interleaved machine that touches neither outbox nor queue |
| Processor.ProcessStaysReachable | apps/worker/src/main.ts:56-65 | an invocation from a reachable state leaves RETRYING below the maximum and DEAD_LETTERED at it only |
| Retention.PurgeInBatches | apps/worker/src/main.ts:173-182 | returns the number deleted; none is left or exactly 20,000 went; and if the table is listed by a time column, every row that went is no younger than any eligible row left |
| Retention.StaysExactly | apps/worker/src/main.ts:154-161 | a row stays exactly when it is not eligible or enough older rows are |
| Retention.Tables.RunRetention | apps/worker/src/main.ts:118-171 | the four purges in order, each against the tables the earlier ones left, and their counts |
| Retention.RetentionTakesTheOldest | apps/worker/src/main.ts:123-169 | in each of the four tables a row that goes is no younger, by the column its purge orders by, than an eligible one that stays |
| Retention.OutboxKept | apps/worker/src/main.ts:123-140 | an outbox row stays unless published, over its days and terminal; then it goes, unless 20,000 such rows have gone that are no younger |
| Retention.DeliveriesKept | apps/worker/src/main.ts:141-153 | the same for attempts, which must have no outbox row and be over their days |
| Retention.RetentionIsSafe | apps/worker/src/main.ts:123-153 | no attempt goes while its outbox row is there, and no event without a terminal record loses anything |
| Retention.KeptForTheirTime | apps/worker/src/main.ts:154-169 | idempotency records and receipts stay for their days and then go, unless 20,000 have gone that are no younger |
| MerchantScope.AuthorizeStore | apps/api/src/invoices/merchant-scope.service.ts:21-37 | accepts exactly when the actor is at most 15 active steps above the store's merchant, cycles included |
| MerchantScope.AuthorizedMerchantIds | apps/api/src/invoices/merchant-scope.service.ts:7-19 | lists exactly the merchants with the actor at most 16 active steps above |
| MerchantScope.AcceptedIsListed | apps/api/src/invoices/merchant-scope.service.ts:7-37 | accepted implies listed; they differ exactly at a nearest distance of 16 |
| MerchantScope.ShallowHierarchiesAgree | apps/api/src/invoices/merchant-scope.service.ts:10-27 | the two coincide on hierarchies at most 15 deep |
| MerchantScope.DeepChainDisagrees | apps/api/src/invoices/merchant-scope.service.ts:27 | a chain on which they differ |
| CanonicalJsonProof.ParserRecovers | packages/domain/src/index.js:100-108 | a parser recovers the key-sorted value from the printed text, for every value |
| CanonicalJsonOrder.StableTextIsCanonical | packages/domain/src/index.js:96-108 | two values print the same exactly when they are equal up to object key order |
| CanonicalJsonText.KeysInOrder | packages/domain/src/index.js:105 | objects are printed with their keys in code-unit order |
| CanonicalJsonText.CharactersWritten | packages/domain/src/index.js:107 | which characters of a string are escaped, and how |
| CanonicalJsonText.ArraysWritten | packages/domain/src/index.js:101-103 | brackets around the items and commas between them |
| CanonicalJsonText.ObjectsWritten | packages/domain/src/index.js:104-106 | braces, quoted keys, colons and commas, the least key first |
| CanonicalJsonText.NumbersWritten | packages/domain/src/index.js:107 | integers in decimal |
| InvoiceMath.DoublesAreExact | packages/domain/src/index.js:19-61 | for every rounding and request the double calculation refuses or accepts as the exact one does, with the same lines and subtotal, and the same tax and total when the subtotal is storable |
| InvoiceMath.InvoiceWritten | packages/domain/src/index.js:19-61 | the double calculation accepts exactly the orders whose items, rate, discount and sums are in range; lines are quantity times price, the subtotal their sum, and for a storable subtotal the tax is the half-up rounding and the total both |
| InvoiceMath.RefusedInOrder | packages/domain/src/index.js:20-47 | the errors outside the lines, in the order of the checks |
| InvoiceMath.UnitsOrLines | packages/domain/src/index.js:38-51 | one line of q units costs what q lines of one unit cost, and a line of one unit costs its price |
| InvoiceMath.PartialSumsExact | packages/domain/src/index.js:43-44 | an accepted subtotal certifies that every unchecked partial sum was exact |
| InvoiceMath.LineChecked | packages/domain/src/index.js:30-39 | the checks of a line in order; the one on the rounded product accepts exactly the products of quantity and price that are safe integers |
| InvoiceMath.OrderOfLinesIrrelevant | packages/domain/src/index.js:43-61 | reordered lines are accepted together, with equal subtotal, tax and total |
| InvoiceMath.RoundedQuotient | packages/domain/src/index.js:50 | the rounded double division never moves the half-up result |
| InvoiceMath.TaxBounds | packages/domain/src/index.js:49-51 | the tax is within half a unit of the exact one, ties up, and at most the taxable amount |
| InvoiceMath.TaxMonotone | packages/domain/src/index.js:49-51 | the total grows with the rate and with the taxable amount |
| InvoiceMath.InvoiceTaxVersusLineTax | packages/domain/src/index.js:50 | without a discount, taxing the invoice and taxing its n lines differ by at most (n + 1) / 2 |

## Left out

- NestJS, TypeORM, BullMQ, Redis and MySQL internals: tables are maps or sequences with unique keys and row locks, the queue is a map from event to job in which adding a known ID does nothing.
- Deadlocks and lock waits: a transaction that cannot take a lock waits, and may abort at any moment; only safety is claimed.
- Isolation levels: plain reads are current reads that lock nothing, in every transaction; range locks are not relied on.
- Generated identifiers: invoice and event IDs are numbers chosen fresh; payments, refunds and receipts are known by their unique provider keys.
- Cryptography: a body's hash and a request's fingerprint are abstract numbers taken to be injective, a signature is valid or not.
- Store authorization inside the ledger is a boolean of the request; `MerchantScope` has the algorithms. The order of the listed merchants is not modelled, nor is the store look-up's race with deactivation.
- Request validation, dates, trimming, letter case and collation; JSON floats, `undefined` and dates.
- Customer columns are one number, since nothing computes with them.
- Column widths other than those checked when an invoice is created: version and attempt counters are unbounded.
- Claims in the interleaved machine take one row at a time: the batch of 25, oldest first, is modelled in `OutboxRelay`.
- A poll of the relay class runs without another relay in between, and its refinement assumes a clock that does not run backwards during it; the interleaved machine has other relays. The queue waiting and failed gauges are left out.
- OutboxDrain.DrainExactly: is about one relay whose clock does not run backwards; rows may arrive between polls, but no other relay writes and nothing is purged.
- OutboxDrain.DrainBound: is about one relay in the same way, but for any clock.
- Relays that hold a claimed event in memory for longer than the outbox retention.
- Stalls: a live processor is assumed never to lose its job, so BullMQ neither hands the job of a slow processor to another one nor fails it as stalled; a job whose worker is gone waits again. Its removal policy is reduced to removing any completed job at any time.
- The dead-letter queue, telemetry, logging, health checks, shutdown and configuration loading.
- PipelineBounds.AttemptsAreBounded: claims nothing once an event's outbox row is purged, because its attempts may then be purged as well.
- PipelineOnce.AcceptedOnce: claims nothing once an event's outbox row is purged, because a job may outlive it in the queue.
- PipelineProof.NothingStranded: does not claim that delivery eventually happens; reconciliation always takes the oldest 100, and an event whose last failure could not be recorded is rechecked forever.
- Lease exclusivity is not claimed: a stale relay may put back a row that another relay holds, and every theorem allows it.
- Whether the provider recognises a repeated event ID, which it receives as an idempotency key; every acceptance counts.
- A purge that fails part way, leaving the later tables for the next pass.
- Retention in the ledger may delete any expired receipts and records, in any grouping; `Retention` has the batches.
- The one-level store check of the domain package, tokens, the portal, scripts and infrastructure.
