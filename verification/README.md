# Strimz: a verified model

Strimz settles stablecoin payments and subscriptions on chain. An indexer reads the contracts' event logs and keeps
the product's database in step with them; around it sit a signer, a fee estimate, a dashboard cache and webhook
signatures. This project models those parts in Dafny and proves what they are relied on for.

**The indexer.** A poll asks the chain for its height, streams batches of logs up to the confirmed head, and retries
logs it could not project before. Each batch is one serialisable transaction: every log is applied inside a savepoint,
a log that cannot be projected is parked in a dead-letter table, and the cursor is saved with the writes.

- `Ledger` and `Projection` say what one log means for the tables; `Store` carries the same steps out statement by
  statement over a connection that may break, conflict, or lose the reply to a commit at any statement, and every
  method is proved to do what `Projection` says or to report the interruption.
- `Feed` folds logs, with merchants linked by another application in between, and the modules after it prove what holds
  over every feed. `Lifecycle` tells a subscription's whole life from its landed logs, `Billing`, `Windows` and
  `RetryBackoff` its status, periods and retries; `Receipts` says what every transaction row must read, `Sessions` and
  `Checkout` what a payment settles, `Notices` which webhooks go out and how often, and `Records` what merchants, jobs,
  audits, alerts and reviews hold; `Races`, `Replays` and `ReplayEffects` what reordering and replay change.
- `Replay` adds the letters and cursors: a committed history is a sequence of streamed logs, retries, outside links and
  saved cursors, and the database is its replay. `Replay.RowsAreFed` carries everything proved of feeds over to
  histories. `Conservation` proves where every log is; `Parking`, `Turns` and `Passes` in what order a subscription's
  logs took effect, with `Interruption` a history that loses it; `Starvation` and `Standstill` which letters are never
  retried again, with `Standoffs` two such databases.
- `Rpc` is the failover client over lagging endpoints, `Segments` and `Delivery` the stretch of the chain a stream owes,
  `Batching` the in-place work on the fetched logs, `RetryPass` one pass over the listed letters, and `Runner` the poll
  loop. Its invariant ties the committed history to the chain, over any failures, restarts, batch sizes and changes of
  chain; `Runner.Serve` is the whole service life.
- `FatalLogs` says exactly which logs fail their batch, and `Obstacles` and `Rivals` that the stream never passes one
  that is doomed for good.

**The rest.** `Der` and `Signer` (KMS signatures in DER, as ITU-T X.690 sections 8.1.3, 8.3 and 10.1 and section 2.2.3
of RFC 3279 define them, and the low-s form of EIP-2), `FeeTiers` (plans and the tiered fee), `CursorPages` (merging
and patching paged lists), `Encoding` and `Webhook` (hex, comparison, signed webhook headers).

Where the code and its comments differ, the model follows the code:

- `apps/indexer/internal/store/store.go:1-5` and `apps/indexer/internal/processor/runner.go:11` call every projection
  idempotent. `ReplayEffects.ReplayChangesNothingExactlyWhen` says for every event exactly when a log that landed
  changes nothing when it is applied again. Skipped periods, fee changes and job events always add an audit row; a
  registration or a payout change writes its own values again; a governance alert adds a security alert once its
  merchant is linked (`ReplayEffects.ReplayedAlertIsAdded`); and a charge rewrites the subscription row, which
  collapses the paid window (`ReplayEffects.ReplayedChargeCollapsesWindow`), moves the due date back
  (`ReplayEffects.ReplayedChargeMovesDueDateBack`) or clears an armed retry
  (`ReplayEffects.ChargeIsIdempotentExactlyWhen`).
- A charge attempt arriving under a second transaction hash violates the unique `subscriptionChargeId` and fails the
  batch rather than being ignored; so does a second enrolment under a hash another subscription already carries, such as
  two enrolments in one transaction. `FatalLogs.FatalExactlyWhen` is the exact condition for every event,
  `FatalLogs.TwoEnrolmentsInOneTransaction` and `FatalLogs.OneAttemptInTwoTransactions` are inputs that meet it, and
  `Rivals.SecondIsNeverPassed` proves that the stream stays before such a pair for good.
- A retry pass handles fifty letters at most (`apps/indexer/internal/processor/runner.go:46`) and stops at its first
  error, so a subscription may exist while an earlier log of it still waits. `Passes.TurnsDecideOrder` says exactly when
  order is kept nevertheless, `Passes.NeverInOrderAgain` that it never comes back once lost, and
  `Interruption.InterruptedPassLosesOrder` shows a history that loses it.
- `docs/release-notes/2026-10-02-indexer-ordered-stream.md:35-36` says that a parked log clears once its missing row
  exists. Two inputs defeat it. Fifty letters that can never be projected starve every later one
  (`Starvation.StarvedForEver`, with `Standoffs.PaymentStarves`). And one letter whose log is doomed for good stops
  every pass before the letters behind it (`Standstill.LettersBehindDoomStay`): two enrolments in one transaction of an
  unlinked merchant park together, and once the merchant is linked the first lands and the second stops all passes
  (`Standoffs.PairStopsPayment`). `Standstill.RetriedUnlessDoomed` says exactly which letters an undisturbed pass
  retries.

## Model

| member | source | states |
|---|---|---|
| `Runner.Serve` | apps/indexer/internal/processor/runner.go:385-416 | over any polls, failures, restarts, batch sizes and changes of chain the database stays the replay of a history that has delivered exactly the uncovered logs up to the cursor; each poll committed streamed steps and then a retry pass over the earliest waiting letters, cut short only by its error or by fifty; while every poll that reached its pass ended without error and began it with at most fifty letters, all passes are complete; over an undisturbed database a pass goes exactly up to the first letter that is doomed on the rows it comes to, and fails exactly when there is one |
| `Runner.PollsArePatient` | apps/indexer/internal/processor/runner.go:385-416 | whatever failed, the polls' history is made of streaming phases and passes that take the earliest letters in order, fifty at most |
| `Runner.WholePollsAreDisciplined` | apps/indexer/internal/processor/runner.go:519-552 | when every poll is whole, every pass comes to the end of its list |
| `Runner.StreamedExactlyOnce` | apps/indexer/internal/processor/runner.go:418-500 | with no retry and no outside write so far, the committed database is one left-to-right fold of apply-or-park over the uncovered logs up to the cursor |
| `Runner.DueLogsAreAccounted` | apps/indexer/internal/processor/runner.go:502-552 | every uncovered log up to the cursor is either applied by the stream, or parked with nothing applied, or resolved and applied once by a retry |
| `Runner.SubscriptionsTakeTurns` | apps/indexer/internal/processor/runner.go:502-552 | whatever became of the passes, what landed of a subscription followed by what waits of it is what is due of it in chain order exactly when none of its logs was streamed while it existed with a letter waiting |
| `Runner.SubscriptionsAreInOrder` | apps/indexer/internal/processor/runner.go:502-552 | after complete passes of any length each subscription either exists with all its logs applied in chain order and none parked, or does not exist with all of them parked |
| `Runner.RivalsAreNeverPassed` | apps/indexer/internal/processor/runner.go:445-517 | from the moment two enrolments of linked merchants share a transaction ahead on the chain, or two settlements of existing subscriptions share an attempt, the cursor never reaches the second one's block |
| `Runner.Runner.ProcessCore` | apps/indexer/internal/processor/runner.go:418-500 | the history grows by streamed batches only, up to the safe head and no further; success means the cursor passed the safe head; nothing is committed against a chain whose recorded block lost its hash; with nothing amiss outside it fails only before a doomed log |
| `Runner.Runner.Resume` | apps/indexer/internal/processor/runner.go:418-443 | the stream resumes after its cursor, or above the lowest older cursor; a changed recorded hash stops it; with nothing amiss it succeeds |
| `Runner.Runner.StreamUpTo` | apps/indexer/internal/processor/runner.go:445-499 | batches of any size reach the safe head and do not pass it, each starting where the last one ended; only a doomed log stops them when nothing is amiss |
| `Runner.Runner.OneBatch` | apps/indexer/internal/processor/runner.go:449-498 | one batch moves the cursor to its last block or leaves it, and with nothing amiss fails only if it comes to a doomed log |
| `Runner.Runner.FetchBatch` | apps/indexer/internal/processor/runner.go:454-477 | what is read is exactly the uncovered logs of the range in chain order with their blocks' times and the top block's hash, because one endpoint serves both: a lagging one has no hash to give |
| `Runner.Runner.FetchLogs` | apps/indexer/internal/processor/runner.go:454-460 | the pinned endpoint's logs of the range, sorted, without the covered ones |
| `Runner.Runner.BlockTimes` | apps/indexer/internal/processor/runner.go:462-472 | every log's block gets its own time, with no more lookups than there are blocks |
| `Runner.Runner.BlockTimeOf` | apps/indexer/internal/processor/runner.go:363-381 | the time is the block's whether cached or asked for, the cache never exceeds its bound, and a cached block asks nobody |
| `Runner.Runner.CommitBatch` | apps/indexer/internal/processor/runner.go:479-497 | the logs and the cursor land together or not at all, and the history stays delivered |
| `Runner.Runner.CheckRecordedBlock` | apps/indexer/internal/processor/runner.go:429-438 | passes only if the recorded block keeps its hash, and then the chain now served is the chain already delivered |
| `Runner.Runner.CurrentHash` | apps/indexer/internal/processor/runner.go:430-433 | the hash any endpoint answers with is the chain's own |
| `Runner.Runner.LoadLegacyCursors` | apps/indexer/internal/processor/runner.go:554-572 | each older cursor is the maximum of the stored block and the block before the start block, and stays so although the stream saves its own cursor meanwhile |
| `Runner.Runner.RetryDeadLetters` | apps/indexer/internal/processor/runner.go:519-552 | what it committed is a pass over the earliest waiting letters in chain order, cut short at most by its error or by fifty, and not by an error when it succeeds; it leaves the cursors alone and reports how many still wait; over an undisturbed database it goes exactly up to the first letter that is doomed on the rows it comes to |
| `Runner.Runner.ListDeadLetters` | apps/indexer/internal/processor/runner.go:519-523 | the letters of the pass are the earliest waiting ones, filed under their own logs' keys |
| `Runner.Runner.RetryAll` | apps/indexer/internal/processor/runner.go:524-545 | the retries committed are the beginning of the list in order, all of it on success; over an undisturbed database it stops exactly before a doomed letter |
| `Runner.Runner.CommitRetry` | apps/indexer/internal/processor/runner.go:529-543 | one letter's retry lands in a batch of its own, at most once and always on success, and touches no other letter |
| `Runner.Runner.AdvanceCore` | apps/indexer/internal/processor/runner.go:411-416 | a retry pass follows a stream that got past the safe head, and only then; the stream does not pass the safe head |
| `Runner.Runner.PollCore` | apps/indexer/internal/processor/runner.go:400-409 | the height is the first one an endpoint gives; while it is within the confirmation window or no one answers nothing is committed; otherwise the stream stays outside the window, success means it reached it, and a pass follows exactly a stream that did |
| `RetryPass.ListIsBeginning` | apps/indexer/internal/store/deadletter.go:65-76 | what a pass lists is the first waiting logs in strict chain order, as many as the limit allows |
| `RetryPass.RetriedExactlyWhen` | apps/indexer/internal/processor/runner.go:519-545 | a successful pass retries a waiting letter exactly when fewer than fifty waiting letters come before it |
| `RetryPass.FewAreAll` | apps/indexer/internal/processor/runner.go:519-545 | a successful pass that began with at most fifty letters is complete |
| `Standstill.RetriedUnlessDoomed` | apps/indexer/internal/processor/runner.go:519-545 | a pass over an undisturbed database retries a waiting letter exactly when fewer than fifty wait before it and neither it nor any of them is doomed on the rows it comes to |
| `Standstill.PassFailsExactlyWhen` | apps/indexer/internal/processor/runner.go:529-545 | such a pass fails exactly when some letter it could list is doomed on the rows it comes to |
| `Standstill.DoomedLetterStays` | apps/indexer/internal/processor/runner.go:519-545 | a letter doomed for good is never retried again and waits as it is, through any history |
| `Standstill.LettersBehindDoomStay` | apps/indexer/internal/processor/runner.go:519-545 | over patient runs with any limit, from the moment a letter doomed for good waits, it and every letter waiting behind it stay as they are for ever |
| `Runner.LettersBehindDoomNeverClear` | apps/indexer/internal/processor/runner.go:519-552 | the same for the running system |
| `Standoffs.PairStopsPayment` | apps/indexer/internal/processor/runner.go:519-545 | two enrolments in one transaction and a payment of their unlinked merchant park; once it is linked the pass lands the first and stops at the second for good, before a payment that could be projected |
| `Starvation.HopelessExactlyWhen` | apps/indexer/internal/processor/projector.go:75-586 | a log lands on no rows and at no time exactly when it is undecodable or pays or enrols in an unknown token |
| `Starvation.StarvedForEver` | apps/indexer/internal/processor/runner.go:519-552 | fifty such letters starve every later one: from the moment they wait before it, it is never retried again, whatever is streamed, linked or retried afterwards |
| `Standoffs.PaymentStarves` | apps/indexer/internal/processor/runner.go:519-552 | a concrete history of fifty undecodable logs that starves a payment which could be projected |
| `FatalLogs.FatalExactlyWhen` | apps/indexer/internal/store/projections.go:38-635 | a log fails its batch exactly when its event's guard holds: two rows claim the id; the token is known and the block has no time, or the merchant is linked, the subscription new and the hash carried by another; the subscription is known and the merchant has no payout address, or the log is new and its attempt settled by another |
| `FatalLogs.ParksExactlyWhen` | apps/indexer/internal/store/projections.go:153-959 | a log parks exactly when it misses a token, a link, a subscription or a job, or cannot be decoded, and for that reason; a doomed one fails with the error of what it violates |
| `FatalLogs.SecondEnrolmentIsFatal` | apps/indexer/internal/store/projections.go:393-466 | of two enrolments of linked merchants in one transaction the first lands and the second fails its batch |
| `FatalLogs.SecondSettlementIsFatal` | apps/indexer/internal/store/projections.go:563-606 | an attempt settled under one log fails the batch of any other log that settles it |
| `FatalLogs.TwoEnrolmentsInOneTransaction` | apps/indexer/internal/store/projections.go:393-466 | a concrete transaction that enrols two subscriptions |
| `FatalLogs.OneAttemptInTwoTransactions` | apps/indexer/internal/store/projections.go:563-606 | a concrete attempt settled in two transactions |
| `FatalLogs.FoldStopsExactlyWhen` | apps/indexer/internal/processor/runner.go:479-517 | a fold over logs fails exactly when it comes to a log whose guard holds on the rows it came to |
| `FatalLogs.RetryFailsExactlyWhen` | apps/indexer/internal/processor/runner.go:529-545 | a waiting letter's retry fails exactly when its log's guard holds |
| `Obstacles.DoomedIsNeverStreamed` | apps/indexer/internal/processor/runner.go:445-517 | a log doomed for good before it was streamed is never streamed, and stays doomed through any batches, retries and outside links |
| `Obstacles.StreamNeverPasses` | apps/indexer/internal/processor/runner.go:445-517 | the cursor never reaches the block of a log doomed for good before it was read |
| `Rivals.SecondIsNeverPassed` | apps/indexer/internal/processor/runner.go:445-517 | of two enrolments in one transaction, or two settlements of one attempt, that are due and unread, the cursor never reaches the second |
| `Delivery.ExactlyOnce` | apps/indexer/internal/processor/runner.go:440-499 | a delivered history of streamed logs and saved cursors gives the fold over the logs due, whatever batches led to it |
| `Delivery.RunsConverge` | apps/indexer/internal/processor/runner.go:440-499 | two runs at the same block, with different batches and crash points, agree on every row and letter |
| `Delivery.BatchDelivers` | apps/indexer/internal/processor/runner.go:449-498 | a batch holding exactly the next stretch keeps the history delivered |
| `Delivery.SameHashSameDue` | apps/indexer/internal/processor/runner.go:429-438 | while the recorded block keeps its hash, what was delivered is still what is due |
| `Delivery.BatchFolds` | apps/indexer/internal/processor/runner.go:479-496 | a batch goes through exactly when the fold over its logs does |
| `Delivery.MigrationHandsOver` | apps/indexer/internal/processor/runner.go:440-460 | a log of a legacy contract from the start block on is streamed exactly when its own old cursor had not passed it, a log of a newer contract exactly when it is above the lowest old cursor |
| `Delivery.DueOnce` | apps/indexer/internal/processor/runner.go:440-460 | the logs due are in chain order with keys apart, so each is due once |
| `Segments.SegmentSplits` | apps/indexer/internal/processor/runner.go:445-499 | consecutive ranges hand over the same logs in the same order as one range |
| `Segments.SegmentMembers` | apps/indexer/internal/processor/runner.go:585-594 | a log is due in a range exactly when it is monitored, in the range and not covered by its contract's old cursor |
| `Segments.ReplicaServesSegment` | apps/indexer/internal/processor/runner.go:454-459 | sorting what any replica serves of a range gives the chain's own order |
| `Batching.SortLogs` | apps/indexer/internal/processor/runner.go:596-603 | sorts the slice in place and stably |
| `Batching.DropCovered` | apps/indexer/internal/processor/runner.go:585-594 | keeps exactly the uncovered logs, in order, at the front of the same slice |
| `Batching.LowestCursor` | apps/indexer/internal/processor/runner.go:574-583 | the minimum of the cursors in whatever order they are walked, 0 when there are none |
| `Chain.SortedInOrder` | apps/indexer/internal/processor/runner.go:596-603 | the sort orders by block, then log index |
| `Chain.SortedByBlockThenIndex` | apps/indexer/internal/processor/runner.go:596-603 | after the sort blocks never go back, nor do log indexes within a block |
| `Chain.OrderIsUnique` | apps/indexer/internal/processor/runner.go:596-603 | a chain's logs have one ordered arrangement |
| `Chain.SortRestoresChainOrder` | apps/indexer/internal/processor/runner.go:596-603 | whatever order the logs were fetched in, sorting restores the chain's |
| `Replay.RowsAreFed` | apps/indexer/internal/processor/runner.go:502-552 | after any history of streaming, retries, outside links and cursors, the rows are what the feed of its inputs makes of the initial rows |
| `Replay.ParkedLogsLeaveNoTrace` | apps/indexer/internal/store/deadletter.go:28-45 | the rows are exactly what the landed logs and outside links alone make of the initial rows |
| `Conservation.EveryLogIsAccounted` | apps/indexer/internal/processor/runner.go:502-552 | after any history every streamed log is in one of the three classes, counted over every landing |
| `Conservation.ClassesAreDisjoint` | apps/indexer/internal/processor/runner.go:502-552 | the classes exclude one another; a log has landed once, or not at all while it waits |
| `Conservation.LettersRemember` | apps/indexer/internal/store/deadletter.go:47-122 | after any history a letter carries the log and block time it was streamed with and counts its tries in vain |
| `Conservation.LettersGiveLastReason` | apps/indexer/internal/store/deadletter.go:104-122 | after any history a letter gives the reason of its last try in vain |
| `Parking.ExistingSubscriptionNeverParks` | apps/indexer/internal/store/projections.go:504-509 | a log of an existing subscription, other than its enrolment, is never parked |
| `Parking.StepKeepsReferences` | apps/indexer/internal/store/projections.go:393-466 | no step breaks the references from links and subscriptions to merchants |
| `Turns.StreamStaysInTurn` | apps/indexer/internal/processor/runner.go:502-517 | streaming a log keeps a subscription in turn unless it overtakes a waiting one: what landed, then what waits, is what was streamed |
| `Turns.OvertakingJumps` | apps/indexer/internal/processor/runner.go:502-517 | a log streamed while its subscription exists with a letter waiting lands before an earlier log that has not |
| `Turns.RetryStaysInTurn` | apps/indexer/internal/processor/runner.go:524-545 | a retry keeps a subscription in turn when it takes the earliest letter of a subscription that exists |
| `Turns.JumpedIsNoPrefix` | apps/indexer/internal/processor/runner.go:502-517 | once a log was jumped, what has landed is no beginning of what was streamed |
| `Passes.TurnsDecideOrder` | apps/indexer/internal/processor/runner.go:502-552 | over any run of streaming and passes that take the earliest letters in order, cut short anywhere, a subscription's landed logs followed by its waiting ones are its streamed ones in chain order if and only if none was streamed while it existed with a letter waiting |
| `Passes.NeverInOrderAgain` | apps/indexer/internal/processor/runner.go:502-552 | after a log streamed out of turn no continuation at all makes what has landed of its subscription a beginning of what was streamed |
| `Passes.CompletePassSettles` | apps/indexer/internal/processor/runner.go:519-552 | a complete pass, outside links falling anywhere in it, leaves no existing subscription with a letter waiting |
| `Passes.OrderSurvivesParking` | apps/indexer/internal/processor/runner.go:411-416 | when every pass comes to the end of its list, however long, each subscription has all its logs landed in chain order and none waiting, or does not exist and all of them wait |
| `Interruption.InterruptedPassLosesOrder` | apps/indexer/internal/processor/runner.go:519-552 | a concrete run the runner can make, whose pass stops after the enrolment it retried: the next log is streamed out of turn, lands first, and the due date ends where the earlier one put it |
| `Footprint.BillingStep` | apps/indexer/internal/store/projections.go:393-827 | one landed log changes the subscription it names as its event says, and no other |
| `Footprint.ChargeStep` | apps/indexer/internal/store/projections.go:491-812 | one landed log changes the charge of its attempt as its event says, and no other |
| `Billing.StatusInvariant` | apps/indexer/internal/store/projections.go:608-827 | over every feed trialing and active mean no retries armed, at-risk means some, the counter is the payment failures accepted since the last charge or enrolment, and nothing leaves cancelled or lapsed |
| `Billing.NoiseLeavesSubscriptions` | apps/indexer/internal/store/projections.go:777-782 | an outcome that is no payment failure leaves a charge row and no other change to subscriptions or webhooks |
| `Lifecycle.FailureLands` | apps/indexer/internal/store/projections.go:704-812 | a failed attempt with the outcomes named: nothing new changes nothing; news leaves its row; each of insufficient funds, revoked approval, inactive merchant and failed transfer is announced once and puts a trialing, active or at-risk subscription at risk with one more retry, 15 min, 1, 3, 6, 12 or 24 h after the block by the count before; every other outcome leaves subscriptions and webhooks alone |
| `Lifecycle.FailuresAreNamed` | apps/indexer/internal/abi/events.go:532-542 | the collection failures are exactly those four outcomes |
| `Lifecycle.EnrolmentOpens` | apps/indexer/internal/store/projections.go:393-466 | an enrolment of a new id opens a row with the event's and the configuration's own values, trialing with its trial end exactly when it starts after the block and active otherwise, and queues one event; one of an id on file changes nothing |
| `Lifecycle.StatusFollowsLogs` | apps/indexer/internal/store/projections.go:608-827 | over every feed the status is what the subscription's landed logs spell out one after another |
| `Lifecycle.TrialLasts` | apps/indexer/internal/store/projections.go:397-406 | over every feed a trial lasts exactly until a charge, a new collection failure or a cancellation of the subscription lands |
| `Lifecycle.IdentitiesNeverChange` | apps/indexer/internal/store/projections.go:393-466 | over every feed merchant, payer, currency, amount, enrolment hash, trial end and mode of a subscription never change |
| `Lifecycle.FirstCancellationStands` | apps/indexer/internal/store/projections.go:818-844 | over every feed the first cancellation's time and words stay on the row, and a row without one is not cancelled |
| `Lifecycle.EndsAreFinal` | apps/indexer/internal/store/projections.go:818-844 | whatever follows, a subscription that is over stays over with the time and the words it ended with |
| `Lifecycle.AttemptsTellFailures` | apps/indexer/internal/store/projections.go:704-775 | over every feed an attempt's row counts the failures of it that landed, and while failed tells the outcome and block time of the last |
| `Windows.RowsFollowSchedule` | apps/indexer/internal/store/projections.go:608-662 | every subscription row carries the window and due date its landed logs spell out |
| `Windows.ChargesKeepTheirWindows` | apps/indexer/internal/store/projections.go:534-561 | a charge keeps to the end of the feed the window from the due date when it arrived to its own next date |
| `Windows.ChargeRecordsWindow` | apps/indexer/internal/store/projections.go:528-561 | a charge that lands on a fresh attempt leaves a succeeded row with the log's own amount, block time, transaction and next date, and keeps or sets whose attempt it was |
| `Windows.WindowsTile` | apps/indexer/internal/store/projections.go:545-549 | a later window starts exactly where the earlier one ended unless a skipped-periods log moved the start |
| `Windows.FirstWindowStartsAtStart` | apps/indexer/internal/processor/projector.go:205-227 | the first charge window starts at the enrolment's start date |
| `Windows.LatestChargeIsCurrent` | apps/indexer/internal/store/projections.go:608-622 | until a later charge lands, the subscription's current period is the latest charge's own window, and its end is the next due date unless a skipped-periods log moved that |
| `RetryBackoff.TotalWaitClosedForm` | apps/indexer/internal/store/projections.go:788-806 | the waits add up to 22h15m and a day for each failure beyond the fifth |
| `RetryBackoff.BackoffAccumulates` | apps/indexer/internal/store/projections.go:788-806 | the armed retry is never earlier than the first failure plus the waits so far |
| `RetryBackoff.BackoffBound` | apps/indexer/internal/store/projections.go:788-806 | the n-th consecutive failure comes at least 22h15m and 24h for each beyond the sixth after the first, so at most seven fall in 48 hours |
| `Races.FailureAfterSuccess` | apps/indexer/internal/store/projections.go:755-775 | a failure log of a settled attempt changes nothing at all |
| `Races.SuccessCommutesWithFailure` | apps/indexer/internal/store/projections.go:517-561 | a charge log gives the same settled view of attempt and subscription, and lands in the same cases, whatever failure logs of the attempt come before and after it |
| `Replays.ReplayLeavesBooks` | apps/indexer/internal/store/projections.go:222-235 | landed logs applied again in any order and number, with merchants linked in between, leave transactions, charges, sessions, invoices, refunds, outbox and log-keyed audit rows as they were |
| `ReplayEffects.ReplayChangesNothingExactlyWhen` | apps/indexer/internal/store/store.go:1-5 | for every event, a log that landed anywhere in a feed changes nothing at its end exactly when the guard of its event holds: always for payments, enrolments, failures, cancellations, transfers and operations, never for fee changes, skipped periods and job events, on the rows' state for the rest |
| `ReplayEffects.SeenIdleExactlyWhen` | apps/indexer/internal/store/store.go:1-5 | the same on any rows that carry the log's trace |
| `ReplayEffects.SecurityAlertOnReplay` | apps/indexer/internal/store/onchain_audit.go:57-102 | a governance alert adds a security alert exactly when the log left none and its merchant is linked by then |
| `ReplayEffects.ReplayedAlertIsAdded` | apps/indexer/internal/store/onchain_audit.go:57-102 | a concrete alert projected before its merchant was linked adds a security alert when replayed |
| `ReplayEffects.ChargeIsIdempotentExactlyWhen` | apps/indexer/internal/store/projections.go:608-622 | in any later state a charge log applied again writes the subscription row alone, and leaves it as it is exactly when the window starts and ends at the log's own next date, that is the due date, no retry is armed, and the status is neither at-risk nor trialing |
| `ReplayEffects.ChargedTwiceExactlyWhen` | apps/indexer/internal/store/projections.go:608-622 | twice in a row it changes nothing exactly when it had not moved the due date |
| `ReplayEffects.ReplayedChargeCollapsesWindow` | apps/indexer/internal/store/projections.go:608-622 | a concrete month's charge applied twice leaves a window of no length |
| `ReplayEffects.ReplayedChargeMovesDueDateBack` | apps/indexer/internal/store/projections.go:608-622 | a concrete charge applied again after a later one moves the due date back |
| `Sessions.SessionsStaySafe` | apps/indexer/internal/store/projections.go:198-309 | over every feed at most one transaction carries a session, it matches the session, the session is confirmed by it, its completion is announced once, and an invoice is announced paid at most once |
| `Receipts.ReceiptsStand` | apps/indexer/internal/store/projections.go:206-228 | over every feed the transaction of each payment and charge that landed keeps amount, fee and net that parse to the event's own integers, with its payer, block, time, currency and mode, for the linked merchant or the subscription's |
| `Receipts.EveryTransactionHasItsLog` | apps/indexer/internal/store/projections.go:206-228 | over every feed a transaction was there before or records one log that landed |
| `Notices.EachIsAnnouncedOnce` | apps/indexer/internal/store/projections.go:626-631 | over every feed a charge is announced once when a transaction of that subscription and attempt records it, an enrolment once when its subscription is on file, a refund once when it is completed, and none otherwise |
| `Notices.EveryFailureIsAnnounced` | apps/indexer/internal/store/projections.go:777-786 | over every feed a failed attempt is announced once for each new collection failure of it that landed |
| `Notices.EventsStayAddressed` | apps/indexer/internal/store/projections.go:355-364 | over every feed each event goes to the merchant, and in the mode, of the row it refers to |
| `Notices.FirstTransferCompletes` | apps/indexer/internal/store/projections.go:851-877 | over every feed a submitted refund is completed exactly by the first transfer under its hash, at that transfer's block time |
| `Checkout.SettledOnce` | apps/indexer/internal/store/projections.go:271-309 | over every feed a session changes at most once, when the first payment that agrees with it in every field confirms it and pays its invoice unless paid or void |
| `Checkout.PaymentSettles` | apps/indexer/internal/store/projections.go:180-309 | a payment's transaction is linked to the session it names exactly when they agree in merchant, amount, currency and mode and nothing has paid it, and then session, invoice and both events are as the payment says |
| `Checkout.PaidInvoicesAreAnnounced` | apps/indexer/internal/store/projections.go:290-308 | over every feed an invoice is announced as paid once if the feed turned it paid and not otherwise |
| `Sessions.SettlesExactlyWhenMatching` | apps/indexer/internal/store/projections.go:325-343 | a payment settles the session it names exactly when every field agrees and the session is unpaid |
| `Sessions.AmountsCompareAsNumbers` | apps/indexer/internal/store/projections.go:345-349 | a stored amount matches exactly when it denotes the paid integer |
| `Sessions.SessionRefRoundTrip` | apps/indexer/internal/processor/projector.go:680-690 | decoding a padded printable id gives the id back |
| `Sessions.RefReads` | apps/indexer/internal/processor/projector.go:676-692 | a reference reads byte by byte up to its first NUL, and as nothing when one of those bytes is not printable |
| `Records.TermsFollowLogs` | apps/indexer/internal/store/projections.go:38-94 | over every feed a merchant's fee, ceiling and payout address are the last ones its registrations and updates set |
| `Records.LinksNeverMove` | apps/indexer/internal/store/projections.go:38-54 | over every feed a link once made stays and no merchant carries two ids |
| `Records.JobsFollowLogs` | apps/indexer/internal/store/projections.go:914-959 | over every feed a job has the status of its last log |
| `Records.AuditsAreTheTrail` | apps/indexer/internal/store/helpers.go:28-61 | over every feed the audit trail grows by exactly the rows its landed logs spell out, in order |
| `Records.DossiersFollowLogs` | apps/indexer/internal/store/onchain_audit.go:57-156 | over every feed the audit row under a log's id is what the first log there said, and alerts stand exactly when one was raised, for the merchant first named |
| `Records.MismatchesAreNamed` | apps/indexer/internal/store/projections.go:325-343 | each reason for a mismatch is given exactly when it holds |
| `Decimal.ParsePrint` | apps/indexer/internal/store/projections.go:345-349 | printing and parsing amounts are inverse |
| `Decimal.SignsAndZeros` | apps/indexer/internal/store/projections.go:345-349 | a sign in front is read as one and leading zeros change nothing |
| `Decimal.ReadsOnlyDigits` | apps/indexer/internal/store/projections.go:345-349 | nothing reads but digits behind at most one sign |
| `Store.Store.RunBatch` | apps/indexer/internal/store/store.go:59-110 | the committed history grows by outside links and by all of the work or none of it; success means all; on a healthy connection it succeeds exactly when no log of the work is fatal; a second attempt follows exactly a serialisation failure of the first |
| `Store.Store.Attempt` | apps/indexer/internal/store/store.go:88-107 | one attempt: all of the work or none, never landed when it reports a serialisation failure |
| `Store.Store.Commit` | apps/indexer/internal/store/store.go:100-107 | an aborted transaction never lands; a commit whose reply is lost may have |
| `Store.Store.BeginTx` | apps/indexer/internal/store/store.go:90-93 | the transaction starts from what is committed, outside links included |
| `Store.Store.CarryStream` | apps/indexer/internal/processor/runner.go:479-496 | the body of a streamed batch is its logs applied or parked in order, then the cursor |
| `Store.Store.Carry` | apps/indexer/internal/processor/runner.go:479-545 | either body does what its steps say on the working copy, or fails |
| `Store.Store.ApplyInSavepoint` | apps/indexer/internal/store/deadletter.go:28-45 | a log that does not land leaves nothing behind; if rolling back fails the transaction stays aborted |
| `Store.Store.RollBackTo` | apps/indexer/internal/store/deadletter.go:35-40 | rolling back restores the rows and makes the transaction usable again, or leaves it aborted |
| `Store.Store.ApplyOrPark` | apps/indexer/internal/processor/runner.go:502-517 | the working copy becomes what apply-or-park makes of it, or the batch fails for a reason that is fatal or transient |
| `Store.Store.RetryOne` | apps/indexer/internal/processor/runner.go:529-543 | a retried letter is resolved if its log lands and one attempt older if not |
| `Store.Store.InsertDeadLetter` | apps/indexer/internal/store/deadletter.go:47-63 | a letter already on file stays; nothing is parked in an aborted transaction |
| `Store.Store.ResolveDeadLetter` | apps/indexer/internal/store/deadletter.go:104-111 | the letter is resolved and nothing else changes |
| `Store.Store.RecordDeadLetterAttempt` | apps/indexer/internal/store/deadletter.go:113-122 | the letter's count grows by one and its reason is replaced |
| `Store.Store.UnresolvedDeadLetters` | apps/indexer/internal/store/deadletter.go:65-91 | the earliest waiting letters up to the limit, in order; nothing left out comes before a listed one |
| `Store.InOrderUpTo` | apps/indexer/internal/store/deadletter.go:65-76 | the same selection, letter by letter |
| `Store.Store.CountUnresolvedDeadLetters` | apps/indexer/internal/store/deadletter.go:93-102 | the number of waiting letters |
| `Store.Store.LoadCheckpoint` | apps/indexer/internal/store/checkpoint.go:25-43 | the saved cursor, or block 0 without a hash |
| `Store.Store.SaveCheckpoint` | apps/indexer/internal/store/checkpoint.go:47-66 | the cursor is upserted and no other moves |
| `Store.Store.Apply` | apps/indexer/internal/processor/projector.go:75-586 | dispatches each decoded event to its projection and does exactly what it says, or reports the interruption |
| `Store.Store.LinkOnchainMerchant` | apps/indexer/internal/store/projections.go:38-54 | links the holder of the id or the row registered by this transaction; two different rows violate the unique id |
| `Store.Store.UpdateMerchantPayoutAddress` | apps/indexer/internal/store/projections.go:85-94 | only the linked merchant's payout address changes |
| `Store.Store.SetMerchantOnchainFeeBps` | apps/indexer/internal/store/projections.go:57-67 | the linked merchant's fee changes and the change is audited either way |
| `Store.Store.AppendAudit` | apps/indexer/internal/store/helpers.go:28-61 | one audit row is added |
| `Store.Store.InsertOnchainAudit` | apps/indexer/internal/store/onchain_audit.go:143-156 | a row already written under the log's id stays |
| `Store.Store.InsertContractAlert` | apps/indexer/internal/store/onchain_audit.go:121-131 | a contract alert is recorded once a log |
| `Store.Store.LogMerchantGovernance` | apps/indexer/internal/store/onchain_audit.go:57-102 | audit row, and for alerts a contract alert and, for a linked merchant, a security alert, each once a log |
| `Store.Store.LogContractOperation` | apps/indexer/internal/store/onchain_audit.go:104-119 | audit row and, for alerts, a contract alert, each once a log |
| `Store.Store.InsertOneShotTransaction` | apps/indexer/internal/store/projections.go:153-313 | one transaction a log; it settles the session it names, or audits the mismatch; unknown tokens and unlinked merchants park |
| `Store.Store.SettlePaidSession` | apps/indexer/internal/store/projections.go:271-309 | the session is confirmed, the payment announced, and a payable invoice paid and announced |
| `Store.Store.MarkSessionConfirmed` | apps/indexer/internal/store/projections.go:271-283 | a confirmed session keeps its transaction and payer |
| `Store.Store.MarkInvoicePaid` | apps/indexer/internal/store/projections.go:290-308 | an id comes back exactly when the invoice made the transition to paid |
| `Store.Store.InsertOutboxEvent` | apps/indexer/internal/store/projections.go:355-364 | one event is queued |
| `Store.Store.UpsertSubscriptionFromOnchain` | apps/indexer/internal/store/projections.go:393-466 | one subscription an id, trialing when the first charge is later than the block; a taken enrolment hash is fatal |
| `Store.Store.InsertSubscriptionCharge` | apps/indexer/internal/store/projections.go:491-635 | charge row, transaction, window and webhook, each upserted as the log demands; a linked attempt under another log is fatal |
| `Store.Store.RecordSubscriptionPeriodsSkipped` | apps/indexer/internal/store/projections.go:652-687 | the due date moves to the paid period's start, audited |
| `Store.Store.InsertSubscriptionChargeSkip` | apps/indexer/internal/store/projections.go:704-812 | every outcome gets a row; only a new payment failure puts the subscription at risk and arms a retry |
| `Store.Store.MarkSubscriptionCancelled` | apps/indexer/internal/store/projections.go:818-844 | a subscription that is over stays as it is; otherwise it is cancelled, keeping an earlier time and reason |
| `Store.Store.CompleteRefundByTxHash` | apps/indexer/internal/store/projections.go:851-877 | a submitted refund is completed and announced; any other transfer changes nothing |
| `Store.Store.SetAgentJobStatusAndLog` | apps/indexer/internal/store/projections.go:914-959 | status and audit row together; the unknown job found by the second write parks the log |
| `Rpc.FailoverClient.FailoverDo` | apps/indexer/internal/chain/client.go:140-163 | asks each endpoint at most once in cyclic order from the active one, returns the first answer and makes its endpoint active, fails exactly when all fail |
| `Rpc.FailoverClient.TryEach` | apps/indexer/internal/chain/client.go:140-163 | the endpoints asked are exactly those up to the first that answers |
| `Rpc.FailoverClient.PinnedDo` | apps/indexer/internal/chain/client.go:235-243 | a pinned call reaches its own endpoint only; a failure moves later sessions off it |
| `Rpc.FailoverClient.MoveOff` | apps/indexer/internal/chain/client.go:220-228 | only the active endpoint is left, for the next in order |
| `Rpc.FailoverClient.Pin` | apps/indexer/internal/chain/client.go:214-218 | a session is on the active endpoint |
| `Rpc.FailoverClient.VerifyChainID` | apps/indexer/internal/chain/client.go:185-212 | keeps exactly the endpoints that answer, in order, and starts over at the first; fails exactly when one answers for another chain or none answers |
| `Rpc.PinnedFailuresWalk` | apps/indexer/internal/chain/client.go:220-228 | consecutive pinned failures walk the endpoints in cyclic order |
| `Rpc.PinnedFailuresLeaveOnce` | apps/indexer/internal/chain/client.go:220-228 | in n of them no endpoint is left twice |
| `Rpc.PinnedFailuresReachAll` | apps/indexer/internal/chain/client.go:220-228 | in n of them every endpoint has its turn |
| `Rpc.HashAnswer` | apps/indexer/internal/chain/client.go:73-79 | an endpoint gives a hash only for a block it holds |
| `Der.ReadElement` | packages/signer/src/der.ts:12-34 | reads the tag, a short or one- or two-byte long length, and that much content, or names what is wrong |
| `Der.ReadsHeader` | packages/signer/src/der.ts:12-34 | a header followed by the content it announces is read as that content |
| `Der.HeaderRead` | packages/signer/src/der.ts:12-34 | whatever is read is a header and the content it announces |
| `Der.DecodeEcdsaSignature` | packages/signer/src/der.ts:49-55 | the decoder, element by element |
| `Der.DecodesExactlySignatures` | packages/signer/src/der.ts:36-55 | decoding accepts exactly the spellings of two non-negative integers, to the last byte |
| `Der.RoundTrip` | packages/signer/src/der.ts:49-55 | decoding inverts the encoding of every pair below 2^256 |
| `Der.EncodedBytes` | packages/signer/src/der.ts:36-55 | two encodings byte by byte |
| `Signer.SignDigest` | packages/signer/src/aws-kms-signer.ts:73-105 | returns the low-s form with the first parity that recovers to the address, exactly when one does; the s returned is between 1 and half the order |
| `Signer.CurveOrder` | packages/signer/src/aws-kms-signer.ts:20-21 | the order is 2^256 less its 129-bit complement, and twice its half plus one |
| `Signer.BothFormsSignAlike` | packages/signer/src/aws-kms-signer.ts:88-95 | the encodings of s and N minus s decode to pairs with the same normalised form |
| `FeeTiers.StrimzFeeCents` | apps/web/src/lib/fee-estimate.ts:10-24 | the tier loop charges exactly the sum over each cent of the rate of the plan reached before it, which is the closed form |
| `FeeTiers.CentRate` | packages/shared-config/src/tiers.ts:30-60 | in numbers: the cent after a volume costs nothing below 100,000 cents, 50/10,000 below 5,000,000 and 40/10,000 from there on |
| `FeeTiers.FeeClosedForm` | apps/web/src/lib/fee-estimate.ts:10-24 | the fee of a stretch is the difference of the closed-form fees from zero |
| `FeeTiers.ReachedInUnits` | packages/shared-config/src/tiers.ts:91-109 | either token reaches starter at 1,000,000,000 and growth at 50,000,000,000 base units |
| `FeeTiers.UpgradesByPlan` | packages/shared-config/src/tiers.ts:111-115 | a free merchant moves to what is reached, a starter to growth, and no one else moves |
| `FeeTiers.FeeAdds` | apps/web/src/lib/fee-estimate.ts:10-24 | the fee of two consecutive stretches is the fee of both together |
| `FeeTiers.FeeWithinCeiling` | packages/shared-config/src/tiers.ts:71-73 | no stretch costs more than the ceiling rate |
| `FeeTiers.CeilingIsHighestRate` | packages/shared-config/src/tiers.ts:71-73 | the ceiling is the highest volume plan's rate |
| `FeeTiers.FirstYearFees` | apps/web/src/lib/fee-estimate.ts:27-44 | twelve months cost what the year's total costs at once, rounded once |
| `FeeTiers.PlanThresholds` | packages/shared-config/src/tiers.ts:95-109 | whole cents reach starter at 1,000 and growth at 50,000 dollars |
| `FeeTiers.PlanForVolume` | packages/shared-config/src/tiers.ts:101-109 | the highest plan any one token's volume reaches |
| `FeeTiers.PlanGrowsWithVolume` | packages/shared-config/src/tiers.ts:101-109 | more volume never lowers the plan |
| `FeeTiers.UpgradesSettle` | packages/shared-config/src/tiers.ts:111-115 | an upgrade is due once, and upgrades on the way end where one at the end would |
| `FeeTiers.PlanAtVolume` | apps/web/src/lib/fee-estimate.ts:47-51 | the plan of a dollar amount rounded to cents |
| `CursorPages.MergeCursorPages` | apps/web/src/lib/cursor-pages.ts:26-40 | each id once, where and as it first appears; more to come exactly when the last page has a cursor |
| `CursorPages.MergedIds` | apps/web/src/lib/cursor-pages.ts:29-37 | the merged ids are unique and exactly the ids present |
| `CursorPages.MergedInOrder` | apps/web/src/lib/cursor-pages.ts:29-37 | the merged rows are the first occurrences, in order |
| `CursorPages.PatchPage` | apps/web/src/lib/cursor-pages.ts:42-53 | patches the first row with the id, or returns nothing exactly when there is none |
| `CursorPages.PatchListCacheRow` | apps/web/src/lib/cursor-pages.ts:55-72 | patches every page that has the id; nothing exactly when no page has it |
| `CursorPages.MergeAndPatchCommute` | apps/web/src/lib/cursor-pages.ts:26-72 | for every patch that keeps ids, merging the patched cache is patching the merged row, even with the id on several pages |
| `Encoding.ToHex` | packages/shared-crypto/src/encoding.ts:9-17 | two lower-case digits a byte |
| `Encoding.FromHex` | packages/shared-crypto/src/encoding.ts:19-33 | the lenient pairwise parse, or the first thing wrong |
| `Encoding.HexRoundTrip` | packages/shared-crypto/src/encoding.ts:9-33 | parsing undoes printing for all bytes |
| `Encoding.PairReads` | packages/shared-crypto/src/encoding.ts:25-29 | every two-character string: which reads as what, and which not at all |
| `Encoding.PrefixIsDropped` | packages/shared-crypto/src/encoding.ts:19-23 | the prefix 0x is dropped once and an odd rest refused |
| `Encoding.TimingSafeEqual` | packages/shared-crypto/src/timing-safe.ts:12-19 | the accumulated difference is zero exactly when the bytes are equal |
| `Webhook.ParseSignatureHeader` | packages/shared-crypto/src/webhook.ts:87-106 | the fields of the header, the last of each kind winning, or nothing when a part is malformed |
| `Webhook.VerifyWebhookSignature` | packages/shared-crypto/src/webhook.ts:50-80 | valid exactly when a timestamp within tolerance comes with the hex of its MAC; otherwise the first thing wrong is named |
| `Webhook.SignWebhookPayload` | packages/shared-crypto/src/webhook.ts:23-32 | the header made of timestamp and MAC |
| `Webhook.SignedHeaderReads` | packages/shared-crypto/src/webhook.ts:87-106 | a signed header reads back as its timestamp and MAC |
| `Webhook.SignedLooks` | packages/shared-crypto/src/webhook.ts:23-32 | a signed header spelled out with the time in decimal |
| `Webhook.LastFieldsWin` | packages/shared-crypto/src/webhook.ts:87-106 | parts are malformed exactly when one has no key or a time that is no whole number; otherwise the last part of each kind gives its field |
| `Encoding.BlankCodes` | packages/shared-crypto/src/webhook.ts:95-96 | what trimming takes off is exactly ECMAScript white space, by code point |
| `Webhook.SplitJoins` | packages/shared-crypto/src/webhook.ts:89-90 | splitting cuts at every separator and loses nothing |
| `Webhook.TrimsEnds` | packages/shared-crypto/src/webhook.ts:93-95 | trimming takes white space off both ends and nothing else |
| `Webhook.SignThenVerify` | packages/shared-crypto/src/webhook.ts:23-80 | what is signed verifies exactly when the clock is within tolerance; another payload or secret only with an equal MAC |

## Left out

- SQL text, adapters, pools, row timestamps from NOW() and random row ids: tables are maps keyed as their unique indexes key them.
- ABI decoding: events arrive decoded, or as undecodable, which parks.
- Customers, billing plans and intervals, the merchant's active flag and maximum fee alone, agent registry, timelock and fee-accrual events: single upserts and audit rows of the same shape as those modelled.
- Agent jobs beyond one status-then-audit event: the status update is last-write-wins.
- Rows-affected results and log lines, which no caller's decision depends on.
- Integer widths: block numbers, times and amounts are unbounded; Go's uint64 and int64 conversions do not wrap at any value a chain reaches.
- More than one chain or environment in one database.
- The stablecoin loop (`processContract`) beyond `CompleteRefundByTxHash`: it reads without pinning and starts at the head, so the stream's theorems are not about it.
- Writes by the other applications except linking a merchant, which may happen before any transaction.
- The hex form of a parked log's topics and data: a letter holds the log itself.
- Runner.Serve: the chain is fixed within one poll and may change between polls; block hashes are taken to commit to the logs below them; block times are fixed, so a reorganisation that only moves the time of a block still cached is not modelled. The database starts without letters and without a stream cursor.
- Runner.SubscriptionsTakeTurns: takes each enrolment log to come before the subscription's other logs on chain, as the contract emits them.
- Runner.RivalsAreNeverPassed: takes a subscription to be enrolled by one log of the chain, and the links or subscriptions of the pair to stand before either log is read; a pair that parks first stops the retry passes instead (`Standoffs.PairStopsPayment`).
- Runner.LettersBehindDoomNeverClear: takes a subscription to be enrolled by one log of the chain.
- Replays.ReplayLeavesBooks: subscription rows and audit rows with random ids are not part of the books, since replays do change them.
- Races.SuccessCommutesWithFailure: the attempt counter and the webhooks and audits already sent differ with the order.
- FeeTiers.StrimzFeeCents: exact real arithmetic in place of floating point; cents are whole.
- Webhook.SignThenVerify: the MAC, number parsing and number printing are parameters; number parsing is only taken to be exact on decimal digits of safe integers.
- Encoding.FromHex: strict hex is not claimed, because a pair such as `1g` is read as 1.
- Signer.SignDigest: the KMS calls, key lookup and public-key recovery are parameters; addresses compare as equal strings.
- Uncompressed public keys, `toBase64Url` and the string comparison of the crypto package.
- Goroutines, tickers, the health server, the freshness monitor and connection set-up.
- Next-page loading in the dashboard: only the cached pages are modelled.
