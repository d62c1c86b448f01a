# Croupier: the settlement of wagers, in Dafny

This project models how croupier settles wager transactions against wallets, and proves what its
concurrency design promises. Any number of calls (HTTP submissions, SQS deliveries, a resolver of
parked reversals, wallet openings) run over one Postgres store. Between any two accesses to the
store they may interleave, and at any point any of them may crash.

`Protocol.dfy` is the transition system: a call is a program counter and what it has read so far; a
step is one access to the store, or one decision. Visible beside the committed tables are the row
locks on wallets and the unique-index entries of rows being inserted. A run is any sequence of steps.
`Tables.dfy` holds the tables and what a commit does to them, `Decisions.dfy` the program's decisions as
functions of what was read, and every other layer is tied to these:

- `Integrity`, `Calls`, `CoreSteps`, `CoreCommits`, `CoreTheorem`: what holds of every reachable state,
  however many resolvers there are. `Histories`, `Submissions`, `Idempotency`, `OwnSteps`,
  `ReplayStability`, `AnswerMoments`, `Standing` and the wallet half of `Agreement` draw the conclusions.
- `Settlements`, `Readings`, `SettledCommits`, `SettledTheorem`: what holds as well as long as no commit
  finds its row PROCESSED already (`SettledRun`), or finds it PROCESSED or REJECTED (`GuardedRun`).
  `Reversals`, `Conservation`, `Imbalance`, `Serializability` and the transaction half of `Agreement`
  draw the conclusions; `OneResolver` shows that one resolver at a time for each parked row is enough
  for both.
- `Stores`, `Submitters`, `Consumers`, `WalletCreators`, `Resolvers`: the same program as it is
  written, with objects changed in place, a session with a reentrant transaction, and loops, proved
  against the decisions.
- `Solo` proves what a call comes to that nobody interrupts: an HTTP submission of a new key or a known
  one, the submission inside a delivery, or a resolver's attempt. With it the written program and the
  transition system are shown to do the same (`Submitters.ProgramAndProtocolAgree`,
  `Consumers.ConsumerAndProtocolAgree`, `WalletCreators.CreatorAndProtocolAgree`,
  `ResolverRuns.ResolverAndProtocolAgree`). `Scenarios` exhibits two runs that show where promises end.
- `Outbox`, `OutboxWorkers`, `Backoff`: publishing with many workers. `Reconciliation`, `LedgerPages`:
  the two readers of the ledger. `Moneys`, `AmountText`, `Wallets`, `Wagers`: the value types, and the
  wallet and transaction objects.

Two results are negative, and each comes with its exact condition.

Nothing in the code keeps two resolvers off one row: the query for due rows takes no lock, the upsert has
no status guard, and a rejection for want of a reference takes no wallet lock. So a commit may find its
row terminal already and write over it. `Scenarios.TwoResolversRefundTwice` is such a run: PROCESSED is
overwritten by REJECTED, its ledger entry stays, and the bet is refunded again; the wallet ends with 110
while its trees of bets and reversals come to 100. What such a commit breaks, and when:

- Rows, references and entries agree at every moment of a run if and only if no commit of it finds its row
  PROCESSED (`Agreement.SettlementsAgreeExactly`), and events as well if and only if none finds it PROCESSED
  or REJECTED (`Agreement.AgreementExactly`). Only such a commit announces a terminal row again
  (`Agreement.AnnouncedAgainExactly`).
- Conservation: each tree comes to nothing or to its root's own movement, each balance is the sum of its
  trees and each processed reversal has a valid reference, at every moment of a run, if and only if no commit
  of it finds its row PROCESSED (`Imbalance.ConservationExactly`).
- That a row stands: any row stands throughout a stretch of a run if and only if no commit of it decides
  differently about that row (`Standing.RowsStandExactly`), and a PROCESSED row if and only if no commit
  decides about it at all; once one does, the row is REJECTED for good and its entry stays
  (`Standing.ProcessedRowsStandExactly`). So the reversal of a transaction stays the same one exactly as long
  as its own row is left alone (`Reversals.ReversedOnceForAll`).

What does not fail, with any number of resolvers: no database ever holds two processed reversals of one
transaction, and booking under the wallet's lock stays one atomic step (only the reading of the reference
and the finding of a duplicate need the guard).

A replay of a transaction without a ledger entry (a loss, or one that was rejected or parked) answers the
wallet's balance of the moment: ARCHITECTURE.md line 129 promises the balance of the original processing
for every replay, line 131 and the code make this exception. `Scenarios.LossIsReplayedWithTheCurrentBalance`
is a run in which the promise fails. Every accepted answer of every run has a moment, a length of the
ledger: that of the entry the call made or its lookup found, and otherwise that at which the call read the
wallet (`ReplayStability.ReplaysAreSourced` and `FreshAnswersAreSourced` trace it to the step). A replay
repeats the balance first answered if and only if what the wallet moved between the two moments comes to
nothing (`AnswerMoments.FirstAnswerIsRepeatedExactly`); and it answers the balance right after the commit
that brought the row in if and only if what the wallet moved from there to the replay's moment comes to
nothing (`AnswerMoments.ReplayRepeatsTheCommitExactly`).

The limit on the attempts at a parked reversal covers a missing reference (`Resolvers.GivesUpInTheEnd`, and
`ResolverRuns.GivenUpInEveryRun` in every run). An attempt that ends in an error is not counted and ends the
batch (`Resolvers.ErringRowEndsTheBatch`): a reversal whose credit no longer fits its wallet holds up every
row due after it until its own time has run out (`Resolvers.OverflowBlocksTheBatch`).

The package comment of `internal/postgres/db.go` (lines 8-9) lists the reconciler among the reads made
outside a transaction; the code opens one around both, and so does the model.

Identifiers are taken fresh: a call names what it creates after itself. The payload hash is taken to be
injective, so rows keep what was hashed. Clocks, currencies that passed validation, and whether a parked
row has expired are inputs.

## Model

| member | source | states |
|---|---|---|
| Moneys.AddIsExact | internal/money/money.go:71-82 | the wrap-around test fails exactly when the true sum leaves int64, and otherwise the true sum is returned |
| Moneys.SubtractIsExact | internal/money/money.go:84-90 | subtraction is exact, except that every MinInt64 subtrahend is refused |
| Moneys.SubtractRefusesFittingDifferenceOnlyForMinInt64 | internal/money/money.go:64-90 | a difference that fits is refused if and only if the subtrahend is MinInt64 |
| AmountText.AmountsPrintExactly | internal/money/money.go:150-163 | an amount is printed as its sign, its whole units in decimal, a dot and two digits |
| AmountText.ParseInvertsPrint | internal/money/money.go:150-163 | reading a printed amount back gives the amount, for all of int64 |
| AmountText.PrintInvertsParse | internal/money/money.go:172-184 | an accepted text is the printed form of what it parses to |
| AmountText.ParseAnswersExactly | internal/money/money.go:172-184 | a text is accepted, overflows or is invalid exactly as it is the canonical text of an amount in range, out of range, or of none (so "-0.00" is invalid) |
| Wallets.DebitIsExact | internal/wallet/wallet.go:75-89 | a debit of a valid wallet never overflows: signs, currency and balance alone decide it |
| Wallets.CreditIsExact | internal/wallet/wallet.go:62-73 | a credit of a valid wallet overflows exactly above MaxInt64 |
| Wallets.MovedWallet | internal/wallet/wallet.go:62-89 | a movement keeps the wallet valid, adds one to the version and exactly the signed amount to the balance |
| Wallets.ReverseMovementRestores | internal/wallet/wallet.go:62-89 | the opposite movement always succeeds afterwards and restores the balance |
| Wallets.LedgerEntryAcceptedExactly | internal/wallet/ledger_entry.go:45-83 | the constructor accepts an entry if and only if amounts, signs, currencies and the balance equation are consistent, and otherwise names what is not |
| Wallets.MovementIsAlwaysRecordable | internal/app/wager_submit.go:232-273 | the ledger constructor never refuses what process hands it after a successful movement |
| Wallets.Wallet.Credit | internal/wallet/wallet.go:62-73 | the object changes as the credit of its row, or returns its error and is unchanged |
| Wallets.Wallet.Debit | internal/wallet/wallet.go:75-89 | the object changes as the debit of its row, or returns its error and is unchanged |
| Wagers.SubmissionsAcceptedExactly | internal/wager/transaction.go:101-165 | a submission is accepted if and only if its fields are present and its kind allows its amount and reference, and then every field of the transaction is the one submitted; a refused one is told the first thing wrong |
| Wagers.ReferencesValidExactly | internal/wager/transaction.go:240-271 | a reference validates if and only if it is PROCESSED, agrees in provider, key, player, wallet, round and money, and is of a reversible kind |
| Wagers.TransitionsExactly | internal/wager/transaction.go:228-341 | a transition is accepted if and only if the transaction is not terminal and no other reference has been resolved, changes what it names alone, and is otherwise refused with its error |
| Wagers.HistoriesAreSafe | internal/wager/transaction.go:228-341 | over every history of transitions: business fields never change, terminal states are absorbing, a resolved reference stays, a failure code is there exactly when REJECTED or FAILED |
| Wagers.PendingIsNotReentered | internal/wager/transaction.go:298-341 | once left, PENDING is never entered again |
| Wagers.Transaction.ResolveReference | internal/wager/transaction.go:228-238 | the object follows the transition, or keeps its state and returns the error |
| Wagers.Transaction.MarkProcessed | internal/wager/transaction.go:298-305 | the object follows the transition, or keeps its state and returns the error |
| Wagers.Transaction.MarkRejected | internal/wager/transaction.go:307-315 | the object follows the transition, or keeps its state and returns the error |
| Wagers.Transaction.MarkPendingReference | internal/wager/transaction.go:321-331 | the object follows the transition, or keeps its state and returns the error |
| Wagers.Transaction.MarkFailed | internal/wager/transaction.go:333-341 | the object follows the transition, or keeps its state and returns the error |
| CoreTheorem.ReachableIsCore | internal/app/wager_submit.go:64-306 | in every reachable state, whatever the interleaving, crashes and resolvers: rows, index, wallets, ledger, events and inbox are sound and every call's knowledge is right |
| Histories.OnlyTheHolderMovesAWallet | internal/app/wager_submit.go:183-301 | a committed wallet row or its ledger changes only by a commit of the call that holds its lock, which gives the lock up |
| Histories.HeldWalletStandsStill | internal/postgres/wallet_repository.go:26-36 | however long a call holds a wallet's lock and whatever others do, the committed wallet and its ledger stand still: no update is lost |
| Histories.EvolvesAlong | internal/postgres/wager_repository.go:41-45 | whatever follows, nothing committed is lost or rewritten but a row's status, reference and failure code; ledger and events only grow |
| Histories.DeliveriesReadUnderLock | internal/postgres/wallet_repository.go:26-36 | a wallet read inside a delivery's transaction waits for whoever holds the wallet, and otherwise takes its lock |
| Histories.CrashFreesItsLocks | internal/postgres/db.go:98-114 | a call that crashes leaves tables, queue and everybody else's calls and locks as they are, and none of its own locks |
| Submissions.SubmissionsBegin | internal/app/wager_submit.go:64-83 | a caller's submission, or one taken from the queue under a message id, begins if and only if it is acceptable, with every field as submitted |
| Submissions.WhatIsSubmittedIsBooked | internal/app/wager_submit.go:64-306 | in every run, whatever follows: a submission's row, its ledger entry and the transaction it is answered with, fresh or replayed, carry the key, player, wallet, round, game, kind, amount and reference submitted |
| Submissions.NoMessageIsLost | internal/sqs/consumer.go:179-213 | in every run, crashes included: a message sent waits in the queue as it was sent, or it was deleted with its inbox row completed and its wager row committed |
| Serializability.SettlesExactly | internal/app/wager_submit.go:191-326 | the outcome under the lock, case by case: duplicate, currency, insufficient funds by kind, overflow, or booked with exactly the signed amount, entry and events |
| Serializability.ReferencesLeadExactly | internal/app/wager_submit.go:151-172 | a missing reference parks the transaction, announced the first time only; an invalid one rejects it; a valid one is resolved and gone on with, unless another was |
| Serializability.LossesFinishExactly | internal/app/wager_submit.go:367-390 | a loss in its wallet's currency is processed and announced and moves nothing; in another it is an error |
| Serializability.SettlementsAreAtomic | internal/app/wager_submit.go:191-306 | in every run: what is decided under the wallet's lock (but for the finding of a duplicate) is at its commit still what deciding then decides, and for a bet, a win or a loss that is all of process |
| Serializability.CommitAppliesDecision | internal/app/wager_submit.go:287-299 | a commit applies exactly the writes decided, with the delivery's inbox row |
| Serializability.SettlementsAreSerial | internal/app/wager_submit.go:149-306 | as long as no PROCESSED row is overwritten: what any settlement commits, duplicates included, is what processing the submission alone, reference read included, decides at the moment of the commit |
| Solo.SubmissionAlone | internal/app/wager_submit.go:64-306 | an uninterrupted submission, by HTTP or inside a delivery, of a new key or a known one, ends with the writes and the answer of processing or replaying alone, every lock given back, a delivery's inbox row completed and its message deleted if it was answered |
| Solo.LoserAlone | internal/app/wager_submit.go:88-109 | a submission that lost the race to insert its row is answered, uninterrupted, the winner's row as a replay, or the conflict |
| Idempotency.OneTransactionPerKey | internal/app/wager_submit.go:80-129 | all callers answered for one key, by HTTP or SQS, get the same transaction with the content each submitted; at most one answer is not a replay |
| Idempotency.OneRowAndEntryPerKey | internal/postgres/migrations/000003_create_wager_transactions_table.up.sql:25 | a key has one row, now and in every later state, and the row at most one ledger entry |
| Idempotency.KnownKeyIsReplayed | internal/app/wager_submit.go:84-129 | once a key has a row, an undecided submission of it, by HTTP or from the queue, ends with that row as a replay (a delivery with its inbox row committed) or, for different content, with the conflict error, and with nothing else |
| Idempotency.ConflictLeavesTheMessage | internal/sqs/consumer.go:278-309 | a delivery whose content differs from the row's ends with the conflict: nothing committed, no lock kept, the message still queued |
| Idempotency.LostInsertIsLookedUp | internal/app/wager_submit.go:88-104 | losing the insert race outside a joined transaction is never an error: the winner is looked up |
| Idempotency.LostInsertAbortsTheDelivery | internal/postgres/db.go:92-114 | losing it inside a delivery's transaction commits nothing, frees the locks and leaves the message in the queue |
| Idempotency.DeletedMessagesAreDone | internal/sqs/consumer.go:179-213 | a deleted message has a completed inbox row and its wager row committed |
| Idempotency.InboxRowsAreComplete | internal/sqs/consumer.go:265-312 | no committed inbox row is incomplete, and each one's wager row is committed |
| Idempotency.MessageMovesOnce | internal/sqs/consumer.go:248-315 | under any crashes and redeliveries the wallet moves at most once for a message's key |
| ReplayStability.SettledAnswerIsItsEntry | internal/app/wager_submit.go:116-147 | every accepted answer for a settled transaction, fresh or replayed, carries its own ledger entry's balance |
| ReplayStability.EntryRecordsItsCommit | internal/app/wager_submit.go:263-299 | the step that enters a transaction in the ledger leaves its wallet at the entry's balance after |
| ReplayStability.ReplayRestoresTheBalance | internal/app/wager_submit.go:116-147 | whatever follows the commit that settled a transaction, every answer for it is its wallet's balance right after that commit |
| ReplayStability.ReplaysAreSourced | internal/app/wager_submit.go:131-147 | every accepted replay of every run, by HTTP or from the queue, answers the balance of the entry its lookup found, or, for an unsettled row without one, the wallet's balance at the step that read it |
| ReplayStability.FreshAnswersAreSourced | internal/app/wager_submit.go:131-147 | every answer for a loss, a rejection or a parking a call decided itself carries the wallet's balance at the step that read it: at its commit when decided under the lock, else when it asked for it |
| AnswerMoments.FirstAnswerIsRepeatedExactly | internal/app/wager_submit.go:116-147 | a replay repeats the balance of the row's own answer, whatever that decided, if and only if the wallet's movements between the moments of the two answers total 0 |
| AnswerMoments.ReplayRepeatsTheCommitExactly | internal/app/wager_submit.go:116-147 | a replay answers the balance the wallet had right after the commit that inserted the row if and only if the wallet's movements from that commit to the replay's moment, which is never earlier, total 0 |
| Scenarios.LossIsReplayedWithTheCurrentBalance | internal/app/wager_submit.go:139-146 | a run in which the same loss is answered with 100 and replayed with 90 |
| Scenarios.TwoResolversRefundTwice | internal/app/pending_reference_resolver.go:79-125 | a run with two resolvers of one row: PROCESSED is overwritten by REJECTED, its entry remains, and the bet is refunded again, so that the wallet's balance is not the sum of its trees |
| SettledTheorem.ReachableIsStrong | internal/app/wager_submit.go:149-306 | as long as no PROCESSED row is overwritten: in every reachable database rows, references and entries agree, and what any call read before or under the lock is still so when it commits |
| OneResolver.ExclusiveRunsAreGuarded | internal/app/pending_reference_resolver.go:79-125 | with one resolver at a time for each parked row, and any number of submitters, no commit overwrites a terminal row |
| Reversals.AtMostOneReversal | internal/app/wager_submit.go:191-230 | with any number of resolvers, no reachable database holds two processed reversals of one transaction, and a reversal points at a row of its own wallet |
| Reversals.ReversedOnceForAll | internal/app/wager_submit.go:191-230 | the processed reversal of a transaction is the same one at two moments if and only if no commit in between decides about that reversal's row |
| Standing.RowChangesExactly | internal/postgres/wager_repository.go:41-45 | a step changes a committed row if and only if it commits a decision about it that differs from it; about a PROCESSED row every decision does, and rejects it |
| Standing.EnteredRowsAreDecided | internal/app/wager_submit.go:263-299 | in every run a row that has a ledger entry is PROCESSED or REJECTED: none that waits has one |
| Standing.RowsStandExactly | internal/postgres/wager_repository.go:41-45 | any row, processed, rejected or parked, stands throughout a stretch of any run if and only if no commit of the stretch writes another status, reference or failure code over it |
| Standing.ProcessedRowsStandExactly | internal/postgres/wager_repository.go:41-45 | a PROCESSED row is what it was after any stretch if and only if no commit in it decides about that row; else it is REJECTED for good and its ledger entry stays |
| Reversals.ReversalsUndo | internal/app/wager_submit.go:311-326 | as long as no PROCESSED row is overwritten: a processed reversal moves the same amount the opposite way of a processed row of its wallet; references are at most two deep and end in a bet |
| Reversals.ReferencesStand | internal/app/wager_submit.go:151-172 | as long as no PROCESSED row is overwritten: the reference a reversal was settled against is the same valid row ever after |
| Reversals.TreesComeToNothingOrTheirRoot | internal/app/wager_submit.go:208-230 | as long as no PROCESSED row is overwritten: a bet, win or opening and everything that reverses it come to zero if it is reversed for good, and to its own signed amount otherwise |
| Reversals.BalanceIsItsTrees | internal/app/wager_submit.go:208-230 | as long as no PROCESSED row is overwritten: a wallet's balance is the sum over its trees, its opening among them |
| Imbalance.ConservationExactly | internal/postgres/wager_repository.go:41-45 | every tree comes to nothing or to its root's movement, every balance is the sum of its trees and every processed reversal validly references a processed row, at every moment of a run, if and only if no commit of it finds its row PROCESSED |
| Agreement.BalanceIsItsLedger | internal/app/wager_submit.go:232-301 | a balance is never negative and is credits minus debits of a chained ledger; the version counts the movements |
| Agreement.EventsRebuildTheWallet | internal/app/events.go:131-154 | a wallet's balance events are one per entry, name the processed event as cause, have consecutive versions, and fold to the stored balance and version |
| Agreement.RowsAgree | internal/wager/transaction.go:298-341 | as long as no PROCESSED row is overwritten: statuses of persisted rows; a failure code exactly when REJECTED; the wallet's currency when PROCESSED; an entry exactly when PROCESSED and not a loss |
| Agreement.EntriesAgree | internal/app/wager_submit.go:263-299 | as long as no PROCESSED row is overwritten: each entry is the only one of a settled row of its wallet, with its amount and its kind's direction |
| Agreement.EventsAgree | internal/app/wager_submit.go:337-407 | as long as no terminal row is overwritten: each terminal row has exactly its one terminal event, a waiting row none, and no row is announced as waiting twice |
| Agreement.AnnouncedAgainExactly | internal/postgres/wager_repository.go:41-45 | a step announces a terminal row again if and only if it is a commit that writes that row once more |
| Agreement.AgreementExactly | internal/postgres/wager_repository.go:41-45 | rows, references, entries and events agree at every moment of a run if and only if no commit of it finds its row processed or rejected already |
| Agreement.SettlementsAgreeExactly | internal/postgres/wager_repository.go:41-45 | rows, references and entries agree at every moment of a run if and only if no commit of it finds its row PROCESSED already |
| Stores.Store.Begin | internal/postgres/db.go:98-107 | a transaction is opened, or the one that is open is joined |
| Stores.Store.End | internal/postgres/db.go:98-114 | only the outermost call commits or rolls back, all or nothing |
| Stores.Store.SaveTx | internal/postgres/wager_repository.go:33-72 | an upsert by id is staged, unless an insert finds its key taken or its wallet missing, which dooms the transaction |
| Stores.Store.SaveWallet | internal/postgres/wallet_repository.go:55-75 | an upsert by id, unless it would be the player's second wallet in the currency |
| Stores.Store.SaveLedgerEntry | internal/postgres/wallet_repository.go:77-87 | one entry per wallet and transaction |
| Stores.Store.FindLedgerEntry | internal/postgres/wallet_repository.go:95-102 | the entry of a transaction, or none |
| Stores.Store.AllLedgerEntries | internal/postgres/wallet_repository.go:104-120 | exactly the wallet's entries, in order |
| Stores.Store.ScheduleNextRetry | internal/postgres/wager_repository.go:127-136 | attempt and next time are recorded only for a row still parked |
| Submitters.SettleUnderLock | internal/app/wager_submit.go:191-301 | the block under the lock, with the wallet and transaction objects changed in place, stages exactly what is decided |
| Submitters.Process | internal/app/wager_submit.go:149-306 | process writes and answers exactly what processing alone decides on the tables it found; a failed statement dooms an enclosing transaction |
| Submitters.SaveWithEvent | internal/app/wager_submit.go:392-407 | row and event in one transaction, then the wallet's balance |
| Submitters.Reject | internal/app/wager_submit.go:356-365 | the rejection and its event, or nothing |
| Submitters.ParkPendingReference | internal/app/wager_submit.go:337-354 | row and event the first time, nothing but the balance afterwards |
| Submitters.FinishWithoutMovement | internal/app/wager_submit.go:367-390 | a loss in the wallet's currency is processed without touching the wallet |
| Submitters.BalanceAtProcessing | internal/app/wager_submit.go:131-147 | the entry's balance after, or the wallet's balance |
| Submitters.ReplaysAnswerExactly | internal/app/wager_submit.go:111-147 | on a sound ledger a replay answers the balance its own entry left, without an entry the wallet's, and for other content the conflict |
| Submitters.ConcludesExactly | internal/app/wager_submit.go:88-109 | a submission that found no row ends with the decision's refusal, the decided row, or, where the key has got a row by its insert, a replay of that row, or inside a delivery the aborted transaction |
| Submitters.Submit | internal/app/wager_submit.go:64-109 | a known key is replayed; otherwise process, and if somebody inserted the key meanwhile, a replay of what they wrote, never the insert error |
| Submitters.ProgramAndProtocolAgree | internal/app/wager_submit.go:64-306 | the program's submission, of a new key or a known one, and the uninterrupted protocol reach the same database and the same answer |
| Consumers.Inbox.MarkCompleted | internal/inbox/inbox.go:55-62 | completes once |
| Consumers.Handle | internal/sqs/consumer.go:248-315 | a message without an id, or with other content than its id's inbox row, is an error and changes nothing; one whose row is completed is done; else a delivery commits the submission's writes and the completed inbox row in one go, or leaves nothing of its own |
| Consumers.ProcessMessage | internal/sqs/consumer.go:179-213 | a message leaves the queue exactly when it is handled, with its inbox row committed as completed by then; one without an id or with changed content stays |
| Consumers.ConsumerAndProtocolAgree | internal/sqs/consumer.go:179-315 | an uninterrupted delivery of the protocol leaves tables and queue as the consumer does, in every case: handled now or before, changed since, without an id, or failing |
| WalletCreators.Create | internal/app/wallet_create.go:44-115 | wallet, opening row, entry and events in one commit, or the error of a taken player and currency, found before or at the insert |
| WalletCreators.OpensExactly | internal/app/wallet_create.go:53-99 | the wallet of this player with this balance at version 1; for a positive balance its processed opening, the entry that credits it from zero and both events, and for zero nothing else; a negative one is refused |
| WalletCreators.CreatorAndProtocolAgree | internal/app/wallet_create.go:44-115 | the protocol's opening leaves the tables as the creator does, and happens if and only if the balance is not negative and the player has no wallet in the currency |
| WalletCreators.OneWalletPerPlayerAndCurrency | internal/postgres/migrations/000001_create_wallets_table.up.sql:10 | in every run a player has at most one wallet in a currency, and a wallet keeps both for good |
| Backoff.DelayIsExactExactlyBelow43Bits | internal/app/pending_reference_resolver.go:127-139 | the delay is base times 2^min(attempts, 20) at every number of attempts if and only if a positive base is below 2^43 ns |
| Backoff.DelaysGrow | internal/app/pending_reference_resolver.go:127-139 | below that bound delays are positive, double up to twenty attempts and never shrink |
| Resolvers.FindDuePendingReferences | internal/postgres/wager_repository.go:101-125 | parked rows whose next retry has come or was never set, each once, oldest first, all of them unless the limit cuts the list off |
| Resolvers.ResolveOne | internal/app/pending_reference_resolver.go:92-125 | one attempt: the rejection when out of attempts or time, else process, and a retry counted if still parked |
| Resolvers.ResolveDue | internal/app/pending_reference_resolver.go:79-90 | all that is due, in turn, up to the first error |
| Resolvers.ParkedAgainWaitsItsBackoff | internal/app/pending_reference_resolver.go:112-139 | a row that an attempt leaves parked is in no list before the attempt's time plus the backoff of the attempts so far, and from then on in every list with room for it |
| Resolvers.ErringRowEndsTheBatch | internal/app/pending_reference_resolver.go:79-90 | a row whose processing fails ends the batch: what came before it is done, and it and every later row are as they were, its attempts uncounted and its due time unchanged |
| Resolvers.OverflowBlocksTheBatch | internal/app/pending_reference_resolver.go:79-112 | a due reversal whose credit no longer fits its wallet, first in the list, keeps the whole batch from happening and is not counted, so this repeats until its time has run out |
| Resolvers.WaitingAttempt | internal/app/pending_reference_resolver.go:92-125 | an attempt at a row whose reference is missing counts itself and changes nothing else, or, out of attempts or time, rejects the row and announces that |
| Resolvers.GivesUpInTheEnd | internal/app/pending_reference_resolver.go:92-125 | whatever else others commit between the rounds, a reversal whose reference never appears is parked again exactly until the first round that finds it out of attempts or time, then rejected with REFERENCE_NOT_FOUND, announced once |
| Resolvers.AttemptsAreBounded | internal/app/pending_reference_resolver.go:100-106 | on the same living system its attempts never exceed maxAttempts, and it is rejected at the latest in the round after the remaining ones |
| ResolverRuns.ResolverAndProtocolAgree | internal/app/pending_reference_resolver.go:92-125 | in every run an uninterrupted attempt of the protocol at any parked row leaves the tables as the resolver's program does, given up, parked again, rejected or settled |
| ResolverRuns.AttemptsAreCounted | internal/postgres/wager_repository.go:127-136 | in every run a row's count is the number of attempts that found its reference missing: a new row starts from nothing and nothing else counts |
| ResolverRuns.GivenUpInEveryRun | internal/app/pending_reference_resolver.go:92-125 | in every run of the protocol, whatever happens between the attempts but to this row: parked again until the first attempt that finds it out of attempts or time, then rejected and announced once; if within its limit, the attempt after the remaining ones is the last at the latest |
| Outbox.HoldersAreExclusive | internal/postgres/outbox_repository.go:58-72 | no two workers hold the same entry, and what is held is the committed unsent row |
| Outbox.OnlyCommittedIsSent | internal/app/outbox_worker.go:57-70 | only committed entries are sent, under their unchanging id and content |
| Outbox.SendsAreAccountedFor | internal/app/outbox_worker.go:71-105 | an entry's sends are the recorded one, those lost by a crash before the commit, and the one under way; the retry count is the number of committed failed attempts |
| Outbox.PublishedWasSent | internal/app/outbox_worker.go:94-98 | PUBLISHED implies at least one successful send |
| Outbox.PublishedStands | internal/outbox/outbox.go:119-133 | PUBLISHED never reverts, is never held again and never sent again |
| Outbox.AbandonedIsClaimable | internal/app/outbox_worker.go:57-70 | the entry of a crashed worker is claimable at once, and the next idle worker gets it when it is the oldest |
| Outbox.ClaimsExactly | internal/postgres/outbox_repository.go:58-72 | an idle worker gets an entry if and only if it is committed, unsent, due, locked by nobody and the oldest such; nothing else changes |
| Outbox.FailedIsTriedAgain | internal/app/outbox_worker.go:71-105 | however long after a committed failed attempt, if nobody has tried the entry again: it is due exactly when its backoff has elapsed and no worker holds it, and the next idle worker gets it when it is the oldest |
| Outbox.StagesExactly | internal/outbox/outbox.go:59-89 | an entry with content under a new id waits in its producer's transaction; any other is refused |
| Outbox.CommittedIsDue | internal/postgres/outbox_repository.go:31-51 | once its producer commits, an entry is in the table and due at once; once it aborts, the entry is gone |
| Outbox.AbandonedStaysOut | internal/postgres/outbox_repository.go:31-51 | an entry whose transaction was abandoned never gets into the table, whatever follows |
| OutboxWorkers.Entry.MarkPublished | internal/outbox/outbox.go:119-124 | published, and idempotent |
| OutboxWorkers.Entry.ScheduleRetry | internal/outbox/outbox.go:126-133 | counts the retry and sets the time of an unsent entry, refuses a published one |
| OutboxWorkers.Session.FindDueForUpdate | internal/postgres/outbox_repository.go:58-72 | the oldest committed entry that is unsent, due and locked by nobody, now locked; none only if there is none |
| OutboxWorkers.Session.SaveAndCommit | internal/postgres/outbox_repository.go:31-51 | the upsert rewrites status, retry count and next time only, and the lock is given up |
| OutboxWorkers.RunOnce | internal/app/outbox_worker.go:71-105 | processes one entry exactly when one is committed, unsent, due and locked by nobody, the oldest such, by the system's claim, publish and commit steps |
| OutboxWorkers.RunAloneEffect | internal/app/outbox_worker.go:83-99 | a success retires the entry, a failure puts it off by the backoff and counts it; nothing else of the table changes |
| Reconciliation.Reconcile | internal/app/wallet_reconcile.go:45-90 | within one transaction: the wallet read for update, then its entries, while others may commit elsewhere; the report is that of the tables as first read, and nothing is written |
| Reconciliation.ReportsAreExact | internal/app/wallet_reconcile.go:58-83 | over any order of the entries a report is exact, with the stored balance as it was read, and there is one exactly when no prefix, nor the difference, leaves int64 |
| Reconciliation.SameResultInAnyOrder | internal/app/wallet_reconcile.go:58-83 | two orders of the same entries that both give a report give the same |
| Reconciliation.RunningSumIsTheBalance | internal/app/wallet_reconcile.go:58-69 | in commit order the running sum is each entry's balance after, so it never overflows |
| Reconciliation.ReachableWalletReconciles | internal/app/wallet_reconcile.go:45-90 | every wallet of every reachable state reconciles with difference zero |
| Reconciliation.HeldWalletReconciles | internal/app/wallet_reconcile.go:33-56 | as long as one call holds the wallet's lock, the balance read first and the entries read any number of steps later reconcile |
| LedgerPages.ListLedgerEntries | internal/postgres/wallet_repository.go:122-153 | the page past the cursor, in (created_at, id) order, up to the limit |
| LedgerPages.List | internal/app/wallet_ledger_list.go:27-33 | the page at the limit asked for from 1 to 50, and at 50 otherwise |
| LedgerPages.PagesExactly | internal/postgres/wallet_repository.go:122-153 | a page holds rows of the wallet past the cursor's row, in order, up to the limit, and none that is left out comes before one that is in; an unknown cursor selects nothing |
| LedgerPages.VisitsEachOnceInOrder | internal/postgres/wallet_repository.go:122-153 | following cursors over a table that grows by later-keyed rows visits the rows in order, each once, and all of them once a page is short |
| LedgerPages.ListingEnds | internal/app/wallet_ledger_list.go:27-33 | at any requested limit, as many pages as there are rows make up the unpaginated list, and further pages are empty |

## Left out

- HTTP handlers, JSON decoding and encoding, the envelope's type and idempotency-key checks, authentication, metrics, logging, configuration and wiring: input and output.
- SHA-256 and canonical JSON: the payload hash is taken to be injective on the business fields.
- ISO 4217 validation, UUID generation and the clock: a currency is an opaque validated token, ids are fresh, times are inputs.
- Transient connection errors and deadlock detection: a call that fails on one leaves what a crash at that point leaves.
- Row locks other than those on wallets, and foreign-key share locks: they order commits but change none of the values modelled. An update of a parked row waits for nothing.
- A wallet's version is an unbounded integer; the source's is an int64.
- MarkFailed in runs: no application path calls it, so it is kept to the transaction's own state machine.
- Per-aggregate delivery order of published events: retries and skipped locks do not keep it.
- Rejection of a reused message id with different content when two deliveries overlap: the inbox row is read before the transaction, so only non-overlapping deliveries are told apart.
- Full serialisability: two reversals that name each other may both park, and a parking or a rejection for a bad reference is decided on a reference read that may be out of date by its commit. Only settlements and losses are proved serial.
- Submitters.Submit: other transactions commit at one point only, between the lookup and the processing; every finer interleaving is the transition system's.
- WalletCreators.Create: in runs an opening is one step, since nobody can know the wallet before its commit; the race for a player and currency is in the method.
- Resolvers.GivesUpInTheEnd: others leave the row itself alone between its rounds and the store does not fail; each attempt is one step there.
- ResolverRuns.GivenUpInEveryRun: each attempt runs uninterrupted, and the times of the attempts are inputs. Attempts of several resolvers interleaved at one row are the transition system's, where the passing of time is an input.
- Reconciliation.Reconcile: others commit at one point, between the two reads, and not to the wallet read; that the lock keeps them off it is proved on the transition system.
- Consumers.ProcessMessage: the failing delete call, after which the message is delivered again, is the crash before the delete in the transition system.
- LedgerPages.ListLedgerEntries: rows keep only what the listing looks at; commit order need not be key order there, while the reconciler's running sum takes the entries in commit order.
