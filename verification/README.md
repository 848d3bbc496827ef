# PayRoute: money movement, idempotency and locks

This project models the backend of PayRoute in Dafny and proves what its statuses, ledger, history, webhook log and
balances keep, under any interleaving of the API, the webhook worker, the dead-letter handler and the provider worker.

## How it is organised

- `Tables.dfy`: the database rows as values, selection by transaction, and how ledger entries move balances.
- `Operations.dfy`: each operation as a function from the committed tables to the committed tables, and runs of them.
- `Store.dfy`: the services as a class whose methods write statement by statement and roll back when one throws; each
  method is proved equal to its function.
- `Outcomes.dfy`: when each call succeeds and what it leaves, in terms of the rows a caller can see.
- `Invariant.dfy`, `Runs.dfy`: the inductive invariant, what it gives for whole runs, and exactly which steps break it.
  `Scars.dfy`: what breaks it breaks it for good. `LateWrites.dfy`: runs in which calls write long after they checked.
  `Completions.dfy`: which payments can still be completed. `Examples.dfy` reaches the boundary cases from a seeded database.
- `Workers.dfy`: refunds, dispute reversals, webhooks and dead-letter handlers interleaved one statement at a time, with
  row locks on transactions and accounts and private row versions until commit, and late writes in between. Committed
  states are those of serial runs, so what `LateWrites.dfy` proves of runs holds of them, and when no late write commits
  what `Runs.dfy`, `Terms.dfy`, `DailyLimits.dfy` and `Reconciliation.dfy` prove too.
- `Progress.dfy`: a worker left alone does its operation, and every serial run is a concurrent one.
- `Deliveries.dfy`: repeated and reordered webhook deliveries.
- `Compensation.dfy`, `Terms.dfy`, `DailyLimits.dfy`, `Reconciliation.dfy`: the compensation loop on any ledger, the
  frozen terms of a payment, the daily limits over runs, the nightly check.
- `Idempotency.dfy`, `Requests.dfy`, `Interceptor.dfy`: the idempotency protocol as interleaved steps, what one request does
  at each await, sees of the cache and comes to when left alone, and the interceptor as one request
  runs it with the others' steps in between and any of its own calls throwing.
- `TokenLock.dfy`: the Redis token lock under a clock.
- `Sweep.dfy`: the stuck-payment sweep. `Fx.dfy`: conversion, splitting and the rate cache.

## Conventions and assumptions

- Amounts and rates are integers in units of 10^-8. A transaction's id is its row number.
- A webhook is two operations: `Receive` inserts the event row, `Settle` is the locked database transaction. Other
  operations may come between them. The payload's amount is absent because the code never reads it.
- In-domain: `refundPayment` is not called on a DISPUTED payment and `resolveDispute(reject)` not on a PROCESSING one.
  Everything else is in-domain, a reversal of a payment that is not disputed included.
- `Enabled` lists what the environment guarantees of an operation taken as one step: only the delivery that inserted an event
  row works on it; a provider reference is fresh, and the row is still without one when the provider worker writes.
  Clean-up of old event rows and keys is not a step.
- `raiseDispute`, `resolveDispute(reject)` and the provider worker check outside the transaction that writes. In `Store.dfy`
  any operations may commit in between; in `LateWrites.dfy` and `Workers.dfy` the write is a step of its own that may come at
  any time and finds whatever it finds. Payment creation runs under its own isolation and is one step.
- In `Workers.dfy` and `Progress.dfy` the accounts a payment names exist, by the foreign keys. A webhook that finds no transaction for its
  reference takes one step, since it locks nothing. A refund's unlocked check before the row lock is not a step there: it can
  only end the request early.
- In `Idempotency.dfy` any store call may throw: an answer that cannot be persisted gives up the lock, and what is still
  under way of the other write is taken as lost. An acquisition that throws has not taken the lock.

## Where code and documentation disagree

- The refund endpoint's description allows PROCESSING; the transition table refuses it and allows DISPUTED instead, where
  compensating the sender leaves the recipient the payout (`Runs.RefundDisputedResidual`).
- The dispute endpoint's description says a rejected dispute stays completed; from PROCESSING the call completes a payment
  that never paid out and records it as coming from DISPUTED (`Runs.RejectProcessingResidual`).
- The schema document says every balance equals its ledger sum. That holds for an account exactly when it was seeded
  empty (`Reconciliation.BalanceIsLedgerSumExactly`).

## Where a property fails, and exactly when

- Two handler executions can return for one idempotency key. A lock expiry, a failed pre-check or a failed persist is harmless
  if and only if no continuation without harmful faults has two (`Idempotency.HarmlessExactly`).
- An off-domain call breaks the invariant for good, and no other call breaks it (`Scars.RunKeepsExactly`).
- A dispute is raised, or a rejection written, on a status read earlier. With such writes anywhere, under any interleaving,
  what committed agrees if and only if each found the payment COMPLETED, or DISPUTED, no call was off-domain and nothing was
  paid twice (`LateWrites.RunKeepsSoundExactly`, `Workers.CommittedStatesAreSoundExactly`).
- A reference written over another can lead to a second credit, at most one for each such write
  (`LateWrites.CreditsAreBounded`, `Examples.DoubleCreditExample`), exactly when a completion finds the payment DISPUTED
  (`LateWrites.SecondCreditExactly`).
- A PROCESSING payment can miss its completion: an unsigned delivery, or a signed one that comes before the reference is
  written, takes its (reference, status) pair (`Examples.UnsignedFirstExample`, `Examples.EarlyCompletionExample`). Some
  in-domain run completes the payment if and only if it has no reference yet, or its reference selects it and that
  reference's completion event is not worked off (`Completions.CompletableExactly`).
- A day can exceed its limits (`Examples.DayExceededExample`). It stays within them all along if and only if no step brings
  back from DISPUTED a payment of that day that no longer fits (`DailyLimits.RunWithinExactly`), and the excess is at most
  the payments that came back (`DailyLimits.SeededRunStaysWithin`).

## Model

| member | source | states |
|---|---|---|
| Store.Store.Debit | backend/src/ledger/ledger.service.ts:13-62 | a debit is applied, with its entry, exactly when the account exists and can afford it; otherwise it throws and changes nothing |
| Store.Store.Credit | backend/src/ledger/ledger.service.ts:64-104 | a credit raises the balance by the amount of the entry it appends; an unknown account throws |
| Store.Store.CreateCompensatingEntries | backend/src/ledger/ledger.service.ts:106-157 | the loop's entries and balance updates, one by one, come to posting all compensations of the transaction at once |
| Store.Store.CreatePayment | backend/src/payments/payments.service.ts:62-258 | the checks in order, then row, history, debit and status; a throw at any of them, the debit after the inserts included, leaves the tables as they were |
| Store.Store.RefundPayment | backend/src/payments/payments.service.ts:260-373 | whatever commits between the unlocked check and the row lock, the refund decides on what it finds under the lock: chargeback from COMPLETED, guarded compensation otherwise, REVERSED and one history row; all or nothing |
| Store.Store.WriteChargeback | backend/src/payments/payments.service.ts:308-319 | debiting the recipient and crediting the sender happen together or not at all, with the fault that stopped them |
| Store.Store.RaiseDispute | backend/src/payments/payments.service.ts:375-407 | only what was COMPLETED when looked at becomes DISPUTED, moving no money, whatever has committed until the write |
| Store.Store.ResolveDispute | backend/src/payments/payments.service.ts:409-492 | whatever commits after the unlocked check, reverse checks again and charges back, while reject re-completes and records DISPUTED as the origin; all or nothing |
| Store.Store.ProcessWebhook | backend/src/webhooks/webhooks.service.ts:33-146 | a delivery is claimed once, settled or rolled back; one that throws changes only its own event row |
| Store.Store.OnProviderJobExhausted | backend/src/queue/dead-letter.handler.ts:58-113 | a job that is allowed n attempts, three unless it says otherwise, fails a PROCESSING payment once it has made n and does nothing before |
| Store.Store.SubmitToProvider | backend/src/queue/provider.processor.ts:34-63 | an ineligible job changes nothing; for a payment that was PROCESSING without a reference when looked at, the provider's reference is written on top of whatever has committed until it answered, and nothing if its call throws |
| Operations.FindByReference | backend/src/webhooks/webhooks.service.ts:74-78 | the row a reference selects carries it and is the first to; none means no row carries it |
| Outcomes.TransitionsExactly | backend/src/payments/entities/transaction.entity.ts:22-29 | the nine changes of status that are allowed, and no others |
| Outcomes.CreateSucceedsExactly | backend/src/payments/payments.service.ts:62-258 | a payment is created if and only if amount, parties, currencies, lock, limits, pair, quote and balance all fit, the limits counting the sender's rows since midnight that are INITIATED, PROCESSING or COMPLETED; otherwise nothing changes |
| Outcomes.CreateFaults | backend/src/payments/payments.service.ts:62-225 | a refused request is told something it lacks, so exactly that if it lacks one thing; malformed and busy ones first, the balance last |
| Outcomes.CreateLeaves | backend/src/payments/payments.service.ts:184-225 | a created payment is one more row, PROCESSING, converted at the table's rate, with one debit and two history rows; the sender has paid and nobody else changed |
| Outcomes.RefundExactly | backend/src/payments/payments.service.ts:260-349 | a refund succeeds exactly for FAILED, for DISPUTED, and for COMPLETED when the recipient can pay back, with the entries, balances and history row of each case and the fault of each other |
| Outcomes.RaiseExactly | backend/src/payments/payments.service.ts:375-390 | a dispute can be raised exactly for a COMPLETED payment and moves no money |
| Outcomes.ResolveExactly | backend/src/payments/payments.service.ts:409-478 | a reversal succeeds exactly for FAILED, and for COMPLETED and DISPUTED when the recipient can pay back; a rejection exactly for PROCESSING and DISPUTED; with what each leaves |
| Outcomes.DeadLetterExactly | backend/src/queue/dead-letter.handler.ts:71-99 | a dead letter fails exactly a PROCESSING payment and returns its funds to the sender |
| Outcomes.ReferenceLeaves | backend/src/queue/provider.processor.ts:57-63 | the provider worker's write changes the reference of one row and nothing else |
| Outcomes.UnsettledLeaves | backend/src/webhooks/webhooks.service.ts:40-86 | a repeated delivery changes nothing; an unsigned one or one for an unknown reference leaves only its event row, with the reason |
| Outcomes.SignedDeliveryExactly | backend/src/webhooks/webhooks.service.ts:73-146 | a signed first delivery for a known reference settles exactly a PROCESSING payment, paying the recipient if it completed and returning the funds if it failed; any other leaves only its event row and throws |
| Outcomes.SignedFailureSettlesExactly | backend/src/webhooks/webhooks.service.ts:109-114 | a signed failure fails a PROCESSING payment if and only if its pair is not taken and its reference selects the payment |
| Outcomes.StepsAreCalls | backend/src/webhooks/webhooks.service.ts:33-146 | the steps of a run are the calls characterised here, and the two steps of a first signed delivery are the whole delivery |
| Outcomes.LateWriteLeaves | backend/src/payments/payments.service.ts:380-390 | a late write does what was decided when the payment was looked at, whatever has become of it |
| Invariant.SeededIsConsistent | backend/src/database/seeds/seed.ts:40-46 | a seeded database satisfies the invariant, each account opening at its seed |
| Invariant.StepKeepsSound | backend/src/payments/entities/transaction.entity.ts:22-29 | statuses, ledger, history and balances keep agreeing under every in-domain step that pays nothing twice, whatever the webhook log holds |
| Invariant.StepKeeps | backend/src/payments/entities/transaction.entity.ts:22-29 | every in-domain step keeps the invariant that ties statuses, ledger, history, webhook log and balances |
| Invariant.CompensationKeeps | backend/src/webhooks/webhooks.service.ts:109-114 | on a PROCESSING payment the unguarded compensation of a failed webhook equals the guarded one and keeps the invariant |
| Invariant.ChargeBackKeeps | backend/src/payments/payments.service.ts:424-454 | a chargeback keeps the invariant from every status the table lets it start from, FAILED included |
| Invariant.SettleKeeps | backend/src/webhooks/webhooks.service.ts:73-137 | settling a pending event keeps the invariant although the table allows DISPUTED to COMPLETED, because a paid-out payment has used up its completion event |
| Runs.RunKeeps | backend/src/payments/entities/transaction.entity.ts:22-29 | the invariant holds after every in-domain run |
| Runs.BalancesFollowStatuses | backend/src/payments/payments.service.ts:184-225 | in every in-domain run each balance is its seed, minus the source amounts the account sent that are PROCESSING, COMPLETED or DISPUTED, plus the destination amounts it received that are COMPLETED or DISPUTED |
| Runs.EntriesAddUp | backend/src/ledger/ledger.service.ts:106-165 | a transaction never has more than four entries, they add up to its status's effect on every account, and to zero once FAILED or REVERSED |
| Runs.HistoryIsAPath | backend/src/payments/payments.service.ts:197-225 | a transaction's history starts null, INITIATED, PROCESSING, is a chain along the transition table and ends at its status |
| Runs.ProcessingWebhookThrows | backend/src/webhooks/webhooks.service.ts:88-91 | no committed payment is INITIATED, so a `processing` webhook for a known reference always throws |
| Runs.StepPays | backend/src/webhooks/webhooks.service.ts:93-104 | as long as no completion finds a DISPUTED payment, a payout appears in the ledger exactly at the completion webhook that credits it, which never finds one there |
| Runs.CreditedAtMostOnce | backend/src/webhooks/webhooks.service.ts:40-63 | from any database and over any run, off-domain calls included, the recipient is webhook-credited at most once, and never once its completion event is spent |
| Runs.SingleSettlement | backend/src/webhooks/webhooks.service.ts:40-119 | over any in-domain run the recipient is webhook-credited if and only if the ledger shows a payout, which a paid-out payment always does and a compensated one never |
| Runs.StepExtends | backend/src/ledger/ledger.service.ts:24-53 | every step, off-domain ones included, appends signed entries, moves balances by exactly them and leaves none negative |
| Runs.RunReconciles | backend/src/reconciliation/reconciliation.service.ts:17-39 | in every run ledger and history only grow, balances stay non-negative and each account keeps balance minus ledger sum |
| Runs.RefundDisputedResidual | backend/src/payments/payments.service.ts:325-335 | a refund of a DISPUTED payment succeeds, leaves hold, payout and return, and the recipient exactly the destination amount too much |
| Runs.RejectProcessingResidual | backend/src/payments/payments.service.ts:415-478 | a rejection on a PROCESSING payment succeeds, leaves the lone hold under COMPLETED, and the recipient exactly the destination amount short |
| Runs.StepKeepsExactly | backend/src/payments/payments.service.ts:301-335 | from a consistent state a step keeps the invariant if and only if it is in-domain |
| Runs.OffDomainUnbalances | backend/src/payments/payments.service.ts:325-335 | an off-domain step keeps the closed-form balances if and only if the payout is worth nothing |
| Scars.RunKeepsExactly | backend/src/payments/payments.service.ts:301-335 | from a consistent state a whole run ends in one if and only if every call of it was in-domain: no later step repairs what an off-domain one broke |
| LateWrites.DisputeWriteExactly | backend/src/payments/payments.service.ts:380-390 | the write of a dispute keeps the invariant if and only if the payment is still COMPLETED |
| LateWrites.RejectWriteExactly | backend/src/payments/payments.service.ts:468-478 | the write of a rejection keeps the invariant if and only if the payment is DISPUTED by then |
| LateWrites.ReferenceWriteExactly | backend/src/queue/provider.processor.ts:57-63 | the provider worker's write keeps the invariant if and only if the payment is not paid out or the new reference's completion event is processed too |
| LateWrites.RunKeepsSoundExactly | backend/src/payments/payments.service.ts:375-478 | over any run with late writes, statuses, ledger, history and balances agree at the end if and only if no call was off-domain or paid twice and every late write of a status found the one it was meant for |
| LateWrites.LateRunKeepsExactly | backend/src/payments/payments.service.ts:375-478 | as long as late references fit, the whole invariant holds at the end of such a run if and only if no call was off-domain and every late write found its status |
| LateWrites.CreditsAreBounded | backend/src/queue/provider.processor.ts:57-63 | from any database and over any run, the recipient is webhook-credited at most once more than the payment's reference is written late |
| LateWrites.SecondCreditExactly | backend/src/webhooks/webhooks.service.ts:88-104 | a webhook credit is a second one if and only if it finds the payment DISPUTED |
| LateWrites.UnharmedRunPays | backend/src/webhooks/webhooks.service.ts:93-104 | in every run that nothing harms, late writes included, the recipient is credited exactly when the ledger comes to show a payout |
| Examples.RefundDisputedExample | backend/src/payments/payments.service.ts:325-335 | a concrete run from two seeded accounts after which the sender has everything back and the recipient keeps the payout |
| Examples.RejectProcessingExample | backend/src/payments/payments.service.ts:415-478 | a concrete run from two seeded accounts after which the payment is COMPLETED and the recipient got nothing |
| Examples.DisputeGapExample | backend/src/payments/payments.service.ts:375-390 | a refund that commits between the check and the write of a dispute leaves the payment DISPUTED with all money back at the sender |
| Examples.DoubleCreditExample | backend/src/queue/provider.processor.ts:57-63 | a reference written over another one, a dispute and the second reference's completion credit the recipient of one payment twice |
| Examples.UnsignedFirstExample | backend/src/webhooks/webhooks.service.ts:40-66 | a concrete run after which the signed completion changes nothing and no in-domain run completes the PROCESSING payment, because an unsigned one came first |
| Examples.EarlyCompletionExample | backend/src/webhooks/webhooks.service.ts:74-86 | the same after a signed completion that came before the provider worker wrote its reference |
| Examples.DayExceededExample | backend/src/payments/payments.service.ts:117-165 | in-domain calls take a sender's day over both limits by exactly the one payment that came back from a dispute |
| Workers.EntriesDraft | backend/src/ledger/ledger.service.ts:24-55 | the private row versions left by the statements of some ledger writes are the committed rows with exactly those entries posted |
| Workers.CommitIsSerial | backend/src/payments/payments.service.ts:280-349 | committing the statements of a worker's plan gives what its operation does when run alone on the database it commits to |
| Workers.CommitUndisturbed | backend/src/payments/payments.service.ts:286-290 | a commit changes nothing a worker that holds other row locks has read or written |
| Workers.ActOk | backend/src/webhooks/webhooks.service.ts:73-137 | every statement, lock, commit, rollback or operation in between keeps the committed database equal to the serial run of the commit log |
| Workers.CommittedStatesAreSerial | backend/src/payments/payments.service.ts:286-337 | however any number of workers interleave and however late calls write, the committed database is that of running what committed one after the other |
| Workers.CommittedStatesAreSoundExactly | backend/src/payments/payments.service.ts:375-478 | in every concurrent run the committed statuses, ledger, history and balances agree if and only if nothing that committed was off-domain, paid twice or wrote to another status than it was meant for |
| Workers.CommittedStatesAreConsistent | backend/src/queue/dead-letter.handler.ts:71-99 | as long as late references fit, a committed database satisfies the whole invariant if and only if no call that committed was off-domain and every late write found its status |
| Progress.WorkerDoesItsOperation | backend/src/payments/payments.service.ts:286-349 | a worker whose row and accounts nobody has locked does by its own steps exactly what its operation does to the committed tables and ends without locks; a success is logged, a webhook that fails leaves its error row, any other failing task changes nothing |
| Progress.PlanFails | backend/src/ledger/ledger.service.ts:24-36 | a worker's statements fail only for want of money to pay back, and then its operation changes nothing |
| Progress.SerialRunsAreConcurrent | backend/src/payments/payments.service.ts:286-349 | whatever a serial run commits, late writes with new references included, some interleaving of workers commits too |
| Deliveries.ReplayIsIdempotent | backend/src/webhooks/webhooks.service.ts:40-58 | dropping every repeated delivery from a run, queue retries included, leaves the whole database the same, whatever other operations come between |
| Deliveries.SignedCompletionSettlesExactly | backend/src/webhooks/webhooks.service.ts:40-104 | a signed completion settles a PROCESSING payment, with its payout, if and only if its reference selects the payment by then and its pair is not taken; either way the pair is taken afterwards |
| Deliveries.TakenIsIgnored | backend/src/webhooks/webhooks.service.ts:40-63 | once a delivery, signed or not, has taken a pair, every later one for it is ignored, whatever comes between |
| Completions.CompletableExactly | backend/src/webhooks/webhooks.service.ts:40-104 | some in-domain run completes a PROCESSING payment if and only if it has no reference yet, or is the one its reference selects and that reference's completion event is not worked off |
| Completions.EarlyCompletionIsLost | backend/src/webhooks/webhooks.service.ts:74-86 | after a completion that was delivered before its reference is written, no run ever credits the recipient |
| Deliveries.Swap | backend/src/webhooks/webhooks.service.ts:73-137 | two deliveries for different references can be swapped |
| Deliveries.OrderDoesNotMatter | backend/src/webhooks/webhooks.service.ts:73-137 | every permutation of deliveries for distinct references ends in the same accounts, transactions and event log, the same ledger and history per transaction, and the same ledger as a multiset |
| Compensation.CompensatesUnflaggedDebits | backend/src/ledger/ledger.service.ts:110-134 | on any ledger the loop compensates the unflagged debits of the transaction, each as often as it occurs, and nothing else |
| Compensation.CompensationsNegateDebits | backend/src/ledger/ledger.service.ts:121-157 | in every reachable state the compensations add on each account exactly what the debits took, and balances rise by that |
| Compensation.GuardedOnlyOnce | backend/src/queue/dead-letter.handler.ts:80-83 | on any ledger a second guarded compensation writes nothing |
| Terms.RunEvolves | backend/src/payments/payments.service.ts:184-195 | in every run no payment is removed and its parties, currencies, amounts, rate and creation time never change |
| Terms.PaymentsAreAgreed | backend/src/payments/payments.service.ts:90-195 | every payment of a reachable state fits its accounts' currencies, the per-payment limit and the rate table, and pays out its amount converted to the nearest unit |
| DailyLimits.CreateRespectsLimits | backend/src/payments/payments.service.ts:117-165 | right after a successful create the sender's counted payments and volume of that day are within the limits |
| DailyLimits.StepWithinExactly | backend/src/payments/payments.service.ts:117-165 | from any database whose day is within both limits, a step leaves it within them if and only if it does not bring back from DISPUTED a payment of that day that no longer fits |
| DailyLimits.RunWithinExactly | backend/src/payments/payments.service.ts:117-165 | over every run, off-domain calls included, a day stays within its limits after each step if and only if no step overfills it |
| DailyLimits.OnlyRejectionsBringBack | backend/src/payments/payments.service.ts:468-478 | in a consistent database only a rejected dispute brings a payment back |
| DailyLimits.SeededRunStaysWithin | backend/src/payments/payments.service.ts:469-478 | in every reachable state the count of a day exceeds its limit by at most the number of its counted payments that ever came back from DISPUTED to COMPLETED, each taken once, and the volume by at most their total |
| Reconciliation.ReportsTheSeeds | backend/src/reconciliation/reconciliation.service.ts:17-55 | in every reachable state the check reports exactly the accounts seeded with money, each by its seed |
| Reconciliation.BalanceIsLedgerSumExactly | SCHEMA.md:43-54 | balance equals ledger sum for an account if and only if it was seeded empty |
| Idempotency.NextKeepsInv | backend/src/common/interceptors/idempotency.interceptor.ts:46-121 | every step that is not harmful, the expiry of the cached answer included, keeps: at most one execution has returned, and until its record is written its request holds the lock |
| Idempotency.AtMostOneSuccess | backend/src/common/interceptors/idempotency.interceptor.ts:46-121 | for any number of interleaved requests at most one handler execution returns and every successful answer carries its body, also when the cached answer expires, the lock expires outside the critical phases, or a store throws where that is harmless |
| Idempotency.HarmlessExactly | backend/src/common/interceptors/idempotency.interceptor.ts:17-116 | from every state of the protocol a step is harmless if and only if no continuation without harmful faults lets two executions return; the faults are lock expiry, cache expiry, and failures of Redis, the pre-check and persisting |
| Idempotency.PlayKeepsReal | backend/src/common/interceptors/idempotency.interceptor.ts:46-121 | in every run, harmful faults included, whatever is cached, recorded or answered is the body of an execution that returned |
| Idempotency.ExpiryInTheHandlerBreaks | backend/src/common/interceptors/idempotency.interceptor.ts:18-55 | a concrete run: a lock that expires while the handler runs lets a second execution return |
| Idempotency.FailedPreCheckBreaks | backend/src/common/interceptors/idempotency.interceptor.ts:97-111 | a concrete run: a pre-check that fails before the blank record exists lets a second execution return |
| Idempotency.FailedPersistBreaks | backend/src/common/interceptors/idempotency.interceptor.ts:106-115 | a concrete run: an answer given before its record could be written lets a second execution return |
| Requests.ConflictSawNothing | backend/src/common/interceptors/idempotency.interceptor.ts:59-71 | in every run a request ends in a conflict only after eight looks at the cache that all found it empty |
| Requests.FoundIsAnswered | backend/src/common/interceptors/idempotency.interceptor.ts:61-66 | in every run a waiting request that finds an answer in the cache ends with it |
| Requests.AloneExactly | backend/src/common/interceptors/idempotency.interceptor.ts:46-121 | left alone while nothing throws, a request answers from the cache, or conflicts with the holder of the lock, or answers from the record and caches that, or runs its handler and records and caches the body; a failed handler leaves the key free to try again |
| Interceptor.Gateway.Intercept | backend/src/common/interceptors/idempotency.interceptor.ts:31-122 | one request takes exactly the steps of the protocol that its handler and the failing stores decide on, after what others did at each await, and leaves the state that gives; its successful answer is that of an execution that returned, of the only one if no step of the run was harmful, and the one in the cache if a look found one; left alone it ends as stated for one |
| Interceptor.Gateway.PollUntilCached | backend/src/common/interceptors/idempotency.interceptor.ts:57-72 | a request that lost the lock looks at the cache at most eight times and ends with the answer a look finds, with a conflict only after all eight found none, or with a failure if and only if its last look threw |
| TokenLock.OwnersExclude | backend/src/redis/redis.service.ts:59-64 | in every run an owner who has neither released nor outlived its TTL still holds its key, and is the only such owner of it |
| TokenLock.LateReleaseIsHarmless | backend/src/redis/redis.service.ts:15-21 | a release by an owner whose TTL has run out removes nobody's lock |
| TokenLock.LockLastsItsTtl | backend/src/redis/redis.service.ts:59-64 | after an acquisition of a free key, whatever follows short of its owner's release, the key is the owner's if and only if less than the TTL has passed, and until then nobody else gets it |
| TokenLock.FreeFromItsTtlOn | backend/src/redis/redis.service.ts:59-64 | with nobody else about, the key can be taken again exactly from the TTL on |
| TokenLock.ReleaseExactly | backend/src/redis/redis.service.ts:15-21 | a release frees the key of its token at once and no other |
| TokenLock.Redis.AcquireLock | backend/src/redis/redis.service.ts:59-64 | the token is returned, and stored until now plus the TTL, exactly when no live lock is there |
| TokenLock.Redis.ReleaseLock | backend/src/redis/redis.service.ts:67-70 | the key is deleted exactly when its live token is the caller's |
| Sweep.FindStuck | backend/src/payments/payments.service.ts:619-630 | exactly the PROCESSING payments without a reference older than the cutoff, each once, the oldest first |
| Sweep.TooOldComeFirst | backend/src/queue/stuck-payment.scheduler.ts:36-43 | the payments too old for a retry are exactly the first ones the sweep meets |
| Sweep.Scheduler.RetryStuckPayments | backend/src/queue/stuck-payment.scheduler.ts:23-79 | the loop renews the jobs of exactly the due payments and its three counters account for every stuck payment |
| Sweep.SweepCovers | backend/src/queue/stuck-payment.scheduler.ts:45-70 | after a sweep a due payment has a live job if and only if its old one was live, absent or removable; live jobs and other payments are untouched |
| Sweep.DueExactly | backend/src/payments/payments.service.ts:619-630 | what is retried is PROCESSING without a reference, older than half an hour and not older than a day, as the provider worker requires |
| Sweep.SweptJob | backend/src/queue/stuck-payment.scheduler.ts:45-70 | active, waiting and delayed jobs stay as they are; a due payment's other job waits again if it can be removed, and a missing one is added |
| Sweep.CountsAreCardinalities | backend/src/queue/stuck-payment.scheduler.ts:23-52 | the counters are the numbers of payments older than a day and of the others whose job is active, waiting or delayed |
| Sweep.SweepTwice | backend/src/queue/stuck-payment.scheduler.ts:45-70 | sweeping again at the same time changes nothing |
| Fx.SupportedExactly | backend/src/fx/fx.service.ts:38-63 | a currency converts to itself one to one, and otherwise exactly NGN, USD, GBP and EUR convert to each other |
| Fx.RatesAgree | backend/src/fx/fx.service.ts:9-22 | converting through a third currency, or there and back, agrees with the direct rate within two percent |
| Fx.ConvertIsNearest | backend/src/fx/fx.service.ts:73 | the destination amount is the exact product to the nearest unit, ties going up |
| Fx.ConvertMonotone | backend/src/fx/fx.service.ts:73 | a larger amount never converts to less |
| Fx.SplitBound | backend/src/fx/fx.service.ts:66-85 | splitting an amount into k payments at one rate changes the total received by at most k/2 units of 10^-8 |
| Fx.SplitBoundReached | backend/src/fx/fx.service.ts:66-85 | that bound is reached for every even k |
| Fx.RateService.GetRate | backend/src/fx/fx.service.ts:38-63 | the rate is that of the table whether it came from the cache or not, only an unsupported pair has none, and a miss is cached for a minute |

## Left out

- JavaScript floats and decimal strings: arithmetic is exact; the text comparison in the reconciliation query is taken as a comparison of numbers.
- HMAC computation, raw bodies and parsing: whether a signature is valid is an input.
- `completedAt`, entry currencies, history metadata, stored quotes and timestamps other than a payment's creation time.
- Emitted events, audit, logging, caches of lists and statistics, pagination, controllers and the frontend: they hold no state the properties speak of.
- Retention clean-up: event rows and idempotency records are not deleted in the model.
- The serializable isolation of payment creation: a create is one step.
- The pause between polls, and the order in which a sweep's jobs enter the queue: neither changes what is proved.
- `deleteByPattern` and the cache keys of the Redis service other than locks and the idempotency answer.
