# The delivery engine of the notification platform, modelled and proved

This project models the part of the platform that decides what happens to a notification: the
dispatcher's claim / send / settle protocol, the versioned store with its timelines, idempotency
keys and receipts, the application service, the tenant quota ledger, the two heap queues, the token
bucket, and the router's circuit breakers. `dafny verify dfyconfig.toml` checks everything.

Objects that the program updates in place are classes here (`Notification`, `Store`, `Dispatcher`,
the services, `Ledger`, `Heap`, `Queue`, `DelayQueue`, `Bucket`, `Candidate`, `Router`), and its loops
are loops. Every method is proved against a function or a step relation on values; the laws over
whole histories are proved about those. `deliver` is not atomic in the program, so `Dispatcher` has
one method per stretch of it that contains at most one store operation, and `Protocol` interleaves
those stretches with submissions, API calls (whose read and write are two separate steps), receipts,
timers, and crashes. A run is any sequence of such actions.

| file | content |
|---|---|
| `Decimal` | the decimal printers, their parsers, the composed names |
| `Domain`, `Repository`, `Receipts`, `Worker`, `Application` | the entities on objects and on values |
| `StoreLaws`, `History` | timelines, receipts, idempotency and versions over sequences of store operations, and over runs |
| `Delivery`, `Protocol` | the stretches of `deliver`, and the state machine with its main invariant |
| `Finality`, `Overwriting`, `Conformity`, `Stranding`, `Budget`, `Resend`, `Spacing`, `Progress` | safety and progress over whole runs |
| `QuotaBook`, `QuotaLedger`, `QuotaHistory`, `QuotaLimits` | the ledger with its int64 sums, its histories, and the exact conditions for its balances and limits |
| `Outcomes`, `QuotaOutcomes` | what the operations come to, in statuses, instants, amounts and replies alone |
| `Heap`, `PriorityQueue`, `DelayQueue` | one heap over a strict weak order, and its two clients |
| `Limiter` | the token bucket and the envelope of its grants |
| `Routing`, `CircuitHistory` | the circuit breakers and the log of results that decides them |

## What the program does not keep

Each of these is a lemma with an exact condition or a concrete run.

- A pause, or a receipt, can be overwritten by a worker and the notification sent again: `retry`
  ignores a refused update and re-enqueues. An outside write that moves the version is final against
  the workers if and only if it meets no worker that is busy with a current copy within its budget
  (`Overwriting.FinalExactly`); a Cancel always is (`Finality.CancelIsFinal`). A send can still follow
  if and only if a worker had claimed a copy and not yet begun its call, or was sending a current copy
  that can come back within its budget and before its expiry (`Overwriting.SendFollowsExactly`).
  `Conformity.PausedIsSentAgain` is such a run. The diagram in the repository's README has no way from
  paused back to processing.
- The transition table is then broken too: statuses of copies and store agree at equal versions if and
  only if no retry catches up with such a write (`Conformity.AgreementExactly`), that is, if no attempt
  within the budget fails after exactly one of them (`Conformity.CatchUpIsOneWrite`).
- A submission for a future time is stored but not enqueued, and has no live copy before the next
  restart (`Stranding.NothingStranded`).
- A provider answer other than the settling ones strands the record (`Stranding.AnswerStrandsExactly`),
  and so do a timer that fires into a full queue (`Stranding.FullQueueStrandsExactly`) and a submission
  that a full queue refuses (`Stranding.SubmitStrandsExactly`).
- An answer of `queued` that is written when the budget is spent, for a notification that has not
  expired, lets a restart send beyond the budget (`Resend.OverrunOverspends`); without such an answer
  the budget holds (`Budget.RetryBudget`).
- A crash loses every attempt in flight for good (`Stranding.RestartLosesAttempts`), and a restart
  before the back-off is over sends a queued record too early (`Spacing.EarlyRestartSendsEarly`); any
  other restart keeps the spacing (`Spacing.SendSpacing`).
- A submission under a used caller-supplied ID, with a new key, replaces a canceled record, and no other
  submission does (`Finality.ReuseUndoesExactly`, `Finality.ReusedIdUndoesCancel`).
- Tenants with a colon can share an idempotency slot (`StoreLaws.ColonTenantsCollide`); `Joined`
  names collide exactly as `Decimal.JoinedCollision` says.
- The ledger's int64 sums wrap around. The limits hold in every state if and only if no request
  overflows the largest sum and passes the other checks (`QuotaLimits.LimitsHoldExactly`); every tenant
  is balanced in every state if and only if no grant makes what is outstanding overflow
  (`QuotaLimits.BalancedExactly`). For every quota there are histories that break both
  (`QuotaLimits.OverflowPasses`), after which the clamp fires, nothing shows as reserved
  (`QuotaLimits.ClampFires`), and `Usage` reports a negative number (`QuotaLimits.UsageTurnsNegative`).
- A clock that comes back to an earlier day or month starts that period from zero
  (`QuotaLimits.ClockStepsBack`); inside one period it may step back.
- With a provider name that is registered twice, three failures and a success leave one of the circuits
  open, from any board (`CircuitHistory.DuplicateBreaksLog`).
- `Wait` cuts the duration to whole nanoseconds, and unless nothing was cut it is too short by less
  than one (`Limiter.CutWaitIsExact`).
- `formatInt` prints only the sign of the least int64 (`Decimal.FormatIntRoundTrip`).
- The repository's README promises replay protection by sequence; receipts are de-duplicated by key,
  but not ordered, and overwrite the status without the transition table (`StoreLaws.IngestEffect`).

## Model

| member | source | states |
|---|---|---|
| `Finality.WriteIsFinal` | internal/worker/dispatcher.go:57-115 | After a pause, cancel or receipt that moves the version and meets no worker busy with a current copy within its budget, in every continuation (further writes, failed retries, crashes) no worker update on that notification is accepted and its status changes only from outside. |
| `Finality.SendsAfterWrite` | internal/worker/dispatcher.go:68-85 | After such a write at most one more send begins, and none unless a worker had already claimed a copy. |
| `Overwriting.FinalExactly` | internal/worker/dispatcher.go:57-115 | The condition is exact: a version-moving outside write is never overwritten by a worker, whatever follows, if and only if it meets no such worker. |
| `Overwriting.OverwriteFollows` | internal/worker/dispatcher.go:100-115 | From every reachable state in which a busy copy within its budget lags its record by one version, a failed attempt leads to a worker's claim, or expiry, over the outside write, and after the claim to a send. |
| `Overwriting.SendFollowsExactly` | internal/worker/dispatcher.go:68-115 | A send can follow a version-moving outside write if and only if a worker had claimed a copy and not begun its call, or was sending a current copy that can come back within its budget and unexpired. |
| `Finality.CancelIsFinal` | internal/worker/dispatcher.go:57-115 | After a Cancel that changed the status, in every continuation (pauses, receipts, failed retries, crashes) no worker update on that notification is accepted and only a receipt changes its stored status. |
| `Finality.CancelTakesHold` | internal/application/service.go:56-58 | A Cancel that changes the status never meets a worker with a current copy. |
| `Finality.SendsAfterCancel` | internal/worker/dispatcher.go:68-85 | After such a Cancel at most one more send begins, and none unless a worker had already claimed a copy. |
| `Finality.ReuseUndoesExactly` | internal/application/service.go:33-45 | In every state a submission queues a finally written record again if and only if it has the record's ID and an unused key. |
| `Finality.ReusedIdUndoesCancel` | internal/application/service.go:33-45 | A concrete run in which a second submission under the same ID queues a canceled notification again. |
| `Protocol.RunKeepsInv` | internal/worker/dispatcher.go:36-115 | In every reachable state no copy is ahead of its record, each notification has at most one copy across queue, timers and hands, and equal versions mean agreement except for writes from outside. |
| `Protocol.DequeuedInPast` | internal/worker/dispatcher.go:39 | In every reachable state a copy in a worker's hand was dequeued no later than now. |
| `Conformity.TableConformity` | internal/notification/domain/models.go:141-159 | As long as no retry within the budget catches up with an outside write, equal version implies equal status, and every accepted update follows an edge of the table or keeps the status. |
| `Conformity.AgreementExactly` | internal/worker/dispatcher.go:109-114 | The condition is exact: equal version implies equal status in every state of a run if and only if no retry catches up. |
| `Conformity.CatchUpIsOneWrite` | internal/worker/dispatcher.go:100-114 | A retry within the budget catches up if and only if exactly one version-moving outside write landed since its claim. |
| `Conformity.QuietNeverCatchesUp` | internal/worker/dispatcher.go:57-115 | If no outside write moves a version between a claim and the end of the attempt, no retry catches up. |
| `Conformity.ConformsExactly` | internal/worker/dispatcher.go:57-115 | A worker's write breaks the table if and only if it is the claim, or expiry, of a copy that has the version of a record with another status. |
| `Conformity.FinalStatusesHaveNoEdge` | internal/notification/domain/models.go:142-148 | Canceled, failed and expired have no outgoing edge. |
| `Conformity.ClaimDecidedByVersion` | internal/worker/dispatcher.go:68-74 | The claim of a waiting copy is accepted if and only if its version is the stored one, whatever the stored status. |
| `Conformity.LagIsOutsideWrites` | internal/worker/dispatcher.go:68-114 | In every reachable state, a busy copy lags its record by exactly the number of version-moving API writes and receipts since its claim. |
| `Conformity.OverwriteExactly` | internal/worker/dispatcher.go:109-114 | In every reachable state, a retried copy has the version of a record that is not queued if and only if exactly one version-moving outside write landed since its claim. |
| `Conformity.PausedIsSentAgain` | internal/worker/dispatcher.go:109-114 | A run in which a stored paused notification is claimed and sent again. |
| `Stranding.NothingStranded` | internal/worker/dispatcher.go:36-115 | Without crash, refused enqueue or unsettling answer: every processing record is in a worker's hand, and a queued record has a live copy at its version if and only if it was not submitted for a future time. |
| `Stranding.AnswerStrandsExactly` | internal/worker/dispatcher.go:91-98 | A provider's success leaves the record queued or processing with no copy if and only if the record is at the copy's version and the answer does not settle. |
| `Stranding.FullQueueStrandsExactly` | internal/worker/dispatcher.go:112-114 | A timer that fires into a full queue leaves the record active with no copy if and only if it is queued. |
| `Stranding.SubmitStrandsExactly` | internal/application/service.go:45-54 | A submission that creates a record leaves it without a copy if and only if the queue refuses it or it is for a future time. |
| `Stranding.RestartLosesAttempts` | internal/application/service.go:89-94 | A record that is not queued at a restart is never held and never sent again. |
| `Stranding.RestartHeals` | internal/application/service.go:89-94 | A queued record that start-up enqueues has its one copy at its version. |
| `Budget.RetryBudget` | internal/worker/dispatcher.go:80-115 | Over any run with crashes, the attempts of the live copy and of a stored queued record are the sends so far on top of the submitted number; sends stay within the budget unless an answer of `queued` is written when it is spent, before the expiry. |
| `Budget.SentAtMostMax` | internal/worker/dispatcher.go:100-108 | A notification submitted with 0 attempts is sent at most MaxAttempts times. |
| `Resend.OverrunOverspends` | internal/worker/dispatcher.go:91-98 | The condition is exact: in every reachable state such an answer, any restart that enqueues the record, and a claim lead to a send beyond the budget. |
| `Resend.RestartResends` | internal/application/service.go:89-94 | In every reachable state any restart that enqueues it, with whatever other records, lets a queued, unexpired record that was sent before be sent again at the same instant, with its stored attempts. |
| `Resend.CompleteBoot` | internal/application/service.go:89-94 | There is a restart that enqueues every queued record. |
| `Resend.SentIsTimely` | internal/worker/dispatcher.go:50-53 | No attempt is under way before the schedule has come, and a record that was sent and is queued is past its schedule. |
| `Budget.QueuedAnswerOverspends` | internal/worker/dispatcher.go:91-98 | A concrete run with two sends under a budget of one. |
| `Progress.GrantedStepsEnd` | internal/worker/dispatcher.go:50-115 | With router and limiter granting, each step of a copy, waiting for its schedule included, ends it or lowers a non-negative rank led by the remaining attempts. |
| `Progress.RunTimed` | internal/worker/dispatcher.go:50-53 | In every reachable state a copy in an attempt is past its schedule, and one in a timer will be when the timer fires. |
| `Spacing.SendSpacing` | internal/worker/dispatcher.go:100-115 | The k-th send starts no earlier than (2^k - 2^j) tenths of a second after the j-th, whatever rate-limited or provider-less tries and restarts intervene, if no restart enqueues the unexpired record before its back-off is over; for budgets up to 37. |
| `Spacing.EarlyRestartSendsEarly` | internal/application/service.go:89-94 | The condition is exact: in every reachable state a restart that enqueues a sent record earlier lets its next send start too early. |
| `Spacing.RestartSkipsDelay` | internal/application/service.go:89-94 | A concrete run that sends twice at the same instant around a restart. |
| `Delivery.BackoffExact` | internal/worker/dispatcher.go:113 | The int64 nanosecond delay is 2^attempts tenths of a second if and only if attempts are at most 36, and shorter otherwise. |
| `Worker.Dispatcher.Begin` | internal/worker/dispatcher.go:50-74 | From dequeueing to the claim: the new store and copy are those of the specification, for scheduled, expired, throttled, refused and claimed copies. |
| `Worker.Dispatcher.Route` | internal/worker/dispatcher.go:75-81 | Without a provider the copy is retried without counting an attempt; with one it is counted. |
| `Worker.Dispatcher.Finish` | internal/worker/dispatcher.go:83-98 | An error retries the copy, a success settles it and drops it whatever the store says. |
| `Worker.Dispatcher.Retry` | internal/worker/dispatcher.go:100-115 | Failed when the budget is spent, else back to a timer after the back-off, even if the update was refused. |
| `Worker.BeginIsStep` | internal/worker/dispatcher.go:50-74 | What `Begin` does is one step of the protocol, namely the one that schedule, expiry and limiter select. |
| `Worker.RouteIsStep` | internal/worker/dispatcher.go:75-81 | The same for the router's answer. |
| `Worker.AnswerIsStep` | internal/worker/dispatcher.go:86-98 | The same for the provider's answer. |
| `Outcomes.AnswerStores` | internal/worker/dispatcher.go:91-98 | In every reachable state a success ends the copy; at the copy's version it stores accepted, sent, failed, queued or paused as answered, accepted for an empty answer, and nothing new for any other. |
| `Outcomes.FailureStores` | internal/worker/dispatcher.go:86-115 | In every reachable state a failed send stores failed and ends the copy if the budget is spent, else stores queued and sets a timer of 2^attempts * 100 ms; a moved record is left alone. |
| `Outcomes.BeginOutcome` | internal/worker/dispatcher.go:50-74 | In every reachable state a dequeued, current copy whose schedule has come leaves its record expired after its expiry, and processing up to it if the limiter grants. |
| `Outcomes.SendsInTime` | internal/worker/dispatcher.go:50-63 | Over every run a send begins only for a copy that was dequeued for this attempt no later than its expiry, and not before its schedule. |
| `Outcomes.SendCountsOne` | internal/worker/dispatcher.go:80-81 | A send adds one attempt, names the provider, and leaves the store alone. |
| `Outcomes.SettlesInWords` | internal/worker/dispatcher.go:91-98 | The answers that settle are accepted, sent, failed, paused and the empty one. |
| `Outcomes.GapsInNumbers` | internal/worker/dispatcher.go:113 | The second, third and fourth send come 200, 600 and 1400 ms after the first, at the earliest. |
| `Repository.Store.Create` | internal/repository/store.go:71-84 | New maps, timeline and outbox of a submission; a used key yields the stored record and changes nothing. |
| `Repository.Store.Update` | internal/repository/store.go:94-107 | Accepted if and only if the record exists at the expected version; then record and timeline change together. |
| `Repository.Store.AddEvent` | internal/repository/store.go:108-111 | The appended event carries the next position in its ID and sequence. |
| `Outcomes.StoreLogs` | internal/repository/store.go:79-111 | What a creation and an accepted update log, and what a creation announces. |
| `Repository.Store.Queued` | internal/repository/store.go:136-146 | Exactly the queued records, each once, in any order of the map. |
| `Repository.Store.RecordReceipt` | internal/repository/store.go:147-164 | A known key changes nothing; a new one logs the event and overwrites the status at the next version. |
| `Receipts.Service.Ingest` | internal/receipt/service.go:21-35 | When a receipt is rejected and why, recorded, or a duplicate, and the store after it. |
| `Outcomes.ReceiptChangesExactly` | internal/receipt/service.go:21-35 | A receipt changes the store if and only if it names a provider and a stored notification, has a positive sequence and one of six statuses, and its key is new. |
| `Outcomes.ReceiptEvent` | internal/receipt/service.go:33-34 | The recorded event carries the receipt's key, status, provider, sequence and time. |
| `StoreLaws.TimelineIsEventSource` | internal/repository/store.go:108-116 | Over any operations: timelines only grow, the last event has the stored status, and internal events are numbered by position even with receipts in between. |
| `StoreLaws.InternalIdsDistinct` | internal/repository/store.go:108-111 | No two internal events of the whole store share an ID. |
| `StoreLaws.ReceiptsOnce` | internal/repository/store.go:147-164 | Recorded keys and receipt events correspond one to one. |
| `StoreLaws.ReceiptCount` | internal/repository/store.go:147-164 | The number of recorded keys is the number of receipt events across all timelines. |
| `StoreLaws.ReingestIsNoOp` | internal/receipt/service.go:21-35 | Once recorded, a receipt with the same key changes nothing on the whole store for ever after. |
| `StoreLaws.IngestEffect` | internal/repository/store.go:153-161 | A new receipt adds one event and one version to its notification and touches no other. |
| `StoreLaws.ApplyKeepsIdempotency` | internal/repository/store.go:71-84 | Every disciplined operation keeps keys, records and `notification.created` entries in one-to-one correspondence. |
| `StoreLaws.RepeatedSubmission` | internal/repository/store.go:74-77 | For tenants without a colon, a submission is answered from the store if and only if its (tenant, key) pair is stored; it then returns that record, unchanged. |
| `StoreLaws.ColonTenantsCollide` | internal/repository/store.go:74-77 | With a colon in a tenant name, one tenant is handed another one's record. |
| `StoreLaws.VersionStep` | internal/repository/store.go:94-107 | A stored version moves by 0 or 1, and by 0 only with the status unchanged. |
| `StoreLaws.VersionCounts` | internal/repository/store.go:94-111 | Timeline length minus version is the number of accepted updates that left the status. |
| `History.RunIsDisciplined` | internal/worker/dispatcher.go:57-115 | Every reachable store results from one disciplined store operation per step. |
| `History.TimelineOfRun` | internal/repository/store.go:108-116 | The timeline, receipt and version laws hold in every reachable state of the protocol. |
| `History.TimelinesOnlyGrow` | internal/repository/store.go:108-111 | Between any two moments of a run timelines are only appended to. |
| `History.IdempotencyOfRun` | internal/repository/store.go:71-84 | The one-to-one correspondence holds in every reachable state. |
| `History.RepeatIsNoOp` | internal/application/service.go:45-54 | A repeated submission leaves the whole state as it is: no record, no queue copy. |
| `Application.Service.Submit` | internal/application/service.go:25-55 | What is returned and stored for an invalid, a suppressed, a repeated and a new submission; a copy of its own is enqueued exactly when it is new, not for the future, and the queue has room. |
| `Application.Service.Transition` | internal/application/service.go:75-88 | Cancel and Pause succeed if and only if the record exists at the expected version and the table allows the change; then exactly that update is made, else nothing changes. |
| `Application.Service.Cancel` | internal/application/service.go:56-58 | Succeeds exactly for a queued, paused or canceled record at the expected version, which is then canceled. |
| `Application.Service.Pause` | internal/application/service.go:59-61 | Succeeds exactly for a queued, processing or paused record at the expected version, which is then paused. |
| `Outcomes.SubmissionStores` | internal/application/service.go:33-54 | A new record is stored as queued at version 1 under its own ID and with its attempts; its copy is in the queue unless that is full or the schedule is still to come. |
| `Application.Service.BeginTransition` | internal/application/service.go:75-86 | The read half, on which other steps may follow before the write. |
| `Application.Service.CommitTransition` | internal/application/service.go:87 | The write half is refused if the version has moved. |
| `Application.Service.Replay` | internal/application/service.go:62-74 | A replay submits the stored content under a new ID and key with a clean record, and enqueues its copy under the same conditions as a submission. |
| `Outcomes.ReplayHasWholeBudget` | internal/application/service.go:62-74 | A replay keeps what is delivered, to whom and when, starts with no attempts, and over every run is sent at most MaxAttempts times. |
| `Application.Service.Recover` | internal/application/service.go:89-94 | The queue gains exactly one fresh copy per queued record, in one pass, until it is full; all of them if there is room for all. |
| `Application.RecoverIsRestart` | internal/application/service.go:89-94 | What `Recover` enqueues into an empty queue is a restart of the protocol: queued records only, one copy each, all of them if there is room. |
| `Domain.Notification.Transition` | internal/notification/domain/models.go:141-159 | Succeeds if and only if the status stays or an edge leads there; bumps the version only on a change. |
| `Outcomes.TableInWords` | internal/notification/domain/models.go:141-159 | The exact targets of every status, and the version and time of a change. |
| `Outcomes.PauseAndCancelExactly` | internal/application/service.go:56-88 | Pause is accepted exactly from queued, processing and paused, Cancel exactly from queued, paused and canceled, at the expected version. |
| `QuotaLedger.Ledger.Configure` | internal/rate/quota.go:54-66 | Legal limits replace a tenant's quota, others are refused. |
| `QuotaLedger.Ledger.Reserve` | internal/rate/quota.go:68-99 | Idempotent by ID; otherwise sweeps, then refuses by the first exceeded limit or records the reservation, with wrapping sums. |
| `QuotaLedger.Ledger.Commit` | internal/rate/quota.go:101-126 | Moves the amount from reserved to used, with wrapping sums, or releases it when expired; again is a no-op. |
| `QuotaLedger.Ledger.Rollback` | internal/rate/quota.go:128-140 | Releases an outstanding reservation and refuses a committed one. |
| `QuotaLedger.Ledger.ReadUsage` | internal/rate/quota.go:142-148 | Sweeps and reports the usage rolled to the current day and month. |
| `QuotaLedger.Ledger.Current` | internal/rate/quota.go:150-164 | A new day or month starts from zero; nothing is stored. |
| `QuotaLedger.Ledger.Expire` | internal/rate/quota.go:166-172 | Releases exactly the stale reservations, each once, in the order in which the map yields them. |
| `QuotaLedger.Ledger.Release` | internal/rate/quota.go:174-183 | One reservation leaves; the reserved amount wraps around and is clamped. |
| `QuotaOutcomes.SweepLeavesExactly` | internal/rate/quota.go:166-172 | A sweep leaves exactly the reservations that are committed or not past their expiry. |
| `QuotaOutcomes.HeldWhileLive` | internal/rate/quota.go:93-126 | Over every history, a reservation that is neither committed nor rolled back is held as it was granted, and can be committed, as long as no call came after its time to live. |
| `QuotaOutcomes.GoneAfterSweep` | internal/rate/quota.go:166-183 | After any sweep past its expiry an uncommitted reservation is gone and cannot be committed. |
| `QuotaOutcomes.CommittedForEver` | internal/rate/quota.go:101-140 | Whatever follows, a committed reservation stays: committing again succeeds and changes nothing, rolling back is refused. |
| `QuotaOutcomes.ConfigureReplies` | internal/rate/quota.go:54-66 | Exactly which limits are accepted. |
| `QuotaOutcomes.ReserveReplies` | internal/rate/quota.go:68-83 | Who is refused before the checks, and who gets back a known reservation. |
| `QuotaOutcomes.CheckReplies` | internal/rate/quota.go:84-98 | As long as the sums fit, the refusal names the first exceeded of the daily, monthly and burst limit, and else the request is granted for its time. |
| `QuotaOutcomes.CommitReplies` | internal/rate/quota.go:101-126 | A commit fails exactly if the reservation is unknown, or uncommitted and past its expiry; then it is gone. |
| `QuotaOutcomes.RollbackReplies` | internal/rate/quota.go:128-140 | A rollback fails exactly if the reservation is unknown or committed. |
| `QuotaLedger.ChecksExact` | internal/rate/quota.go:84-92 | A request passes if and only if each of the three sums is within its limit or beyond int64: it is within all limits, or it slips through. |
| `QuotaLimits.OverflowPasses` | internal/rate/quota.go:84-98 | For every quota, three calls lead to a granted request after which the outstanding amounts exceed every limit, while the least int64 shows as reserved. |
| `QuotaLimits.ClampFires` | internal/rate/quota.go:174-183 | For every quota, two more calls make the clamp fire: nothing shows as reserved while more than the greatest int64 is outstanding. |
| `QuotaLimits.UsageTurnsNegative` | internal/rate/quota.go:116-148 | For every quota, committing both reservations makes `Usage` report the least int64 as used. |
| `QuotaBook.ClampNeverFires` | internal/rate/quota.go:174-183 | In a balanced book an outstanding reservation is part of its tenant's reserved sum, so the clamp to 0 does not act. |
| `QuotaBook.AnyOrder` | internal/rate/quota.go:166-172 | In a balanced book the sweep has the same outcome for every order in which the map is walked, and keeps it balanced. |
| `QuotaBook.ExpireOneMore` | internal/rate/quota.go:166-172 | In a balanced book releasing any further stale reservation gives the book of the larger set. |
| `QuotaBook.ExpiryKeepsInv` | internal/rate/quota.go:166-183 | Releasing any set of outstanding reservations keeps a book balanced. |
| `QuotaLimits.RunKeepsBalance` | internal/rate/quota.go:54-183 | As long as no grant overflows what is outstanding, per tenant Reserved is the sum of the uncommitted reservations, and Committed that of the committed ones modulo 2^64. |
| `QuotaLimits.BalancedExactly` | internal/rate/quota.go:84-98 | Every tenant is balanced in every state of a history if and only if no grant in it overflows what is outstanding. |
| `QuotaHistory.AmountsCountedOnce` | internal/rate/quota.go:93-183 | Over any history, every granted amount is in an outstanding reservation, in a committed one, or released, each once; the committed ones sum up to all that was ever committed. |
| `QuotaLimits.LimitsHold` | internal/rate/quota.go:84-98 | As long as no request slips through, used plus outstanding and outstanding stay within the highest limits ever configured, through commits, expiry and rollover, even if the clock steps back; daily use is at most monthly use, and the book is balanced. |
| `QuotaLimits.LimitsHoldExactly` | internal/rate/quota.go:84-98 | The limits hold for every tenant in every state of a history if and only if no request in it slips through by overflow. |
| `QuotaHistory.HighestIsCurrent` | internal/rate/quota.go:54-66 | If limits are never lowered, the highest are the current ones. |
| `QuotaHistory.UsageMirrorsHistory` | internal/rate/quota.go:150-164 | While the clock does not come back to an earlier day, or month, the stored use is what was committed in the period it shows, modulo 2^64. |
| `QuotaHistory.ReportedUsage` | internal/rate/quota.go:142-164 | What `Usage` reports is exactly what was committed in the current day, or month, if and only if that fits an int64. |
| `QuotaHistory.DaysOrderMonths` | internal/rate/quota.go:150-164 | A clock that does not come back to an earlier day does not come back to an earlier month. |
| `QuotaLimits.PeriodBound` | internal/rate/quota.go:84-126 | As long as no request slips through, within any day, or month, of the whole history a tenant commits at most its daily, or monthly, limit. |
| `QuotaLimits.ClockStepsBack` | internal/rate/quota.go:150-164 | For any two instants in different days, or months, a clock that returns to the earlier one breaks the daily, or monthly, bound. |
| `Heap.Heap.Up` | internal/queue/priority.go:19-26 | Sift-up restores heap order and index fields and keeps the contents. |
| `Heap.Heap.Down` | internal/queue/priority.go:19-27 | Sift-down restores heap order on the first n items and leaves the rest in place. |
| `Heap.Heap.Push` | internal/queue/priority.go:26 | Adds one item to the bag; heap order and indices hold. |
| `Heap.Heap.Pop` | internal/queue/priority.go:27 | Removes an item that no held key is less than. |
| `Heap.RootIsLeast` | internal/queue/priority.go:16-27 | No key of a heap is less than its root, for any strict weak order. |
| `PriorityQueue.Queue.Enqueue` | internal/queue/priority.go:41-53 | Refused if and only if max items are held. |
| `PriorityQueue.Queue.Dequeue` | internal/queue/priority.go:54-61 | Yields the item of the highest priority held, and among those the one of the earliest stamp; nothing if and only if empty. |
| `PriorityQueue.BagRefinesList` | internal/queue/priority.go:16-61 | With increasing stamps, any interleaving of calls is answered as a list sorted by priority and arrival answers it, and holds the same items. |
| `PriorityQueue.MostUrgentFirst` | internal/queue/priority.go:19-24 | No held item has a higher priority than the one dequeued, and none of its priority has an earlier stamp. |
| `PriorityQueue.ListInOrderOfUrgency` | internal/queue/priority.go:16-61 | In every trace with increasing stamps the items held form a list of falling priorities, equal ones in the order of arrival. |
| `PriorityQueue.NeverBeyondMax` | internal/queue/priority.go:41-61 | Over any history never more than max items are held. |
| `DelayQueue.DelayQueue.Add` | internal/queue/delay.go:41-53 | Refused if and only if the limit is reached. |
| `DelayQueue.DelayQueue.Take` | internal/queue/delay.go:66-86 | The item taken is due and minimal; if none is taken, nothing held is due. |
| `DelayQueue.DelayQueue.HandOver` | internal/queue/delay.go:66-87 | What was taken is offered to the priority queue once, stamped at a reading of its own. |
| `DelayQueue.DelayQueue.Run` | internal/queue/delay.go:54-89 | With no Add in between, due items leave in non-decreasing due order, and the run rests only when nothing is due. |
| `DelayQueue.DelayConserves` | internal/queue/delay.go:41-89 | Items accepted are items held plus items handed over, over any history. |
| `Limiter.Bucket.Allow` | internal/rate/limiter.go:17-31 | Tops up, caps, and takes n if it is there. |
| `Limiter.Bucket.Wait` | internal/rate/limiter.go:32-39 | The reported wait, cut to whole nanoseconds; the bucket is unchanged. |
| `Limiter.TokensAreTight` | internal/rate/limiter.go:17-31 | The tokens are exactly the room of the tightest window that starts at an earlier request. |
| `Limiter.RefusedExactly` | internal/rate/limiter.go:17-31 | A request is refused if and only if granting it would break the bound for a window that starts at an earlier request or now. |
| `Limiter.Envelope` | internal/rate/limiter.go:17-31 | Grants in any window total at most capacity + refill * length. |
| `Limiter.WaitIsExact` | internal/rate/limiter.go:32-39 | With no other taker, n within the capacity is granted from the reported wait on and no earlier; more than the capacity never is. |
| `Limiter.CutWaitIsExact` | internal/rate/limiter.go:38 | Cut to whole nanoseconds, the wait is enough if and only if nothing was cut; one nanosecond more always is. |
| `Limiter.WaitForOne` | internal/rate/limiter.go:38 | At one per second, an empty bucket lets wait a billion nanoseconds for one. |
| `Limiter.WaitedIsGranted` | internal/rate/limiter.go:32-39 | Who waits as told, from the moment of asking, is granted n. |
| `Routing.Candidate.Look` | internal/routing/router.go:44-55 | One turn of the loop: when a candidate passes, and its circuit afterwards. |
| `Routing.Router.Add` | internal/routing/router.go:36-40 | A closed candidate is appended to its channel. |
| `Routing.Router.Choose` | internal/routing/router.go:41-59 | The first candidate that passes, with no candidate after it touched; an error if and only if none passes. |
| `Routing.VisitTouchesLittle` | internal/routing/router.go:44-55 | A choice touches no other channel and no candidate after the chosen one, and changes only circuits that were open for ten seconds, to half open. |
| `Routing.Router.Record` | internal/routing/router.go:60-80 | A failure counts for every candidate of the name; a success resets the first that the walk meets. |
| `Routing.UniqueRecorded` | internal/routing/router.go:60-80 | With unique names the order of the walk does not matter: exactly the named candidate is reported to. |
| `CircuitHistory.CircuitsMirrorLog` | internal/routing/router.go:41-80 | Over any history, failures are the trailing run of errors, and a circuit is closed if and only if that run is below the threshold. |
| `CircuitHistory.ChoiceFromLog` | internal/routing/router.go:41-59 | `Choose` returns the first registered candidate that has fewer trailing errors than the threshold, or whose last error is a cooldown ago and which passes its probe; it fails only if there is none. |
| `CircuitHistory.FirstCandidate` | internal/routing/router.go:32-59 | The first candidate is chosen after at most two errors in a row, passed over for ten seconds after the last of three, and then chosen if and only if it passes its probe. |
| `CircuitHistory.DuplicateBreaksLog` | internal/routing/router.go:60-80 | From any board with two candidates of one name, three failures and a success leave one of them open, whichever the walks meet first. |
| `CircuitHistory.DuplicateStaysOpen` | internal/routing/router.go:60-80 | Of two open circuits of one name, a success leaves one open. |
| `Decimal.Itoa` | internal/repository/store.go:193-203 | The loop prints the digits; nothing for a negative number. |
| `Decimal.ItoaRoundTrip` | internal/repository/store.go:193-203 | Read back, the number returns if and only if it is not negative. |
| `Decimal.FormatSeq` | internal/receipt/service.go:36-43 | The loop prints the digits; nothing for zero. |
| `Decimal.FormatSeqRoundTrip` | internal/receipt/service.go:36-43 | Read back, the number returns if and only if it is positive. |
| `Decimal.FormatInt` | internal/security/security.go:46-63 | The loop with int64 negation prints sign and digits. |
| `Decimal.FormatIntRoundTrip` | internal/security/security.go:46-63 | Read back, the number returns if and only if it is not the least int64. |
| `Decimal.DigitsInWords` | internal/repository/store.go:193-203 | The printed digits of some numbers. |
| `Decimal.JoinedCollision` | internal/repository/store.go:74 | Exactly which colon-joined pairs collide; none whose left parts have no colon. |
| `Decimal.EventIdInjective` | internal/repository/store.go:108-111 | Notification and number can be read off an event ID. |
| `Decimal.ReceiptKeyCollision` | internal/receipt/service.go:33 | Receipt keys agree exactly when sequence and joined names do; for providers without a colon, exactly when all parts do. |
| `Decimal.SignedTextInjective` | internal/security/security.go:16-22 | Timestamp and body can be read off the signed text, for every int64. |

## Left out

Premises that the statements above name:

- Protocol.RunKeepsInv: assumes that a submission that creates a record carries a fresh ID (`FreshRun`), because the API accepts a caller's ID unchecked; `Finality.ReuseUndoesExactly` shows what happens otherwise.
- Stranding.NothingStranded: assumes no crash, no refused enqueue and settling answers, because each of these strands records, exactly as the lemmas beside it say; both provider adapters answer `accepted` (internal/provider/provider.go:58, 91).
- Spacing.SendSpacing: assumes a budget of at most 37, because the delay after 37 attempts overflows (`Delivery.BackoffExact`).
- CircuitHistory.ChoiceFromLog: assumes unique names, because a success resets only one candidate of a name, and a forward clock, because a half-open circuit does not look at the clock again.

What the model does not capture:

- Limiter.Bucket.Wait: does not model float64 rounding; the bucket is over reals, and a zero rate, whose infinite quotient has no defined duration, yields no wait.
- Routing.Router.Record: reads the clock once, not once per candidate; with unique names it is read at most once anyway.
- Instants are unbounded nanosecond numbers; of the retry delay the int64 wrap-around is modelled, and from 2^63 on the float conversion is an arbitrary int64.
- Domain.Notification.Transition: versions and attempts are unbounded integers; they grow by one per step and cannot reach 2^63 in practice.
- Application.Service.Submit: a live context and validation are one parameter, `valid`, and the suppression list is another, `suppressed`; the address hashes of the API and of the service differ (internal/transport/httpapi/server.go:266), so the list is an arbitrary predicate.
- Which queued copy a worker gets: the protocol leaves it open, `PriorityQueue` decides it.
- Concurrency primitives (mutexes, wake channels, contexts, timers, the worker loop's polling): replaced by interleaved steps; liveness under fair scheduling is not stated.
- Two processes that share one store file: one process is modelled.
- JSON persistence and file rename: persisting succeeds, and a crash keeps exactly the stored maps.
- Answers of providers, `Health`, router and limiter inside the delivery protocol: parameters of its steps.
- The message itself (targets, template, subject, body), validation and normalisation.
- SHA-256 and HMAC: only the layout of the signed text is modelled.
- The calendar: days and months are numbers, monotone in time, with each day inside one month; time zones and formats are not modelled.
- Templates, routing policies, provider registry, audit log, metrics, configuration, HTTP API and console: plumbing, or easy members.
- `Store.List` and `Router.Snapshot`: read-only listings.
