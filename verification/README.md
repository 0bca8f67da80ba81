# Verified model of the activation protocol

Two services activate Telegram sessions over an unreliable network. `rw-bot` hands out invites, asks a user for a wallet,
reserves an offer at the external `rw-topup`, waits for the payment and asks `rw-active-sessions`, the authority, to verify it.
The authority binds the first wallet of a balance for ever, decides every operation once and announces the result; the bot then
shows the session as active. Both services keep an inbox and an outbox in their database, and a publisher sends outbox rows until
they are confirmed, dead or expired.

The project models both databases, every transaction on them, the publisher and the network, and proves what holds in every
reachable state and over every finite run in which messages are lost, repeated and reordered. It also models the arithmetic and
encoding cores: the signing input of an envelope, amount formatting and validation, and amount sampling.

## How it is built

- A database is a value (`Sessions.Authority`, `Bot.Flow`); a transaction is a function that commits a new value or rolls back.
- The classes (`Messages.MessageTables`, `SessionsStore.Store`, `SessionsStore.Service`, `BotStore.FlowStore`, `BotStore.Service`,
  `Publisher.OutboxPublisher`) issue the statements one by one, in the order of the Go code, and every method is proved to have
  exactly the effect of its function, including the rollback of everything when a later statement fails.
- A step of a service is a delivered message, a user's text, a read or an action of the reconciler, or one statement of any
  publisher worker. `SessionsRuns`, `BotRuns` and `System` define runs; their invariants are inductive.
- Time is one integer clock in nanoseconds that does not run backwards. Columns that take a time of the service or of a message
  are cut to microseconds, as PostgreSQL stores them; `now()` of the database is not cut, which changes no comparison with them.
- Files: `messages`, `messages_alike`, `publisher` (message tables and outbox worker); `sessions*` (authority); `bot*` (bot);
  `system*` (both); `scenario*` (one concrete run, and the runs in which a promise is broken); `contracts`, `text`, `amount`,
  `sampling`, `binary`, `envelope` (payloads, validators, encodings); `base`, `counting` (helpers).

Main results, hardest first: `System.ProjectionIsBacked`, `SystemExactlyOnce.DuplicatesHaveNoEffect`,
`SystemRecovery.LostResultIsRecovered`, `SystemTheorems.BoundWalletIsVerified`, `SystemTheorems.ResultIsShownExactlyIfNotExpired`,
`SystemTheorems.TransactionActivatesOnce`, `BotRuns.RunKeepsWorld` and `SessionsRuns.RunKeepsWorld` (the inductive invariants),
`BotTheorems.ReserveOutlivesExactlyIfSignedLate`, `SessionsTheorems.RepeatedVerifyIsAnsweredExactlyIf`,
`BotTheorems.EveryVerifyCommandIsAcceptable`, `SessionsTheorems.FirstWalletIsForever`, `SessionsTheorems.VerifiedHasWitness`,
`SessionsTheorems.VerdictIsExact`, `SessionsTheorems.VersionCountsEvents`, `BotTheorems.InviteBindsForever`,
`SessionsReconcile.PassesDrain`, `EnvelopeSigning.SigningInputIsInjective`, `Sampling.SamplingIsUniform`.

`ScenarioRuns.SessionIsShown` gives a complete run, from the order of an invite to the session the bot shows as active.

## Where the code does not keep a promise

Each promise has its exact condition, proved for all inputs, and a concrete run or input that breaks it.

- *No command outlives its workflow* fails for one command. The reserve command is signed by a later clock reading than the start
  of the transaction that stamps `created_at` (internal/bot/app/activation.go:153, migrations/bot/00003_activation_flow.sql:64),
  and the reconciler closes an attempt two minutes after `created_at` (internal/bot/adapter/postgres/flow.go:425).
  `BotTheorems.ReserveOutlivesExactlyIfSignedLate`: the promise holds over all continuations if and only if the command is signed
  in the microsecond in which the transaction starts; `ScenarioRuns.ReserveCommandOutlives` is the failing run. Verify commands and
  top-up commands, current or replaced, never outlive theirs.
- *A repeated order returns the same invite* (docs/project/contracts.md:134): an order that repeats the operation under a new
  message id is refused by the unique column (flow.go:143-151). `BotTheorems.OrderIsAnsweredExactlyIf`: a new order is answered if
  and only if its operation has no invite yet. `ScenarioRuns.RepeatedOperationIsRefused` is the failing run.
- *A repeated message has its stored result published again* (docs/project/contracts.md:10, workflows.md, technical-decisions.md:130)
  fails at both services. The bot keeps the answer to an order for five minutes only (activation.go:216) and asks for its own name
  before it looks at the inbox (flow.go:107). `BotTheorems.RepeatedOrderIsAnsweredExactlyIf`: a repeated order is answered if and
  only if the bot knows its name and the answer is not five minutes old; `ScenarioRuns.RepeatedOrderIsNotAnswered` is the failing
  run. The authority validates a command before it looks at the inbox (service.go:131).
  `SessionsTheorems.RepeatedVerifyIsAnsweredExactlyIf`: the repeated command of a decided operation is answered if and only if it
  would still be valid, has not expired, and the result is not a day old; in the system this means if and only if its offer has not
  expired (`SystemRecovery.ResultIsRepublishedExactlyIfOffered`). `ScenarioRuns.RepeatedCommandIsRefused` is the failing run.
  Messages of the top-up service keep the promise as long as the result lives (`SessionsTheorems.RepeatedTopupIsAnsweredExactlyIf`),
  and while the offer lasts a lost result can always be had again (`SystemRecovery.LostResultIsRecovered`).
- *The asset is checked* (docs/project/technical-decisions.md:85) is not what `sameFacts` does (store.go:427-429).
  `SessionsTheorems.AssetIsNotCompared`: every asset gets the same verdict. `SessionsTheorems.AssetMattersExactlyIf`: the verdict
  is the one of a comparison with the asset if and only if the asset is USDT or the confirmation is refused anyway.
  `ScenarioRuns.OtherAssetIsAccepted` is the failing run.
- *The first verified activation binds the wallet* (docs/project/technical-decisions.md section 5): the authority also binds it on
  the `CONFLICT` path (store.go:182-194). `SessionsTheorems.WalletIsBoundUnverifiedExactlyIf`: a new wallet is bound without a
  verified operation if and only if the balance was unbound, the facts are accepted and a session stands in the way;
  `ScenarioRuns.ConflictBindsTheWallet` is the failing run of the authority alone. In the system this never happens:
  `SystemTheorems.NothingIsOccupied` and `SystemTheorems.BoundWalletIsVerified`.
- *A message that comes in the wrong state is rejected*: a payment for an attempt without an offer fails on a NULL column and is
  rolled back instead (flow.go:480-496). `BotTheorems.LatePaymentIsRejectedExactlyIfOffered`: a new payment for an attempt that
  does not await one is rejected if and only if the attempt has an offer. `ScenarioRuns.EarlyPaymentIsAnError` is the failing run.
- *Both services agree on a verified operation* fails in one way: the bot may have expired the attempt before the result arrives.
  `SystemTheorems.ServicesDisagreeExactlyIfExpired`: they disagree if and only if the attempt is expired, which happens no earlier
  than half an hour after its offer (`SystemTheorems.VerifiedIsFollowed`); `SystemTheorems.ResultIsShownExactlyIfNotExpired`: the
  result, when it first arrives, makes the bot show the session if and only if the attempt was not expired before.
  `ScenarioRuns.VerifiedOperationIsExpired` is the failing run.
- *The sampling limit is more than half of 2^64* unless the span is 2^63, where it is exactly half (`Sampling.LimitProperties`).
  Configuration admits this span: it means that every non-negative amount may be drawn (`Sampling.ConfiguredLimit`,
  `Sampling.WidestLimitIsHalf`). For the full range of int64 the span wraps to zero and the division panics
  (`Sampling.RandomMinor`); only this is ruled out by configuration.
- *A retry waits between 0.8 and 1.2 times its backoff* if and only if the jittered delay fits into 64 bits or the processor
  saturates on overflow (`Publisher.DelayIsJitteredBackoff`); up to a maximum of 243 years it always fits (`Publisher.DelayFits`),
  beyond it the delay may be negative (`Publisher.LongDelayIsNegative`).

## Model

| member | source | states |
|---|---|---|
| System.ProjectionIsBacked | internal/bot/adapter/postgres/flow.go:548-642 | over every run of both services with loss, duplication and reordering: a projected session is ACTIVE at the authority for the same balance; the attempt that activated it has its event there, with exactly the projected version, not beyond the current one; its wallet, network and Telegram user are those of the authority's session and balance |
| System.RunKeepsWorld | internal/sessions/adapter/postgres/store.go:130-224 | the invariant across both databases and the network holds after every enabled run: each verification's command is a row of the bot's outbox, and every verdict the bot recorded is the authority's |
| System.SessionsMoveKeepsWorld | internal/sessions/adapter/postgres/store.go:67-128 | every step of the authority keeps the cross-service invariant |
| System.BotMoveKeepsWorld | internal/bot/adapter/postgres/flow.go:548-642 | every step of the bot keeps the cross-service invariant |
| System.ArrivedResult | internal/sessions/adapter/postgres/store.go:536-569 | a result on the wire tells what the authority decided: activated only if verified, with the event's version; rejected only if rejected or expired |
| System.ArrivedVerify | internal/bot/app/activation.go:265-280 | a verify command on the wire is a row of the bot's outbox |
| System.VerdictsNeverContradict | internal/bot/adapter/postgres/flow.go:608-622 | no reachable state has an operation verified by the authority and rejected at the bot |
| System.ArrivingCommandsAreAcceptable | internal/sessions/domain/activation.go:16-38 | every verify command that arrives before its offer expires passes the receiver's validation, and the first time it is always accepted: no unique or text column refuses it |
| SystemTheorems.VerifiedIsFollowed | internal/bot/adapter/postgres/flow.go:570-580 | an operation verified by the authority is awaited by the bot, or shown as active with the version of its event, or was expired no earlier than half an hour after its offer |
| SystemTheorems.ServicesDisagreeExactlyIfExpired | internal/bot/adapter/postgres/flow.go:425-433 | the bot has given up a verified operation if and only if it has expired its attempt |
| SystemTheorems.ResultIsShownExactlyIfNotExpired | internal/bot/adapter/postgres/flow.go:572-605 | when the result of a verified operation first arrives, the bot shows the session as active afterwards if and only if it had not expired the attempt |
| SystemTheorems.TransactionActivatesOnce | internal/sessions/adapter/postgres/store.go:481-492 | two events with the same network and transaction are the same operation, even after a later activation has replaced the transaction of the session |
| SystemTheorems.NothingIsOccupied | internal/sessions/adapter/postgres/store.go:481-505 | with the bot as the only source of commands no verification ever ends in CONFLICT: no other session has the user or the transaction, and the own session has the balance |
| SystemTheorems.VerdictInSystem | internal/sessions/adapter/postgres/store.go:130-224 | in the system a new confirmation verifies its operation if and only if its facts are accepted and the balance is not bound to another wallet |
| SystemTheorems.BoundWalletIsVerified | internal/sessions/adapter/postgres/store.go:163-189 | over every run of both services a bound balance has a verified operation that carried exactly the bound wallet and network |
| SystemRecovery.LostResultIsRecovered | internal/sessions/adapter/postgres/store.go:98-105 | after any run of both services, while the bot awaits a verified operation whose result it has not got and the offer lasts: once the command is due, sending it again, finding it in the inbox, sending the result again and handling it are four enabled steps, after which the bot shows the session |
| SystemRecovery.ResultIsRepublishedExactlyIfOffered | internal/sessions/app/service.go:131-133 | the bot's command, delivered again, makes the result of a decided operation claimable at once if and only if its offer has not expired |
| SystemRecovery.RunKeepsRecoverable | internal/sessions/adapter/postgres/store.go:536-569 | over every run no decision is older than its command, and no command whose result is awaited is confirmed |
| BotLive.AwaitedIsSent | internal/platform/message/outbox.go:82-100 | while the bot awaits a result its verify command is due within the bound and claimable from then on, until half an hour after the offer |
| SystemExactlyOnce.SentByAlike | internal/platform/message/outbox.go:82-113 | what one of two alike outboxes hands to a publisher the other one hands out too, or has handed out before |
| SystemExactlyOnce.DuplicatesHaveNoEffect | internal/platform/message/store.go:32-54 | dropping from a run of both services every delivery whose id its receiver already has leaves an enabled run with the same messages on the wire and databases that differ only in when RESULT rows are published |
| Messages.MessageTables.RegisterInbox | internal/platform/message/store.go:32-54 | accepts a new id, reports a known one with its completion and result, refuses the same id with another digest |
| Messages.MessageTables.CompleteInbox | internal/platform/message/store.go:56-68 | only a PROCESSING row becomes COMPLETED with its result; otherwise an error and no change |
| Messages.MessageTables.RejectInbox | internal/platform/message/store.go:70-79 | a PROCESSING row becomes REJECTED; any other row is left alone without an error |
| Messages.MessageTables.AcknowledgeInbox | internal/platform/message/store.go:81-93 | only a PROCESSING row becomes APPLIED; otherwise an error and no change |
| Messages.MessageTables.InsertOutbox | internal/platform/message/store.go:95-104 | adds a PENDING row due at once, leaves an existing id alone, refuses an expiry that has passed |
| Messages.MessageTables.RequeueOutbox | internal/platform/message/store.go:135-144 | makes a row that is not settled due at once and takes its lease; settled rows stay |
| Messages.MessageTables.ConfirmOutbox | internal/platform/message/store.go:146-155 | confirms every row but a dead one and takes its lease |
| Messages.PublisherKeepsRows | internal/platform/message/outbox.go:55-149 | under any publisher statement, late marks included: CONFIRMED and DEAD stay, contents never change, a lease exists exactly while PUBLISHING, a confirmation time exactly when CONFIRMED, every live row is due within the bound, a row is dead only after its expiry and a RESULT row is never confirmed |
| Messages.RequeueKeepsRows | internal/platform/message/store.go:135-144 | requeueing keeps the same rules and the set of rows |
| Messages.ConfirmKeepsRows | internal/platform/message/store.go:146-155 | confirming keeps the same rules and leaves the row settled |
| Messages.InsertKeepsRows | internal/platform/message/store.go:95-104 | inserting keeps the same rules; new rows are pending and have time left |
| Messages.CommandBecomesClaimable | internal/platform/message/outbox.go:82-100 | a live command row can be claimed from its due time, at most the bound away, until it expires, whatever its worker did |
| Messages.FinishedIsNeverClaimed | internal/platform/message/outbox.go:87-90 | a settled or expired row is never claimed again |
| Messages.EvolvesTransitive | internal/platform/message/outbox.go:55-149 | what holds of rows from step to step holds over many steps |
| Publisher.RetryDelay | internal/platform/message/outbox.go:151-159 | the delay is the jittered minimum of RetryInitial times 2^(n-1) and RetryMax, whatever float overflow yields on the way |
| Publisher.DelayIsJitteredBackoff | internal/platform/message/outbox.go:156-158 | the delay lies between 0.8 and 1.2 times the backoff if and only if it fits into 64 bits or the processor saturates |
| Publisher.DelayFits | internal/platform/message/outbox.go:151-159 | with RetryMax up to 5/6 of the 64-bit range no delay overflows |
| Publisher.LongDelayIsNegative | internal/platform/message/outbox.go:156-158 | a RetryMax of 2^63-1 and a jitter of 1.1 give the least 64-bit number on a processor that does not saturate |
| Publisher.DelayWithinBound | internal/platform/message/outbox.go:133-147 | no retry is due later than max(30 s, 1.2 x RetryMax) plus half a microsecond of the interval literal, overflow or not |
| Publisher.DelayWithinExactBound | internal/platform/message/outbox.go:151-163 | not even the half microsecond is lost when RetryMax is a multiple of five microseconds |
| Publisher.OutboxPublisher.ExpireDueRows | internal/platform/message/outbox.go:55-61 | every row that is not settled and has expired becomes DEAD, no other row changes |
| Publisher.OutboxPublisher.SelectDue | internal/platform/message/outbox.go:84-95 | selects the first due rows by next attempt and creation, as many as the batch allows |
| Publisher.OutboxPublisher.Claim | internal/platform/message/outbox.go:82-113 | exactly the selected rows become PUBLISHING with a lease of 30 seconds |
| Publisher.OutboxPublisher.PublishOne | internal/platform/message/outbox.go:115-140 | whatever becomes of the message, the effect is one enabled publisher step; a retry exactly when opening or sending failed |
| Publisher.OutboxPublisher.MarkRetry | internal/platform/message/outbox.go:142-149 | only a PUBLISHING row goes back to PENDING, with one more attempt, its next time and the error code |
| Publisher.OutboxPublisher.MarkPublished | internal/platform/message/outbox.go:133-139 | only a PUBLISHING row becomes PUBLISHED, with one more attempt and its next time |
| Publisher.OutboxPublisher.PublishClaimed | internal/platform/message/outbox.go:66-79 | publishing the claimed messages, in any order and with any outcome, amounts to one enabled mark each |
| Publisher.OutboxPublisher.PublishBatch | internal/platform/message/outbox.go:55-80 | a batch expires, claims the first due rows and marks each claimed message once |
| Publisher.PublishersKeepRows | internal/platform/message/outbox.go:40-80 | any sequence of such steps in time order, from any workers, keeps the outbox rules |
| SessionsStore.Store.AcceptVerification | internal/sessions/adapter/postgres/store.go:67-128 | statement by statement the same effect as the transaction function: a new command adds a pending verification and its top-up command, a known one has its result published again, failures change nothing |
| SessionsStore.Store.ApplyTopupVerified | internal/sessions/adapter/postgres/store.go:130-224 | the same effect as the transaction function for confirmations: late ones are rejected, facts and deadline are checked, the wallet is bound, the session activated, everything rolled back on an error |
| SessionsStore.Store.ApplyTopupRejected | internal/sessions/adapter/postgres/store.go:226-265 | the same effect as the transaction function for refusals |
| SessionsStore.Store.PendingRetries | internal/sessions/adapter/postgres/store.go:267-305 | returns exactly the oldest pending verifications whose offer has passed or whose command is dead, up to the limit, each as it stands |
| SessionsStore.Store.ReplaceTopupCommand | internal/sessions/adapter/postgres/store.go:307-329 | replaces the command only of a verification that is still pending with the command that was read |
| SessionsStore.Store.ExpireVerification | internal/sessions/adapter/postgres/store.go:331-392 | expires only a verification that is still pending with the command that was read, with result and inbox row in the same transaction |
| SessionsStore.Store.EnsureIdentity | internal/sessions/adapter/postgres/store.go:431-471 | the first wallet and network of a balance are stored; later ones only compared |
| SessionsStore.Store.ActivateSession | internal/sessions/adapter/postgres/store.go:473-534 | conflict, activation or reactivation, as the transaction function says; nothing is written on a conflict |
| SessionsStore.Store.CompleteRejected | internal/sessions/adapter/postgres/store.go:536-561 | the result row, both inbox rows, the verdict and the confirmation of the command, or a failure |
| SessionsStore.Store.FinishVerification | internal/sessions/adapter/postgres/store.go:563-569 | only the one verification row changes, to its final status |
| SessionsStore.Service.HandleActivationVerify | internal/sessions/app/service.go:122-150 | an invalid command or one about to expire changes nothing; otherwise the command is accepted with a top-up command of at most five minutes |
| SessionsStore.Service.TakeTurn | internal/sessions/app/service.go:99-118 | one item at its own time: expired, or given a command signed at most five minutes ahead, with the effect of the transaction function |
| SessionsStore.Service.ReconcileOnce | internal/sessions/app/service.go:93-120 | one pass reads the oldest due items, then the clock, handles each in order and at its own time, stops at the first error and reports exactly whether there was one |
| SessionsInvariant.FinishSucceeds | internal/sessions/adapter/postgres/store.go:200-216 | when a decision is reached, CompleteInbox does not fail and the decided state is exactly the described one |
| SessionsActivation.EnsureIdentityBinds | internal/sessions/adapter/postgres/store.go:431-471 | binding adds at most one identity, changes none, and reports a match exactly when the balance is bound to this wallet and network |
| SessionsActivation.UniqueIndexesNeverRefuse | migrations/sessions/00002_active_sessions_core.sql:73-79 | after the conflict query passes, neither the insert nor the update arm can violate a unique index |
| SessionsActivation.ActivationKeepsVersions | internal/sessions/adapter/postgres/store.go:496-533 | an activation adds one event with the next version: counts and distinctness of versions stay |
| SessionsActivation.ActivationKeepsSessions | internal/sessions/adapter/postgres/store.go:481-518 | an activation keeps all sessions active, identified and unique by user and by transaction |
| SessionsMachine.DecideVerifiedKeepsInv | internal/sessions/adapter/postgres/store.go:153-224 | whatever a confirmation leads to, it commits and keeps the whole invariant: no database error is reachable |
| SessionsMachine.VerifyKeepsInv | internal/sessions/app/service.go:122-150 | a delivered verify command, new, repeated or invalid, keeps the invariant |
| SessionsMachine.TopupVerifiedKeepsInv | internal/sessions/adapter/postgres/store.go:130-224 | a delivered confirmation keeps the invariant |
| SessionsMachine.TopupRejectedKeepsInv | internal/sessions/adapter/postgres/store.go:226-265 | a delivered refusal keeps the invariant |
| SessionsMachine.ReconcileKeepsInv | internal/sessions/app/service.go:93-120 | acting on an item read at any earlier time keeps the invariant |
| SessionsHistory.DecideVerifiedContinues | internal/sessions/adapter/postgres/store.go:153-224 | a confirmation takes nothing back: decisions, bindings, events and handled messages are final |
| SessionsRuns.StepContinues | internal/sessions/adapter/postgres/store.go:67-392 | no step of the authority changes a decided verification, a binding, an event, a handled message or a settled row |
| SessionsRuns.ReconcileContinues | internal/sessions/adapter/postgres/store.go:307-392 | whatever a stale item says, a decided verification is left alone |
| SessionsRuns.StepKeepsWorld | internal/sessions/adapter/postgres/store.go:67-392 | every enabled step keeps the invariant, the outbox rules and what is known of items already read |
| SessionsRuns.RunKeepsWorld | internal/sessions/adapter/postgres/store.go:67-392 | every reachable state satisfies the invariant, and the past is final, over all finite runs |
| SessionsExactlyOnce.DuplicateKeepsCore | internal/sessions/adapter/postgres/store.go:98-105 | a message already in the inbox changes at most when RESULT rows are published |
| SessionsExactlyOnce.StepAlike | internal/sessions/adapter/postgres/store.go:67-392 | databases that differ only in the publication of RESULT rows stay so under every step |
| SessionsExactlyOnce.DuplicatesHaveNoEffect | internal/platform/message/store.go:32-54 | removing from any run every delivery whose id is already in the inbox leaves an enabled run with the same inbox, verifications, identities, sessions, events and commands |
| SessionsTheorems.FirstWalletIsForever | internal/sessions/adapter/postgres/store.go:163-189 | once a balance is bound no run changes its wallet or network, and every verified operation of the balance, before or after, carried exactly them |
| SessionsTheorems.VerifiedHasWitness | internal/sessions/adapter/postgres/store.go:427-429 | every operation verified in a run was confirmed by a delivery equal on all six facts and finalized no later than the offer's expiry |
| SessionsTheorems.RepeatedVerifyIsAnsweredExactlyIf | internal/sessions/app/service.go:131-133 | the repeated command of a decided operation makes its result claimable at once if and only if it would still pass validation, has not expired and the decision is less than a day old |
| SessionsTheorems.RepeatedTopupIsAnsweredExactlyIf | internal/sessions/adapter/postgres/store.go:145-152 | a repeated message of the top-up service makes the result it led to claimable at once if and only if that has not expired; one that led to none changes nothing |
| SessionsTheorems.VerdictIsExact | internal/sessions/adapter/postgres/store.go:130-224 | a new confirmation of an undecided operation is always decided: verified if and only if the facts are accepted, the balance is not bound elsewhere and no session stands in the way; otherwise the code of the first reason that applies |
| SessionsTheorems.AssetIsNotCompared | internal/sessions/adapter/postgres/store.go:427-429 | the verdict is the same for every asset |
| SessionsTheorems.AssetMattersExactlyIf | internal/sessions/adapter/postgres/store.go:427-429 | the verdict is the one of a comparison with the asset if and only if the asset is USDT or the confirmation is refused anyway |
| SessionsTheorems.WalletIsBoundUnverifiedExactlyIf | internal/sessions/adapter/postgres/store.go:163-194 | a confirmation binds a new wallet without verifying its operation if and only if the balance was unbound, the facts are accepted and a session stands in the way |
| SessionsTheorems.UndecidedMatchProcessing | internal/sessions/adapter/postgres/store.go:106-121 | pending verifications and PROCESSING inbox rows are in one-to-one correspondence |
| SessionsTheorems.ExactlyOneResult | internal/sessions/adapter/postgres/store.go:345-365 | a decided operation has exactly one RESULT row, its command's inbox row points to it and it announces the decision |
| SessionsTheorems.NeverBothAnnounced | internal/sessions/adapter/postgres/store.go:200-216 | activated and rejected are never both announced for one operation, not even at different times |
| SessionsTheorems.StepRefinesLedger | internal/sessions/adapter/postgres/store.go:536-569 | every step refines an abstract ledger in which an operation is decided at most once and only the touched one |
| SessionsTheorems.VersionCountsEvents | internal/sessions/adapter/postgres/store.go:496-533 | a session's version equals the number of its events and of its verified verifications, and its events carry 1..n without gap or repeat |
| SessionsTheorems.SessionTellsItsEvents | internal/sessions/adapter/postgres/store.go:496-533 | a session belongs to the user of its first activation; its transaction, chat and time are those of its latest one; exactly the first event is ACTIVATED |
| SessionsTheorems.SessionsAreUnique | migrations/sessions/00002_active_sessions_core.sql:73-79 | no two active sessions share a user and no two sessions share a transaction |
| SessionsTheorems.NoCommandOutlivesItsVerification | internal/sessions/adapter/postgres/store.go:217-366 | no top-up command, current or replaced, can ever be claimed once its operation is decided |
| SessionsTheorems.NoCommandIsStranded | internal/platform/message/outbox.go:82-159 | at every later moment of a run a live command is due within the bound and a settled row kept its status |
| SessionsTheorems.DecidedIsFinal | internal/sessions/adapter/postgres/store.go:267-370 | reconciliation on stale reads is safe: decisions stand, and EXPIRED was only decided after the offer expired |
| SessionsReconcile.PassDrains | internal/sessions/app/service.go:93-120 | a pass over freshly read items gets through if and only if no replacement comes too late to be signed, and then leaves exactly the other due operations due |
| SessionsReconcile.PassesDrain | internal/sessions/app/service.go:93-120 | ceil(n/limit) passes that get through leave every pending verification with a live offer and a command that is not dead |
| BotStore.FlowStore.CreateInvite | internal/bot/adapter/postgres/flow.go:97-156 | statement by statement the same effect as the transaction function, rollback included |
| BotStore.FlowStore.ConsumeInvite | internal/bot/adapter/postgres/flow.go:158-212 | the same effect as the transaction function, and the returned session belongs to the user |
| BotStore.FlowStore.State | internal/bot/adapter/postgres/flow.go:214-230 | active, bound with its dialog, or unbound, exactly as the tables say |
| BotStore.FlowStore.BeginActivation | internal/bot/adapter/postgres/flow.go:232-291 | the same effect as the transaction function for the conversation the query finds |
| BotStore.FlowStore.ApplyReserved | internal/bot/adapter/postgres/flow.go:293-361 | the same effect as the transaction function, rollback included |
| BotStore.FlowStore.ApplyReserveRejected | internal/bot/adapter/postgres/flow.go:363-418 | the same effect as the transaction function, rollback included |
| BotStore.FlowStore.ReceivePayment | internal/bot/adapter/postgres/flow.go:469-497 | registers the payment, reads the offer before it looks at the status, rolls back on a NULL offer and rejects a payment in the wrong state |
| BotStore.FlowStore.ApplyPayment | internal/bot/adapter/postgres/flow.go:458-546 | the same effect as the transaction function, taken transaction and unstorable id included |
| BotStore.FlowStore.CompleteActivation | internal/bot/adapter/postgres/flow.go:548-642 | the same effect as the transaction function for both outcomes |
| BotStore.FlowStore.UpsertProjection | internal/bot/adapter/postgres/flow.go:598-605 | inserts a new row, updates an older version of the same session, refuses another session of the user and a version below one |
| BotStore.FlowStore.SelectOverdue | internal/bot/adapter/postgres/flow.go:422-432 | selects the least recently updated overdue attempts, as many as the limit allows |
| BotStore.FlowStore.ExpireAttempts | internal/bot/adapter/postgres/flow.go:420-456 | expires exactly the selected attempts and rejects the dialogs of their sessions |
| BotStore.Service.SetTelegramIdentity | internal/bot/app/activation.go:41-46 | the bot's id and its name without the leading @ replace the old ones |
| BotStore.Service.HandleInviteCreate | internal/bot/app/activation.go:196-218 | an invalid order, or one before the bot's name is known, changes nothing; a valid one uses its own lifetime or the configured one and a link to the bot with the token |
| BotStore.Service.ConsumeInvite | internal/bot/app/activation.go:114-126 | a token of another length than 43 changes nothing; otherwise the store consumes it with the trimmed label |
| BotStore.Service.HandleText | internal/bot/app/activation.go:128-162 | nothing for an active session; an unbound user's trimmed text is tried as an invite; a bound user's trimmed text begins an attempt only if it is a valid wallet and the dialog asks for one |
| BotStore.TextIsStep | internal/bot/app/activation.go:128-162 | whatever a text does is the step that consumes an invite, the step that sends a wallet, or nothing |
| BotStore.TrimLabel | internal/bot/app/activation.go:356-362 | the trimmed text, or its first 128 bytes if it is longer |
| Text.TrimSpace | internal/bot/app/activation.go:133 | the result has no space at either end, and equals the text exactly when the text has none |
| Text.TrimSpaceRemovesSpaces | internal/bot/app/activation.go:133 | nothing but spaces is removed, at the two ends |
| BotMachine.MoveOnAdvances | internal/bot/adapter/postgres/flow.go:320-350 | for an open attempt the dialog exists and AcknowledgeInbox succeeds, so the handled result is always committed |
| BotMachine.ReservedKeepsInv | internal/bot/adapter/postgres/flow.go:293-361 | a delivered reservation keeps the invariant and takes nothing back |
| BotMachine.ReserveRejectedKeepsInv | internal/bot/adapter/postgres/flow.go:363-418 | a delivered refusal keeps the invariant and takes nothing back |
| BotMachine.PaymentKeepsInv | internal/bot/adapter/postgres/flow.go:458-546 | a delivered payment keeps the invariant; the new verify command carries the attempt and its conversation |
| BotMachine.ProjectInserts | internal/bot/adapter/postgres/flow.go:598-605 | the ON CONFLICT arm and the unique index of the projection are never reached |
| BotMachine.ActivatedKeepsInv | internal/bot/adapter/postgres/flow.go:548-642 | a delivered activation keeps the invariant and takes nothing back |
| BotMachine.RejectedKeepsInv | internal/bot/adapter/postgres/flow.go:608-622 | a delivered rejection keeps the invariant and takes nothing back |
| BotMachine.ExpireKeepsInv | internal/bot/adapter/postgres/flow.go:420-456 | expiring any batch of attempts keeps the invariant |
| BotMachine.InviteCreateKeepsInv | internal/bot/adapter/postgres/flow.go:97-156 | an order for an invite, new or repeated, keeps the invariant |
| BotMachine.ConsumeKeepsInv | internal/bot/adapter/postgres/flow.go:158-212 | consuming an invite keeps the invariant |
| BotMachine.BeginActivationKeepsInv | internal/bot/adapter/postgres/flow.go:232-291 | beginning an attempt keeps the invariant |
| BotSteps.AdvanceKeepsDialogs | internal/bot/adapter/postgres/flow.go:320-342 | overwriting the dialog of the session is right although current_attempt_id is not checked: every attempt stays open exactly when it drives its conversation |
| BotSteps.InvitesGrow | internal/bot/adapter/postgres/flow.go:139-155 | adding an answered invite for an operation that had none keeps this |
| BotSteps.CompleteKeepsProjection | internal/bot/adapter/postgres/flow.go:594-618 | after a completion every projected session was activated by exactly one attempt |
| BotRuns.StepKeepsBinding | internal/bot/adapter/postgres/flow.go:191-210 | every step keeps the correspondence of consumed invites with conversations and projected sessions |
| BotRuns.StepKeepsWorld | internal/bot/adapter/postgres/flow.go:97-642 | every enabled step keeps the invariant, the stored data, the outbox rules, the invite binding and the validity of all verify commands |
| BotRuns.RunKeepsWorld | internal/bot/adapter/postgres/flow.go:97-642 | every reachable state satisfies the invariant, and the past is final, over all finite runs |
| BotTheorems.OpenExactlyWhenDriving | internal/bot/adapter/postgres/flow.go:250-286 | an attempt is open exactly when it is the current one of a conversation in the same state; a session has at most one open attempt |
| BotTheorems.DialogTellsItsAttempt | internal/bot/adapter/postgres/flow.go:390-400 | a dialog waiting for a wallet has no open attempt, a rejected one points to a rejected or expired attempt, any other to its open attempt |
| BotTheorems.ReservationIsTakenExactlyIfValid | internal/bot/adapter/postgres/flow.go:293-361 | the attempt changes if and only if the message is new, the attempt awaits a reservation, the offer is valid and its id can be stored as text |
| BotTheorems.PaymentIsTakenExactlyIfValid | internal/bot/adapter/postgres/flow.go:458-546 | the attempt changes if and only if the message is new, the attempt awaits a payment, the payment matches the offer, its transaction id can be stored as text, the command can still be signed and the transaction is free |
| BotTheorems.LatePaymentIsRejectedExactlyIfOffered | internal/bot/adapter/postgres/flow.go:480-497 | a new payment for an attempt that does not await one is rejected, and nothing else happens, if and only if the attempt has an offer |
| BotTheorems.ActivatedIsApplied | internal/bot/adapter/postgres/flow.go:581-624 | a well-formed activation of an awaiting attempt is always applied: one new projection row of the same user and balance with the announced version, and no conversation left |
| BotTheorems.ClosedIsFinal | internal/bot/adapter/postgres/flow.go:420-442 | a closed attempt never changes again over any run |
| BotTheorems.InviteAnswersItsOrder | internal/bot/adapter/postgres/flow.go:139-155 | every invite is the completed answer to one order, its RESULT row carries its token, a link to the bot with the token and its expiry before the cut to microseconds, and no operation has two invites |
| BotTheorems.OrderIsAnsweredExactlyIf | internal/bot/adapter/postgres/flow.go:143-151 | a new valid order is answered with a new invite if and only if its operation has no invite yet; otherwise nothing is announced |
| BotTheorems.RepeatedOrderIsAnsweredExactlyIf | internal/bot/app/activation.go:206-217 | a repeated order can have its answer sent again if and only if it is valid, the bot knows its name and the answer, which is kept for five minutes, has not expired |
| BotTheorems.InvitesAreConserved | internal/bot/adapter/postgres/flow.go:158-212 | consumed invites number exactly conversations plus projected sessions, one to one |
| BotTheorems.InviteBindsForever | internal/bot/adapter/postgres/flow.go:594-617 | an invite binds one session for ever, whose balance stays that of the invite through to the projection |
| BotTheorems.OneSessionPerUser | internal/bot/adapter/postgres/flow.go:166-175 | a Telegram user has at most one session across conversations and projection |
| BotTheorems.NoVerifyOutlivesItsAttempt | internal/bot/adapter/postgres/flow.go:427 | the verify command of a closed attempt is never claimed again |
| BotTheorems.ReserveOutlivesExactlyIfSignedLate | internal/bot/app/activation.go:153 | over all continuations, the reserve command of a closed attempt is never claimed again if and only if it was signed in the microsecond in which its transaction started |
| BotTheorems.NoCommandIsStranded | internal/platform/message/outbox.go:82-159 | at every later moment of a run a live command is due within the bound and a settled row kept its status |
| BotTheorems.EveryVerifyCommandIsAcceptable | internal/bot/app/activation.go:274-278 | every verify command ever written passes the receiver's validation from its creation until its offer expires |
| BotExactlyOnce.StepAlike | internal/bot/adapter/postgres/flow.go:97-642 | databases that differ only in the publication of RESULT rows stay so under every step |
| BotExactlyOnce.DuplicatesHaveNoEffect | internal/platform/message/store.go:32-54 | dropping from any run every delivery whose id is already in the inbox, orders for invites included, leaves an enabled run with the same inbox, invites, conversations, attempts, projection and commands |
| BotExactlyOnce.DuplicateOnlyPublishes | internal/bot/adapter/postgres/flow.go:131-138 | a repeated order that is valid and finds the bot with a name makes its answer due at once if that is neither dead nor confirmed; any other repeated message changes nothing |
| BotContract.AcceptedReservationLeadsToValidCommand | internal/bot/domain/activation.go:37-50 | whatever payment follows a reservation accepted at t0, the verify command is valid at every t from t0 until the stored offer expires |
| BotContract.CommandIsValid | internal/sessions/domain/activation.go:16-38 | a command built from stored data passes wallet, id, amount, label, window and two-hour checks whenever its offer is live |
| BotData.ReservedAttemptData | internal/bot/adapter/postgres/flow.go:333-338 | cutting the offer to microseconds keeps its length between one minute and one hour |
| BotReconcile.BatchDrains | internal/bot/adapter/postgres/flow.go:420-456 | a batch leaves exactly the other overdue attempts overdue |
| BotReconcile.PassesDrain | internal/bot/app/activation.go:246-263 | ceil(n/limit) passes at one moment leave no attempt past its deadline |
| ScenarioRuns.SessionIsShown | internal/bot/adapter/postgres/flow.go:583-607 | a complete run: invite, wallet, offer, payment, verification and result, at whose end the bot shows the session with version 1 |
| ScenarioRuns.RepeatedOperationIsRefused | internal/bot/adapter/postgres/flow.go:143-151 | a run after which an order that repeats the operation under a new message id is rolled back |
| ScenarioRuns.RepeatedOrderIsNotAnswered | internal/bot/app/activation.go:216 | a run after which a repeated order is handled, changes nothing, and its dead answer is never sent again although the invite is active |
| ScenarioRuns.RepeatedCommandIsRefused | internal/sessions/app/service.go:131-133 | a run after which a repeated verify command is refused although it is on the wire, the result is stored and the bot awaits it |
| ScenarioRuns.ReserveCommandOutlives | internal/bot/app/activation.go:153 | a run after which the reserve command of an expired attempt is claimable, because it was signed a microsecond late |
| ScenarioRuns.EarlyPaymentIsAnError | internal/bot/adapter/postgres/flow.go:480-492 | a run after which a payment before the offer is rolled back |
| ScenarioRuns.OtherAssetIsAccepted | internal/sessions/adapter/postgres/store.go:427-429 | a run in which a confirmation about another asset verifies the operation |
| ScenarioRuns.VerifiedOperationIsExpired | internal/bot/adapter/postgres/flow.go:425-433 | a run at whose end the authority has verified an operation and the bot has expired its attempt |
| ScenarioRuns.ConflictBindsTheWallet | internal/sessions/adapter/postgres/store.go:182-194 | a run of the authority alone after which a confirmation ends in CONFLICT and binds the wallet of the balance |
| EnvelopeSigning.SigningInput | internal/platform/envelope/envelope.go:232-247 | writes the label and twelve length-prefixed parts, fills exactly the precomputed capacity, and a parser recovers all parts |
| EnvelopeSigning.Size | internal/platform/envelope/envelope.go:234-237 | the precomputed size is the length of the framed parts |
| EnvelopeSigning.AppendParts | internal/platform/envelope/envelope.go:238-245 | appends each part after its 8-byte big-endian length |
| EnvelopeSigning.SigningInputParses | docs/project/contracts.md:86-106 | parsing inverts framing for every list of representable parts |
| EnvelopeSigning.SigningInputIsInjective | docs/project/contracts.md:86-106 | equal signing inputs imply equal fields and equal payload |
| Binary.PutUintRoundTrip | internal/platform/envelope/envelope.go:240-243 | reading the big-endian bytes of a number gives the number |
| Amount.FormatAmountIsExact | internal/bot/domain/activation.go:63-73 | reading the formatted text as a decimal gives minor / 10^scale exactly, with exactly scale fraction digits |
| Amount.FormatAmountParts | internal/bot/domain/activation.go:63-73 | a whole part without superfluous zeros, a point and exactly scale digits that together spell the number |
| Amount.FormatAmountIsInjective | internal/bot/domain/activation.go:63-73 | at a fixed scale different amounts have different texts |
| Amount.FormattedAmountIsValid | internal/sessions/domain/activation.go:66-86 | every amount the bot formats within int64 and scale 18 is accepted by the receiving validator |
| Sampling.RandomMinor | internal/bot/app/activation.go:338-354 | an error exactly for an empty range, a panic exactly for the full range, otherwise the value of the first accepted draw, within the range |
| Sampling.LimitProperties | internal/bot/app/activation.go:342-343 | the limit is a positive multiple of the span and more than half of 2^64 if and only if the span is not 2^63 |
| Sampling.ConfiguredLimit | internal/platform/config/config.go:377-379 | for every configured range the limit exceeds half of 2^64 if and only if the range is not that of all non-negative amounts |
| Sampling.WidestLimitIsHalf | internal/bot/app/activation.go:342-343 | for the range from 0 to 2^63-1 the limit is exactly half of 2^64 |
| Sampling.PickIsExact | internal/bot/app/activation.go:349-351 | the wrapped 64-bit arithmetic yields minimum + value mod span, inside the range |
| Sampling.SamplingIsUniform | internal/bot/app/activation.go:338-354 | every amount of the range has exactly limit/span accepted 64-bit values |

## Left out

- Transactions are atomic: READ COMMITTED interleavings inside one transaction, row locks, advisory locks and `SKIP LOCKED` contention are not modelled. `ExpireAttempts` and `Claim` therefore select from all rows that are due.
- Surrogate ids: verifications, attempts and events are keyed by operation id, identities by balance fingerprint, invites by token. Where a query orders by a surrogate id after the time, the model orders by this key.
- SHA-256 digests, HMAC fingerprints, Ed25519 and AES-GCM are ideal: a digest is the payload, a fingerprint determines its value, a ciphertext is its plain text. Sealing and opening of outbox rows can only fail as a whole.
- Subjects, producers, correlation ids and the checks of `Verify` on time and key of an envelope: the model delivers more messages than the services would accept, except that messages between the two services must have been handed to a publisher. A message that has not expired passes these checks. The expiry of an envelope is that of its row, cut to microseconds.
- JSON, RFC 3339, UUIDv7 and base64 texts: ids are numbers, timestamps are integers, and a timestamp of an external producer that does not parse is an absent value.
- Integers: versions, attempts and Telegram ids are unbounded; 64-bit arithmetic is modelled in amount sampling, amount parsing and retry delays only.
- Publisher.RetryDelay: floats are real numbers, so the rounding of the jitter and of its product with the delay, less than a millionth of a nanosecond for delays of hours, is not modelled.
- Text columns refuse invalid UTF-8 and NUL bytes in the ids, codes and labels that come from messages and users (`Text.Storable`); the network comes from configuration and amounts are digits, so they are taken to be storable.
- Invite and conversation housekeeping the code never performs: statuses `EXPIRED` of invites, `REVOKED` and `MANUAL_REVIEW` are never written; `expires_at` of conversations is never read.
- Notifications, Russian texts, the command parser and the Telegram poller.
- NATS, PostgreSQL and HTTP clients, metrics, logging, migrations, configuration parsing (its bounds appear as `Bot.ValidSettings` and `Publisher.ValidPolicy`), goroutine pools and semaphores; publisher workers appear as interleaved steps.
- `ValidateTopupResult`: it is not called by the service.
