# Verification of the shared-state cores of devkit-common

Dafny models of the parts of the library that keep shared state under retries, crashes and concurrent replicas, and of
its money arithmetic, with proofs of what they promise. `dafny verify dfyconfig.toml` checks the whole project.

Most cores come in two layers. A *protocol* module is a state machine: a `World`, the `Event`s that may happen to it,
when each is `Enabled`, and the `Step` it takes; one statement, one Redis command or one lock operation is one event, and
a command may fail without effect, or take effect and have its reply lost. Its theorems speak of every run, with any number of
replicas, callers or transactions. A *code* module is the imperative code: a class with the source's fields and loops. Its
methods either equal the statement functions of the protocol, or are proved to be a run of it with arbitrary steps of
everybody else at every point where the code can be interrupted.

| protocol | code | source |
|---|---|---|
| `DelayedTasks` | `DelayScheduler` | delayx/delay.go |
| `Sessions` | `SessionIssuer` | authx/authx.go |
| `Idempotency`, `IdempotencyKeys` | `IdempotencyMiddleware` | kitexx/idempotency.go |
| `RequestIds` | `RequestScope` | kitexx/requestid.go |
| `Limits` | `Limiter` | kitexx/limits.go |
| `Outbox`, `OutboxCopies` | `OutboxRelay` | kafkax/outbox.go |
| `DeadLetters` | `DeadLetterTool` | kafkax/dlq.go |
| `Consumption` | `Consumer` | kafkax/kafkax.go |
| `Ids`, `Leases` | `Generator` | idx/idx.go |
| `Locks` (with `TokenKeys`, shared with the leases) | `Locker` | redisx/lock.go |
| `Cache` | `ReadThrough` | redisx/cache.go |
| `Money`, `MoneyText` | `Money` | moneyx/money.go |
| `Watches`, `WatchLocks`, `ConfigDiff` | `Watcher`, `Values` | nacosx/config.go, value.go, diff.go |
| `AuditSink` | `AuditWorker` | hertzx/audit.go |

Some promises turned out to hold only under a condition. For those there is a concrete run or value that breaks them, and a
theorem saying when they hold:

- The context a delayed row's outcome is written under is made when its run begins and lives ten seconds, so the end of a
  longer run is never written: the row goes stale and runs again, without end and without an attempt counted
  (delayx/delay.go:488-499, 523-530).
- Nothing ties a delayed row's outcome to its claim, so attempts can fall behind the runs that counted; they are equal exactly
  as long as no outcome is written over attempts its holder did not read (delayx/delay.go:523-556).
- A delayed row queued behind others of its batch is not refreshed, so it can be taken while held; exclusion holds exactly
  as long as no held row is taken, which takes a stale one (delayx/delay.go:458-484).
- "A retry will run again" after a result that could not be kept (kitexx/idempotency.go:116): the key stays pending instead.
- Requests of different logins never share an idempotency key, but one without a login can share a login's: the key does not
  tell an id that ends in ":u5" from the id before it and uid 5 (kitexx/idempotency.go:213-220).
- The first outbox wait is two seconds, not one (kafkax/outbox.go:75-76, 252).
- With dedupe on, an unhandled event is skipped until its key expires once the last run that could handle it or forget the
  key crashes, loses its Del or gives up without a claim of its own; no other step brings it there (kafkax/kafkax.go:403-443).
- Ids repeat when a number changes hands within a millisecond or a generator goes on without its lease; they do exactly when
  a generator makes a stamp another one made under its number, and a millisecond can be used up without a repeat exactly when
  no other generator used it (idx/idx.go:1-3, 174-297).
- Split and Allocate add up for every currency of up to 16 decimals, not beyond; an Allocate part is within a unit of its
  share unless rounding at 16 decimals took it past and the correction adds to it (moneyx/money.go:294-351).
- The overload window reads the clock before its mutex, so a late caller resets it and a slot can admit more than its share
  even with a clock that never goes back; it keeps to it, whatever MaxQPS is, exactly when the window comes to the slot once
  at most (kitexx/limits.go:106-112).
- When fn panics under a lock nobody stops the keeper, and the lock stays taken (redisx/lock.go:109-112).
- A Del after the commit does not keep a load that read before it from filling the old value in again; an answer is old
  exactly when it comes from such an entry or from the flight of such a load. A loader that panics leaves every later Get of
  its process waiting (redisx/cache.go:105-137).
- The alive key of a session is set at login and never extended, so a refresh token handed out by an exchange is refused from
  one refresh lifetime after the login on, though RefreshExpiresIn promises a whole one (authx/authx.go:337, 402-412).
- The record of why a session ended lives one refresh lifetime, which access tokens may outlive (authx/authx.go:468, 473-476).
- Watch holds the value's mutex while it unfollows after a failed load; a push at that moment deadlocks both
  (nacosx/value.go:62-73, nacosx/config.go:168-170, 202-204).

## Model

| member | source | states |
|---|---|---|
| `DelayedTasks.InvAlong` | delayx/delay.go:425-557 | In every reachable state of the cluster, stale holders and all: status is running exactly when locked_at is set, pending and running rows have attempts below the maximum, failed rows have exactly the maximum |
| `DelayedTasks.FinishedForGood` | delayx/delay.go:488-557 | A done, failed or cancelled row is never changed again by any statement of any replica; only done and cancelled ones past the retention are deleted, and their ids never come back |
| `DelayedTasks.ExclusionStep` | delayx/delay.go:433-485 | One step of any replica loses exclusion if and only if it is a claim that takes a row somebody still holds |
| `DelayedTasks.TakenMeansStale` | delayx/delay.go:438-442 | A held row can be taken only when its locked_at is older than stale() |
| `DelayedTasks.OneHolderPerTask` | delayx/delay.go:433-485 | Over every run of any number of replicas in which no claimed row, queued or running, goes stale, a row has at most one holder from its claim to its outcome |
| `DelayedTasks.OutcomeEndsOrSpends` | delayx/delay.go:488-557 | The end of a run by a sole holder ends the row, or spends an attempt and waits at least a minute, if and only if it comes within ten seconds of the beginning and the database answers; an interruption by shutdown puts the row back unspent exactly then; otherwise the row stays running with nobody at it |
| `DelayedTasks.LateRunsNeverCount` | delayx/delay.go:499-530 | In any run, a row all of whose runs take more than ten seconds is never done and never failed, and no attempt is ever spent, whatever its handler returns |
| `DelayedTasks.HandledWithoutEnd` | delayx/delay.go:488-530 | For any n a run in which no claimed row is ever stale and the database always answers, and one row is handled n times with no attempt counted |
| `DelayedTasks.BackoffBounds` | delayx/delay.go:631-638 | The wait is a minute doubled per attempt and capped at an hour, never shorter after a later failure; the cut of the shift at 10 does not show |
| `DelayedTasks.AttemptsAreExact` | delayx/delay.go:531-556 | While no claimed row goes stale, attempts equals the number of runs whose outcome counted, which never passes the maximum |
| `DelayedTasks.AttemptsAreExactIff` | delayx/delay.go:523-556 | In every run, stale holders or not: attempts is never more than the number of runs that counted, and equals it if and only if no counted outcome was written over attempts its holder had not read |
| `DelayedTasks.EveryClaimHasAHandler` | delayx/delay.go:501-507 | The branch of a run without a handler can never be taken: a replica claims registered kinds only |
| `DelayedTasks.ReclaimedAfterStale` | delayx/delay.go:437-442 | A running row, its holder dead or not, can be claimed again exactly from stale() after its last refresh on |
| `DelayedTasks.QueuedRowIsTaken` | delayx/delay.go:458-484 | A concrete run: a row queued behind another of its batch has no heartbeat and is taken by a second replica while the first still holds it |
| `DelayedTasks.StaleOutcomeLosesAnAttempt` | delayx/delay.go:523-530 | A concrete run: the outcome is guarded by status alone, so a stale holder writes over a later claim and two failed runs count as one attempt |
| `DelayScheduler.Scheduler.ClaimBatch` | delayx/delay.go:458-464 | The claiming loop marks exactly the selected rows running and keeps them as they were read |
| `DelayScheduler.Scheduler.Dispatch` | delayx/delay.go:470-485 | Short rows run here in order, long ones in the pool, and the send into the pool never blocks |
| `DelayScheduler.Scheduler.RunOnce` | delayx/delay.go:425-486 | A round is one claim step of the cluster: selected rows claimed, short ones in the order of the select, long ones within the room of the pool |
| `DelayScheduler.Scheduler.Abort` | delayx/delay.go:276-298 | The rows read are cancelled, and the runs of this process end with the abort as their cause unless they had one |
| `DelayScheduler.Scheduler.Stop` | delayx/delay.go:379-391 | Every tracked run ends with the shutdown cause, one ended before keeps its own |
| `DelayScheduler.Scheduler.Finish` | delayx/delay.go:499-556 | The outcome chosen is the one of the cluster step, written exactly when the run ends within ten seconds of its beginning, the database answers and the row is still running; the returned count says so |
| `Idempotency.StepKeepsInv` | kitexx/idempotency.go:60-122 | Every command of every concurrent call, failed, lost or half done, keeps: one owner of a pending key, and answers that come from the run that succeeded |
| `Idempotency.ExpiryIsSafeIff` | kitexx/idempotency.go:34-36 | The key may expire without breaking the protocol exactly while no call is between claim and outcome and none succeeded |
| `Idempotency.OneAtATime` | kitexx/idempotency.go:77-103 | Within the key's life the handler never runs twice at once |
| `Idempotency.NeverAgain` | kitexx/idempotency.go:82-98 | After a run that succeeded the handler never starts again, and its result stays the only one |
| `Idempotency.AnswersAfterSuccess` | kitexx/idempotency.go:82-121 | Every answer given after a success is the kept result, 1002 or 5002; only the run itself answers with its own result |
| `Idempotency.RunsIffClaimsWereDropped` | kitexx/idempotency.go:77-111 | Within the key's life a call runs the handler exactly when every claim before it was dropped after a failure |
| `Idempotency.StuckForGood` | kitexx/idempotency.go:113-121 | A pending key without an owner lets nobody run for the rest of its life |
| `Idempotency.StuckStep` | kitexx/idempotency.go:82-91 | While it is stuck every call is answered 1002 or 5002 |
| `Idempotency.UnkeptResultIsStuck` | kitexx/idempotency.go:113-120 | When the result cannot be encoded or stored the key stays pending, so a retry does not run again; the comment there says it does |
| `Idempotency.TwoAtOnceAfterExpiry` | kitexx/idempotency.go:34-36 | A concrete run: the key expires under a running handler and a second run begins beside it |
| `IdempotencyMiddleware.Middleware.Serve` | kitexx/idempotency.go:60-122 | The middleware body, with arbitrary steps of other calls at every pause, is a run of the protocol ending in the reply it gives; 1003 and 5002 touch nothing |
| `IdempotencyKeys.KeysMeetIff` | kitexx/idempotency.go:206-220 | Two requests share a key if and only if they are the same method's with the same id and login, or one has no login and an id that ends like the other's login |
| `IdempotencyKeys.LoginsNeverMeet` | kitexx/idempotency.go:206-210 | Requests of two logins never share a key |
| `IdempotencyKeys.PlainMeetsLogin` | kitexx/idempotency.go:213-220 | Two concrete requests, one without a login, that share a key |
| `Sessions.InvAlong` | authx/authx.go:323-470 | Every run of issuer operations keeps the seven key families consistent: owners, live and used tokens apart, alive sessions listed and named, endings recorded once |
| `Sessions.SingleSession` | authx/authx.go:323-342 | With single_session at most one session per principal is alive, and it is the one its session key names |
| `Sessions.AliveIsListed` | authx/authx.go:333-338 | With it on or off every alive session is in its principal's set |
| `Sessions.RevokeAllEnds` | authx/authx.go:449-470 | RevokeAll leaves no session of the principal alive and every other principal's as it was |
| `Sessions.RevokedForever` | authx/authx.go:449-470 | After RevokeAll every refresh and access token issued before is refused by Refresh and Verify for the rest of the run |
| `Sessions.ExchangedOnce` | authx/authx.go:381-413 | A refresh token is exchanged at most once in any run |
| `Sessions.NeverLiveAndUsed` | authx/authx.go:406-409 | No refresh token is ever both live and used, and a live one was never exchanged |
| `Sessions.ExchangeRotates` | authx/authx.go:402-412 | The exchange retires the token, hands out one that works for the same session, and changes nothing else |
| `Sessions.ReplayEndsAll` | authx/authx.go:384-391 | A retired token presented again while its record lives ends every session of its principal with the reason refresh_replayed |
| `Sessions.ReportedReason` | authx/authx.go:472-476 | Refresh reports the first reason recorded, "" exactly when none was; a gateway reports the same, with logout for a blacklisted token, when access tokens do not outlive refresh tokens, which the configuration does not enforce |
| `Sessions.VerifyReportsIff` | authx/authx.go:461-476 | Whatever the lifetimes: a gateway gives the first reason recorded exactly until one refresh lifetime after the session was ended, and "" from then on |
| `Sessions.ReasonForgotten` | authx/authx.go:461-476 | A concrete run with access tokens of 100 and refresh tokens of 10: a session revoked as disabled is reported without a reason at 50, while its access token lives |
| `Sessions.GrantedUntil` | authx/authx.go:337-374 | Over every run: a refresh token of a session nobody ended, never presented before, is exchanged exactly until one refresh lifetime after the login, however late it was handed out; for the rest of its own lifetime it is refused as revoked without a reason |
| `Sessions.StepGrows` | authx/authx.go:461-470 | No operation revives a session or rewrites what was issued, exchanged or recorded first |
| `Sessions.DeadIsRefused` | authx/authx.go:402-405 | No token of a dead session is accepted by Refresh or Verify |
| `Sessions.LoginGrants` | authx/authx.go:320-342 | The tokens of a login work at once, the access token in its own realm only |
| `Sessions.LoginReplaces` | authx/authx.go:325-332 | A login ends exactly the principal's other sessions when single_session is on, none otherwise |
| `Sessions.LogoutEnds` | authx/authx.go:417-442 | A logout ends exactly the session its live refresh token belongs to |
| `Sessions.LogoutRefuses` | authx/authx.go:417-442 | Neither token given to a logout is accepted again |
| `SessionIssuer.Issuer.EndSession` | authx/authx.go:461-470 | Deletes the alive key and records the reason unless one is live |
| `SessionIssuer.Issuer.EndAll` | authx/authx.go:450-455 | The loop over the set ends all its sessions, in any order, with one result |
| `SessionIssuer.Issuer.IssueTokens` | authx/authx.go:344-376 | Stores the refresh record and hands out the access token of the session |
| `SessionIssuer.Issuer.StartSession` | authx/authx.go:333-340 | The transaction that names, lists and revives the new session |
| `SessionIssuer.Issuer.LoginPrincipal` | authx/authx.go:323-342 | The command sequence of a login amounts to the atomic login of the model |
| `SessionIssuer.Issuer.RevokePrincipal` | authx/authx.go:449-457 | The command sequence of RevokeAll amounts to the atomic one |
| `SessionIssuer.Issuer.RefreshToken` | authx/authx.go:381-413 | Answers and rotates, or ends everything on a replay, as the atomic exchange does |
| `SessionIssuer.Issuer.LogoutTokens` | authx/authx.go:417-442 | The command sequence of a logout amounts to the atomic one, idempotent on unknown tokens |
| `SessionIssuer.Issuer.Verify` | authx/authx.go:530-555 | The gateway's check gives the answer of the model and changes nothing |
| `Outbox.InvAlong` | kafkax/outbox.go:140-337 | Every interleaving of transactions, relays, failures, rollbacks and crashes keeps rows, locks, bus and acknowledgements consistent |
| `Outbox.SentMeansAcked` | kafkax/outbox.go:258-261 | A row is marked sent only after its event was acknowledged by the bus, which then holds it |
| `Outbox.OnlyCommitted` | kafkax/outbox.go:140-158 | What is on the bus belongs to exactly one committed row and was put there by that row's own service |
| `Outbox.RolledBackIsNeverSent` | kafkax/outbox.go:135-139 | The events of a transaction that rolls back are never on the bus, then or later |
| `Outbox.NothingIsLost` | kafkax/outbox.go:328-337 | A committed row stays until it is sent and is deleted only after its event was acknowledged |
| `Outbox.RollbackLeavesTheRows` | kafkax/outbox.go:237-265 | A relay rolled back leaves its rows as they were, takeable again, even when the bus already has their events |
| `Outbox.OneRelayPerRow` | kafkax/outbox.go:239-242 | No two relays hold a row, and the one that does is of the row's service |
| `Outbox.WaitsAfterFailures` | kafkax/outbox.go:75-83 | The wait after the n-th failure is 2^n seconds capped at five minutes; the first one is two seconds, where the comment says one |
| `OutboxCopies.CopiesAreExact` | kafkax/outbox.go:235-267 | In every run a committed event is on the bus once for every produce the bus took without the relay hearing of it, once for every rollback after an acknowledged produce, and once more when its row stands as sent, and never otherwise |
| `OutboxCopies.OnceIff` | kafkax/outbox.go:30-32 | An event whose row is marked sent, or was cleaned up since, is on the bus exactly once if and only if neither of those happened |
| `OutboxRelay.Relayer.ProduceRow` | kafkax/outbox.go:246-246 | The produce of the row the transaction is at, other relays interleaved |
| `OutboxRelay.Relayer.StoreRow` | kafkax/outbox.go:252-261 | The statement after it marks the row sent exactly when the produce was acknowledged |
| `OutboxRelay.Relayer.End` | kafkax/outbox.go:264-266 | A commit makes the writes of the transaction the rows; a rollback leaves every row unsent |
| `OutboxRelay.Relayer.RelayRow` | kafkax/outbox.go:244-263 | One row: its produce and the statement after it, or the rollback of the whole batch |
| `OutboxRelay.Relayer.RelayRows` | kafkax/outbox.go:244-264 | The loop ends with every row written as its produce went, or with the rollback at the first failed statement |
| `OutboxRelay.Relayer.RelayOnce` | kafkax/outbox.go:235-267 | The loop over a batch is a run of the model under any interleaving; a row of the batch ends up sent exactly when everything committed and its own produce was acknowledged |
| `DeadLetters.ByOffsetAscends` | kafkax/dlq.go:187-187 | The sort by offset gives ascending records |
| `DeadLetters.QueueFacts` | kafkax/dlq.go:172-188 | A partition's queue is exactly what was read of it, strictly by offset, from the committed position on |
| `DeadLetters.MarkIsSafe` | kafkax/dlq.go:188-207 | Up to the offset a full replay commits, every record this service parked was run without an error |
| `DeadLetters.PositionIsSafe` | kafkax/dlq.go:172-255 | Over every run of full and single replays, with services parking in between, a position never moves back and never passes a record this service parked that its handler has not been through |
| `DeadLetters.FailedIsFirst` | kafkax/dlq.go:194-201 | After a full replay the first record that still fails is the first pending one of its partition |
| `DeadLetters.CleanReplayEmpties` | kafkax/dlq.go:202-207 | A replay without failures in a partition leaves nothing it read there pending |
| `DeadLetters.HandledWasOk` | kafkax/dlq.go:194-203 | A record counts as replayed only when process returned nil for it |
| `DeadLetters.SingleReplay` | kafkax/dlq.go:239-252 | A single replay moves the position exactly when its record passed, no earlier one of this service is pending and the commit succeeded |
| `DeadLetterTool.ClearIff` | kafkax/dlq.go:188-201 | A partition's loop runs to its end exactly when every record of this service in it passes |
| `DeadLetterTool.Tool.Group` | kafkax/dlq.go:173-176 | The grouping loop gives every partition its records in the order read |
| `DeadLetterTool.Tool.ReplayPartition` | kafkax/dlq.go:185-205 | The loop with its break handles and marks the records up to the first failure, skipping other services' |
| `DeadLetterTool.Tool.ReplayAll` | kafkax/dlq.go:172-216 | The whole command has the effect of the model's full replay and returns an error exactly when a record still fails or the commit does |
| `DeadLetterTool.Tool.ReplayOne` | kafkax/dlq.go:222-255 | The first record read with the offset, whatever its partition, is replayed and committed as the model says; errors on none, on another service's and on failure |
| `Consumption.NilsAreBounded` | kafkax/kafkax.go:403-443 | Over any interleaving with crashes, lost commands and expiry, the handler's nils plus the runs in progress never exceed one plus the expiries plus the runs Redis let through |
| `Consumption.AtMostOnce` | kafkax/kafkax.go:202-213 | With Redis answering and the key outliving the handling, nil at most once per service, topic and event id, one run at a time, none after it |
| `Consumption.SkippedIsAnswered` | kafkax/kafkax.go:416-421 | Without crashes and lost commands a skipped duplicate was handled, is being handled, or is left with a run that failed |
| `Consumption.StrandedIff` | kafkax/kafkax.go:403-443 | An event can still be handled, by some delivery or replay to come before the key expires, if and only if it is not stranded: the key gone, or a run left that can handle it or forget the key |
| `Consumption.StrandsIff` | kafkax/kafkax.go:416-441 | One step strands an event exactly when, with the key in place, the last run that could do something crashes, loses the Del of its own key, gives up without having claimed, or handles the event |
| `Consumption.StrandedForGood` | kafkax/kafkax.go:416-421 | From then on every delivery and replay is skipped as a duplicate until the key expires |
| `Consumption.CrashLosesTheEvent` | kafkax/kafkax.go:416-421 | A concrete run: a crash between claim and outcome, and the redelivered event is skipped though nobody handled it |
| `Consumption.ExpiryHandlesTwice` | kafkax/kafkax.go:202-213 | A concrete run reaching the bound: one expiry under a slow handler and the event is handled twice |
| `Consumption.CallsAreBounded` | kafkax/kafkax.go:423-441 | No record gets more handler calls than the configured retries |
| `Consumer.Client.Attempt` | kafkax/kafkax.go:424-436 | One call of the handler settles the run, or spends a retry and gives up at the last one or the shutdown |
| `Consumer.Client.Attempts` | kafkax/kafkax.go:423-441 | The retry loop stops at the first nil, the shutdown or the last retry, as a run of the protocol |
| `Consumer.Client.Process` | kafkax/kafkax.go:403-443 | nil exactly for handled or duplicate; an error only after all retries, at a shutdown or for a value that is no envelope; the key is forgotten on failure |
| `Consumer.Client.Handle` | kafkax/kafkax.go:385-393 | The disposition of one record, tied to the end of its run and to the number of its handler calls |
| `Consumer.Client.GiveUp` | kafkax/kafkax.go:429-442 | A run that gives up ends as failed and forgets the key it claimed |
| `Consumer.Client.Consume` | kafkax/kafkax.go:350-376 | The disposition of every record of a poll says what became of it: settled when handled or a duplicate, parked after exactly all retries, left only at a shutdown; the dead-letter topic grows by exactly the parked ones in order; offsets are committed only if none was left; without a shutdown and while parking succeeds every record is settled or parked |
| `Ids.PackIsSum` | idx/idx.go:206-206 | The shifted fields or-ed together are their sum: they never overlap |
| `Ids.Unpacks` | idx/idx.go:233-244 | Time and Instance recover the packed millisecond and number for every split of 1 to 10 bits, 0 standing for the default |
| `Ids.PackIsInjective` | idx/idx.go:206-206 | Equal ids have equal fields |
| `Ids.FitsInJson` | idx/idx.go:60-69 | An id is below 2^53 exactly while its milliseconds fit 41 bits |
| `Ids.PackIsMonotone` | idx/idx.go:206-206 | Under one number the order of ids is the order of millisecond and sequence |
| `Ids.NextIsLater` | idx/idx.go:183-205 | The next stamp is later than the last one for every clock reading, jumps back and overflow included |
| `Generator.Counter.WaitPast` | idx/idx.go:196-199 | The wait ends at the first reading past the last millisecond |
| `Generator.Counter.Next` | idx/idx.go:177-207 | Next returns the packed next stamp, strictly later than every one before, for every clock that advances in the end; refused without a number |
| `Generator.Replica.Lease` | idx/idx.go:249-262 | Takes the first number that is free when its turn comes, fails only when all were held or Redis did |
| `Generator.Replica.New` | idx/idx.go:127-143 | A generator exists only with a leased number |
| `Generator.Replica.Recover` | idx/idx.go:279-293 | A lost lease is taken again or another number leased, any interleaving |
| `Generator.Replica.KeepOnce` | idx/idx.go:276-297 | A tick of the keeper is a run of the lease protocol and never leaves the generator without a number |
| `Generator.Replica.Close` | idx/idx.go:213-230 | The lease is released unless the command was lost |
| `TokenKeys.OthersAreUntouched` | idx/idx.go:302-303 | No command of one token alters a key another token holds |
| `TokenKeys.OwnIsKept` | redisx/lock.go:158-159 | A command never shortens the life its own token holds, a release apart |
| `TokenKeys.EntryAfter` | redisx/lock.go:158-159 | A command leaves the entry as it was, removes or renews its own token's, or sets a free key |
| `TokenKeys.LosesByCommandIff` | redisx/lock.go:158-159 | A holder loses the key by a command exactly when it is its own release that was not lost |
| `TokenKeys.TakesIff` | redisx/lock.go:57-64 | SetNX succeeds exactly on a key without a holder, and then the key is its token's for a ttl |
| `Leases.IdsGrow` | idx/idx.go:174-207 | Ids of one generator are distinct, and strictly increasing while it keeps its number, whatever the clock does |
| `Leases.CoveredNumbersDiffer` | idx/idx.go:248-262 | Two generators covered by a live lease never share a number |
| `Leases.AllIdsDistinct` | idx/idx.go:213-303 | If ids are made only under a live lease and a number changes hands only at a later millisecond, all ids of the service are distinct, over any interleaving of lease, renew, retake, move, release, expiry and removal |
| `Leases.DistinctIff` | idx/idx.go:174-303 | In every run, leases kept or not, all ids are distinct if and only if no step made a stamp that another generator had already made under the same number |
| `Leases.UsesUpIff` | idx/idx.go:174-211 | A generator can use up a millisecond under its number without a repeat if and only if no other generator made an id of that millisecond under it; in both failing runs one did |
| `Leases.LateIsFree` | idx/idx.go:213-230 | A number that changes hands at a later millisecond meets that condition: every millisecond from the hand-over on is free |
| `Leases.LeaseLasts` | idx/idx.go:266-297 | A lease is its holder's until its expiry whatever the others do, so it outlives missed renewals |
| `Leases.SameMillisecond` | idx/idx.go:213-230 | A concrete run: a number released and taken within one millisecond repeats an id under live leases |
| `Leases.LapsedLease` | idx/idx.go:266-297 | A concrete run: a generator that goes on after its lease lapsed repeats the ids of its successor |
| `Locks.OverlapMeansLapse` | redisx/lock.go:37-127 | Two bodies under one name overlap only if the key of one expired or was removed; whoever does not hold the key has lapsed |
| `Locks.LosesKeyIff` | redisx/lock.go:158-159 | A holder loses the key exactly when its time is up, somebody removes it, or by its own release that was not lost; no command of anybody else does it |
| `Locks.KeyFollowsBody` | redisx/lock.go:109-127 | In any run, once fn came back and the keeper stopped, the key is the caller's for at most a ttl, however the release goes |
| `Locks.KeyOutlivesBodyIff` | redisx/lock.go:80-127 | With ticks in time, a ttl or more after the body ended the key is still held if and only if fn panicked |
| `Locks.OrphanedForGood` | redisx/lock.go:109-112 | For any length of time a run in which a body that panicked at the start still has the lock |
| `Locks.SecondCallerIsRefused` | redisx/lock.go:56-74 | While somebody is inside with the key every other try is refused |
| `Locks.LossIsReported` | redisx/lock.go:99-121 | Once the keeper saw the loss the call ends with ErrLockLost and nothing else |
| `Locks.KeyNeverExpires` | redisx/lock.go:85-108 | With ticks less than a third of the ttl late and no two failures in a row, the key never expires under a live body, no loss is seen, and there is one body at a time |
| `Locks.LateKeeper` | redisx/lock.go:85-108 | A concrete run: without ticks the key expires and a second body begins |
| `Locker.Lock.Acquire` | redisx/lock.go:56-74 | The wait loop ends with the lock, ErrLocked after the last allowed try, the context's error, or the store's |
| `Locker.Lock.WithLock` | redisx/lock.go:37-127 | The call is a run of the protocol; it returns nil only when fn did and the keeper saw no loss, ErrLockLost whenever it saw one, and an error without a store or a name; a panic of fn passes through and leaves the keeper at work |
| `Locker.Lock.Finish` | redisx/lock.go:110-126 | After fn the keeper is stopped and the lock released unless a loss was seen |
| `Money.QuotientIsNear` | moneyx/money.go:300-300 | A quotient rounded at 16 decimals and then cut is less than a unit short of the exact one and past it by at most half of the sixteenth decimal |
| `Money.CorrectionIsExactIff` | moneyx/money.go:340-349 | Handing out the remainder one unit a part makes the sum exact if and only if no more units are left over than there are parts |
| `Money.SplitIsExactIff` | moneyx/money.go:294-316 | Split adds up exactly if and only if rounding leaves no more units over than parts, for every scale |
| `Money.SplitIsExact` | moneyx/money.go:292-316 | Split adds up for every amount of either sign, every n and every currency of up to 16 decimals |
| `Money.SplitIsEven` | moneyx/money.go:292-316 | Any two parts differ by a unit at most, the odd ones first |
| `Money.FineSplitLosesUnits` | moneyx/money.go:294-316 | A concrete amount at 18 decimals whose split does not add up |
| `Money.AllocateIsExactIff` | moneyx/money.go:320-351 | Allocate adds up exactly if and only if the shares leave no more units over than there are parts, whatever the total became |
| `Money.AllocateIsExact` | moneyx/money.go:318-351 | With a total that fits int64 and up to 16 decimals the parts add up and the correction never runs out of parts |
| `Money.AllocateWithinOneIff` | moneyx/money.go:335-349 | A part is within a unit of its exact share if and only if it got no unit of the remainder or the unit pointed towards the share |
| `Money.AllocateWithinOne` | moneyx/money.go:335-349 | Every part is within a unit of its share when the total is below twice 10^(16-scale) |
| `Money.PastItsShare` | moneyx/money.go:335-349 | A concrete allocation at 16 decimals with a part a unit and a half off |
| `Money.WrappedTotal` | moneyx/money.go:321-330 | Concrete weights whose int64 total wraps and whose parts come back as -97 of 100 |
| `Money.Correct` | moneyx/money.go:340-349 | The correction loop, in place, with its int64 count |
| `Money.Split` | moneyx/money.go:294-316 | The method fills and corrects the parts Split is proved about; an error exactly for n <= 0 |
| `Money.Allocate` | moneyx/money.go:320-351 | The method fills and corrects the parts Allocate is proved about; an error exactly for a negative weight or a zero total |
| `MoneyText.ParseIsExact` | moneyx/money.go:157-173 | Parse never rounds: it accepts exactly the decimals that are whole units, and tells bad text from too many decimals |
| `MoneyText.RoundTrip` | moneyx/money.go:213-217 | Parse reads back what String printed, for every amount of either sign and every scale |
| `MoneyText.StringIsInjective` | moneyx/money.go:213-217 | No two amounts of a currency print alike |
| `MoneyText.RoundingIsNearest` | moneyx/money.go:353-364 | What each rounding mode promises: towards zero, away from it, nearest with ties away, nearest with ties to even |
| `MoneyText.RoundingKeepsWhole` | moneyx/money.go:353-364 | Every mode leaves whole amounts alone and treats the signs alike |
| `MoneyText.WholeDecimalIsExact` | moneyx/money.go:146-155 | FromDecimal of a whole number of units is that number in every mode, as Parse gives it |
| `MoneyText.MulIsNear` | moneyx/money.go:275-280 | A product is rounded once: off by less than a unit, by at most half of one to the nearest |
| `Watches.EndsAtCurrent` | nacosx/config.go:216-240 | A subscriber is never handed the same content twice in a row, and the last it was handed is the content in effect |
| `Watches.OneHistory` | nacosx/config.go:237-239 | Of two subscribers one was handed all the other was, after what came before the other joined |
| `Watches.NothingIsMissed` | nacosx/config.go:127-164 | While it follows, a subscriber is handed every content put into effect, each once and in order |
| `Watches.StartsWithNow` | nacosx/config.go:144-163 | A subscription starts with the content in effect at its moment |
| `Watches.NoticedIff` | nacosx/config.go:218-222 | A content is taken for a change exactly when its sum differs |
| `Watcher.Watch.Tell` | nacosx/config.go:218-240 | The delivery loop hands the change to every subscriber once |
| `Watcher.Watch.Follow` | nacosx/config.go:130-164 | Followers hear of a change found by the fetch first; the subscriber is added exactly when a content is returned |
| `Watcher.Watch.Unfollow` | nacosx/config.go:168-177 | Takes out that subscriber and keeps the order of the others |
| `Watcher.Watch.Changed` | nacosx/config.go:202-214 | A push is replaced by what the server says now, unless it does not answer or there is none |
| `Values.InEffect` | nacosx/value.go:123-151 | The version and document in effect are always those of the last content that decoded and validated |
| `Values.HooksSeeTheChain` | nacosx/value.go:139-150 | A hook is called once for every version since its registration, old and new forming an unbroken chain that ends at the version in effect |
| `Values.RecordsReplay` | nacosx/value.go:137-146 | The recorded change lists, applied in turn to the first document, give the document in effect |
| `Values.Value.Load` | nacosx/value.go:78-96 | The first version is put into effect, or an error exactly for a blank, undecodable or invalid content |
| `Values.Value.OnChange` | nacosx/value.go:117-121 | Adds a hook |
| `Values.Value.Changed` | nacosx/value.go:123-151 | A good content replaces version and document, records the diff and calls every hook once; a bad one changes nothing |
| `ConfigDiff.DiffApplies` | nacosx/diff.go:32-52 | The unmasked change list turns the document before into the one after |
| `ConfigDiff.DiffIsEmptyIff` | nacosx/diff.go:32-52 | The list is empty exactly when the documents are equal |
| `ConfigDiff.DiffReverses` | nacosx/diff.go:32-52 | Turned round, the list leads back |
| `ConfigDiff.DiffIsUnique` | nacosx/diff.go:50-50 | Sorted by key the list does not depend on the order the maps are walked in |
| `ConfigDiff.RecordHidesSecrets` | nacosx/diff.go:130-160 | Of two changes that differ only in values the record must not show, and change the same keys, the records are equal: nothing of a secret is told but that it changed |
| `ConfigDiff.RecordShowsTheRest` | nacosx/diff.go:32-52 | Without such values the record, applied to the document before, gives the document after |
| `ConfigDiff.Diff` | nacosx/diff.go:34-52 | The loops over both maps give exactly the keys that differ, in order |
| `WatchLocks.MutexesExclude` | nacosx/value.go:62-65 | Watch and the listener never hold one mutex together |
| `WatchLocks.StuckIff` | nacosx/value.go:62-73 | Watch and the listener wait for each other exactly when a push comes between a failed load and the unfollow |
| `WatchLocks.GoodContentNeverBlocks` | nacosx/value.go:60-75 | With a good content nobody is ever stuck |
| `WatchLocks.BadContentCanBlock` | nacosx/value.go:70-73 | A concrete run that ends in the deadlock |
| `AuditSink.FlushAccounts` | hertzx/audit.go:342-377 | Every entry of a batch is in exactly one successful store call or dropped for exactly one reason |
| `AuditSink.DownAfterThree` | hertzx/audit.go:354-371 | An entry is dropped as store_down exactly when three in a row were refused before it; before that it is stored or refused on its own |
| `AuditSink.NeverSentOnClosed` | hertzx/audit.go:321-335 | No entry is ever sent on the closed queue; the queue holds at most 1000 entries and a batch at most 100 |
| `AuditSink.EveryEntryOnce` | hertzx/audit.go:321-407 | Once the worker ended, every entry given to Sink that left its caller's hand is stored once or counted under one reason |
| `AuditSink.LateOnesAreClosed` | hertzx/audit.go:324-328 | An entry still in its caller's hand then can only be dropped as closed |
| `AuditWorker.AsyncSink.Sink` | hertzx/audit.go:321-335 | Queued, dropped as closed, or dropped as queue full; never blocks, never loses count |
| `AuditWorker.AsyncSink.FlushOneByOne` | hertzx/audit.go:354-371 | The loop with its break has the outcome of the recursive account |
| `AuditWorker.AsyncSink.Flush` | hertzx/audit.go:342-377 | Twice as a batch, then one by one; every entry keeps exactly one place |
| `AuditWorker.AsyncSink.Round` | hertzx/audit.go:380-402 | A round fills the batch in hand up to a hundred from what waits, in order, and flushes it |
| `AuditWorker.AsyncSink.Close` | hertzx/audit.go:381-422 | Whatever the worker has in hand, Close waits no longer than its limit; when the worker ended in time every entry is stored or dropped once, when not every entry is still accounted for; it ends in time when the limit allows a round per hundred entries |
| `RequestIds.DerivedIff` | kitexx/requestid.go:102-104 | An id passes exactly when it is the request's or extends it by a colon and a part |
| `RequestIds.DerivedIsTransitive` | kitexx/requestid.go:71-84 | The relation is transitive |
| `RequestIds.SubIdsPass` | kitexx/requestid.go:53-64 | What SubRequestID makes passes, and different parts give different ids |
| `RequestIds.DerivedThroughout` | kitexx/requestid.go:14-20 | However deep requests nest, every id sent is the first request's or derived from it |
| `RequestIds.KeyIsInjective` | kitexx/requestid.go:105-105 | Target and id can be told from the key, the target having no space |
| `RequestIds.OneInFlight` | kitexx/requestid.go:105-121 | Of one method and id a single call is under way at a time within a request, and its id is derived |
| `RequestIds.SentIff` | kitexx/requestid.go:95-112 | A call leaves exactly when its id is derived and no call under way, succeeded or not yet forgotten holds its pair |
| `RequestIds.NoneAfterSuccess` | kitexx/requestid.go:113-121 | After a call that succeeded no other leaves with its pair |
| `RequestIds.FailureFrees` | kitexx/requestid.go:114-120 | A failed or business-coded call makes its pair available again |
| `RequestScope.Scope.Call` | kitexx/requestid.go:85-124 | The middleware body, other calls interleaved, is a run of the model; refused calls are not sent, failures forgotten |
| `Limits.MaxInFlight` | kitexx/limits.go:43-51 | No cap exactly when it is configured negative |
| `Limits.PerWindow` | kitexx/limits.go:69-74 | At least one call a window, and ten windows make at most MaxQPS or ten |
| `Limits.CounterIsExact` | kitexx/limits.go:77-83 | The counter is the number of calls between their add and their subtraction, and at most the cap are let in at once |
| `Limits.RefusedIff` | kitexx/limits.go:78-81 | A call is refused for the cap exactly when that many are counted, those on their way out included |
| `Limits.RefusedWithRoom` | kitexx/limits.go:78-81 | A concrete run: a call is refused while nobody is inside |
| `Limits.LetInIsCapped` | kitexx/limits.go:106-118 | Over any order of slots, a slot lets in exactly, of every visit of the window to it, the calls that came up to the share |
| `Limits.WindowIsExact` | kitexx/limits.go:106-118 | In every run that sum is what a slot admits, and the sum over ten slots what ten slots in a row admit; a slot keeps to its share exactly when the sum does |
| `Limits.AnyShareIff` | kitexx/limits.go:106-118 | Whatever the share, a slot keeps to it exactly when the window comes to it once at most |
| `Limits.KeepsShareIff` | kitexx/limits.go:106-118 | In every run with these arrivals, whatever MaxQPS is, a slot admits at most its share if and only if the window comes to it once at most |
| `Limits.KeepsTenIff` | kitexx/limits.go:106-118 | Ten slots in a row admit at most MaxQPS, or ten, whatever it is, if and only if the window comes to them ten times at most |
| `Limits.RunFor` | kitexx/limits.go:106-112 | Every order of slots at the mutex is the order of some run with a clock that never goes back |
| `Limits.WindowsBound` | kitexx/limits.go:106-118 | When calls reach the mutex in the order they read the clock, a slot admits at most its share and ten slots in a row at most MaxQPS, or ten |
| `Limits.LateCallerResetsTheWindow` | kitexx/limits.go:107-112 | A concrete run with a clock that never goes back: the clock is read before the mutex, a late caller resets the window, and a slot admits twice its share |
| `Limiter.Instance.Enter` | kitexx/limits.go:77-79 | The atomic add, and whether the sum is within the cap |
| `Limiter.Instance.Leave` | kitexx/limits.go:79-82 | The atomic subtraction of a call that was refused or is over |
| `Limiter.Instance.Take` | kitexx/limits.go:106-118 | Under the mutex: a new slot starts a new count, and the call is let in while the count is below the share |
| `Limiter.Instance.Serve` | kitexx/limits.go:75-89 | One call through the middleware, other calls interleaved between any two of its atomic operations, is a run of the model |
| `Cache.OneLoader` | redisx/cache.go:104-118 | In one process one load of an id at a time, whatever the number of Gets |
| `Cache.StaleRefillIff` | redisx/cache.go:115-137 | After a commit and the Del that follows it the entry is stale if and only if a load that read before the commit stored after the Del and nothing has written the entry since |
| `Cache.StaleRefill` | redisx/cache.go:18-25 | A concrete run of that: the Del comes after the commit, as the documentation asks, and the old value is filled in again |
| `Cache.OldAnswer` | redisx/cache.go:107-114 | A concrete run: a Get that begins after the Del joins such a load and answers with the value before the commit |
| `Cache.OldAnswerIff` | redisx/cache.go:80-137 | A Get that began after the last commit answers with an old version if and only if it finds a stale entry, or is handed the result of a load that read before the commit |
| `Cache.OldAnswerAfterDelIff` | redisx/cache.go:80-137 | After a Del that follows the commit: if and only if it finds what a load from before the commit stored after the Del, or is handed the result of such a load |
| `Cache.BlockedIff` | redisx/cache.go:105-118 | A waiting Get is stuck in every continuation if and only if the loader it waits for panicked |
| `Cache.PanicTakesTheFlight` | redisx/cache.go:107-118 | From a panic on the flight stays up, and every Get of the process that misses the entry and joins it is stuck |
| `ReadThrough.CacheOf.Get` | redisx/cache.go:80-137 | Get is a run of the protocol ending in a value, in the wait for a flight, or in the loader's panic |
| `ReadThrough.CacheOf.Land` | redisx/cache.go:115-136 | The leader publishes its result, takes the flight down and keeps the value |

## Left out

- Real MySQL, Redis, Kafka and Nacos: a transaction commits or leaves no trace, a script or MULTI is one step, and a command takes effect at most once; a lost reply is a fate of the command.
- delayx: which due rows a locking select returns is an input (SKIP LOCKED); its limits and the split of kinds are checked in the code layer; last_error, payloads, metrics and the poller's timing are not modelled.
- delayx: Abort reads the ids and cancels in one step of the cluster; the rows cancelled between the two statements make no difference to what is stated.
- authx: the operations of one principal are serial, as the source's own steps read before they write; JWT parsing, signatures, passwords and configuration are outside, tokens are unforgeable, ids fresh and hashes without collision.
- Sessions.ReportedReason: its gateway half holds when access tokens do not outlive refresh tokens; VerifyReportsIff says for every configuration until when the reason is given, ReasonForgotten is a run where it is not.
- kitexx/idempotency.go: one key at a time, since keys share nothing; Kitex's argument and result wrapping is outside.
- kafkax/outbox.go: per-key order after a failed row is not kept by the code and not claimed; traces, topics and payloads are outside.
- kafkax/dlq.go: the drop, list and show commands; a commit takes effect for all partitions or none; the ascending order of partitions, which only orders the handler's calls.
- DeadLetters.PositionIsSafe: how a record fails or passes is an input per replay; that passing is at most once per event is proved for the same process function in Consumption.
- kafkax/kafkax.go: fetch errors, lag, rebalances; a commit under a cancelled context is taken to fail; a poll's records are processed with the world of each event id evolving on its own.
- idx/idx.go: the hostname hash of a laptop run and INSTANCE_ID; all replicas of a service use one split of the bits.
- redisx/lock.go: all callers of one name use one ttl; the pause between tries; a panic is taken to be recovered above WithLock, so the process lives on.
- moneyx/money.go: currency names, their normalisation and JSON; a scale registered as negative; github.com/shopspring/decimal is not part of this model: its values are numbers here, and what its Div, Truncate, IntPart, NewFromString, StringFixed and Round functions do is written out.
- Money.AllocateIsExact: speaks of up to 16 decimals and totals that fit int64; AllocateIsExactIff covers the rest, with FineSplitLosesUnits and WrappedTotal as the cases that fail.
- nacosx: YAML and JSON decoding and flattening are functions of the content; unknown keys and the console's layout are outside; polling a file is a push; letters of secret words are lowered as ASCII, and lengths count characters.
- Watches.NothingIsMissed: sums are taken to be without collision; NoticedIff says what a collision would do.
- hertzx/audit.go: redaction and cutting of values; the ticker; the fifteen seconds of Close are a number of rounds; a store call is seen only by its answer.
- kitexx/limits.go: the connection limit and the reporters, which belong to Kitex.
- redisx/cache.go: Set on the write path and the jitter of lifetimes; one id at a time, since ids share nothing; what a value is and whether it is a remembered "not found" does not matter to the protocol.
- devroute/balancer.go, kitexx/devroute.go and hertzx/clientip.go: routing tables and address decisions of one process, with nothing shared between replicas or kept under retries.
- Liveness beyond the absence of deadlock: fairness, timers firing, networks recovering.
