# Sidervia: a verified model

Sidervia is a gateway that shares AI provider accounts between clients. This project models
the parts of it whose correctness depends on interleavings, on long runs or on exact data
transformations, and proves what they keep. Each module stands for one component.

**Accounts and OAuth** (`AccountTable`, `AccountStore`, `Lifecycle`, `RowHistory`,
`RowWrites`, `Activation`, `AttemptWrites`, `AttemptSafety`, `SingleFlight`, `Answers`,
`CredentialHistory`, `LinearHistory`, `TokenOrder`, `StaleUpdates`, `SequentialRuns`,
`LifecycleLimits`). Account rows carry a row version, a credential version and a status; OAuth
attempts move from pending over exchanging to consumed, failed or cancelled; one refresh per
account runs at a time. `AccountTable` gives the effect of each SQL statement or transaction,
`AccountStore` the methods that write the tables in place with rollback, and `Lifecycle` a
transition system with one event per database read, write, provider exchange or mutex section
(sections 4.1 and 6 of RFC 6749 for the grants, section 4 of RFC 7636 for the code exchange).
An event whose guard does not hold changes nothing, so every theorem is about every sequence of
events. Configuration, clock and library outcomes are choices of the sequence.

Three results about the code as it is:

- A refresh writes by internal row id and credential version. SQLite reuses row ids of deleted
  accounts, so a refresh that is in flight while its account is deleted and another one is
  created can write the new account's row. `LinearHistory.StoreRotatesIff` gives the exact
  condition, `LifecycleLimits.ReusedIdMisdirectsARefresh` the run. Away from it credential
  history is linear.
- An update is checked on a row read before its transaction, and without a key it writes back the
  credential that it read. If its expected version is above the one it read, it can put back a
  token or a key that has been replaced (`LifecycleLimits.GuessedVersionRevivesAToken`,
  `LifecycleLimits.GuessedVersionRevivesAKey`). `LinearHistory.UpdateIsLinearIff` gives the exact
  condition, and `StaleUpdates.SameVersionIsLinear` the one on credential versions that the WHERE
  clause does not have. An update that omits the authentication kind may also store an API key on
  an OAuth account, which then cannot be loaded (`Activation.UpdateKeepsLoadableIff`, and the run
  `LifecycleLimits.KeyLocksAnOAuthAccountOut`).

- A validation starts from any status but validating, so it also activates an account that an
  administrator has disabled (`LifecycleLimits.ValidationEnablesADisabledAccount`, and for every
  API key account `SequentialRuns.ValidationRuns`). `RowWrites.StaysDisabledIff` gives the exact
  condition under which a disabled account stays disabled.

**Scheduler** (`Routing`, `Scheduler`, `RoutingRuns`, `RoundRobin`, `Backoff`). `Scheduler` is the
object with its maps and the two compactions over one shared buffer; `RoutingRuns` are runs of
plans and releases.

**Login limiter** (`Limiter`, `LimiterHistory`, `LimiterCounts`, `LimiterMemory`). The object prunes
and sweeps in place; its partner keeps every admission forever.

**Administrator sessions** (`SessionTable`, `SessionStore`, `SessionRuns`, `SessionSafety`,
`AdminHistory`). Logins and security changes read the administrator row long before their
transactions.

**Usage retention** (`UsageTotals`, `Retention`, `RetentionJob`). Batches of old request records
are rolled up into daily counters and deleted.

**Event streams** (`SseLines`, `SseRewrite`, `SsePayload`, `SseCopy`, `SseStream`,
`SseFailures`, `SseHomomorphism`). The copier is compared with a reference reading of its input and output by
sections 9.2.5 and 9.2.6 of the WHATWG HTML standard, for lines ending in LF or CRLF.
`SsePayload.PayloadSurvivesIff` and `SseStream.CutsByLinesIff` are exact: a payload survives
rewriting if and only if it has no LF and no CR at its end, and the copier sees the events that
the lines say if and only if no line longer than the 32 KiB buffer, with more input after it,
ends in a fragment that looks like a blank line.

**Strict JSON** (`JsonValues`, `StrictJson`). A recursive acceptor over a stateful token reader,
against printing (sections 2, 4 and 9 of RFC 8259).

`Wrappers` holds the result types, `Arithmetic` powers of two and sizes.

## Model

| member | source | states |
|---|---|---|
| `AccountStore.Database.UpdateAccount` | internal/control/account.go:163-203 | the versioned UPDATE stores status, upstream and proxy as submitted, the credential as brought or as read, and the next version, and touches no other row; or fails as not found or stale and changes nothing |
| `RowWrites.StepRewrites` | internal/control/account.go:155-196 | every event of every interleaving writes every account row field by field as its statement says: status, egress, credential and both versions |
| `RowWrites.StepInserts` | internal/control/account.go:13-65 | an account appears only by its creation, as submitted, as a draft or disabled, never active |
| `RowWrites.StepDeletes` | internal/control/account.go:206-223 | an account goes if and only if it is deleted at its version |
| `RowWrites.UpdateRefusedIff` | internal/control/account.go:139-154 | the checks refuse an update if and only if it names a status only the system sets, another kind, a key for an account it names as OAuth, or keeps an account active that is not, or with another egress or a key |
| `RowWrites.CreateInsertsIff` | internal/control/account.go:13-65 | a creation goes through if and only if it asks for a draft or disabled account and brings a key exactly for an API key account |
| `RowWrites.UpdateStartsIff` | internal/control/account.go:129-157 | an update starts if and only if it is not refused, and keeps the row it read |
| `RowWrites.StayingActiveKeepsAll` | internal/control/account.go:145-154 | an update that keeps an account active changes nothing of what was validated |
| `RowWrites.StaysDisabledIff` | internal/control/account.go:185-189 | a disabled account stays disabled through an event if and only if that neither updates it to another status nor begins to validate it |
| `RowWrites.DisabledUntilReleased` | internal/control/account_validation.go:14-38 | in every run a disabled account stays so until one of the two happens |
| `RowWrites.ValidationMoves` | internal/accountvalidate/service.go:42-101 | a validation starts only for an API key account with a credential, begins at the version asked for, and fails if its account does not load |
| `AccountStore.Database.BeginAccountValidation` | internal/control/account_validation.go:14-38 | starts a validation if and only if the version matches and none is running; a failed commit changes nothing |
| `AccountStore.Database.FinishAccountValidation` | internal/control/account_validation.go:76-123 | ends a running validation at its version, as active only with a credential |
| `AccountStore.Database.RecoverInterruptedAccountValidations` | internal/control/account_validation.go:167-207 | the select-then-update loop turns every validating row invalid and counts them, or rolls all of it back |
| `AccountStore.Database.CompleteOAuthAccount` | internal/control/account_validation.go:234-292 | activates the account and consumes the attempt together, or neither |
| `AccountStore.Database.CreateAttempt` | internal/oauth/attempt.go:92-144 | refuses beside an unexpired exchange, cancels what is pending, inserts one pending attempt |
| `AccountStore.Database.CancelPendingAttempt` | internal/oauth/attempt.go:173-194 | cancels a pending attempt and nothing else |
| `AccountStore.Database.RecoverAttemptRows` | internal/oauth/service.go:92-100 | after a restart no attempt is exchanging and none has expired; every unexpired one is still there, failed if it was exchanging and otherwise as it was, and no account changes |
| `AccountStore.Database.StoreRefreshedToken` | internal/oauth/refresh.go:121-131 | the compare-and-swap of a refresh selects by internal id and credential version |
| `AccountStore.RefreshMap.Join` | internal/oauth/refresh.go:32-44 | under the mutex a caller joins the running call or registers a new one |
| `AccountStore.RefreshMap.Ensure` | internal/oauth/refresh.go:22-44 | the first critical section is the lifecycle's Ensure step |
| `AccountStore.RefreshMap.Finish` | internal/oauth/refresh.go:45-51 | the second critical section is the lifecycle's Publish step |
| `RowHistory.StepKeeps` | internal/control/account.go:185-189 | every event of every interleaving keeps the row invariants; row versions never fall and a version determines its row |
| `RowHistory.RunKeeps` | internal/control/account_validation.go:21-23 | so does every run |
| `RowHistory.FinishSeesItsRow` | internal/control/account_validation.go:76-87 | the finish of a successful validation finds exactly the row that was probed |
| `Activation.ActiveIsProbed` | internal/accountvalidate/service.go:42-101 | in every reachable state an active account has a credential, and an active API key account's own upstream, proxy and credential are those of a successful probe |
| `Activation.OnlyValidationActivates` | internal/control/account.go:145-154 | an account becomes active only by the end of a validation of the row as it stands, a completed authorisation, or an update with a version above the one it read |
| `Activation.ActivationIsValidated` | internal/control/account.go:145-154 | the same for every reachable state |
| `Activation.UpdateCommitsItsReadIff` | internal/control/account.go:129-196 | an update overwrites the row its checks were made on if and only if it expected the version it read |
| `Activation.UpdateKeepsLoadableIff` | internal/control/account.go:139-157 | an allowed update keeps an account loadable, except exactly when it omits the kind and brings a key for an OAuth account |
| `AttemptWrites.StepRewrites` | internal/oauth/attempt.go:116-136 | every event leaves every attempt as it was but for its status, which moves only as the event says; attempts go only with their account or when they have expired |
| `AttemptWrites.InsertsIff` | internal/oauth/attempt.go:92-136 | an attempt is inserted, pending for ten minutes, if and only if its account is as it was loaded and no exchange for it is unexpired |
| `AttemptWrites.PreparedFingerprint` | internal/oauth/attempt.go:50-90 | an attempt starts only for an OAuth account that awaits authorisation, and records its version, upstream and egress |
| `AttemptWrites.ClaimReads` | internal/oauth/attempt.go:209-236 | a claim finds exactly a pending, unexpired attempt with its account, and takes the version from the account and the fingerprint from the attempt |
| `AttemptWrites.ChecksIff` | internal/oauth/attempt.go:237-240 | a claim goes on if and only if the account loads, has the version of the claim, and has the upstream and egress of the fingerprint, before the exchange and again after it |
| `AttemptWrites.ClaimMoves` | internal/oauth/token.go:42-103 | taking, exchanging, probing and completing follow in this order, and every way out closes the attempt |
| `AttemptWrites.ClaimsWereCompared` | internal/oauth/token.go:42-82 | in every run an authorisation that may complete was compared with its account before its exchange and again after it, and agreed both times |
| `AttemptSafety.StepKeepsAttempts` | internal/oauth/attempt.go:116-136 | every event keeps one live attempt per account, single claims and the attempt state machine |
| `AttemptSafety.OneLiveAttempt` | internal/oauth/attempt.go:116-136 | in every reachable state, restarts included, an account has at most one pending or unexpired exchanging attempt |
| `AttemptSafety.TerminalIsFinal` | internal/oauth/token.go:183-188 | consumed, failed and cancelled are never left, and no attempt is claimed twice |
| `AttemptSafety.OnlyCompletionConsumes` | internal/control/account_validation.go:275-283 | no other step consumes an attempt |
| `AttemptSafety.ConsumedByActivation` | internal/control/account_validation.go:234-291 | the step that consumes an attempt activates its account with the claiming call's token, on the very row that was claimed |
| `AttemptSafety.ConsumptionIsActivation` | internal/control/account_validation.go:234-291 | the same for every reachable state |
| `AttemptSafety.RowUnchangedInEveryRun` | internal/oauth/attempt.go:91-115 | in every run an attempt's account row is that of its fingerprint and unchanged up to its consumption |
| `AttemptSafety.RowUnchangedUntilConsumed` | internal/oauth/attempt.go:237-240 | from its creation to its consumption the attempt's account row does not change at all |
| `SingleFlight.EntryIffInside` | internal/oauth/refresh.go:32-50 | the refresh map holds an account's entry exactly while one call is inside refreshCredential |
| `SingleFlight.CallersAgree` | internal/oauth/refresh.go:33-51 | everyone who returns from one call returns the same answer |
| `Answers.HoldDecides` | internal/oauth/refresh.go:22-31 | who asks for a candidate holds the row as it is stored, if it opens |
| `Answers.JoinDecides` | internal/oauth/refresh.go:32-44 | who holds an OAuth candidate waits for the running call of its account or becomes the owner of the next one |
| `Answers.LoadDecides` | internal/oauth/refresh.go:53-64 | a stored row that opens, is OAuth and active and has another credential version than the held one is the answer, as it is stored; a row of the same version goes on, any other is a problem |
| `Answers.ReadDecides` | internal/oauth/refresh.go:65-77 | the read by internal id takes an active OAuth row only, and sends its token only if that was sealed for the loaded account |
| `Answers.ExchangeMoves` | internal/oauth/refresh.go:85-128 | the server's answer follows the token sent; a rejection ends in a problem; the write goes through exactly on the row of that id, credential version, status and kind |
| `Answers.ReloadDecides` | internal/oauth/refresh.go:133-137 | after the write the answer is the row as it is stored then |
| `Answers.GiveUpDecides` | internal/oauth/refresh.go:78-107 | only the loaded candidate may be kept, and not after a rejection or an answer |
| `Answers.ReturnDecides` | internal/oauth/refresh.go:33-51 | publishing unregisters and closes the call with its answer, which those who wait return |
| `Answers.ReturnedRowsWereStored` | internal/oauth/refresh.go:22-138 | in every run, a row that a call returns was stored for that account at some moment after the call was registered |
| `Answers.OvertakenGetsTheStoredRow` | internal/oauth/refresh.go:53-64 | a caller whose credential version has been overtaken returns with the stored row; no grant is sent and nothing is written |
| `Answers.LateCallerGetsTheRotatedToken` | internal/oauth/refresh.go:22-138 | who held the old row and enters after a whole refresh returns with the rotated token, and one grant was sent in all |
| `SingleFlight.OneExchangePerVersion` | internal/oauth/refresh.go:53-138 | grants sent per credential version are those lost plus at most one, open or written; after a write none is sent |
| `SingleFlight.StepKeepsFlight` | internal/oauth/refresh.go:22-138 | every event keeps the map, call and exchange invariants |
| `SingleFlight.StoreHitsSource` | internal/oauth/refresh.go:65-125 | a refresh writes the row it read its token from, or that row is gone |
| `CredentialHistory.StepKeepsCurrent` | internal/oauth/refresh.go:65-131 | a credential version determines its credential, and a refresh in flight holds the current token of its version |
| `LinearHistory.StoreRotatesIff` | internal/oauth/refresh.go:121-128 | a refresh write rotates exactly the stored token if and only if the selected row still is the account that was loaded |
| `LinearHistory.StepLinear` | internal/oauth/refresh.go:121-131 | an update stores the key it brings or keeps the credential, a refresh that is not misdirected stores the answer to the stored token, a completed authorisation its own later token, and no other event writes a credential |
| `LinearHistory.UpdateIsLinearIff` | internal/control/account.go:155-196 | an update that finds its version is linear if and only if it brings a key or the credential it read is still the stored one |
| `StaleUpdates.SameVersionIsLinear` | internal/control/account.go:155-196 | after any run whose earlier updates expected versions they had read: an update without a key is linear if the credential version is the one it read, and unless it read a key only then |
| `StaleUpdates.StepKeepsHeld` | internal/oauth/refresh.go:65-131 | whatever updates expect, a token that a call was given and has not stored is in no row, with no update and with no other call |
| `LinearHistory.OrderlyStep` | internal/control/account.go:206-223 | without deletions under a running refresh and with observed versions every step is linear |
| `LinearHistory.HistoryIsLinear` | internal/oauth/refresh.go:65-131 | so is every step of every such run from any good state |
| `LinearHistory.OrderlyRunsAreLinear` | internal/control/account.go:129-196 | from the empty tables on, and every stored credential opens for its own account |
| `TokenOrder.StoredTokensAreNewest` | internal/oauth/refresh.go:121-131 | every token that such a run stores was issued later than every token it has stored for the account before |
| `TokenOrder.ReplacedTokensNeverReturn` | internal/oauth/refresh.go:65-131 | the serials of an account's tokens never fall, and a token that was replaced, by a token or a key, is never stored again |
| `SequentialRuns.AuthorizationRuns` | internal/oauth/token.go:42-103 | from any tables in which the account can be authorised and for any egress, an undisturbed authorisation ends with the account active with a fresh token, its attempt consumed, older pending ones cancelled and nothing else changed |
| `SequentialRuns.RefreshRuns` | internal/oauth/refresh.go:22-138 | from any tables with an active account that nobody is refreshing, an undisturbed refresh rotates its token, leaves the refresh map as it was and answers every caller with the new row |
| `SequentialRuns.ValidationRuns` | internal/accountvalidate/service.go:42-101 | an undisturbed validation activates an API key account with a credential, whatever its status but validating, also a disabled one, and changes only status and version |
| `LifecycleLimits.ReusedIdMisdirectsARefresh` | internal/oauth/refresh.go:121-125 | a run without updates in which a refresh writes another account's row |
| `LifecycleLimits.GuessedVersionRevivesAToken` | internal/control/account.go:155-196 | a run without deletions in which only the last update guesses its version and restores a rotated token; that write is not linear |
| `LifecycleLimits.GuessedVersionRevivesAKey` | internal/control/account.go:155-196 | a run of two updates in which the one without a key, with a guessed version, restores the key that the other has replaced; that write is not linear |
| `LifecycleLimits.ValidationEnablesADisabledAccount` | internal/control/account_validation.go:14-38 | a run without updates in which a disabled account becomes active |
| `LifecycleLimits.KeyLocksAnOAuthAccountOut` | internal/control/account.go:139-157 | a run of one account and one update at the version it read, without the authentication kind and with a key, after which the account cannot be loaded |
| `Limiter.AttemptLimiter.Allow` | internal/auth/limiter.go:25-42 | the decision and the new memory of one call |
| `Limiter.AttemptLimiter.Sweep` | internal/auth/limiter.go:44-64 | the sweep keeps, per key and in order, exactly the times within the last hour, and moves its mark |
| `Limiter.AttemptLimiter.HasCapacity` | internal/auth/limiter.go:66-86 | prunes one key and reports room in both windows |
| `Limiter.AttemptLimiter.Keep` | internal/auth/limiter.go:48-53 | the compaction keeps the recent times in order |
| `LimiterHistory.DecideAgrees` | internal/auth/limiter.go:25-42 | one call decides like the full history and keeps agreeing with it |
| `LimiterHistory.DecidesLikeFullHistory` | internal/auth/limiter.go:25-86 | with a clock that does not go back, every decision equals that of a limiter that never forgets |
| `LimiterHistory.EveryWindowIsLimited` | internal/auth/limiter.go:14-19 | every closed minute admits at most 5 per address and 30 in all, every closed hour at most 20 and 200 |
| `LimiterCounts.AdmitsIff` | internal/auth/limiter.go:14-42 | with a clock that does not go back, a call is admitted if and only if fewer than 5 calls of its address were admitted in the last minute and fewer than 20 in the last hour, and fewer than 30 and 200 in all |
| `LimiterCounts.SharesIff` | internal/auth/limiter.go:25-30 | two calls share a count if and only if they have the same address; calls without one count as one address |
| `LimiterMemory.DecideExplained` | internal/auth/limiter.go:44-64 | all stored times were admitted in one of two closed hours around the last sweep |
| `LimiterMemory.AtMost400Keys` | internal/auth/limiter.go:44-64 | at most 400 address keys are stored, however many addresses attempt |
| `SessionStore.Database.FinishLogin` | internal/auth/service.go:175-204 | the login transaction uses up its TOTP step and inserts a session; a step used before, or a failing insert, audit or commit, changes nothing |
| `SessionStore.Database.UpdateSecurityAndRotate` | internal/auth/service.go:541-578 | if what the change was checked against is still stored, writes the new password, the pending secret or no secret, and the next version, revokes every session and inserts one; or nothing |
| `SessionStore.Database.ResetPassword` | internal/auth/service.go:428-456 | bumps the version and revokes every session, or fails to commit and changes nothing |
| `SessionStore.Database.RecordFailure` | internal/auth/service.go:480-509 | counts the failure and sets the lock, or fails to commit and changes nothing |
| `SessionStore.Database.ReadSession` | internal/auth/service.go:220-233 | accepts exactly live sessions of the current version that have not run out; reports as expired exactly those that have |
| `SessionStore.Database.SettleSession` | internal/auth/service.go:229-243 | the write that follows revokes exactly an expired session, extends exactly a stale one, never one revoked meanwhile, or fails and changes nothing |
| `SessionStore.AtMostTwoVerify` | internal/auth/service.go:621-632 | in every run of starting and ending calls at most two verify a password at once, and a call is refused exactly when two others do |
| `SessionTable.LockDoublesUpToItsCap` | internal/auth/service.go:493-500 | the lock is 30 s doubled per failure from the fifth, capped at 15 minutes, whatever the clamp of the shift |
| `AdminHistory.StepRow` | internal/auth/service.go:135-578 | every event writes the administrator row field by field: password, secrets, last step, version, failures and lock |
| `AdminHistory.LoginStartsIff` | internal/auth/service.go:135-160 | a login starts if and only if no lock runs at the time it has read |
| `AdminHistory.StepSession` | internal/auth/service.go:220-275 | every event revokes, extends or leaves every session as said |
| `AdminHistory.StepInserts` | internal/auth/service.go:175-204 | a session is inserted by exactly the logins and security changes that go through, with the version that was read or the new one |
| `AdminHistory.SecretsAreLastSet` | internal/auth/service.go:377-456 | in every run the stored password is that of the last bootstrap, committed change or reset; the TOTP secret that of the last enrolment unless removed since, the pending one that of the last setup, and the failures those since the last login or reset |
| `AdminHistory.ChangeNeedsWhatItChecked` | internal/auth/service.go:316-413 | a security change is committed if and only if the password, unexpired pending secret or TOTP secret it was checked against is still stored |
| `AdminHistory.AuthFindsIff` | internal/auth/service.go:220-228 | a request finds its session if and only if that is not revoked and has the administrator's version |
| `AdminHistory.AuthDecidesIff` | internal/auth/service.go:229-243 | the session found is let in exactly before both of its ends, and extended when it was not seen for five minutes |
| `SessionRuns.StepKeeps` | internal/auth/service.go:135-253 | every event keeps the version count, the sessions' versions and expiries and the TOTP steps |
| `SessionSafety.AuthenticatesIffCurrent` | internal/auth/service.go:220-232 | a live token authenticates if and only if no security change was committed since its administrator row was read |
| `SessionSafety.AcceptedWasCurrent` | internal/auth/service.go:207-253 | a request let in, whatever came between its query, its clock and its write, had a session that was current when it was read and not older than seven days |
| `SessionSafety.VersionCountsChanges` | internal/auth/service.go:547-553 | the version is one more than the security changes committed |
| `SessionSafety.RotationLeavesOneSession` | internal/auth/service.go:541-578 | right after a rotation exactly the returned session authenticates, whatever logins are in flight |
| `SessionSafety.ResetLeavesNoSession` | internal/auth/service.go:428-456 | right after a reset none does |
| `SessionSafety.DeadTokensStayOut` | internal/auth/service.go:226-232 | a revoked or superseded token never authenticates again |
| `SessionSafety.LifetimeIsBounded` | internal/auth/service.go:230-243 | no token lives past seven days, nor twelve hours after it was last seen |
| `SessionSafety.TotpStepsAreUsedOnce` | internal/auth/service.go:180-190 | an accepted login step is later than every step used since the secret last changed |
| `UsageTotals.TotalPick` | internal/usage/retention.go:128-136 | a day's sum does not depend on the order of its records |
| `UsageTotals.TotalSplits` | internal/usage/retention.go:128-136 | sums of disjoint sets of records add up |
| `UsageTotals.FoldedTwice` | internal/usage/retention.go:213-236 | rolling up in two batches is rolling up at once |
| `UsageTotals.FoldingConserves` | internal/usage/retention.go:182-236 | stored plus remaining is conserved per day and counter |
| `UsageTotals.TotalIsSum` | internal/usage/retention.go:182-211 | each counter of a day is the sum of its own field over the valid records of that UTC day |
| `UsageTotals.FoldedIsSum` | internal/usage/retention.go:213-236 | a roll-up adds exactly that sum to the stored counter |
| `Retention.RollsUpIff` | internal/usage/retention.go:116-140 | records can be rolled up if and only if every one is intact and no counter of one of their days passes 2^63 - 1 |
| `Retention.SelectionIsBatch` | internal/usage/retention.go:104-106 | the ordered, limited selection is the set of oldest expired records |
| `Retention.DeletesTheSelected` | internal/usage/retention.go:160-169 | the prefix DELETE removes exactly the selected rows |
| `Retention.BatchIsUnique` | internal/usage/retention.go:104-106 | records and cutoff determine the batch |
| `Retention.ProgressConserves` | internal/usage/retention.go:46-66 | at every point of a run stored counters plus remaining records sum to the same |
| `Retention.AffordableBatch` | internal/usage/retention.go:97-179 | when a single pass could succeed, every batch does |
| `RetentionJob.AddChecked` | internal/usage/retention.go:273-279 | adds within 64 bits or refuses |
| `RetentionJob.AddRecord` | internal/usage/retention.go:182-211 | adds a record to all its counters, or refuses if and only if one would overflow |
| `RetentionJob.Job.Query` | internal/usage/retention.go:104-106 | the rows in order of start and id |
| `RetentionJob.Job.Fold` | internal/usage/retention.go:110-140 | the batch's sums per day; fails only on an invalid record or an overflow |
| `RetentionJob.Job.Upsert` | internal/usage/retention.go:152-159 | adds the sums to the stored rows, or leaves them all if one overflows |
| `RetentionJob.Job.CleanupBatch` | internal/usage/retention.go:97-180 | succeeds if and only if its transaction commits and its batch rolls up; then rolls up and deletes exactly that batch, else changes nothing |
| `RetentionJob.Job.Cleanup` | internal/usage/retention.go:46-66 | succeeds if and only if every batch commits, all expired records are valid and no sum overflows, and then equals one pass over everything expired; otherwise it has rolled up and deleted whole batches, the oldest rows first, as many as had committed |
| `RetentionJob.ResumedRunEqualsOnePass` | internal/usage/retention.go:46-88 | wherever a run stopped, what is left at its cutoff can be done if the whole could, and leads to the tables of one pass |
| `RetentionJob.CleanupAgain` | internal/usage/retention.go:46-88 | a run stopped by any failed commit and then a second one at the same cutoff succeed and equal one pass |
| `Routing.ReasonIff` | internal/routing/routing.go:322-352 | for each reason the exact condition on the row's fields under which the filter reports it, and for none |
| `Routing.FilterCounts` | internal/routing/routing.go:107-136 | over all rows the filter keeps the usable candidates in route order and counts every reason as often as its condition holds |
| `Routing.StagesFindTheBest` | internal/routing/routing.go:144-184 | the compactions and the scan keep exactly the best candidates, in route order, and at least one |
| `Routing.BestIff` | internal/routing/routing.go:157-170 | being lightest in the best free tier is being best among all eligible |
| `Routing.LightestExists` | internal/routing/routing.go:171-184 | cross-multiplied loads have a minimum |
| `Scheduler.Service.ReadRows` | internal/routing/routing.go:107-136 | collects the usable candidates, counts for each reason the rows that meet its condition, finds the earliest resets |
| `Scheduler.Service.KeepFree` | internal/routing/routing.go:146-153 | the first compaction keeps the candidates with a free slot in order |
| `Scheduler.Service.LeastPriority` | internal/routing/routing.go:157-162 | the least priority |
| `Scheduler.Service.KeepTier` | internal/routing/routing.go:163-170 | the second compaction, over the same buffer, keeps the tier in order |
| `Scheduler.Service.KeepLightest` | internal/routing/routing.go:171-184 | the scan finds all candidates of the least load |
| `Scheduler.Service.Assign` | internal/routing/routing.go:144-193 | takes the cursor's turn among the best, counts the call, moves the cursor; or refuses and changes nothing |
| `Scheduler.Service.Plan` | internal/routing/routing.go:101-194 | decides as specified; a refusal reports the most urgent reason that some row gives, and the wait, from the rows' fields alone, and all counts are those of the rows |
| `Scheduler.Lease.Release` | internal/routing/routing.go:202-214 | gives the slot back once |
| `Scheduler.RefusalIsMostUrgent` | internal/routing/routing.go:354-368 | the reported reason is the first counted one in order of urgency |
| `Scheduler.RetryIsOk` | internal/routing/routing.go:354-375 | a quota or cooldown refusal waits until the smallest reset of the candidates filtered for that reason |
| `Scheduler.RefusalFromRows` | internal/routing/routing.go:137-143 | why and how long a refused caller waits, and the counts it is told, said from the fields of the rows |
| `RoutingRuns.LighterIffFraction` | internal/routing/routing.go:171-184 | the cross-multiplication compares calls in flight as fractions of the limits |
| `RoutingRuns.GrantIsLeast` | internal/routing/routing.go:144-193 | a grant goes to a usable candidate with a slot, of the best priority among those and the least fraction in its tier; refused exactly when no usable one has a slot |
| `RoutingRuns.ChoiceIsBest` | internal/routing/routing.go:144-193 | a grant goes to an eligible, free candidate of least priority and least load there; refused exactly when no eligible one is free |
| `RoutingRuns.DecisionIsStep` | internal/routing/routing.go:101-194 | the object's decision is the step of the run; the tier is empty exactly on refusals |
| `RoutingRuns.SlotsAreConserved` | internal/routing/routing.go:196-229 | calls in flight are granted leases not yet released; a first release always finds a positive count, repeats change nothing |
| `RoutingRuns.NeverAboveTheLimit` | internal/routing/routing.go:146-153 | while limits are constant no account exceeds its own |
| `RoundRobin.EveryoneGetsTheirTurn` | internal/routing/routing.go:185-187 | while the same n candidates are tied, k * n grants give each its k |
| `RoundRobin.GrantsGoRound` | internal/routing/routing.go:185-187 | from the start the grants of a route go round its tied candidates in route order, beginning with the first |
| `RoundRobin.RefusedPlanChangesNothing` | internal/routing/routing.go:140-156 | a plan changes nothing if and only if nobody eligible is free |
| `Backoff.BackoffCap` | internal/routing/routing.go:505-512 | the doubling loop yields min(base * 2^(streak-1), maximum), with no overflow of 64 bits |
| `Backoff.CapIsMonotone` | internal/routing/routing.go:505-512 | more failures never shorten the cap, and at no streak it exceeds the maximum |
| `Backoff.FullJitter` | internal/routing/routing.go:413-422 | the jitter lies below the cap |
| `Backoff.StreakCountsFailures` | internal/routing/routing.go:442-451 | the streak is the recorded failures since the last success or activation |
| `Backoff.CooldownIsBounded` | internal/routing/routing.go:485-518 | a cooldown ends between now and the cap of the failures counted over the whole run |
| `Backoff.NextFollows` | internal/routing/routing.go:442-534 | what every event does to the row by status code, with the delays in numbers, and that no other row changes |
| `Backoff.CooldownByStatus` | internal/routing/routing.go:460-518 | a rate limit without a time to wait cools down at most 30 s doubled per failure up to 15 minutes, network and server errors 2 s up to 2 minutes |
| `Backoff.RuntimeTable.RecordFailure` | internal/routing/routing.go:460-483 | writes what the status code says: a 401 counts, Retry-After sets the quota reset between 1 s and 24 h, 429 and network or server errors back off, others change nothing |
| `Backoff.RuntimeTable.RecordBackoff` | internal/routing/routing.go:485-518 | counts the failure and sets the jittered cooldown |
| `Backoff.RuntimeTable.RecordRuntimeError` | internal/routing/routing.go:520-534 | counts the failure; absent values keep what is stored |
| `Backoff.RuntimeTable.RecordSuccess` | internal/routing/routing.go:442-451 | clears streak and cooldown, keeps the quota reset |
| `Backoff.RuntimeTable.RecordActivation` | internal/control/account_validation.go:104-111 | an activation clears streak, cooldown and quota reset |
| `SseLines.EventsAppend` | internal/nativecodec/sse.go:29-36 | after a blank line, events do not depend on what came before |
| `SseRewrite.EventData` | internal/nativecodec/sse.go:82-97 | the payload is the values of the data lines joined by LF |
| `SseRewrite.ReplaceEventData` | internal/nativecodec/sse.go:99-126 | the loop with its flag is a replacement line by line, closed by a blank line |
| `SseRewrite.RewrittenReads` | internal/nativecodec/sse.go:99-126 | a rewritten event reads as the new payload with all other lines in order |
| `SseRewrite.RewrittenCloses` | internal/nativecodec/sse.go:121-125 | a rewritten event always ends in a blank line |
| `SsePayload.RewrittenPayload` | internal/nativecodec/sse.go:99-113 | what is read back from any payload |
| `SsePayload.PayloadSurvivesIff` | internal/nativecodec/sse.go:82-126 | a payload is read back unchanged if and only if it has no LF and no CR at its end |
| `SseCopy.Reader.ReadSlice` | internal/nativecodec/sse.go:19-23 | fragments of the 32 KiB reader |
| `SseCopy.Sink.WriteEvent` | internal/nativecodec/sse.go:55-80 | observes, rewrites, writes and flushes one event; a refused rewrite writes nothing, a failing write may take part of the output |
| `SseCopy.IsDoneIff` | internal/nativecodec/sse.go:58 | a payload is the end marker if and only if it is [DONE] between characters that Unicode counts as white space |
| `SseCopy.CopySSE` | internal/nativecodec/sse.go:18-53 | the loop writes, observes, counts and fails as the event-by-event function says, whatever writes and flushes fail |
| `SseCopy.SpaceRunes` | internal/nativecodec/sse.go:58 | the byte sequences trimmed are the UTF-8 of the Unicode white space characters and no other |
| `SseFailures.CopyStopsAtTheFirstFailure` | internal/nativecodec/sse.go:18-80 | every copy, done or not, ends at its first event that is too large, unfinished at a read error, refused by the rewriter or not taken by the sink, with that status; it has written the outputs of the events before, of that one at most what the sink took, and observed every payload up to there |
| `SseStream.CopyIsEmitAll` | internal/nativecodec/sse.go:22-52 | the copy is done if and only if the read succeeds, every event fits and can be rewritten, and the sink takes every event; then it is the events' outputs in order |
| `SseStream.CutsByLinesIff` | internal/nativecodec/sse.go:23-36 | fragments and lines give the same events if and only if no overlong line looks blank at its end before more input |
| `SseStream.ShortIsHarmless` | internal/nativecodec/sse.go:19-29 | in particular when every line fits the buffer |
| `SseHomomorphism.ByLinesAreEvents` | internal/nativecodec/sse.go:29-36 | what lies between blank lines is one event |
| `SseHomomorphism.CopyIsHomomorphic` | internal/nativecodec/sse.go:18-130 | the copy reads as the input's events in order, each payload rewritten and observed once |
| `SseHomomorphism.CopyIsIdentity` | internal/nativecodec/sse.go:18-70 | without a rewriter the copy is the input, byte for byte |
| `SseHomomorphism.UnhandledEventsAreVerbatim` | internal/nativecodec/sse.go:18-79 | a finished copy of any stream is one output per event in order, and every event without payload, with [DONE] or without a rewriter is its own output byte for byte |
| `JsonValues.ParseSound` | internal/strictjson/validate.go:22-70 | what is accepted prints a value of allowed depth without repeated names |
| `JsonValues.ParsePrint` | internal/strictjson/validate.go:22-70 | every such value is accepted and consumed exactly |
| `JsonValues.ParseIff` | internal/strictjson/validate.go:22-70 | both at once |
| `JsonValues.StrictIff` | internal/strictjson/validate.go:22-56 | a value is strict for a depth if and only if its containers are nested no deeper and no object in it repeats a name |
| `StrictJson.ConsumeValue` | internal/strictjson/validate.go:22-70 | the recursive reader advances exactly as the parser |
| `StrictJson.ConsumeMembers` | internal/strictjson/validate.go:36-56 | so does its loop over an object with the names seen |
| `StrictJson.ConsumeItems` | internal/strictjson/validate.go:57-65 | and its loop over an array |
| `StrictJson.Validate` | internal/strictjson/validate.go:10-20 | accepts a body if and only if its tokens print one value with nesting at most maxDepth and no repeated name, with nothing after it |

## Left out

- Clocks, configuration rows, provider responses and library errors are choices of the event sequence or parameters; decisions that depend on them may go either way.
- Upstream and proxy rows, which change on their own: the account properties are about the account's own fields, and the egress fingerprint carries their versions as given values.
- Models, identity metadata, audit rows and names: they do not feed back into the rows modelled; an audit insert that fails is a transaction that rolls back.
- Administrator sessions behind OAuth attempts: claiming and creating may be refused for their sake at any time.
- Cryptography, token formats, TOTP codes and password hashes are opaque; the fingerprint is compared before hashing, that is, taken to be injective; a token is one answer of the authorisation server, also when the server keeps the refresh token.
- `refreshDue`, scopes, callback and field checks: plain arithmetic or string checks, made choices of the sequence.
- Bodies of `Validate` and `ParseModels` in account validation beyond their database steps: parsing of model lists.
- Reading of events whose lines end in a lone CR, and data lines without a colon: the copier does not recognise either, and the reference reading follows it.
- The tokenizer below the JSON acceptor: separators and literals are checked there, and its verdict on malformed input is a parameter.
- Loading a candidate's credential for a plan: a row that cannot be read or decrypted is a parameter of `Plan`.
- Wrap-around of the 64-bit round-robin cursor in the fairness statement, and of sums of loads (limits are at most 1024).
- `updated_at_ms` columns, the schedule of the retention job and request records inserted while it runs.
- `AccountStore.RefreshMap.Join`: call records are numbered entries of a table, not heap objects with a channel.
- Pagination, key rotation, provider adapters, HTTP handlers, logging, backups.
