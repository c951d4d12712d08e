# oauthclientbridge: a verified model

The bridge trades an OAuth authorization code for a client id and secret, keeps the
provider's refresh token encrypted under that secret, and refreshes it on every `/token`
request. This project models the three parts of it that keep state, and proves what they
keep in every run and every interleaving.

* **The retry engine.** One `fetch` is a machine that stops wherever it looks at the clock,
  the shared budget or the provider (`FetchModel.dfy`). The world decides everything else:
  replies, jitter, delays and the budget calls of other requests. `FetchInvariants.dfy` has
  what each step keeps, `FetchProperties.dfy` what holds of a whole fetch, `FetchCauses.dfy`
  why it sleeps and retries, `FetchSkips.dfy` why it gives up, `FetchProgress.dfy` when it
  does not, `Backoff.dfy` how long it sleeps. `RetryBudget.dfy` interleaves
  any number of fetches on one bucket, and `Interleaving.dfy` shows that each of them is
  still a fetch of its own. `Buckets.dfy` and `Fetch.dfy` are the bucket and the loop in the
  source's imperative form, proved equal to the machine. `Sums.dfy` has products and
  repeated addition.
* **The metrics refresh.** `Coalescing.dfy` has the worker object, whose methods are its
  critical sections, and a step system built from the same sections: the worker thread with
  its place in `_run` and `_wait`, the wait set, requesters, a starter, a stopper and the
  clock. `CoalescingProofs.dfy` proves its safety and bounded progress, `CoalescingClocks.dfy` when
  calls begin. `MetricsCache.dfy`
  puts the `tokens` table, its writers and the gauge around it, and `GaugeStaleness.dfy`
  bounds how long the gauge can stay wrong.
* **The grant lifecycle.** `Grants.dfy` has the `tokens` table under any number of
  `/callback` and `/token` handlers, each preempted between its database and provider calls;
  `GrantProperties.dfy` and `GrantAnswers.dfy` have what holds in every interleaving, of rows
  and of answers. `GrantOverlap.dfy` says exactly
  which grants overlapping requests cannot hurt, `GrantOrder.dfy` and `GrantRaces.dfy` the
  same for new readers that come one at a time, and `GrantTraces.dfy` has runs that hurt.
  `TokenEndpoint.dfy` and `TokenAnswers.dfy` follow a refresh from the provider's replies to
  the row and the caller's answer. `Handlers.dfy` has the table and both handlers in imperative form, on the
  bucket and worker objects. `Crypto.dfy` is ideal encryption with the padding rule.

`Outcome.dfy`, `Errors.dfy`, `JsonValues.dfy` and `Wrappers.dfy` hold the response
classification, the error codes, JSON values with Python's `str` and `int`, and optional
values; `Runs.dfy` has one lemma on runs of any machine. The refresh flow is that of
sections 5.1, 5.2 and 6 of RFC 6749; Retry-After is section 10.2.3 of RFC 9110.

## What turned out not to hold

* Bookkeeping is not conserved for every configuration: without a positive backoff factor a
  resend can go out with no delay, and then it uses no budget token, is not counted as a
  retry and is recorded as an initial attempt. `BooksBalanceExactly` gives the exact
  configurations in which the books balance for every run.
* `/token` does not always answer with a standard error. The header is `int` of the
  `retry_after` that a provider may put into its own error body, and `int` raises on a text
  such as `soon`; the caller then gets a 500 (`SoonIsNoRetryAfter`).
  `AnswersAreStandardExactly` names all the bodies that do this.
* The newest reply need not win. Two requests of one client can write in the opposite order
  of their replies (`LastWriterWins`), and a refusal can be written over a rotation that is
  newer (`OldRefusalRevokes`) or that made the refused token old
  (`RefusalOfOldTokenRevokesNew`). `NewestWinsExactly` and `VerdictsLandExactly` say over all
  continuations which rows are safe: only those without a refresh token and, with conditions
  on what is in flight, null ones, so never a live grant that can be refreshed. If new
  readers of a row came one at a time, which the code does not enforce, far more states
  would be safe (`SerialNewestWinsExactly`, `SerialVerdictsLandExactly`), and every run from
  the start (`SerialRefreshesAreSafe`).
* Revocation alone is not final: a handler that read the row before it was nulled can write
  it back (`RevokedRowReturns`). `RevocationFinalExactly` says it is final exactly when no
  such snapshot is in flight.
* The documentation (`README.md` lines 172-174 of the repository) promises invalidation on
  400 with `invalid_grant`. The code decides on the body that `fetch` returned and no longer
  knows the status, so a final 200 or 500 with that error invalidates too
  (`AnyFinalInvalidGrantInvalidates`, `FinalSuccessStatusInvalidates`). The model follows the
  code.
* A configured error table can make a transient failure cost a token;
  `TransientFailuresSpareExactly` names exactly the settings in which it cannot.
* The reported number of coalesced requests is only a lower bound for the block a call
  answers (`TwoRequestsReportedAsOne`); `Accounting` says when it is exact.

## Model

| member | source | states |
|---|---|---|
| Errors.CodeParses | src/oauthclientbridge/errors.py:4-16 | every error code parses back to its own error |
| Errors.CodeRoundTrip | src/oauthclientbridge/errors.py:4-16 | a string is the code of an error exactly when it parses to it, so no two errors share a code |
| Errors.ParsedExactly | src/oauthclientbridge/errors.py:4-16 | a string parses to the one error with that code, or there is none |
| Outcome.Classify | src/oauthclientbridge/oauth/_outcome.py:102-172 | retryability is decided by the status alone; a retryable outcome always has an error and a reason; every error is one the token endpoint may return; only a final 400 normalising to `invalid_grant` invalidates |
| Outcome.OutcomeByStatus | src/oauthclientbridge/oauth/_outcome.py:102-172 | status by status: 429 is exhaustion, no status and 502 to 504 are unavailability, other retryable ones unknown; there is no error exactly for a valid token or a failure without one |
| Outcome.NormalizedMeans | src/oauthclientbridge/oauth/_outcome.py:75-95 | normalisation finds the one meaning of a code: its table entry if that is a token error, else, without an entry, the standard error with that code, else the fallback |
| Outcome.StandardErrorsSurvive | src/oauthclientbridge/oauth/_outcome.py:75-95 | normalisation keeps every standard token error that the error table does not remap |
| JsonValues.IntOfStr | src/oauthclientbridge/oauth/_core.py:107-110 | `int` reads back every number that `str` writes, up to Python's digit limit |
| JsonValues.SpacesIgnored | src/oauthclientbridge/oauth/_core.py:107-110 | spaces around a number do not matter to `int` |
| JsonValues.FractionsAreCutOff | src/oauthclientbridge/oauth/_core.py:107-110 | `int` cuts fractions off toward zero |
| Crypto.SecretSpellings | src/oauthclientbridge/crypto.py:12-30 | an issued secret is named by its text with and without padding, and by no other text |
| Crypto.SealOpens | src/oauthclientbridge/crypto.py:33-45 | a sealed record opens under exactly those spellings of its secret |
| Crypto.ValidatedSpells | src/oauthclientbridge/crypto.py:12-30 | validation takes exactly the texts of a secret's form, to the key each spells |
| Buckets.LevelIsLeastHeadroom | src/oauthclientbridge/utils/bucket.py:7-23 | the level is the minimum over all windows ending now of capacity plus refills minus spending |
| Buckets.ExactAdmission | src/oauthclientbridge/utils/bucket.py:17-23 | a call is admitted exactly when no window ending now would spend more than capacity plus its refills |
| Buckets.WindowSpending | src/oauthclientbridge/utils/bucket.py:13-23 | in any window of a history spending is at most capacity plus refills |
| Buckets.LevelWithinBounds | src/oauthclientbridge/utils/bucket.py:13-23 | the level stays between zero and the capacity |
| Buckets.Bucket.constructor | src/oauthclientbridge/utils/bucket.py:7-11 | a new bucket is full and has no history |
| Buckets.Bucket.Add | src/oauthclientbridge/utils/bucket.py:13-15 | the stored level follows the history with the refill appended |
| Buckets.Bucket.Consume | src/oauthclientbridge/utils/bucket.py:17-23 | the call is admitted exactly when every window can afford it, and the history records the answer |
| FetchModel.RunThroughPass | src/oauthclientbridge/oauth/_core.py:193-340 | a run at the loop head is one pass and the rest of the run, or, out of passes, the closing skip of a pending retry |
| Fetch.Pause | src/oauthclientbridge/oauth/_core.py:195-258 | the retry block takes exactly the steps of the machine, on the shared bucket |
| Fetch.Draw | src/oauthclientbridge/oauth/_core.py:210-256 | budget call, planned sleep and second deadline check, as the machine takes them |
| Fetch.Attempt | src/oauthclientbridge/oauth/_core.py:260-317 | attempt record, clamped timeout, send and classification, as the machine takes them |
| Fetch.Pass | src/oauthclientbridge/oauth/_core.py:193-317 | one body of the loop takes exactly the steps of one pass of the machine |
| Fetch.Loop | src/oauthclientbridge/oauth/_core.py:193-340 | the loop with its `else` reaches the final state and bucket history of the machine |
| Fetch.Fetch | src/oauthclientbridge/oauth/_core.py:169-373 | a whole fetch: final locals, bucket history and returned body are those of the machine's run |
| FetchInvariants.StepKeepsInv | src/oauthclientbridge/oauth/_core.py:193-340 | every step keeps the control, time, bookkeeping, result and reason invariants, whatever the world does |
| FetchInvariants.RunKeepsInv | src/oauthclientbridge/oauth/_core.py:169-373 | every fetch finishes, in a state that satisfies the invariants |
| FetchProperties.BooksBalanceExactly | src/oauthclientbridge/oauth/_core.py:193-340 | sends, retryable replies, attempts, decisions and tokens account for each other in every run exactly when the backoff is positive or no resend is possible |
| FetchProperties.ZeroBackoffMiscounts | src/oauthclientbridge/oauth/_core.py:210-265 | a concrete run without backoff whose second send is neither budgeted nor counted |
| FetchProperties.DisciplinedRunConserves | src/oauthclientbridge/oauth/_core.py:193-340 | sends = retries + 1, retryable replies = retries + skips with at most one skip, one initial attempt, and at most one more retry decision or token than completed retries |
| FetchProperties.NothingSentIsCounted | src/oauthclientbridge/oauth/_core.py:193-275 | a fetch that sends nothing although it has a pass counts one initial attempt and one skip for the deadline, and takes no token |
| FetchCauses.DecisionsNameCauses | src/oauthclientbridge/oauth/_core.py:198-258 | for every configuration, the k-th retry decision is that of the k-th sleep and carries the reason of the reply which that sleep follows; a skip names the deadline, the budget or the last reply |
| FetchSkips.SkipsAreJustified | src/oauthclientbridge/oauth/_core.py:198-258 | in every run a skip for the deadline means no time was left or the due delay, for which no token was taken, or its jittered value was longer; one for the budget that the level was below 1; any other that the passes were used up |
| FetchProgress.RetriesUntilAnswered | src/oauthclientbridge/oauth/_core.py:193-340 | for any n within the passes, after n retryable replies a fetch sends once more and passes the authoritative reply on, with n counted retries and no skip, if its time and tokens cover the longest waits |
| FetchProgress.TriesEveryPass | src/oauthclientbridge/oauth/_core.py:193-340 | likewise, if no reply is authoritative, it uses up its passes |
| FetchProgress.DefaultsRideOutOne503 | src/oauthclientbridge/oauth/_core.py:193-373 | a concrete world with the shipped settings: a 503 and then a token give two sends, one retry and the token |
| FetchProgress.PassedOn | src/oauthclientbridge/oauth/_core.py:295-373 | the caller gets an authoritative reply's own body, with a positive Retry-After added to an error |
| FetchProperties.SendsAndSleepsFit | src/oauthclientbridge/oauth/_core.py:196-284 | every send starts before the deadline, with the configured timeout or exactly the time left, whichever is less; every planned sleep fits |
| FetchProperties.LateOnlyByOverrun | src/oauthclientbridge/oauth/_core.py:183-284 | a fetch ends by start plus total timeout plus the time lost to lag, oversleeping and sends past their timeout |
| FetchProperties.LateOnlyByLoss | src/oauthclientbridge/oauth/_core.py:183-284 | that time is no more than the lag, oversleeping and sends past their timeout of the world in the passes made |
| FetchProperties.DeadlineKept | src/oauthclientbridge/oauth/_core.py:183-284 | with exact sleeps and sends that keep their timeout, the total timeout is kept |
| Backoff.RetryAfterIsFloor | src/oauthclientbridge/oauth/_core.py:223-226 | the sleep that follows a reply with a positive Retry-After is at least that value, whatever the jitter settings, and at most its largest jitter multiple |
| Backoff.RetryAfterIsRespected | src/oauthclientbridge/oauth/_core.py:193-317 | the next send starts no earlier than the previous one plus the positive Retry-After its reply carried |
| Backoff.RetryAfterSleepWithin | src/oauthclientbridge/oauth/_core.py:481-494 | the sleep planned after a positive Retry-After is at least it and at most the largest of 1 and the jitter bounds times it |
| Backoff.JitterReachesAll | src/oauthclientbridge/oauth/_core.py:481-494 | every sleep within the jitter range is reached, after a Retry-After from 1 on and never below its value |
| Backoff.JitterIsUniform | src/oauthclientbridge/oauth/_core.py:481-494 | between the ends of its range, of which the lower is raised to 1 after a Retry-After, a sleep grows evenly with the draw |
| Backoff.BackoffSleepWithin | src/oauthclientbridge/oauth/_core.py:481-494 | with a non-negative factor, a backoff sleep of pass i lies between 2^i - 1 times the factor times the lower and the higher jitter setting |
| Backoff.BackoffSleepTime | src/oauthclientbridge/oauth/_core.py:193-256 | for every configuration, if no reply carries a Retry-After, n sleeps take between the lower and the higher jitter setting times factor times 2^(n+1) - n - 2 |
| Backoff.SleepTimeWithinTimeout | src/oauthclientbridge/oauth/_core.py:199-242 | all planned sleeps together fit in the total timeout, for any clock |
| Backoff.BackoffBound | src/oauthclientbridge/oauth/_core.py:193-256 | for every configuration, if no reply carries a Retry-After, factor times the lower jitter setting times 2^(n+1) - n - 2 is within the total timeout for the n retries completed |
| RetryBudget.GlobalRetryBudget | src/oauthclientbridge/oauth/_retry.py:32-41 | for any interleaving of fetches, retries completed in a window are at most capacity plus refill times starts in it plus tokens held when it opened |
| RetryBudget.LevelStaysWithinBounds | src/oauthclientbridge/oauth/_retry.py:32-41 | the shared budget stays between empty and full |
| RetryBudget.WindowAccounted | src/oauthclientbridge/oauth/_core.py:177-256 | in any window the tokens taken are the fetches' draws, pay for every retry, and each start makes one refill |
| RetryBudget.InterleavedFetchesConserve | src/oauthclientbridge/oauth/_core.py:169-373 | each fetch that finishes among others has balanced books and is late only by overrun |
| Interleaving.EachFetchIsARun | src/oauthclientbridge/oauth/_core.py:169-373 | for every interleaving on the shared budget, a fetch that finishes ends as one on its own in some world, so what holds of every fetch holds of each of them |
| Interleaving.InterleavedFetchesWait | src/oauthclientbridge/oauth/_core.py:193-317 | so among others, too, a fetch respects Retry-After and its backoff bounds its retries |
| TokenEndpoint.AnswersAreStandardExactly | src/oauthclientbridge/oauth/_core.py:91-138 | the caller sees token endpoint errors with their own status 400, 401 or 503, or a valid token without a refresh token, exactly unless a `temporarily_unavailable` body has a `retry_after` that `int` refuses; then it sees a 500 and the row stays |
| TokenEndpoint.RetryAfterHeader | src/oauthclientbridge/oauth/_core.py:91-112 | over whole runs, a 503 carries the final reply's positive Retry-After or else the integer its passed-on body gives, no other answer carries one, and an authoritative `temporarily_unavailable` gives that 503 unless the value cannot be read |
| TokenEndpoint.RunsAnswerStandardExactly | src/oauthclientbridge/views.py:243-295 | over whole runs, exactly a final authoritative reply with such a body and no Retry-After header of its own breaks the answer |
| TokenEndpoint.SoonIsNoRetryAfter | src/oauthclientbridge/views.py:290-295 | a concrete run: a 400 with `retry_after` of `soon` ends in a 500 |
| TokenEndpoint.WritesOnlyRotations | src/oauthclientbridge/views.py:301-319 | with a scrubbed record a successful refresh writes exactly when the provider sent a different refresh token, and changes nothing else; the row is nulled exactly on a normalised `invalid_grant` |
| TokenAnswers.TokenIsGivenOut | src/oauthclientbridge/views.py:297-323 | over whole runs a final token is answered field by field without its refresh token and with the scope on record if it names none; the record is stored, if that changes it, with the reply's refresh token |
| TokenAnswers.ErrorIsReported | src/oauthclientbridge/views.py:251-295 | over whole runs a final error is answered with what its code means and that error's status, and nulls the row exactly for `invalid_grant` |
| TokenAnswers.UnknownCodeIsServerError | src/oauthclientbridge/views.py:251-295 | a code neither standard nor in the table keeps the row and is answered 400 `server_error` |
| TokenAnswers.NeitherIsInvalid | src/oauthclientbridge/views.py:297-298 | a reply that is neither error nor token is answered 400 `invalid_request` |
| TokenEndpoint.ReturnedBody | src/oauthclientbridge/oauth/_core.py:295-373 | the body `fetch` returns is determined by its final reply |
| TokenEndpoint.StandardCodesAreSafe | src/oauthclientbridge/oauth/_outcome.py:75-95 | an error table that remaps no standard code satisfies the assumption of the next rows |
| TokenEndpoint.InvalidationExact | src/oauthclientbridge/views.py:243-267 | `/token` nulls the row exactly when 400 is not retryable and the final reply was authoritative with an error normalising to `invalid_grant` |
| TokenEndpoint.AnyFinalInvalidGrantInvalidates | src/oauthclientbridge/views.py:251-267 | every final non-retryable `invalid_grant` nulls the row and answers 400, whatever its HTTP status |
| TokenEndpoint.FinalSuccessStatusInvalidates | src/oauthclientbridge/views.py:243-267 | a concrete run: a final 200 with `invalid_grant` nulls the row |
| TokenEndpoint.RetryableEndsIn503 | src/oauthclientbridge/oauth/_core.py:91-112 | a retryable final reply gives 503 with exactly the provider's positive Retry-After and leaves the row alone, precisely when the settings keep `temporarily_unavailable` or 400 is retryable |
| TokenEndpoint.TransientFailuresSpareExactly | src/oauthclientbridge/oauth/_core.py:295-317 | the exact settings under which no run without an authoritative reply loses a token |
| TokenEndpoint.TransientRevocation | src/oauthclientbridge/views.py:251-267 | when a run without an authoritative reply would null the row |
| Coalescing.CoalescingWorker.constructor | src/oauthclientbridge/utils/coalescing.py:15-32 | a new worker has no requests and no thread |
| Coalescing.CoalescingWorker.Start | src/oauthclientbridge/utils/coalescing.py:34-45 | the first start creates the one thread, later ones nothing, as in the step system |
| Coalescing.CoalescingWorker.Request | src/oauthclientbridge/utils/coalescing.py:47-50 | a request advances the generation and notifies one waiting thread, as in the step system |
| Coalescing.CoalescingWorker.Stop | src/oauthclientbridge/utils/coalescing.py:52-55 | the locked part sets the flag and notifies all waiting threads, as in the step system |
| Coalescing.CoalescingWorker.Claim | src/oauthclientbridge/utils/coalescing.py:66-75 | from any state of the step system that the object is in, it takes the object to that system's next state for a thread at the predicate of `wait_for` |
| Coalescing.CoalescingWorker.Handle | src/oauthclientbridge/utils/coalescing.py:80-84 | likewise for a thread that has debounced: unless stopped, all requests so far are taken over |
| CoalescingProofs.StepKeepsInv | src/oauthclientbridge/utils/coalescing.py:34-110 | every step keeps the thread, counter, block, coverage and time invariants |
| CoalescingProofs.NoLostWakeUp | src/oauthclientbridge/utils/coalescing.py:47-73 | a worker asleep in `wait_for` has handled every request and was not stopped |
| CoalescingProofs.NoLostRequest | src/oauthclientbridge/utils/coalescing.py:66-95 | every handled request has a call that began after it, or one just about to begin |
| CoalescingProofs.Accounting | src/oauthclientbridge/utils/coalescing.py:80-95 | calls answer consecutive non-empty blocks, calls <= handled <= generation, and the reported count is within its block and exact just when one request was claimed |
| CoalescingProofs.TwoRequestsReportedAsOne | src/oauthclientbridge/utils/coalescing.py:80-95 | a concrete run in which one call answers two requests and reports one |
| CoalescingProofs.OneWorkerNoOverlap | src/oauthclientbridge/utils/coalescing.py:34-45 | there is at most one worker thread and calls never overlap |
| CoalescingProofs.StartCreatesThread | src/oauthclientbridge/utils/coalescing.py:34-45 | whenever it comes, even after stop, the first start creates the thread |
| CoalescingProofs.StopSafety | src/oauthclientbridge/utils/coalescing.py:52-82 | after stop at most one further call begins, only if already taken over, and none if stop came before the first start |
| CoalescingProofs.StoppedWorkerLeaves | src/oauthclientbridge/utils/coalescing.py:52-110 | a stopped worker never sleeps again and has left after at most three moves |
| CoalescingProofs.NeverStuck | src/oauthclientbridge/utils/coalescing.py:60-110 | while a call is owed the worker can move or sleeps to a fixed deadline |
| CoalescingProofs.BoundedProgress | src/oauthclientbridge/utils/coalescing.py:60-110 | until a call begins the wait left absorbs all waiting and the moves left all moves, with at most one more move per request |
| CoalescingProofs.RequestStormsCannotStarve | src/oauthclientbridge/utils/coalescing.py:97-110 | however many requests arrive, an owed call begins within the startup delay and one debounce of waiting |
| CoalescingClocks.DebounceKept | src/oauthclientbridge/utils/coalescing.py:60-110 | every call begins a whole debounce after the first request it answers, and the startup delay and a debounce after the thread was created |
| CoalescingClocks.BurstsCoalesce | src/oauthclientbridge/utils/coalescing.py:77-84 | all requests made within a debounce of the first one a call answers are answered by that call |
| CoalescingClocks.RateIsLimited | src/oauthclientbridge/utils/coalescing.py:60-110 | calls begin at least a debounce apart, so those within some time are, but for one, no more than the debounces that fit in it |
| MetricsCache.CountsPartition | src/oauthclientbridge/db.py:263-282 | present and revoked counts add up to the number of rows |
| MetricsCache.StepKeepsInv | src/oauthclientbridge/telemetry/_refresh.py:31-71 | while the service is up and nothing is owed, the refresh under way or the last one leaves the gauge right |
| MetricsCache.CacheAgreement | src/oauthclientbridge/db.py:190-282 | whenever writers and worker have settled, the gauge shows how many rows are live and how many are null |
| MetricsCache.SettledGaugeFollowsWrite | src/oauthclientbridge/db.py:190-282 | from one settled gauge to the next over one write, a grant adds one present, a revocation moves one to revoked and a rotation changes nothing |
| MetricsCache.SettledGaugeCountsGrants | src/oauthclientbridge/db.py:263-282 | from the empty table, n grants of which r are null now settle at n - r present and r revoked |
| MetricsCache.WrongGaugeIsTemporary | src/oauthclientbridge/telemetry/_refresh.py:31-36 | a wrong gauge means a request is still to be made or handled, or a refresh is under way |
| GaugeStaleness.StalenessIsBounded | src/oauthclientbridge/telemetry/_refresh.py:31-71 | once the writers have stopped, while the gauge is still wrong the worker has waited at most the startup delay and one debounce outside its refreshes, and at most one more refresh has begun |
| Grants.StepKeepsInv | src/oauthclientbridge/views.py:143-158 | every step of every handler keeps the grant invariant over rows and snapshots |
| Grants.RefreshGivesGoodRow | src/oauthclientbridge/views.py:297-319 | whatever a refresh returns, the row a handler is about to write is in order |
| GrantAnswers.CallbackIssues | src/oauthclientbridge/views.py:143-158 | a grant is issued exactly for an exchange without error and with a token and a free id, storing all of it, or, with a refresh token, all but the access token, its type and expiry, field by field |
| GrantAnswers.RequestTaken | src/oauthclientbridge/views.py:200-215 | a request is taken in with the secret its text spells, or answered 401 |
| GrantAnswers.LookupAnswers | src/oauthclientbridge/views.py:217-230 | a missing row is 401, a null one the stand-in or 400 `invalid_grant`, a live one goes on |
| GrantAnswers.DecryptAnswers | src/oauthclientbridge/views.py:232-241 | any secret but the issued one is answered 401 without a refresh; a record without a refresh token is answered as issued |
| GrantAnswers.ReplyAnswered | src/oauthclientbridge/views.py:243-323 | a reply that calls for no write is answered as its content requires |
| GrantAnswers.UpdateAnswered | src/oauthclientbridge/views.py:263-323 | and one with a write likewise, after the write |
| GrantAnswers.TokensNeedTheSecret | src/oauthclientbridge/views.py:217-323 | in every run a token goes out only to the secret issued for its client, but for the stand-in on a null row |
| GrantAnswers.ExchangeIsServed | src/oauthclientbridge/views.py:143-147 | a grant without a refresh token is served as the provider sent it, in every continuation |
| GrantProperties.GrantsStayTrue | src/oauthclientbridge/views.py:217-323 | every live row and in-flight snapshot opens under the issued secret to the issued record up to a refresh token that came from the exchange or an earlier reply for that client |
| GrantProperties.RowsChangeByVerdict | src/oauthclientbridge/views.py:258-319 | an existing row changes only by a handler writing the verdict on its own reply: a rotated token or an invalid grant |
| GrantProperties.WritesExactlyOnVerdict | src/oauthclientbridge/views.py:258-319 | after its reply a handler goes on to write exactly in those two cases |
| GrantProperties.UnrefreshableRowsNeverChange | src/oauthclientbridge/views.py:239-241 | a row issued without a refresh token never changes |
| GrantProperties.RevocationIsFinal | src/oauthclientbridge/views.py:217-265 | once null with no older snapshot in flight, a row stays null, is never refreshed again and is never reissued |
| GrantProperties.SnapshotWritesBack | src/oauthclientbridge/views.py:243-319 | any handler with an older refreshable snapshot can bring the row back |
| GrantProperties.RevocationFinalExactly | src/oauthclientbridge/views.py:217-265 | a null row stays null in every continuation exactly when no such handler is in flight |
| GrantOverlap.NewestWinsExactly | src/oauthclientbridge/views.py:217-323 | over all continuations, the row is what the newest reply called for whenever no snapshot is held, exactly when it is so now and the row either has no refresh token or is null with only further nulls pending |
| GrantOverlap.VerdictsLandExactly | src/oauthclientbridge/views.py:251-319 | over all continuations, every verdict is written to the row it was reached on exactly when the row has no refresh token, or is null and nobody holds a snapshot |
| GrantOrder.SerialNewestWinsExactly | src/oauthclientbridge/views.py:217-323 | over continuations in which new readers come one at a time, the row ends as the newest reply called for exactly when all pending verdicts agree with it and a handler that may still refresh is alone |
| GrantOrder.SerialNewestWinsAmongReadersExactly | src/oauthclientbridge/views.py:217-323 | over the same continuations, from an up-to-date row with nothing pending, exactly when at most one handler has read it |
| GrantRaces.SerialVerdictsLandExactly | src/oauthclientbridge/views.py:251-319 | over continuations in which new readers come one at a time, every verdict is written to the very row it was reached on exactly when at most one handler holds a snapshot and that is still the row |
| GrantRaces.SerialRefreshesAreSafe | src/oauthclientbridge/views.py:217-323 | in every run from the empty table in which a row is read by one handler at a time, both hold throughout |
| GrantTraces.LastWriterWins | src/oauthclientbridge/db.py:238-253 | a concrete run from the empty table: the older of two rotations is the one that stays |
| GrantTraces.OldRefusalRevokes | src/oauthclientbridge/views.py:251-265 | a concrete run: a refusal older than the newest rotation nulls the row |
| GrantTraces.RefusalOfOldTokenRevokesNew | src/oauthclientbridge/views.py:251-265 | a concrete run: a refusal of the token that another request has just rotated away nulls the row with the new one |
| GrantTraces.RevokedRowReturns | src/oauthclientbridge/views.py:243-319 | a concrete run: a null row with an older snapshot in flight, and the row live again |
| Handlers.TokenTable.Insert | src/oauthclientbridge/db.py:190-208 | a free id gets its row and then a refresh request; a taken one changes nothing |
| Handlers.TokenTable.Update | src/oauthclientbridge/db.py:238-253 | an existing row is replaced and a refresh requested; a missing one changes nothing |
| Handlers.ConcludeRefresh | src/oauthclientbridge/views.py:251-323 | the last part of `token`, on mutable copies, reaches the verdict used by the model |
| Handlers.Authenticate | src/oauthclientbridge/views.py:217-241 | a missing row, a text that is no secret and one that does not spell the row's key give 401; a null row and a record without a refresh token give their answers; all others go on with the record, as the model's handler does |
| Handlers.Refresh | src/oauthclientbridge/views.py:243-323 | the refresh of a record on the shared objects ends as the model's handler does on the body the fetch returns |
| Handlers.WriteIsStepwise | src/oauthclientbridge/db.py:190-253 | a write with its refresh request is the commit and the request of one writer of the cache model; a write without effect is nothing |
| Handlers.HandledIsStepwise | src/oauthclientbridge/views.py:217-323 | the handler's outcome is where the steps of the grant model take the same request |
| Handlers.Token | src/oauthclientbridge/views.py:217-323 | those answers, with table, bucket and worker untouched; otherwise, with other handlers writing during the refresh, table and answer are those of the model's handler on the body the fetch returns; the bucket history is the fetch's; the worker has one request for each row changed |
| Handlers.Callback | src/oauthclientbridge/views.py:113-161 | a grant is issued exactly when the exchange has no error, a token and a token type and the id is free, and stores the exchange, scrubbed if it has a refresh token; the bucket history is the fetch's; the worker has one request for each row changed |

## Assumptions

* Times and budgets are real numbers; rounding of floating point is not modelled.
* Encryption is ideal and a secret is its normalised text. A reply may hold any JSON object.
  JSON bodies that are no objects, statuses outside Python's `HTTPStatus` and a negative
  sleep, all of which raise, are not modelled. Telemetry calls do not raise.
* One process, one limiter and one worker object; refresh callbacks do not fail. Agreement of
  the gauge is claimed from the first refresh request until the worker is removed.

## Left out

- HTTP sending, session pooling, JSON decoding and HTTP dates: a send is an arbitrary status, body and non-negative Retry-After.
- Spans, log lines, latency histograms and error counters: only the attempt and decision counters and the token-state gauge are kept.
- Checks of the `/token` form and `/callback` arguments before the database or provider is reached (views.py lines 74-111 and 173-212): they are single conditions without state; credentials enter as an id and a presented secret.
- The text of error descriptions, `error_uri`, and the HTML and headers of callback answers.
- IntOfStr: Python's `int` also takes digits and spaces outside ASCII in a text; here such a text has no integer value.
- Timestamps of rows and the grant age histogram.
- SQL, journalling, connections and a failing commit: each statement is one atomic step on a map.
- CoalescingWorker: `_run` and `_wait` block on the condition, so they are steps of the step system rather than methods; the class has their critical sections, and each is proved to be a step of that system. Joining the thread in `stop` only waits and is not modelled.
- The cache of limiters by settings: the one bucket is a parameter, so eviction and a change of settings are not modelled.
- Starting a second worker after the first was removed from the application.
- WritesOnlyRotations: values are compared by structure; Python also equates `1`, `1.0` and `True`, and no NaN equals another, so a repeated NaN refresh token is written by the code and kept here.
- SecretSpellings: base64 decoding is not modelled, so further strings that decode to the same 32 bytes do not name the secret here.
- SealOpens: likewise, it covers a secret with and without its padding and no other spelling of its bytes.
- The revoked-grant workaround is any answer body; which user agents get it is not modelled.
- `models.py`, URI rewriting, settings loading, the authorization redirect, the pytest plugins and the deployment files.
