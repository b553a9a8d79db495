# Notification delivery: a verified model

A Dafny model of a notification service: an API stores notifications and publishes them to RabbitMQ, a
scheduler publishes those that were scheduled for later, workers per channel deliver them to a provider behind
a circuit breaker and a rate limiter, and clients list them page by page.

`dafny verify dfyconfig.toml` checks the whole project.

## How the model is built

**Delivery.** `Delivery` is the life of one notification as a step-interleaved machine. A cell holds the row, the
broker's copies of the message, every delivery in a worker's hands (a program counter plus the row snapshot the
worker read), and where the creating call and the scheduler stand with it. Each database, broker or provider
call is one event, and its outcome is part of the event. A publish carries no confirmation, so the model separates
whether the broker took the copy from whether the call reported an error. `System` puts all cells together with
the creating calls in progress, the scheduler's polled list, each channel's circuit breaker and limiter history, and
the clock; a worker gets the answers that its channel's breaker and bucket give at that moment, unless Redis fails,
and leaves the limiter without one only after a refusal, at its deadline or on shutdown. Other instances of the
service draw on the same buckets.
`Guarantees.Projection` shows that a run of the whole system is, for each id, a run of its cell, so what `Ledger`
proves about one cell holds in every interleaving. `Publication` and `Realization` go the other way and build system
runs, `Witnesses` builds the reachable states in which the documentation is wrong. `Chronicle` pins the counters and the status to the events that happened. `ProcessWorker`
and `Service` are the code in its own, imperative form: `Process` and the publish loops, one call after the other,
with arbitrary steps of other actors in between; they are proved to be runs of the machine. `Process` works on the
shared breaker and limiter objects themselves, in between the calls of other workers.

**Admission.** `TokenBucket` and `RateLimiter` are the Redis script, the expiring key and the waiting loop;
`CircuitBreaker` is the breaker object and `Prober` what becomes of it in the hands of a channel's workers, over
runs of the whole system; `Throughput` is what the limiter means for the provider calls of a channel, and
`Starvation` who can be lost waiting for it, over the same runs; `Backoff` is the retry delay in 64-bit arithmetic.

**Storage and listing.** `BatchInsert` is the insert transaction, `Scheduler` the polling of due rows, `Listing` and
`Pagination` the dynamic SQL and keyset pagination, `Template` the rendering of message texts, `Dispatcher` the
worker pool with its shutdown.

Time is one non-decreasing clock. Tokens are counted in millionths and time in microseconds inside the bucket, so
that refill is exact; the failure-rate test `failures/total > 0.5` is `2 * failures > total`.

## What the code does not keep of its documentation

- The design note says the scheduler reconciles rows whose publish failed. That is true exactly of rows with a
  schedule (`Realization.ReconciledIffScheduled`); `Witnesses.FailedPublishStrands` reaches one that is never sent.
- Cancelling does not stop a live copy. A notification can still reach the provider exactly when it is not quiet
  and its channel is not deserted (`Realization.SendableIff`); `Witnesses.CancelledIsStillSent` reaches a cancelled
  row and sends it.
- A row can be published twice with nothing failing, by its creating call and by the scheduler: a call that
  reaches the row once it is due publishes it, and the scheduler may poll it before the call writes queued. A stored
  row can come to that exactly when it carries a schedule, past or future (`Publication.DuplicatesIffScheduled`);
  `Witnesses.PublishedTwice` reaches it from the start for every schedule.
- The breaker is said to trip above 50% failures with ten samples. It tests only on a failure
  (`CircuitBreaker.TripsIff`), so it can be closed with nine of ten samples failed (`CircuitBreaker.ClosedAtNinetyPercent`).
- A probe that leaves at the rate limiter never reports back. A half-open breaker recovers exactly when some
  admitted delivery is still in flight (`Prober.RecoversIffInFlight`). A delivery in flight can be lost exactly while
  it waits at the limiter (`Starvation.LostIffWaiting`), and at a positive rate only if its first request found the
  bucket asked by somebody else within the key's time to live (`Starvation.LostOnlyInACrowd`).
  `Witnesses.LimiterExitDeserts` starts the system, opens the breaker with ten permanent failures, and has other
  instances take the tokens while the probe waits; it times out, and the channel never sends again.
- The rate limit is a bucket: at every rate, a window of one second can see twice the configured number
  (`TokenBucket.WindowBound`, `TokenBucket.WindowBoundIsTight`).
- The backoff overflows from attempt 34 on: `Backoff.DocumentedIffLimit`.
- Rendering depends on Go's map order when a value contains the placeholder of another variable, and, for values
  made of placeholders and text without an opening brace, in no other case: `Template.RendersAlikeIffInert`.

## Model

| member | source | states |
|---|---|---|
| `Backoff.CalculateBackoff` | internal/worker/processor.go:180-191 | the delay for any attempt and jitter, with int64 wrap-around; for attempts up to 33 it is min(2^attempt, 30) s plus the jitter |
| `Backoff.DelayAsDocumented` | internal/worker/processor.go:181-187 | no overflow and the documented range for attempts 0 to 33 |
| `Backoff.Attempt34Overflows` | internal/worker/processor.go:182-190 | attempt 34 wraps to a negative delay |
| `Backoff.DocumentedIffLimit` | internal/worker/processor.go:140-141 | every attempt below maxRetries is delayed as documented if and only if maxRetries is at most 34 |
| `Backoff.TotalBaseClosedForm` | internal/worker/processor.go:180-187 | k backoffs take at least 2^k - 1 seconds for k up to 5 and 31 + 30(k - 5) beyond |
| `Chronicle.BrokerFollowsLog` | internal/worker/processor.go:60-178 | copies published, queued, acknowledged and dead-lettered are exactly the publishes, fetches and dispositions in the history |
| `Chronicle.RowFollowsLog` | internal/repository/postgres/notification.go:313-403 | every column of the row is what the statements the database took have written, over any history; the calls happened when the history says |
| `Chronicle.StatementsWrite` | internal/repository/postgres/notification.go:313-403 | what each update and the cancellation do to the row, column by column, and that nothing else touches it |
| `Chronicle.FailuresFollowLog` | internal/worker/processor.go:127-172 | the counts of refused updates, untyped and permanent errors, lost and stray publishes are those of the history |
| `Ledger.ConservedNext` | internal/worker/processor.go:60-178 | every step keeps published = queued + held + acknowledged + dead-lettered, and no disposed delivery is held again |
| `Ledger.AccountedNext` | internal/worker/processor.go:117-178 | every step keeps the exact account of provider calls (retry_count + unsettled + consumed + lost increments + untyped errors) and of acceptances |
| `Ledger.WithinBudgetNext` | internal/worker/processor.go:138-153 | every step keeps retry_count plus the workers that may still increment it within maxRetries - 1 + published copies, under stale snapshots |
| `Ledger.SentEvidencedNext` | internal/worker/processor.go:120-134 | sent_at is set only by an accepted, consumed copy, and always unless an update was refused |
| `Ledger.FailedEvidencedNext` | internal/worker/processor.go:148-172 | the same for failed_at and dead-lettered copies |
| `Ledger.OutcomeStoredNext` | internal/repository/postgres/notification.go:331-361 | a row carries an outcome exactly when at least one of the outcome updates tried for its consumed copies was stored |
| `Ledger.TimelyNext` | internal/repository/postgres/notification.go:331-361 | sent_at and failed_at lie between the first provider call and now |
| `Ledger.AnnouncedNext` | internal/service/notification.go:58-71 | processing, sent and failed imply a published copy, queued a published or an unconfirmed, lost one; copies exist only once the schedule is reached |
| `Ledger.PublishedOnceNext` | internal/scheduler/scheduler.go:39-62 | every step keeps the copies of a row within one by its creating call unless it skipped, one by the scheduler, one per failed queued update and one per publish wrongly reported as failed; an unscheduled row has one |
| `Ledger.CurrentTurn` | internal/worker/processor.go:82-92 | with a single copy a worker's snapshot stays current and a new retry time lies past the backoff |
| `Ledger.RetryTime` | internal/worker/processor.go:140-141 | a retryable answer below the limit sets the retry time to now plus the documented delay for the snapshot's retry_count plus the jitter |
| `Ledger.SpacedNext` | internal/worker/processor.go:82-145 | every step keeps consecutive provider calls of a single copy at least a backoff apart |
| `Ledger.InvRun` | internal/worker/processor.go:60-178 | all of the above over every run |
| `System.ConsistentStep` | internal/service/notification.go:98-118 | the publishers' lists and the rows agree in every step of every call, poll and worker |
| `System.BatchStored` | internal/service/notification.go:54-58 | a stored batch of any size: each row fresh with its own schedule, all on the call's list |
| `System.PublishersCanMove` | internal/scheduler/scheduler.go:52-66 | no creating call and no poll is ever stuck |
| `Guarantees.Projection` | cmd/server/main.go:146-177 | each run of the whole system is, per notification, a run of its own machine |
| `Guarantees.NothingIsLost` | internal/worker/processor.go:60-178 | past pending a copy was published, unless the broker lost one that was reported sent; it is live or the outcome is in the row; without a live copy the outcome is missing exactly when every outcome update was refused |
| `Guarantees.CopiesConserved` | internal/worker/processor.go:60-178 | in every reachable state each published copy is in exactly one place |
| `Guarantees.RetriesBounded` | internal/worker/processor.go:138-153 | bounds on retry_count and provider calls by the copies published; a single copy: at most maxRetries retries and maxRetries + 1 calls |
| `Guarantees.UnscheduledOutcome` | internal/service/notification.go:54-71 | without a schedule: one copy, one acceptance, never both sent_at and failed_at |
| `Guarantees.OutcomeFreezes` | internal/worker/processor.go:120-172 | once the outcome of an unscheduled row is set, no later run sends, retries, publishes or accepts |
| `Guarantees.RetriesSpaced` | internal/worker/processor.go:82-92 | the call after k retryable failures comes no earlier than the first call plus the k backoffs, for maxRetries up to 34 |
| `Guarantees.RetryTimeStored` | internal/worker/processor.go:140-145 | the stored next_retry_at is at least the backoff after a retryable answer, and less than half a second more |
| `Guarantees.RetriesExhausted` | internal/worker/processor.go:138-153 | a single copy given up after retryable errors alone was retried exactly maxRetries times and called exactly maxRetries + 1 times |
| `Guarantees.ScheduledPublishing` | internal/scheduler/scheduler.go:39-62 | no copy before scheduled_at; every row is published at most twice, a skipped one at most once, plus once per failed queued update and per publish wrongly reported as failed |
| `Publication.DuplicatesIffScheduled` | internal/service/notification.go:58-71 | from every reachable state in which a row has just been stored, some run publishes it twice, with no queued update of the scheduler failed, the call's own not tried yet and no publish wrongly reported as failed, if and only if it carries a schedule |
| `Publication.CallPublishes` | internal/service/notification.go:102-118 | a creating call reaches a due row and publishes it, whatever comes before it on its list |
| `Publication.PendingToHead` | internal/scheduler/scheduler.go:39-62 | the scheduler comes to publish a pending row with a schedule, whatever it holds and however many rows compete; polls publish and mark the rivals |
| `Guarantees.PendingNeverReentered` | internal/repository/postgres/notification.go:313-377 | over every run: pending is never re-entered, evidence never withdrawn, retry_count never lowered |
| `Guarantees.DisposedOnce` | internal/worker/processor.go:60-178 | each delivery receives exactly one disposition in any run that disposes of it, none otherwise |
| `Quiescence.QuietRun` | internal/worker/processor.go:60-178 | from a quiet state no run sends, publishes, retries or accepts |
| `Realization.FromWorker` | internal/worker/processor.go:75-118 | every worker whose copy is not consumed can reach the provider call, past its backoff and past a closed or open breaker; cancellation is not looked at |
| `Realization.FromPending` | internal/scheduler/scheduler.go:39-62 | a pending row with a schedule can be polled, published and sent |
| `Realization.FromCreator` | internal/service/notification.go:102-118 | a row on a creating call's list can be published and sent |
| `Realization.SendableIff` | internal/worker/processor.go:94-118 | in every reachable state some run of the system sends the notification (again) if and only if a copy is live, a publisher is about to make one, or it is pending with a schedule, and its channel's breaker is not half-open with nobody in flight; a cancelled status does not matter |
| `Realization.ReconciledIffScheduled` | README.md:310 | a row left pending by a failed publish can still be sent if and only if it has a schedule and its channel is not deserted |
| `Realization.RegularlySendableIff` | internal/worker/processor.go:94-178 | the same at every positive rate for runs in which the provider always gives a typed answer and Redis never fails: then a call under way with no retries left does not keep a notification alive |
| `Witnesses.FailedPublishStrands` | README.md:310 | a reachable unscheduled row, pending and unpublished after its call is done with it, in a channel that is not deserted, that no run ever sends |
| `Witnesses.CancelledIsStillSent` | internal/repository/postgres/notification.go:379-403 | a reachable cancelled row, not sent before, and a run that sends it |
| `Witnesses.PublishedTwice` | internal/service/notification.go:58-71 | for every schedule, a reachable row that carries it with two copies, nothing having failed and the call's queued update still to come |
| `Witnesses.LimiterExitDeserts` | internal/worker/processor.go:110-115 | at every rate, from the start of the system: ten permanent failures and a probe that is refused a token round after round until it times out reach a live copy that no run ever sends |
| `ProcessWorker.Desk.Process` | internal/worker/processor.go:60-178 | under any interference on row, breaker and limiter: Process is a run of the machine, keeps every invariant, does exactly the script for its delivery (`ProcessWorker.ScriptMeans`), calls the provider exactly when the breaker's whole trace admits it and the limiter lets it through, reports each answer to the breaker once, and disposes as the answer and its snapshot decide |
| `ProcessWorker.ScriptMeans` | internal/worker/processor.go:75-178 | the script in full: each database, breaker, limiter, provider and broker call in order, with the answers it got, for every point at which it can break off |
| `ProcessWorker.Desk.Wake` | internal/worker/processor.go:75-92 | the row read is the snapshot used; the worker proceeds only past its next_retry_at |
| `ProcessWorker.Desk.AskBreaker` | internal/worker/processor.go:102-108 | the worker goes on exactly when the breaker, as the fold of all calls before, admits it |
| `ProcessWorker.Desk.PassGates` | internal/worker/processor.go:94-115 | it proceeds to the provider exactly when the status update, the breaker and the limiter agree; only past the breaker is the limiter asked, each script run is a step of the machine, and a token is taken exactly when it passes |
| `ProcessWorker.Desk.Send` | internal/worker/processor.go:117-176 | exactly one provider call and one Record call, classified by the answer and the snapshot's retry_count; a retry is due at the answer's time plus calculateBackoff |
| `ProcessWorker.Desk.Tell` | internal/worker/processor.go:120-175 | an acceptance is recorded as a success, any error as a failure |
| `ProcessWorker.Desk.Record` | internal/worker/processor.go:120-178 | the one row update that is made, and the disposition that follows |
| `Service.PublishRow` | internal/service/notification.go:58-71 | one row, under interference: the call does exactly skip, or publish, or publish and mark, with the answers it got; skipped only if scheduled for later and published only once due; an unscheduled row has a copy exactly when the broker took it; reported queued exactly when not skipped and neither call reported an error |
| `Service.PublishBatch` | internal/service/notification.go:102-118 | the batch loop leaves every row so, whatever fails on another |
| `TokenBucket.AvailableIsLeastAllowance` | internal/ratelimiter/ratelimiter.go:17-28 | the stored tokens are the least allowance over all windows of the history |
| `TokenBucket.BucketRefinesHistory` | internal/ratelimiter/ratelimiter.go:21-39 | a request is granted if and only if every window ending with it has room for one more grant |
| `TokenBucket.WindowBound` | internal/ratelimiter/ratelimiter.go:21-39 | any window of length d sees at most rate + rate * d grants |
| `TokenBucket.WindowBoundIsTight` | README.md:218 | at every rate, a window of one second in which twice the rate is granted |
| `TokenBucket.TokensInRange` | internal/ratelimiter/ratelimiter.go:26-36 | tokens stay within [0, rate] |
| `TokenBucket.FullAfterTtl` | internal/ratelimiter/ratelimiter.go:33-37 | when the key may expire the bucket would be full |
| `TokenBucket.ExpiryUnobservable` | internal/ratelimiter/ratelimiter.go:17-38 | whatever expires, every request is answered as by a bucket that never expires |
| `RateLimiter.NextRequest` | internal/ratelimiter/ratelimiter.go:12-40 | one script run keeps the stored hash a summary of requests and expiries |
| `RateLimiter.Limiter.Allow` | internal/ratelimiter/ratelimiter.go:12-63 | the script's answer is the history rule's, expired keys or not |
| `RateLimiter.Limiter.Expire` | internal/ratelimiter/ratelimiter.go:33-37 | dropping the key after the time to live keeps the limiter valid |
| `RateLimiter.Limiter.Wait` | internal/ratelimiter/ratelimiter.go:65-86 | with other workers drawing on the bucket: one request per round at the round's time, exactly the last of them granted when it passes, none otherwise; requests are 10 ms apart, so the time spent bounds their number; the answer is that of the round that ended the wait: a token, a Redis error, the deadline no earlier than after 5 s, or shutdown |
| `CircuitBreaker.CountersAreTheWindow` | internal/circuitbreaker/circuitbreaker.go:75-126 | the counters are the successes and failures recorded since the last reset |
| `CircuitBreaker.WindowStarted` | internal/circuitbreaker/circuitbreaker.go:115-126 | a window starts with the call that reset the counters, or with the breaker |
| `CircuitBreaker.ResetsApart` | internal/circuitbreaker/circuitbreaker.go:115-126 | in an ordered trace two resets by Allow are more than sixty seconds apart |
| `CircuitBreaker.TripsIff` | internal/circuitbreaker/circuitbreaker.go:88-107 | a closed breaker opens exactly on a failure making at least ten samples with more than half failed |
| `CircuitBreaker.ClosedIsHealthy` | internal/circuitbreaker/circuitbreaker.go:75-107 | closed implies fewer than ten failures or at most half failed |
| `CircuitBreaker.ClosedAtNinetyPercent` | README.md:219 | a run that leaves it closed with nine of ten failed |
| `CircuitBreaker.OpenRefuses` | internal/circuitbreaker/circuitbreaker.go:60-68 | after a failure that leaves it open every Allow is refused for the whole timeout, late records included |
| `CircuitBreaker.FailureRefusesForTimeout` | internal/circuitbreaker/circuitbreaker.go:88-107 | the same from any state in which a recorded failure leaves the breaker open |
| `CircuitBreaker.SharedBreaker.Allow` | internal/circuitbreaker/circuitbreaker.go:54-73 | the object is the fold of its calls; every field after the call: a new window past the minute, admitted when closed or, once, when open past the timeout |
| `CircuitBreaker.SharedBreaker.RecordSuccess` | internal/circuitbreaker/circuitbreaker.go:75-86 | the object is the fold of its calls; success counts, or closes a half-open breaker with a new window |
| `CircuitBreaker.SharedBreaker.RecordFailure` | internal/circuitbreaker/circuitbreaker.go:88-107 | the object is the fold of its calls; failure counts, reopens a half-open breaker, and trips a closed one exactly at ten samples or more with most failed |
| `Census.AdmissionsSettled` | internal/worker/processor.go:102-176 | over every run each admission by the breaker is answered by exactly one Record call or one exit at the limiter, or is still in flight |
| `Prober.AnswerTold` | internal/worker/processor.go:120-175 | each answer of the provider reaches its channel's breaker, acceptance as success and every error as failure, field by field |
| `Prober.AllowTold` | internal/worker/processor.go:102-108 | asking a channel's breaker gets its answer and moves it as Allow does, field by field |
| `Prober.CountersCountAnswers` | internal/circuitbreaker/circuitbreaker.go:88-107 | in every run a channel's counters are the acceptances and the errors of the channel's deliveries since the last step that started a window, and the window starts there |
| `Prober.ProbeAnswered` | internal/circuitbreaker/circuitbreaker.go:75-99 | a half-open breaker closes if the answer is an acceptance and reopens on any error |
| `Prober.OpenAdmitsNobody` | internal/circuitbreaker/circuitbreaker.go:60-68 | for thirty seconds after an error that leaves a channel's breaker open no run admits a delivery of the channel |
| `Prober.HalfOpenHasLiveProber` | internal/worker/processor.go:102-176 | in every run of the system, when a channel's breaker is half-open the delivery whose Allow made it so is still in flight if and only if it did not leave at the limiter |
| `Prober.ReportsOnce` | internal/worker/processor.go:117-176 | a delivery in flight makes exactly one Record call in every continuation in which it neither leaves at the limiter nor is still in flight |
| `Prober.HalfOpenAdmitsNobody` | internal/circuitbreaker/circuitbreaker.go:69-71 | in every run until the channel's next Record call the breaker stays half-open and every Allow is refused |
| `Prober.RecoversIffInFlight` | internal/worker/processor.go:110-115 | a half-open breaker can ever recover if and only if an admitted delivery is in flight |
| `Prober.DesertedForever` | internal/worker/processor.go:102-115 | half-open with nobody in flight is for good, and nothing of the channel is sent any more |
| `Starvation.LostIffWaiting` | internal/worker/processor.go:110-115 | a delivery in flight can leave without a Record call if and only if it waits at the limiter, at every rate |
| `Starvation.AtTheLimiter` | internal/ratelimiter/ratelimiter.go:65-86 | at the limiter: a round comes first or 10 ms after a refusal, the deadline 5 s after the wait began, and giving up only after a refusal |
| `Starvation.PatientUntilDeadline` | internal/ratelimiter/ratelimiter.go:65-86 | in every run whoever times out at the limiter has waited there for five seconds |
| `Starvation.LostOnlyInACrowd` | internal/ratelimiter/ratelimiter.go:65-86 | at a positive rate, whoever left at the limiter had its first request refused while somebody else had asked the bucket within its time to live |
| `Starvation.Starve` | internal/ratelimiter/ratelimiter.go:65-86 | other instances can keep any worker at the limiter without a token, round after round 10 ms apart, until its five seconds are over |
| `System.TokenAfterIdle` | internal/ratelimiter/ratelimiter.go:17-37 | at a positive rate a bucket that nobody asked for its time to live has a token |
| `Throughput.PassesConserved` | internal/worker/processor.go:110-118 | in every run each token and each free pass is used for one provider call, or its delivery has yet to make it |
| `Throughput.TokensAreGrants` | internal/ratelimiter/ratelimiter.go:54-63 | in every run the tokens taken by a channel's workers and by other instances are the grants of the bucket over its whole history of requests |
| `Throughput.CallsWithinRate` | README.md:218 | in every stretch of every run a channel's provider calls and the tokens of other instances are at most rate + rate * d, plus the deliveries already past the limiter, plus those let through because Redis failed |
| `Prober.ChannelsIndependent` | README.md:311 | what happens to notifications of other channels, or in other instances, leaves a channel's breaker alone |
| `Listing.BuildFilters` | internal/repository/postgres/notification.go:240-268 | after each clause idx = len(args) + 1, and the clauses mean exactly their filters |
| `Listing.BuildQuery` | internal/repository/postgres/notification.go:240-277 | placeholders are 1, 2, 3 ... in order; the query means filters plus strictly below the cursor, limit + 1 |
| `Pagination.List` | internal/repository/postgres/notification.go:235-311 | the page is the first limit remaining rows in order, with HasMore and NextCursor as documented |
| `Pagination.RemainingMeans` | internal/repository/postgres/notification.go:240-275 | what remains to be listed, in the caller's terms: the rows that pass each given filter, time bounds included, and lie below the cursor |
| `Pagination.PageOrdered` | internal/repository/postgres/notification.go:275-276 | a page is newest first and by descending id |
| `Pagination.PageMeans` | internal/repository/postgres/notification.go:297-308 | a page holds the remaining rows, as many as the limit; HasMore exactly if some are left, NextCursor the key of the last row, and what is left is what remains after it |
| `Pagination.WalkDescends` | internal/repository/postgres/notification.go:269-303 | following NextCursor over a changing table gives strictly descending keys, all matching when read |
| `Pagination.WalkComplete` | internal/repository/postgres/notification.go:269-303 | a row that matched throughout is returned, whatever changed between pages |
| `Pagination.ReturnedExactlyOnce` | README.md:308 | and it is returned exactly once |
| `Pagination.RemainingAfter` | internal/repository/postgres/notification.go:269-275 | a cursor at the j-th row leaves exactly the rows after it |
| `Pagination.FixedTablePages` | internal/repository/postgres/notification.go:297-304 | on a fixed table the pages concatenate to the filtered sorted list |
| `Pagination.PageCountIsCeiling` | internal/repository/postgres/notification.go:297-304 | in max(1, ceil(n / limit)) pages |
| `Template.RenderText` | internal/domain/template.go:22-25 | the loop over the map in any order; on well-formed templates with inert values it is simultaneous substitution |
| `Template.Render` | internal/domain/template.go:21-36 | content and optional subject alike, on any text: one ReplaceAll per variable, in some order of the map |
| `Template.PassFillsKey` | internal/domain/template.go:24-24 | one ReplaceAll fills exactly the placeholders of its key and touches nothing else |
| `Template.ReplaceFirst` | internal/domain/template.go:24-24 | ReplaceAll replaces the first occurrence and goes on after it |
| `Template.ReplaceNone` | internal/domain/template.go:24-24 | and leaves a text without the pattern as it is |
| `Template.OrderIrrelevant` | internal/domain/template.go:23-25 | with values that hold no other variable's placeholder every iteration order gives simultaneous substitution, unknown placeholders left in place |
| `Template.OrderMatters` | internal/domain/template.go:23-25 | for every value that holds another variable's placeholder, two orders of the map that give different texts |
| `Template.RendersAlikeIffInert` | internal/domain/template.go:23-25 | all orders render all well-formed templates as simultaneous substitution if and only if no value holds the placeholder of another variable that stands for anything else |
| `BatchInsert.Store.Create` | internal/repository/postgres/notification.go:94-135 | inserted, with defaults only where nothing was given, exactly when the database works and no unique constraint is violated; unchanged otherwise |
| `BatchInsert.Store.CreateBatch` | internal/repository/postgres/notification.go:137-192 | all or nothing; success exactly when the database works and nothing collides; the reported index is the first colliding element; exactly the elements before it are overwritten |
| `BatchInsert.ViolatesIffCollides` | internal/repository/postgres/notification.go:150-186 | a violation inside the transaction is a collision with the table or an earlier element |
| `BatchInsert.InsertedUnique` | migrations/000001_create_notifications.up.sql:12 | key uniqueness is kept |
| `BatchInsert.CleanIffKeysNew` | migrations/000001_create_notifications.up.sql:12 | with fresh ids a batch is clean exactly when its non-null keys are pairwise distinct and new |
| `Scheduler.Poller.Poll` | internal/scheduler/scheduler.go:39-66 | one poll over the query's answer, row by row: published exactly if the broker took it, once and in list order; no longer pending exactly if reported published and marked; other rows unchanged |
| `Scheduler.Poller.PublishEach` | internal/scheduler/scheduler.go:52-65 | a failed publish or update on one row decides nothing for the next |
| `Scheduler.PollTakesEarliest` | internal/repository/postgres/notification.go:405-406 | a poll takes the hundred earliest due rows, or all |
| `Scheduler.Drains` | internal/scheduler/scheduler.go:39-66 | n due rows are max(0, n - 100 k) after k polls, whatever falls due meanwhile |
| `Scheduler.PublishesInOrder` | internal/scheduler/scheduler.go:52-66 | polls publish each row once, in non-decreasing scheduled_at order |
| `Scheduler.AllDueRowsPublished` | internal/scheduler/scheduler.go:39-66 | every due row is published within ceil(n / 100) polls |
| `Dispatcher.NothingHeldAfterReturn` | internal/worker/dispatcher.go:42-85 | copies are conserved and prefetch bounded in every state; once Start has returned none is held |
| `Dispatcher.SettledAsDisposed` | internal/worker/dispatcher.go:87-96 | acknowledged and dead copies are those that workers acknowledged and rejected |
| `Dispatcher.QueuedIsServed` | internal/worker/dispatcher.go:42-96 | while the pool is not cancelled every queued message can get to a worker, whatever is held and buffered |
| `Dispatcher.CancelledCanReturn` | internal/worker/dispatcher.go:72-85 | from every cancelled state, whatever is held and buffered, some run gets to the end of Start |
| `Dispatcher.ShutdownCompletes` | internal/worker/dispatcher.go:72-85 | every reachable pool can be shut down, and then holds nothing |
| `Dispatcher.DrainAndExit` | internal/worker/dispatcher.go:87-96 | the worker loop after shutdown takes every buffered delivery in order, disposes of each as its processing says, and then exits |

## Left out

- ProcessWorker.Desk.Process: message bodies that do not parse are acknowledged without a row (lines 61-73); the producer only publishes bodies that parse, so the machine has no such copies.
- Template.RendersAlikeIffInert: speaks of templates, keys and values in which '{' occurs only in placeholders with brace-free names; a value such as a lone "{{" that forms a placeholder with the text around it is not characterised.
- Guarantees.RetriesSpaced: speaks of ids with one published copy, stored increments and typed errors; with several copies the calls are not spaced.
- Guarantees.NothingIsLost: redelivery by the broker after a lost acknowledgement is not modelled; a copy that the broker took is in one place at a time.
- RateLimiter.Limiter.Wait: that the pause and the deadline end on time is not promised by Go's scheduler, so there is no upper bound on the time spent.
- Realization.RegularlySendableIff: speaks of positive rates; at a rate of zero nothing passes the limiter unless Redis fails.
- System.ConsistentStep: other instances of the service appear through their requests to the limiters' buckets; their rows, workers and breakers are not part of the machine, and there is one scheduler.
- Scheduler.Poller.Poll: the query's answer is a parameter, constrained to what the SQL may return; ties in scheduled_at are free.
- RateLimiter.Limiter.Allow: floating-point rounding inside the script; all quantities are exact integers.
- HTTP handlers, routing, validation of single requests, backpressure thresholds, priorities in the queue, metrics, health, WebSocket and pub/sub.
- The webhook transport: a provider call is one of accepted, retryable, permanent or untyped error.
- Text encoding of cursors, UUID generation, row scanning, logging and configuration.
- Clock skew between the servers, the database and Redis: there is one non-decreasing clock.
