# Verified model of the client-side resilience stack

This project models how an outbound call is protected: a bucketed sliding window, a circuit breaker
per (target, procedure), a retry budget, the retry loop with its policy cache and deadline budget,
and the interceptor that nests them. It also models the server-side `Timeout`, the load shedder and
the metric cardinality guard. Objects that the Go code updates in place are classes whose methods
are proved against functions on their state; the claims about whole runs, interleavings and
configurations are lemmas about those functions.

`dafny verify dfyconfig.toml` checks everything.

| File | Subject |
|---|---|
| `GoTime`, `EventLog`, `Window`, `WindowExactness`, `SlidingCounter` | Go's time arithmetic; the ring of buckets against a plain log of events |
| `Classify` | error trees and the two classifiers |
| `BreakerCore`, `Breaker`, `BreakerGroup` | the breaker's transitions, the object, the map of breakers |
| `BreakerRuns`, `BreakerHistory`, `BreakerOutage` | what every run of a breaker keeps |
| `BreakerSimulation`, `BreakerDivergence`, `BreakerScenarios` | an ideal list-keeping breaker; the exact condition for agreement and the runs that show it necessary |
| `BreakerProbeCap`, `BreakerPromptness` | when half-open keeps its promises about probes and successes |
| `Budget`, `BudgetRuns` | the retry budget, alone and under concurrency |
| `RetryTraces`, `GuardTraces`, `AttemptHeaders`, `Policy`, `Operations`, `Circumstances`, `RetryLives`, `Retrier`, `Interceptor` | one logical call from end to end: the one life it has in given circumstances, and what that does to the breakers |
| `LoadBound`, `LoadIntervals`, `KeyRuns`, `LoneCalls` | many logical calls sharing a budget and breakers; each key's breaker within them; one call's life as a run among them |
| `Deadlines`, `Caches`, `Shed`, `SeriesKey`, `TypedLabels`, `Cardinality` | deadlines across hops; racing lookups; the in-flight cap; bounded series counting |

## Hypotheses

- Times are integer nanoseconds. Lemmas that need it say that the readings of one object are in
  order and not before 1970 (`Ordered`, `Past`, `Timely`); they are read under that object's lock.
  Half-open conservation, the amortised trip cost and the legal walk assume nothing about the clock.
- A bucket is at least one nanosecond wide (`Shape.Valid`, `Config.Ready`). Neither `Config.Validate`
  nor the counter's constructor checks this: breakers, budgets and counters can be made and asked
  without it, a report or an `Add` then divides by zero (the contracts of `Breakers.Breaker.New`,
  `Budgets.Budget.New` and the counter's constructor say exactly when), so what reports or adds
  asks for it.
- Ratios and weights are reals, counts are unbounded integers.
- A locked region or an atomic operation is one step; every transport call returns.

## What turned out differently from the comments and documentation

- A slot is chosen by Unix time, a bucket's start by `Truncate`, which counts from year 1. Unless
  the bucket width divides that offset (or there is one bucket) a bucket is recycled in the middle
  of its own slot and fresh counts are lost: `RecentEventsKeptIff`. Seven-second buckets are such a
  width, the default is not: `SevenSecondBucketsAreIrregular`. `RingExactIff` and
  `BreakerMeetsIdealIff` give the exact condition for agreement with a list of events.
- `HalfOpenMaxCalls` does not cap the probes in flight: reopening forgets the probes that are out,
  whatever the configuration (`PilingUpRun`). The cap holds exactly when calls are limited in time
  to `OpenDuration` (`PromptCapIff`). Even the episode's own probes stay within it on every run only
  if `HalfOpenSuccesses` is 1 (`ProbeCapIff`), since a late success of a call admitted before the
  episode frees a slot it never took; `ProbesOutstanding` says by how much the count is off, and
  `CountNeverNegativeIff` when it can be below zero.
- "Consecutive successful probes needed to close" counts late successes of older calls too
  (`LateSuccessCounts`), unless calls are limited to `OpenDuration` (`HearsOwnProbesIff`).
- "Retries add at most Ratio" holds on every run only if Ratio and MinPerSecond are both zero, when no
  retry is ever granted (`RatioKeptIff`); the bound that holds has a floor and a +1 (`IntervalBound`,
  `EndToEndLoad`).
- A partial response is dropped next to an error only if there is a retrier; with retries disabled
  response and error are passed on together (`NoPartialResponseIff`).
- "The deadline strictly decreases across hops" holds exactly when the pause between Derive's two
  clock readings is shorter than Buffer (`DeriveDrops`, `LongPauseDropsNothing`). The bound on the
  depth of a chain survives any pauses (`ChainLength`).
- The guard counts distinct series keys, and two label sets can share one, through commas in values,
  "=" in keys, or values of different types with the same text (`CommasCollide`, `EqualsCollide`,
  `KindsCollide`). `KeyIdentifiesSeries` and `KeyIdentifiesLabels` say exactly when not.

## Model

| member | source | states |
|---|---|---|
| Window.RingCountsExactly | v1/resilience/classify.go:189-237 | For every ordered log, shape and reading, the ring's sum is the weight of exactly those events that are in the window and whose slot no later bucket has taken. |
| WindowExactness.RingBounds | v1/resilience/classify.go:197-210 | For every shape the sum is at most everything younger than the window; for regular shapes it is at least everything aged (n-1) widths or less. |
| WindowExactness.RecentEventsKeptIff | v1/resilience/classify.go:222-237 | The lower bound holds for all logs if and only if the width is aligned with Go's zero time or there is one bucket. |
| WindowExactness.RingExactIff | v1/resilience/breaker/breaker.go:287-309 | The ring equals the window of the log for all logs if and only if, moreover, the buckets tile the window. |
| WindowExactness.InWindowIsBucketNumber | v1/resilience/breaker/breaker.go:287-309 | For aligned widths that tile the window, the window is: bucket number above now/width - n. |
| WindowExactness.SevenSecondBucketsAreIrregular | v1/resilience/classify.go:226-231 | The default shape meets the condition, 70 s in 10 buckets does not. |
| SlidingCounters.SlidingCounter.constructor | v1/resilience/classify.go:176-186 | For every window and bucket count: a new counter stands for the empty log; fewer than one bucket means one; the bucket width is positive if and only if there are no more buckets than nanoseconds. |
| SlidingCounters.SlidingCounter.Add | v1/resilience/classify.go:189-194 | Adding appends to the log that the bucket array stands for. |
| SlidingCounters.SlidingCounter.Sum | v1/resilience/classify.go:197-210 | The loop returns the exact weight of the counted events; it never exceeds the weight younger than the window, for regular shapes it is no less than the weight aged (n-1) widths or less, and for tiled ones it is the window's own weight. |
| SlidingCounters.SlidingCounter.Reset | v1/resilience/classify.go:213-219 | After Reset the counter stands for the empty log. |
| SlidingCounters.SlidingCounter.BucketLocked | v1/resilience/classify.go:222-237 | The current slot is kept if its start is current, recycled otherwise; other slots are untouched. |
| Classify.RetryableIffTransientFailure | v1/resilience/classify.go:100-137 | An error is retried if and only if it counts as a failure, has a transient code and was not caused by the caller's cancellation; so the classifiers agree. |
| Classify.CountsIffServerFault | v1/resilience/classify.go:38-98 | For every error tree: it counts as a failure if and only if no link of it is the breaker's own rejection and its first code, in depth-first order, is neither one of the nine client codes nor Canceled, and it is not a context error without a code (or with code Unknown); unrecognised codes count. |
| Classify.RetriedIffTransient | v1/resilience/classify.go:100-137 | For every error tree: it is retried if and only if no link is the breaker's rejection or the caller's cancellation and its first code is Unavailable, ResourceExhausted or DeadlineExceeded. |
| Classify.WrappingChangesNothing | v1/resilience/classify.go:38-137 | Both verdicts survive any depth of wrapping. |
| Breakers.Breaker.New | v1/resilience/breaker/breaker.go:141-160 | For every configuration: null exactly if one of the six limits is violated, otherwise a closed breaker with every bucket empty and the configuration unchanged but for a bucket count below 1, which means 1; its bucket width is positive if and only if there are no more buckets than nanoseconds. |
| Breakers.Breaker.Allow | v1/resilience/breaker/breaker.go:169-194 | The object's fields follow the transition function; a token is handed out exactly when the call is admitted. |
| Breakers.Breaker.RecordResult | v1/resilience/breaker/breaker.go:214-250 | With a positive bucket width, a report changes state, counters, buckets and observer log as the transition function says. |
| Breakers.Breaker.State | v1/resilience/breaker/breaker.go:196-205 | What a poll shows is the state in which a call asking at that instant would find itself: closed admits it, open rejects it. |
| Breakers.Breaker.Reset | v1/resilience/breaker/breaker.go:279-285 | The loop leaves every bucket zero and both counters zero. |
| Breakers.Breaker.CurrentBucket | v1/resilience/breaker/breaker.go:287-298 | Finds or recycles the slot in place, touching no other. |
| Breakers.Breaker.Sums | v1/resilience/breaker/breaker.go:300-309 | The loop computes both column sums over the unexpired buckets. |
| Breakers.Token.Done | v1/resilience/breaker/breaker.go:190-193 | The first call reports, later calls change nothing. |
| BreakerRuns.HalfOpenConservation | v1/resilience/breaker/breaker.go:183-241 | On every run, under any clock: half-open means halfOpen + consecutiveOK = calls admitted in the episode, with both in range; otherwise both are zero. |
| BreakerProbeCap.CountNeverNegativeIff | v1/resilience/breaker/breaker.go:227-241 | halfOpen stays at zero or above on every run if and only if HalfOpenSuccesses is at most 2. |
| BreakerProbeCap.LowestCount | v1/resilience/breaker/breaker.go:227-241 | For every configuration, a run in which late successes take halfOpen down to 2 - HalfOpenSuccesses, the lowest value it can have. |
| BreakerRuns.EpisodeAdmissions | v1/resilience/breaker/breaker.go:183-193 | No episode admits more than HalfOpenMaxCalls + HalfOpenSuccesses - 1 calls. |
| BreakerRuns.ProbesOutstanding | v1/resilience/breaker/breaker.go:227-241 | The episode's own unanswered probes are halfOpen plus the late reports of the episode; without late reports halfOpen is in [0, cap]. |
| BreakerRuns.NeverWedged | v1/resilience/breaker/breaker.go:162-168 | When all of the episode's probes have reported, the next call is admitted. |
| BreakerProbeCap.ProbeCapIff | v1/resilience/breaker/breaker.go:58-61 | Every episode keeps its own unanswered probes within the cap, on every run, if and only if HalfOpenSuccesses is 1. |
| BreakerPromptness.PromptCapIff | v1/resilience/breaker/breaker.go:58-61 | The cap on all probes in flight, of this episode and of earlier ones, holds on every run with an ordered clock whose calls report within a limit, if and only if the limit is at most OpenDuration. |
| BreakerPromptness.PilingUpRun | v1/resilience/breaker/breaker.go:252-257 | For every configuration, a run with one probe more than the cap in flight: reopening forgets the probes that are out. |
| BreakerPromptness.HearsOwnProbesIff | v1/resilience/breaker/breaker.go:62-64 | Under the same limit, episodes hear reports of their own probes only, if and only if it is at most OpenDuration. |
| BreakerPromptness.ClosedByOwnProbes | v1/resilience/breaker/breaker.go:62-64 | Then a breaker closes only on reports of HalfOpenSuccesses distinct probes of the episode, none of which was a failure. |
| BreakerPromptness.LateSuccessCounts | v1/resilience/breaker/breaker.go:236-241 | For every configuration, a run in which a call from before the trip counts as a success, and closes a HalfOpenSuccesses 1 breaker while its only probe is unanswered. |
| BreakerHistory.AmortisedTripCost | v1/resilience/breaker/breaker.go:221-250 | Every Closed-to-Open change is paid for by MinimumRequests reports and FailureRatio times as many faults made while closed, none used twice. |
| BreakerHistory.ObserverSeesLegalWalk | v1/resilience/breaker/breaker.go:263-277 | The observer sees one unbroken walk from Closed over the four legal edges; each trip reports numbers that meet the gate. |
| BreakerHistory.ClosingTakesSuccesses | v1/resilience/breaker/breaker.go:237-241 | A report closes the breaker if and only if it completes HalfOpenSuccesses successful reports in a row within the episode, whichever calls made them; closing empties the window. |
| BreakerHistory.ClientFaultsNeverTrip | v1/resilience/classify.go:28-37 | A run whose errors are all client faults, told by their codes, stays closed, reports no change and admits every call. |
| BreakerOutage.OutageRate | v1/resilience/breaker/breaker.go:175-188 | After a trip at T, until a close, at most floor(D/OpenDuration) times the episode cap is admitted in [T, T+D]. |
| BreakerOutage.OpenAdmitsNothing | v1/resilience/breaker/breaker.go:176-179 | Before the open period ends nothing is admitted and nothing changes, whatever order the clock takes. |
| BreakerSimulation.BreakerMeetsIdeal | v1/resilience/breaker/breaker.go:169-309 | On ordered runs a tiled breaker gives the answers, states and observer reports of one that keeps the whole list of reports since the last close. |
| BreakerDivergence.BreakerMeetsIdealIff | v1/resilience/breaker/breaker.go:169-309 | It does so on every ordered run if and only if its buckets tile its window. |
| BreakerGroups.Group.Get | v1/resilience/breaker/breaker.go:343-362 | The breaker there is, or a new closed one with the group's configuration, fewer than one bucket meaning one; no other entry changes and no two keys share state. |
| BreakerGroups.Group.Snapshot | v1/resilience/breaker/breaker.go:368-376 | The visible state of every breaker. |
| BreakerGroups.KeysIdentifyIff | v1/service/service.go:570 | In the group that all targets of a service share, different (target, procedure) pairs have different keys if and only if no procedure ends in a bar and another procedure. |
| BreakerGroups.KeysIdentifyProcedures | v1/resilience/breaker/breaker.go:365 | In particular for procedure names without a bar: two targets and procedures share a key exactly when they are the same. |
| BreakerGroups.KeyInjective | v1/resilience/breaker/breaker.go:365 | Within one target, keys are equal exactly for equal procedures, whatever their names. |
| Caches.SameKeySameBreaker | v1/resilience/breaker/breaker.go:343-362 | Under every interleaving of the double-checked lookup, two callers hold the same breaker if and only if they asked for the same key; none is created and lost. |
| Caches.AloneGets | v1/resilience/breaker/breaker.go:343-362 | A caller that nobody interferes with ends up with the key's breaker in the map, or with a new one that is then in the map. |
| Caches.CacheAgrees | v1/resilience/retry/retry.go:98-117 | However lookups race, every cached entry and every answer is what the descriptor says. |
| Caches.AloneIsAnswered | v1/resilience/retry/retry.go:98-117 | From every reachable cache, a caller that nobody interferes with is answered from the descriptor, and the answer is cached. |
| Policies.Policy.Retryable | v1/resilience/retry/retry.go:98-130 | Allowed exactly for procedures that resolve and are declared NO_SIDE_EFFECTS or IDEMPOTENT; the answer is cached. |
| Budgets.Budget.New | v1/resilience/budget/budget.go:75-91 | For every configuration: null exactly if Ratio is outside [0, 1], MinPerSecond is negative or Window is not positive; otherwise an empty budget with at least one bucket, whose counters have a bucket width if and only if there are no more buckets than nanoseconds. |
| Budgets.Budget.Allow | v1/resilience/budget/budget.go:103-117 | A retry is granted exactly when the retries counted are fewer than Ratio * requests + MinPerSecond * Window in seconds; a grant is charged, a refusal counted, and the requests are left alone. |
| Budgets.Budget.RecordRequest | v1/resilience/budget/budget.go:93-99 | One logical call is one request. |
| Budgets.Budget.Stats | v1/resilience/budget/budget.go:120-124 | Both window counts and the refusals. |
| BudgetRuns.AllowIsThreeSteps | v1/resilience/budget/budget.go:103-117 | An undisturbed Allow is the three atomic steps in a row. |
| BudgetRuns.IntervalBound | v1/resilience/budget/budget.go:99-117 | In any interval of at most (Buckets-1) widths, under every interleaving, grants < 1 + Ratio * requests + MinPerSecond * Window in seconds, for the requests of the window that the last grant read. |
| BudgetRuns.RatioKeptIff | v1/resilience/budget/budget.go:22-24 | Grants stay within Ratio * requests on every run if and only if Ratio and MinPerSecond are both zero. |
| BudgetRuns.FirstRetryExceedsRatio | v1/resilience/budget/budget.go:103-117 | A failing run: one request and one retry exceed the ratio if and only if Ratio is below one, and Ratio or MinPerSecond is positive. |
| BudgetRuns.SecondRetryRun | v1/resilience/budget/budget.go:103-117 | The other failing run: one request earns two retries when the first ages out between the two readings. |
| RetryTraces.RetryAccounting | v1/resilience/retry/retry.go:236-271 | Attempts are numbered from 0, at most MaxAttempts + 1; all but the last failed retryably; grants are sends - 1 or sends; at most one rejection, and it is last. |
| RetryTraces.UnsafeSentAtMostOnce | v1/resilience/retry/retry.go:223-234 | A procedure not declared safe is sent at most once and charges nothing. |
| RetryTraces.BackoffDoubles | v1/resilience/retry/retry.go:276-279 | The first backoff is Base, each further one is double, and a positive MaxBackoff cuts off what is above it. |
| RetryTraces.BackoffBound | v1/resilience/retry/retry.go:275-300 | All sleep of one call is at most Base * (2^MaxAttempts - 1), and at most MaxAttempts * MaxBackoff when capped. |
| AttemptHeaders.HeaderRoundTrip | v1/resilience/retry/retry.go:302-309 | The attempt number can be read back from the header, and 0 from its absence. |
| Operations.Operation.Invoke | v1/interceptor/resilience.go:54-77 | One attempt: header, breaker, transport, report; a rejected attempt sends and reports nothing; other keys' breakers are unchanged. |
| Retriers.Retrier.New | v1/resilience/retry/retry.go:190-213 | Null exactly if MaxAttempts is negative, Base is not positive although there are retries, or a positive MaxBackoff is below Base. |
| Retriers.Retrier.FullJitter | v1/resilience/retry/retry.go:284-289 | The waits that can be drawn are exactly those from 0 to below the backoff. |
| Retriers.Retrier.Sleep | v1/resilience/retry/retry.go:275-300 | Full jitter below the backoff; wakes at the first instant at which the timer or the context is ready; gives up with DeadlineExceeded if and only if the context has fired by the time the goroutine runs again and either the timer has not or the select takes the context; overstays the deadline by no more than the scheduling delay. |
| Circumstances.Context.FirstReadyIsFirst | v1/resilience/retry/retry.go:292-299 | The select wakes by t if and only if by t the timer is due, the deadline has passed or the caller has cancelled. |
| Circumstances.Context.DoneErrSaysWhy | v1/resilience/retry/retry.go:297-298 | The context's error is the cancellation if and only if the caller cancelled no later than the deadline, otherwise the deadline. |
| Retriers.Retrier.Do | v1/resilience/retry/retry.go:220-271 | The loop terminates, and its trace is the life of a call in the circumstances it met (`OneLife`): when it is granted or refused a retry, how long it sleeps, when it gives up, starts, is sent, answered and ends, and with which error. One request is recorded if safe, retries are charged as granted; the breaker is left as that life leaves it; a success is the last attempt's; no attempt starts with less than Buffer + Minimum left; if attempts honour their deadlines, the call overstays its own by no more than the scheduling delay of its last round. |
| RetryLives.OneLife | v1/resilience/retry/retry.go:220-300 | In given circumstances (context, clock, jitter, replies, budget logs, breakers) there is exactly one finished life: any two agree event by event, in times, error and finish. |
| RetryLives.WhyItEnded | v1/resilience/retry/retry.go:236-271 | Every call ends for one of these reasons, with the error that belongs to it: its last attempt succeeded, failed for good or was the last allowed; the breaker rejected it; the retries counted left no room in the budget; the context had fired during a backoff; less than Buffer + Minimum was left. So a transient failure of a safe procedure with attempts left is followed by another attempt unless budget, context, deadline or breaker is in the way. |
| RetryLives.SentAtAll | v1/resilience/retry/retry.go:252-262 | A call reaches the wire if and only if Buffer + Minimum were left at its start and the breaker admitted its first attempt. |
| Interceptors.Resilience.Intercept | v1/interceptor/resilience.go:49-99 | With a retrier: the one life of the call; sent at all if and only if the breaker admits at the start and the deadline leaves Buffer + Minimum; a success is the response of the last attempt sent, a failure has none. Without: one attempt, sent if and only if there is no breaker or it admits, its response and error passed on together. The call's own breaker is left in the state that replaying the life gives, other keys' breakers as they were, and the interceptor ready for the next call; sends at most 1 + MaxAttempts, at most 1 if unsafe or without a retrier, at most 1 + retries charged. |
| Interceptors.NoPartialResponseIff | v1/interceptor/resilience.go:79-96 | No reply can make a call yield a response together with an error if and only if there is a retrier. |
| Interceptors.PartialResponse | v1/interceptor/resilience.go:79-81 | A reply with both, passed on without a retrier and stripped with one. |
| LoadBound.EndToEndLoad | v1/interceptor/resilience.go:54-88 | N concurrent calls whose grants fall within (Buckets-1) widths put fewer than N + Ratio * N + MinPerSecond * Window in seconds + 1 requests on the wire. |
| LoadIntervals.SendsAreOwedOrGranted | v1/interceptor/resilience.go:54-88 | From any reachable state, for every continuation and configuration: sends since are at most the attempts already owed plus the new calls plus the retries granted since. |
| LoadIntervals.LoadSince | v1/resilience/budget/budget.go:99-117 | If those grants fall within (Buckets-1) widths, for regular shapes, they are moreover fewer than 1 + Ratio * requests + MinPerSecond * Window in seconds, for the requests of the window that the last of them read. |
| LoneCalls.LoneCallIsRun | v1/interceptor/resilience.go:49-99 | From every state in which nobody is inside Allow, a call that nobody interferes with has in the machine of many calls exactly the life that `Do` gives it; its breaker, the budget's logs and the other breakers are as that life says. |
| KeyRuns.EachKeyRunsItsBreaker | v1/resilience/breaker/breaker.go:169-250 | However the calls of all keys interleave, each key's breaker is in the state of a single breaker run over that key's requests and reports, admitted exactly what was sent on the key, and received exactly the key's reports. |
| KeyRuns.RetriedWereReported | v1/interceptor/resilience.go:67-76 | At every moment of every call, running or finished, every attempt but the last was reported as a failure, to the breaker of the call's own key and no other; every report after which anything happened was a failure. |
| KeyRuns.KeyOutage | v1/resilience/breaker/breaker.go:175-188 | While the breaker of a key has not closed since it opened at T, all calls on the key, retries included and however many, send at most floor(D/OpenDuration) times the episode cap in [T, T+D]. |
| LoadBound.OpenBreakerCapsRetries | v1/resilience/classify.go:105-115 | Once a breaker is open no call on its key, new or retried, is sent before OpenDuration has passed. |
| Deadlines.DeriveGoesOnIff | v1/resilience/deadline/deadline.go:64-83 | For every budget, deadline and pair of readings: a call goes on if and only if Buffer + Minimum are left at the first reading; a refusal has code DeadlineExceeded; a call without a deadline passes unchanged. |
| Deadlines.DeriveDrops | v1/resilience/deadline/deadline.go:64-83 | With Buffer and Minimum left, the derived deadline is earlier by Buffer less the pause between the readings, strictly so if and only if the pause is shorter than Buffer. |
| Deadlines.LongPauseDropsNothing | v1/resilience/deadline/deadline.go:73-82 | An input at which it does not drop: Buffer 50 and a pause of 100. |
| Deadlines.TimeoutShortens | v1/interceptor/timeout.go:17-31 | Timeout never extends a deadline, and with a positive limit always leaves one. |
| Deadlines.TimeoutExactly | v1/interceptor/timeout.go:17-31 | A positive limit leaves exactly the earlier of the caller's deadline and the limit counted from the second reading; any other changes nothing. |
| Deadlines.ChainGoesOnIff | v1/resilience/deadline/deadline.go:64-83 | A chain of hops goes on to its end if and only if each deadline set on the way, by the caller or a server's Timeout, still leaves every later hop its Buffer + Minimum after the hops between have each brought it forward by Buffer less their pause; the deadline that comes out is the earliest of them. |
| Deadlines.OnlyTimeoutsSetDeadlines | v1/resilience/deadline/deadline.go:64-83 | A chain of hops that starts without a deadline and goes on ends with one if and only if some server on it has a positive Timeout. |
| Deadlines.HopsLeaveRoom | v1/resilience/deadline/deadline.go:73-82 | Along any chain of hops, each with its own Buffer and Minimum, D - t >= the sum of the Buffers plus the last Minimum, less the pauses of earlier hops. |
| Deadlines.ChainLength | v1/resilience/deadline/deadline.go:73-82 | A chain of hops started at t, pausing anywhere, has the sum of its Buffers plus the last Minimum <= D - t; so Buffers of at least b > 0 bound its depth by (D - t) / b. |
| Shedders.Shedder.New | v1/resilience/shed/shed.go:53-58 | Null exactly if one of the two limits is negative. |
| Shedders.Shedder.Admit | v1/resilience/shed/shed.go:63-85 | One caller at a time: admitted exactly when it has waited less than a positive MaxQueueLatency and a positive MaxInFlight is not reached, and counted once. |
| Shedders.ConcurrencyCap | v1/resilience/shed/shed.go:63-85 | Under all interleavings: inFlight = holders + pending rollbacks, holders <= MaxInFlight. |
| Shedders.CountedOnce | v1/resilience/shed/shed.go:63-85 | Under all interleavings, with or without a cap: admitted + shed = returned calls of Admit + those counted and about to return; calls begun = counted + undecided. |
| Shedders.AdmittedIff | v1/resilience/shed/shed.go:68-78 | In every reachable state: a caller gets in exactly when it has waited less than a positive MaxQueueLatency and holders plus pending rollbacks are below a positive cap, so a free slot is refused only during a rollback. |
| Shedders.AloneIsAdmit | v1/resilience/shed/shed.go:63-85 | From every state, the atomic operations of a caller that nobody interferes with are one call of Admit, in answer and counters. |
| SeriesKeys.BuildKey | v1/telemetry/cardinality.go:141-157 | The loops compute the sorted, comma-joined key. |
| SeriesKeys.KeyIgnoresOrder | v1/telemetry/cardinality.go:146-148 | Permuted attributes have the same key. |
| SeriesKeys.KeyIdentifiesSeries | v1/telemetry/cardinality.go:141-157 | For labels with values as text and comma-free keys: equal series keys mean equal label sets, for comma-free values if and only if no key extends another by "=...", and for arbitrary values never. |
| TypedLabels.KeyIdentifiesLabels | v1/telemetry/cardinality.go:141-157 | For labels with typed values and comma-free keys and texts: if and only if there are no keys, or no key extends another by "=..." and values with the same text are the same value. |
| TypedLabels.KindsCollide | v1/telemetry/cardinality.go:144 | With string and integer values it never does: 1 and "1" are one series. |
| SeriesKeys.PrefixSafeIdentifies | v1/telemetry/cardinality.go:141-157 | The condition suffices for attribute keys with commas as well. |
| SeriesKeys.KeyIdentifiesParts | v1/telemetry/cardinality.go:149-155 | Without commas, series keys are equal exactly for equal multisets of rendered key=value parts. |
| SeriesKeys.CommasCollide | v1/telemetry/cardinality.go:149-155 | a="1,b=2" and a="1", b="2" share a key. |
| SeriesKeys.EqualsCollide | v1/telemetry/cardinality.go:149-155 | a="b=c" and a=b="c" share a key, without any comma. |
| CardinalityGuards.CardinalityGuard.constructor | v1/telemetry/cardinality.go:75-91 | An empty guard; a threshold below 1 means 1000, a hard cap below the threshold ten times the threshold. |
| CardinalityGuards.CardinalityGuard.Observe | v1/telemetry/cardinality.go:94-124 | The maps and the warnings change as the specification says. |
| CardinalityGuards.CardinalityGuard.Snapshot | v1/telemetry/cardinality.go:127-139 | Every metric's count, -1 once stopped. |
| CardinalityGuards.CountsExactly | v1/telemetry/cardinality.go:75-139 | For every sequence of observations and any limits passed in (replaced as the constructor does): the snapshot is the exact number of distinct keys until the hard cap and -1 after it; fewer keys than that are held; one warning, at the threshold. |

## Left out

- HTTP servers and clients, h2c, signals, mesh probing, OpenTelemetry, slog, configuration loading and generated code: wiring and I/O.
- The protobuf registry lookup: an unchanging function from a procedure to its declared level.
- Server interceptor chain, health checks, shutdown sequencing: list order and single-branch facts.
- Observer callbacks of the retrier, `Remaining`, `Counts` and `BreakerOpen`: one-line readers.
- Panics in the transport, and a caller that never calls `done` or the shedder's release.
- Float rounding in the ratio test and the budget formula, 64-bit overflow of counters and of the backoff shift.
- The distribution of the jitter: any draw below the backoff is allowed.
- Deadline propagation over the wire: the next hop is given the derived deadline itself.
- Clocks that run backwards, dates before 1970 and misaligned widths in the sharp window, simulation and budget bounds; the lemmas that need none of these say so.
- Retriers.Retrier.Do: the budget's three readings inside one Allow are taken at one instant here; `BudgetRuns` separates them. Its real deadline check and WithTimeout also share one instant; `Deadlines` separates those.
- LoadBound.EndToEndLoad: calls are run with a retrier, a budget and breakers configured; without a budget there is no such bound in the code either.
- LoneCalls.LoneCallIsRun: for calls with a budget and breakers configured, as the machine's calls have.
- BudgetRuns.IntervalBound: stated for regular shapes only; `RecentEventsKeptIff` shows what the counters lose otherwise.
- SlidingCounters.SlidingCounter.Add: requires a positive width; a negative window, whose negative width Go would divide by, is not modelled.
