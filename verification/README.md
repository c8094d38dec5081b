# RustyGate in Dafny

A model of RustyGate's control plane: the code that decides whether, where and how often a
request to an LLM provider may run, how its answer is streamed, and what is remembered about it.
`dafny verify dfyconfig.toml` checks the whole project.

The parts, in the order they build on each other:

- `Base`, `Ordering`, `Lru`: options, saturating 32- and 64-bit integers, the order of strings and
  sort keys, a least-recently-used cache.
- `Admission`, `Resilience`: concurrency slots held by guards; timed circuit breakers.
- `Fallback`, `FallbackLoops`, `Backoff`: the retry and fallback driver. A finished walk over the
  candidates is described by its *visits* (refused by the breaker, refused by admission, or tried).
  The driver exists as a machine that stops wherever the source locks or awaits, and as the two
  source loops; both are proved to compute what the visits mean.
- `Gateway`, `GatewayRuns`, `Recovery`, `InFlight`: any number of drivers interleaved over shared counters,
  breakers and in-flight gauges, with a clock and cancellation. Its theorems hold in every run.
- `TokenBucket`, `RateLimiter`, `RedisBucket`: rate limits in the process and in Redis.
- `PrefixAffinity`, `Fingerprint`, `Selection`, `Routing`, `Decisions`: which candidates in which order, and why.
- `Sse`, `Streams`: parsing provider streams and serving client streams. A stream's consumer has a
  `patience`, the number of suspensions after which it still polls; every patience is covered, so
  every point of cancellation is.
- `Metrics`, `Percentiles`, `Telemetry`: counters and percentiles kept while running against those
  recomputed from the log, and the snapshot that routing reads.
- `Opening`, `Serving`: a streamed request with its real guards, from its arrival through admission, the
  driver's retries and fallbacks and the stream itself to the last release.
- `Models`: configuration checks, the pool index and model discovery.

Instants are natural numbers of nanoseconds (real seconds for token buckets, integer milliseconds
for Redis). The clock never goes back from one lock holder to the next. Provider names are distinct
where order matters, as the configuration check demands.

Some promises do not hold of the code. Each is given with the exact condition under which it does,
and with a concrete input or run where it does not:

- Waiting the returned whole seconds is enough after a refusal exactly if the computed wait is at most
  one second or a whole number of seconds, and after every refusal in every run of a new bucket exactly
  if it is set to refill at least one token a second (`RetryAfterSufficesIff`, `RunsSufficeIff`,
  `SlowRunFails`, `RetryAfterTooShort`); likewise for the Redis bucket (`SecondsSufficeIff`).
- The Redis bucket and the local one agree on every timestamp sequence exactly if the rate is at
  least six per minute and the burst is at most 120.001 seconds of refill (`RedisAgreesIff`,
  `SlowRatesDiffer`, `ExpiryDiffers`).
- Every key is kept to its bucket in all runs with at most n keys exactly if that many keys can be
  tracked; with one more, a key gets more at one instant than its bucket ever holds
  (`SafeIffTracked`, `ComebackExceeds`).
- An exhausted half-open circuit can recover exactly if some live request is probing it; otherwise it
  stays half-open for ever (`RecoversIffNotStarved`, `StarvedForEver`, `StarvationReachable`).
- A chat client that received `[DONE]` is counted as completed exactly if it polls once more
  (`DoneYetCancelled`, `DoneButCancelled`).
- "Recent" provider errors never age: a snapshot shows some exactly if any of the provider's calls
  ever failed, and then no prefix hit leads to it again (`RecentMeansEver`, `HitNeverFailed`); one
  failure followed by any number of successes still does it (`FailureNeverFades`).
- The registry and the database report the same 95th percentile of n samples, whatever they are, exactly
  if n is zero, or at most 1024 and no multiple of twenty (`PercentilesAgreeIff`,
  `FullTwentiesDiffer`, `FullWindowDiffers`).
- The model that a listed ID is shown to stand for is the one its requests go to, except exactly when an alias
  redirects the ID and it is a provider's model or a pool's ID itself (`ListingTruthful`,
  `RedirectedListing`, `SpacedListing`).
- The providers shown are that model's candidates in accepted configurations whose pools are written
  without stray spaces (`CleanPools`, `ListingTruthful`), and otherwise exactly as `ShownIff` says,
  because names are checked with spaces trimmed and looked up with them (`ServedIff`, `StraySpace`).
- Attempt numbers of every walk are 1, 2, ... exactly if the candidates' budget of calls fits in 32 bits
  (`NumberedIff`); `max_retries` has no upper limit, and then numbers repeat (`NumbersRepeat`).

## Model

| member | source | states |
|---|---|---|
| Admission.RequestRefusedIffFull | src/routing/admission.rs:156-202 | a request is refused iff as many live guards as allowed hold the global slot or its pool's, with the reason of the first; a granted one holds the global slot iff it is limited and its pool's iff that is |
| Admission.ProviderRefusedIffFull | src/routing/admission.rs:204-239 | the same for a provider slot |
| Admission.ReleaseCounts | src/routing/admission.rs:241-258 | returning held slots takes exactly one from each, never saturates, and leaves no zero entry in a map |
| Admission.AcquireRequestTracks | src/routing/admission.rs:156-202 | a grant keeps every counter equal to the number of guards that hold its slot, within its limit |
| Admission.AcquireProviderTracks | src/routing/admission.rs:204-239 | the same for provider slots |
| Admission.ReleaseTracks | src/routing/admission.rs:241-258 | dropping any live guard keeps counters exact and within limits |
| Admission.NoGuardsIdle | src/routing/admission.rs:241-312 | without live guards every counter is zero and both maps are empty |
| Admission.CountsDetermine | src/routing/admission.rs:104-108 | compact counters with the same counts are the same value |
| Admission.ReleaseUndoesAcquire | src/routing/admission.rs:156-258 | acquiring and then releasing, requests or providers, restores the counters |
| Admission.GrantThenRelease | src/routing/admission.rs:156-258 | giving back just-taken slots restores the counters |
| Admission.AdmissionController.constructor | src/routing/admission.rs:116-122 | starts idle with no guards |
| Admission.AdmissionController.TryAcquireRequest | src/routing/admission.rs:156-202 | grants iff there is room globally and in the pool; a refusal changes nothing, a grant yields a live guard for exactly the limited slots of the request |
| Admission.AdmissionController.TryAcquireProvider | src/routing/admission.rs:204-239 | the same for one provider |
| Admission.AdmissionController.ReleaseAll | src/routing/admission.rs:241-258 | the loop over slots computes the specified release |
| Admission.AdmissionGuard.Finish | src/routing/admission.rs:282-303 | releases once however often it is finished or dropped |
| Resilience.StateAgreesWithHistory | src/routing/resilience.rs:117-197 | after any events: closed iff fewer failures than the threshold since the last success; otherwise opened at a recorded failure; half-open has used between one and the allowed number of probes; the failure counter never saturates |
| Resilience.FailuresWhileOpenIgnored | src/routing/resilience.rs:169-197 | failures while open never extend the open window |
| Resilience.ExhaustedStaysPut | src/routing/resilience.rs:117-153 | a half-open circuit without probes left refuses and stays until a success or failure is recorded |
| Resilience.PermittedWithinAllowance | src/routing/resilience.rs:117-197 | permitted calls stay within the allowance left by elapsed open windows and remaining probes |
| Resilience.OpenCircuitBound | src/routing/resilience.rs:117-197 | from opening at t0 to t1 without a success at most max(1, probes) * floor((t1 - t0) / open) calls are allowed |
| Resilience.PermittedExactly | src/routing/resilience.rs:117-153 | after any history, how many of n calls at one instant get through: all below the threshold of failures, none before the open duration in nanoseconds is over, then the probes, or what is left of them |
| Resilience.OpenCircuitBoundAttained | src/routing/resilience.rs:117-153 | for every number of windows a run that attains the bound |
| Resilience.ResilienceRegistry.constructor | src/routing/resilience.rs:93-108 | every circuit starts closed |
| Resilience.ResilienceRegistry.AllowProviderCall | src/routing/resilience.rs:117-153 | answers and updates the provider's circuit as the fold over its history says; other providers are untouched |
| Resilience.ResilienceRegistry.RecordSuccess | src/routing/resilience.rs:155-167 | resets the provider's circuit, in agreement with the fold |
| Resilience.ResilienceRegistry.RecordFailure | src/routing/resilience.rs:169-197 | counts, opens or reopens, in agreement with the fold |
| Resilience.ResilienceRegistry.StateOf | src/routing/resilience.rs:199-206 | reports the state reached by the provider's history, closed if it has none |
| Resilience.FoldsStep | src/routing/resilience.rs:117-197 | an event of one provider keeps every provider's circuit equal to the fold over its own history |
| Fallback.LogIsBlocks | src/routing/fallback.rs:157-288 | the log is the candidates' blocks end to end, one entry per call |
| Fallback.LogIsNumbered | src/routing/fallback.rs:178-206 | the k-th entry has number k + 1, or the largest 32-bit number |
| Fallback.LogWithinBudget | src/routing/fallback.rs:157-288 | the log fits the candidates' budget of max_retries + 1 calls each; if that fits in 32 bits the numbers are 1..n |
| Fallback.NumberedIff | src/routing/fallback.rs:178-206 | the attempts of every finished walk are numbered 1..n iff the candidates' call budget fits in 32 bits |
| Fallback.ExhaustingSpends | src/routing/fallback.rs:157-288 | the walk in which every call times out is finished and spends the whole budget |
| Fallback.NumbersRepeat | src/routing/fallback.rs:178-206 | with the largest retry setting two calls of one walk carry the same number |
| Fallback.BlockWithinBudget | src/routing/fallback.rs:177-264 | at most max_retries + 1 calls per candidate |
| Fallback.NoEarlySuccess | src/routing/fallback.rs:206-272 | only the last entry of a successful run is a success |
| Fallback.ResultMatchesLog | src/routing/fallback.rs:206-288 | success: exactly the last attempt succeeded, by the reported provider; failure: none did and the error's category is the last attempt's |
| Fallback.FallThroughIffLastRefused | src/routing/fallback.rs:157-288 | the loop is left without a verdict iff the last candidate was reached and refused; it is a rejection iff admission refused some candidate |
| Fallback.RejectionIffRefused | src/routing/fallback.rs:157-175 | a remembered rejection exists iff admission refused some candidate |
| Fallback.RecordsOrdered | src/routing/fallback.rs:217-267 | breaker records follow candidate order, at most one each |
| Fallback.RecordsExact | src/routing/fallback.rs:217-270 | a tried candidate makes one record as its last call says, and none after a non-retryable error or an empty stream |
| Fallback.NextKeepsInv | src/routing/fallback.rs:115-507 | every step, whatever the outside answers, keeps the driver's variables equal to what the visits mean |
| Fallback.NextDecreases | src/routing/fallback.rs:115-507 | every step comes closer to the end, so every run terminates |
| Fallback.RunToEnd | src/routing/fallback.rs:115-507 | driven by any environment the driver stops with its invariant |
| Fallback.RunToEndFollows | src/routing/fallback.rs:115-507 | and its visits are that environment's answers |
| Fallback.RunUnique | src/routing/fallback.rs:115-507 | an environment determines the finished walk |
| FallbackLoops.CompleteChat | src/routing/fallback.rs:115-288 | the nested loops return the result, log and breaker records of the walk, which are the machine's |
| FallbackLoops.CompleteChatStream | src/routing/fallback.rs:290-507 | the same for streams, including empty ones |
| FallbackLoops.TryCandidate | src/routing/fallback.rs:175-270 | the retry loop makes a complete try and logs each call |
| FallbackLoops.TryStreamCandidate | src/routing/fallback.rs:346-498 | the same for opening a stream and reading its first event |
| FallbackLoops.LoopsAgreeWithMachine | src/routing/fallback.rs:115-507 | loops and machine give the same result, log and records |
| FallbackLoops.VisitExact | src/routing/fallback.rs:157-288 | from breaker, admission and replies alone: who is skipped, refused or called and how often, which errors by name are retried and let the walk go on, and what each breaker hears |
| FallbackLoops.LogExact | src/routing/fallback.rs:210-262 | every field of the log entry of each call, with the category by name of the error |
| FallbackLoops.ResultExact | src/routing/fallback.rs:210-288 | which result is reported, from the last candidate and the latest refusal |
| FallbackLoops.AlwaysFailing | src/routing/fallback.rs:532-541 | a first candidate that always fails: for a timeout, rate limit or unavailable provider max_retries + 1 calls, one failure record and on to the second; for the other errors one call, no record, and that error |
| FallbackLoops.FirstAttemptOnHead | src/routing/fallback.rs:157-203 | a permitted and admitted first candidate gets the first attempt |
| Backoff.BackoffExact | src/routing/fallback.rs:509-519 | saturating arithmetic gives min(initial * 2^(k-1), max(max, initial)) of unbounded integers |
| Backoff.BackoffDoubles | src/routing/fallback.rs:509-519 | the pause doubles until the cap and never shrinks |
| Backoff.BackoffMonotone | src/routing/fallback.rs:509-519 | later retries wait at least as long before jitter |
| Backoff.BackoffBounds | src/routing/fallback.rs:509-530 | it fails iff jitter_ms is the largest 64-bit number; otherwise it lies between the capped value and cap plus jitter, cut off at 64 bits |
| Backoff.NoJitter | src/routing/fallback.rs:509-530 | without jitter the pause is exactly the capped value |
| Backoff.JitterExact | src/routing/fallback.rs:522-530 | the pause with jitter in unbounded integers: name bytes plus seventeen a retry, modulo the setting plus one |
| Backoff.CandidateSleepBound | src/routing/fallback.rs:177-264 | a candidate sleeps at most max_retries * (cap + jitter) in all |
| Gateway.StepKeepsInv | src/routing/fallback.rs:157-507 | every action of every request keeps the system invariant: exact counters, guards owned by the requests in the right phase, driver invariants, breaker folds, ordered history |
| Gateway.NextHolds | src/routing/fallback.rs:157-413 | a provider slot is held from admission's grant until it is dropped, through retries and hand-off |
| GatewayRuns.InvAlongRun | src/routing/fallback.rs:157-507 | the invariant holds along every run |
| GatewayRuns.CountersExactInEveryRun | src/routing/admission.rs:156-312 | in every interleaving each counter is the number of live guards on its slot, within its limit, absent when zero, and all are back at the start when no request is left |
| GatewayRuns.LimitsRespectedInEveryRun | src/routing/admission.rs:156-239 | in every run at most the limit of requests are at a provider, of a pool in the gateway, and in the gateway |
| GatewayRuns.TurnedAwayIffFull | src/routing/admission.rs:156-202 | in every run an arriving request stays outside iff the global limit of requests, or its pool's, is in the gateway |
| GatewayRuns.RequestCounts | src/routing/admission.rs:156-202 | the holders of the global and pool slots are as many as the requests in the gateway and of the pool |
| GatewayRuns.RefusalChangesNothing | src/routing/admission.rs:156-239 | a refused acquire changes no counter and no guard |
| GatewayRuns.BreakerObeyed | src/routing/fallback.rs:157-162 | a request goes on to admission iff its breaker lets the call through, else to the next candidate, and the question enters the breaker's history |
| GatewayRuns.AdmissionObeyed | src/routing/fallback.rs:163-169 | it calls iff there is room at the provider, else the refusal is remembered and it moves on |
| GatewayRuns.LeavesWhole | src/routing/admission.rs:291-312 | a client can leave iff its request waits, and then its two guards go and nothing else |
| GatewayRuns.RefusedIffInUse | src/routing/admission.rs:204-239 | in every run a request asking for a provider's slot is refused iff as many requests as the limit allows are calling, backing off or streaming there |
| GatewayRuns.HoldersAreUsing | src/routing/fallback.rs:157-413 | the guards that hold a provider's slot are exactly those of the requests at it |
| GatewayRuns.LogsTruthfulInEveryRun | src/routing/fallback.rs:115-507 | every stopped driver of every run carries the log, records and result of a finished walk |
| GatewayRuns.OpenCircuitBoundInEveryRun | src/routing/resilience.rs:117-197 | the bound on calls to an open circuit holds over all requests of any run |
| GatewayRuns.LostProbeStarves | src/routing/fallback.rs:159-175 | if the only probe of an exhausted half-open circuit is refused by admission, ends in a non-retryable error or is cancelled, the provider is starved |
| GatewayRuns.StarvedForEver | src/routing/resilience.rs:117-153 | a starved provider stays so in every continuation; `Recovery.RecoversIffNotStarved` is the converse |
| GatewayRuns.StarvationReachable | src/routing/fallback.rs:157-272 | a concrete run reaches it |
| Recovery.RecoversIffNotStarved | src/routing/resilience.rs:117-197 | in every reachable state an exhausted half-open circuit can leave that state in some continuation iff some live request is probing it |
| Recovery.ProbingRecovers | src/routing/fallback.rs:157-267 | a probe waiting for admission, calling, backing off or recording can still change the circuit |
| Recovery.PermittedRecovers | src/routing/fallback.rs:159-175 | a permitted probe that finds the provider full can be let in after a slot holder leaves or reports itself |
| Recovery.FreeMakesRoom | src/routing/admission.rs:204-258 | releasing one holder of a full provider's slot lets the next request in |
| InFlight.GaugeExactInEveryRun | src/routing/fallback.rs:193-197 | in every interleaving a provider's in-flight gauge is the number of requests calling, backing off or streaming there, listed only while positive, and equals admission's counter within its limit if it has one |
| InFlight.QuietAgain | src/telemetry/metrics.rs:228-235 | with no request left both gauges are empty |
| InFlight.AdvanceKeeps | src/routing/fallback.rs:365-369 | every action keeps one guard for each request at a provider, and the gauges equal to the sums over guards |
| InFlight.Vacated | src/telemetry/metrics.rs:63-76 | a request that leaves takes its one guard with it; one without a guard changes nothing |
| InFlight.Replaced | src/routing/fallback.rs:193-197 | a retry's guard replaces the one of the call before it |
| InFlight.SameRun | src/routing/fallback.rs:193-197 | with gauges the gateway runs as it does without |
| TokenBucket.CheckTakesOne | src/rate_limit.rs:353-375 | a granted check takes exactly one token; the floor at zero never bites |
| TokenBucket.WindowBound | src/rate_limit.rs:343-375 | in every run and window at most capacity + rate * length tokens are taken |
| TokenBucket.GrantsIffWaited | src/rate_limit.rs:353-369 | an undisturbed refused bucket grants again iff enough time has passed |
| TokenBucket.WaitSuffices | src/rate_limit.rs:359-369 | waiting the computed duration, or the whole seconds plus one, makes it grant |
| TokenBucket.RetryAfterSufficesIff | src/rate_limit.rs:58-67 | the returned whole seconds suffice iff the computed wait is at most one second or a whole number of seconds |
| TokenBucket.AlwaysSufficesIff | src/rate_limit.rs:58-67 | for a given capacity and rate the returned seconds suffice after every refusal iff the rate is at least one token a second |
| TokenBucket.RunsSufficeIff | src/rate_limit.rs:58-67 | for every burst and rate: in all runs of a new bucket the returned seconds suffice after every refusal iff the rate is at least one token a second |
| TokenBucket.SlowRunFails | src/rate_limit.rs:58-67 | every slower new bucket has a run, the burst spent at once and one more call, whose refusal returns too few seconds |
| TokenBucket.RetryAfterTooShort | src/rate_limit.rs:58-67 | a new bucket, spent and asked again 8.5 seconds later, refuses again after the returned second |
| TokenBucket.TokenBucketCell.RefillNow | src/rate_limit.rs:353-357 | refills in place as specified, tokens within capacity |
| TokenBucket.TokenBucketCell.WaitDuration | src/rate_limit.rs:359-369 | refills and reports the wait, or none iff there is a token |
| TokenBucket.TokenBucketCell.ConsumeOne | src/rate_limit.rs:371-375 | refills and takes one token |
| RateLimiter.PerformOk | src/rate_limit.rs:58-142 | every call keeps buckets within bounds and the cache within max_tracked_keys |
| RateLimiter.GlobalWindowBound | src/rate_limit.rs:58-142 | any mix of calls passes the global bucket at most capacity + rate * length times in a window |
| RateLimiter.KeyWindowBound | src/rate_limit.rs:80-142 | while no more distinct keys than fit are in use, any key, tracked or not and with any overrides, gets in any window at most capacity + rate * length of the bucket that governs it |
| RateLimiter.EvictionRefills | src/rate_limit.rs:80-111 | once as many other keys as fit were used, a key is no longer tracked and starts with a full burst at the same instant |
| RateLimiter.EvictionCounted | src/rate_limit.rs:92-110 | tracked entries are conserved: one is lost, and counted as evicted, iff a new key meets a full cache |
| RateLimiter.ComebackExceeds | src/rate_limit.rs:80-111 | a run with one key too many gives a key more calls at one instant than its bucket ever holds |
| RateLimiter.SafeIffTracked | src/rate_limit.rs:80-142 | the per-key bound holds for all keys in all runs of a new limiter with at most n keys iff n is at most max_tracked_keys |
| RateLimiter.RefusedIffWait | src/rate_limit.rs:58-142 | a call is refused iff it is told to wait |
| RateLimiter.RepeatAfterWait | src/rate_limit.rs:113-142 | a refused combined check succeeds when repeated, undisturbed, after its wait |
| RateLimiter.NewKeyExact | src/rate_limit.rs:80-120 | a new key with overrides gets exactly its own burst at one instant, and the next call exactly when its own rate has filled a token |
| RateLimiter.RepeatGrants | src/rate_limit.rs:80-120 | of n calls at one instant as many are granted as the key's bucket holds whole tokens |
| RateLimiter.DefaultKeyExact | src/rate_limit.rs:80-150 | without overrides a new key's bucket has the configured burst and rate |
| RateLimiter.RateLimiterState.CheckGlobal | src/rate_limit.rs:58-67 | updates the global bucket and answers as specified |
| RateLimiter.RateLimiterState.CheckKeyWithOverride | src/rate_limit.rs:80-111 | the same for a key, creating and evicting as specified |
| RateLimiter.RateLimiterState.CheckBoth | src/rate_limit.rs:113-142 | takes a token from both buckets or from neither |
| RedisBucket.AllowedIffToken | src/rate_limit.rs:305-320 | the script allows a call iff a whole token was there |
| RedisBucket.RetryAfterExact | src/rate_limit.rs:304-321 | a refused caller is told the least whole number of milliseconds after which a token is there |
| RedisBucket.SecondsSufficeIff | src/rate_limit.rs:229-233 | waiting the returned whole seconds is enough iff at most one second or a whole number of seconds is missing |
| RedisBucket.StoredExact | src/rate_limit.rs:304-321 | what is stored: the refilled tokens less one if allowed, for two minutes; a missing key is a full bucket |
| RedisBucket.RefillExact | src/rate_limit.rs:210-235 | the refill rate is the requests per minute, at least one, over sixty thousand milliseconds |
| RedisBucket.CheckAgrees | src/rate_limit.rs:211-234 | one check on each side: same verdict and same tokens, if expiry cannot be noticed |
| RedisBucket.VerdictsAgree | src/rate_limit.rs:211-234 | same verdicts on every timestamp sequence |
| RedisBucket.SlowRatesDiffer | src/rate_limit.rs:343-351 | below six per minute some sequence tells them apart |
| RedisBucket.ExpiryDiffers | src/rate_limit.rs:305-320 | so does a burst above 120.001 seconds of refill |
| RedisBucket.RedisAgreesIff | src/rate_limit.rs:211-234 | they agree on all sequences iff neither is the case |
| PrefixAffinity.LookupIsLatest | src/routing/prefix_affinity.rs:33-47 | an answer is the latest record and no older than the TTL; a miss means no record, an older one, or max_entries others used since; a record young enough with fewer others used since is answered |
| PrefixAffinity.RecordRefines | src/routing/prefix_affinity.rs:49-61 | recording keeps the cache a refinement of the unbounded history, within max_entries |
| PrefixAffinity.LookupHitRefines | src/routing/prefix_affinity.rs:33-47 | so does an answered lookup |
| PrefixAffinity.LookupMissRefines | src/routing/prefix_affinity.rs:33-47 | so does an unanswered one, with its removal of an expired entry |
| PrefixAffinity.PrefixAffinityIndex.constructor | src/routing/prefix_affinity.rs:24-31 | an empty index refines the empty history |
| PrefixAffinity.PrefixAffinityIndex.LookupProvider | src/routing/prefix_affinity.rs:33-47 | the same in place |
| PrefixAffinity.PrefixAffinityIndex.RecordProvider | src/routing/prefix_affinity.rs:49-61 | the same in place |
| Lru.PutFacts | src/routing/prefix_affinity.rs:49-61 | what an insertion into a full or not yet full cache does to any key |
| Lru.PutLength | src/rate_limit.rs:92-110 | an insertion adds an entry for a new key and loses one iff the cache was full |
| Fingerprint.NormalizeKeepsWords | src/routing/prefix_fingerprint.rs:126-128 | normalising keeps the words and is idempotent |
| Fingerprint.NormalFormIff | src/routing/prefix_fingerprint.rs:126-128 | two texts normalise alike iff they have the same words |
| Fingerprint.PrefixTokens | src/telemetry/token_estimator.rs:4-14 | the estimate of the joined normalised prefix is the sum over its messages |
| Fingerprint.LastUserMessageIgnored | src/routing/prefix_fingerprint.rs:45-110 | nothing at or after the last user message changes the fingerprint |
| Fingerprint.SpacesIgnored | src/routing/prefix_fingerprint.rs:45-128 | requests that differ only in whitespace have the same fingerprint |
| Fingerprint.CanonicalIff | src/routing/prefix_fingerprint.rs:78-96 | canonical values are equal iff model and extras are equal and the non-blank messages before the last user message agree one by one up to whitespace; then words and token estimates are equal |
| Fingerprint.FingerprintedIff | src/routing/prefix_fingerprint.rs:45-83 | a request has a fingerprint iff a system, developer or tool message with words precedes the last user message, or it names tools, a tool choice or a format |
| Fingerprint.NoUserKeepsAll | src/routing/prefix_fingerprint.rs:101-110 | without a user message all messages are the prefix |
| Selection.SortByCorrect | src/routing/strategy.rs:336-384 | each sort rearranges its input into the strict order of (score, rank, name) |
| Selection.SortedUnique | src/routing/strategy.rs:336-384 | there is only one such arrangement |
| Selection.SortByOrderFree | src/routing/strategy.rs:336-384 | so configuration order does not matter |
| Ordering.StrLessExact | src/routing/strategy.rs:336-384 | names are ordered like words in a dictionary |
| Decisions.CostOrder | src/routing/strategy.rs:435-437 | the cost policy orders by the sum of both costs, then priority, then name |
| Decisions.PriorityOrder | src/routing/strategy.rs:336-384 | the priority policy orders by priority, then name |
| Decisions.LatencyOrder | src/routing/strategy.rs:439-491 | the latency policy orders by positive p95, else average, plus 25 a call in flight, 10 a pressure unit, 250 an error and the circuit's penalty; unknown latencies come last |
| Decisions.LatencyScoreExact | src/routing/strategy.rs:439-491 | the score is that sum, and infinite iff no latency is known |
| Decisions.LoadScoreExact | src/routing/strategy.rs:637-656 | load is the larger of calls and rounded pressure, plus 1000 an error and 1 000 000 for an open circuit, cut off at 64 bits |
| Decisions.LoadOrder | src/routing/strategy.rs:614-656 | when load decides, lighter first by that sum and ties in baseline order |
| Decisions.CeilExact | src/routing/strategy.rs:573-580 | pressure is rounded up to the least 64-bit number |
| Decisions.ReasonExact | src/routing/strategy.rs:170-267 | for each reason of the affinity decision exactly when it is given, from circuits, recalled record, errors and loads |
| Decisions.OverloadedIff | src/routing/strategy.rs:538-563 | the load test fails iff some healthy provider is less busy by more than the threshold |
| Decisions.CircuitOrder | src/routing/strategy.rs:601-612 | when circuits decide, those not open first, each part by priority and name |
| Decisions.ListExact | src/routing/strategy.rs:170-267 | which list goes with which reason; a prefix miss is led by the largest digest among the circuits not open |
| Decisions.OpenRecallAvoided | src/routing/strategy.rs:214-224 | a recalled provider with an open circuit is not tried first while another circuit is not open |
| Decisions.EligibleExact | src/routing/strategy.rs:336-356 | the candidates are the pool's members, or the model's providers, each once |
| Decisions.SelectExact | src/routing/strategy.rs:88-170 | whose policy applies, when the index is consulted, and which order is the baseline |
| Decisions.LatencyReason | src/routing/strategy.rs:404-433 | the latency policy's reason says what was known of its first choice |
| Routing.MoveProviderToFront | src/routing/strategy.rs:582-599 | the loop moves the named provider ahead and loses nothing |
| Routing.MoveToFrontShape | src/routing/strategy.rs:582-599 | the others keep their order |
| Routing.RendezvousWins | src/routing/strategy.rs:658-666 | the chosen provider beats every other by digest, then name |
| Routing.PlacementOrderFree | src/routing/strategy.rs:658-678 | placement depends only on the set of providers, whatever the hash |
| Routing.PlacementSurvivesRemoval | src/routing/strategy.rs:658-678 | losing any provider but the winner moves nothing |
| Routing.PlacementOnArrival | src/routing/strategy.rs:658-678 | a newcomer wins or nothing moves |
| Routing.CandidatesUnique | src/routing/strategy.rs:336-384 | the policy order is the only strictly sorted arrangement of the eligible providers |
| Routing.SelectPermutesEligible | src/routing/strategy.rs:88-266 | every branch returns exactly the eligible providers, pool members or else model matches, each once |
| Routing.SelectOrderFree | src/routing/strategy.rs:88-266 | the whole decision ignores configuration order |
| Routing.MinIsLeast | src/routing/strategy.rs:538-563 | the load minimum is at most every candidate's load |
| Routing.PrefixHitHead | src/routing/strategy.rs:197-243 | a prefix hit is led by the latest live record's provider: not open, no recent errors, load within the threshold of every healthy provider |
| Routing.LatestRecordHits | src/routing/strategy.rs:197-243 | conversely such a provider makes a prefix hit |
| Routing.PrefixMissHead | src/routing/strategy.rs:253-259 | a miss is led by the rendezvous winner of the healthy, the others in baseline order |
| Routing.CircuitOpenLast | src/routing/strategy.rs:601-612 | when circuits decide, no open one precedes one that is not |
| Routing.LoadImbalancedOrder | src/routing/strategy.rs:614-656 | when load decides, lighter comes first and ties keep the baseline order |
| Routing.PrefixHitServedFirst | src/routing/fallback.rs:157-203 | on a hit with closed circuit and free slot the first attempt goes to the recorded provider |
| Sse.SplitAssembles | src/providers/sse.rs:20-25 | splitting loses nothing and leaves no delimiter in any piece or in the rest |
| Sse.SplitUnique | src/providers/sse.rs:20-25 | there is only one such split |
| Sse.SplitResumes | src/providers/sse.rs:17-25 | later text only continues the split of the rest |
| Sse.EventDataSize | src/providers/sse.rs:26-30 | event data is never larger than its event, so its size check cannot fire |
| Sse.DataOfExact | src/providers/sse.rs:39-52 | a line carries data iff it is data:, white space, and text that does not start with white space |
| Sse.LinesExact | src/providers/sse.rs:39-52 | lines end at newlines, each with at most one carriage return before it |
| Sse.DataLinesExact | src/providers/sse.rs:39-52 | an event's data lines in order, other lines left out |
| Sse.EventDataExact | src/providers/sse.rs:39-52 | an event is dropped iff no line carries data; else its data lines are joined by newlines |
| Sse.TrimStartExact | src/providers/sse.rs:39-52 | trimming takes leading white space and nothing else |
| Sse.SseDataParser.PushChunk | src/providers/sse.rs:12-36 | fails iff buffer and chunk exceed the cap, changing nothing; else emits the events of the whole and keeps the rest |
| Sse.ChunkingIndependent | src/providers/sse.rs:12-36 | events and rest do not depend on how the input was cut |
| Sse.FailsIffTooLarge | src/providers/sse.rs:13-15 | a run fails iff at some chunk the rest of everything before and the chunk are too large |
| Sse.SplitChunkAccepted | src/providers/sse.rs:12-36 | cutting an accepted chunk in two changes nothing |
| Sse.RoundTrip | src/providers/sse.rs:12-51 | encoded messages come back, one event each and in order, through any chunking |
| Streams.StreamMetricsGuard.Finish | src/telemetry/metrics.rs:107-131 | only the first outcome is recorded |
| Streams.Upstream.NextStreamItem | src/routes/shared.rs:27-43 | the first event and then each upstream item once, in order; only waiting can be cut short |
| Streams.FeedExact | src/routes/shared.rs:27-43 | the driver's event first, then the provider's own |
| Streams.ChatBody | src/routes/chat.rs:526-680 | what a chat stream emits and records when dropped at any suspension |
| Streams.Settle | src/routes/chat.rs:616-680 | one outcome and one request result |
| Streams.ChatPromises | src/routes/chat.rs:526-680 | one outcome; one result unless left early; only chunks before the last event; `[DONE]` iff the provider completed |
| Streams.EndExact | src/routes/chat.rs:560-640 | outcome, category by name and rewritten attempt for each item that ends a stream |
| Streams.ChatExact | src/routes/chat.rs:536-680 | what a chat consumer of any patience is sent and what is recorded, position by position |
| Streams.ResponseExact | src/routes/compat.rs:354-520 | the same for a Responses consumer, with the cap of 262 144 characters |
| Streams.PiecesExact | src/routes/compat.rs:366-420 | every piece of every chunk counts, in order |
| Streams.ChatPrefix | src/routes/chat.rs:526-680 | a less patient run emits a prefix of a more patient one |
| Streams.DoneYetCancelled | src/routes/chat.rs:560-565 | after `[DONE]` the outcome is completed iff the client polls once more, otherwise cancelled |
| Streams.DoneButCancelled | src/routes/chat.rs:560-565 | a concrete stream that ends with `[DONE]` and is counted as cancelled |
| Streams.PassDeltas | src/routes/compat.rs:370-398 | a chunk's pieces are emitted until one would pass the cap or the consumer leaves |
| Streams.OnChunk | src/routes/compat.rs:370-398 | a chunk goes on, is left in the middle or ends the stream at a piece that is too long |
| Streams.OnEnd | src/routes/compat.rs:399-444 | any other item ends the stream with its own outcome and error |
| Streams.ResponseLoop | src/routes/compat.rs:366-450 | the loop stops at an end or because the consumer left |
| Streams.ResponseBody | src/routes/compat.rs:354-527 | what a Responses stream emits and records when dropped at any suspension |
| Streams.ResponseShape | src/routes/compat.rs:354-527 | after the pieces comes nothing, an error, the completed response, or that and the end marker |
| Streams.ResponsePromises | src/routes/compat.rs:354-527 | one outcome; the completed text is the concatenation of the emitted pieces and within the cap; `[DONE]` last, only after it and only with a recorded success |
| Streams.ResponsePrefix | src/routes/compat.rs:354-527 | a less patient Responses run emits a prefix of a more patient one, and the same if it ran to the end |
| Streams.NotPast | src/routes/compat.rs:372-398 | no run emits anything beyond a place where the stream ends |
| Opening.CallOnce | src/routing/fallback.rs:365-369 | one call under its own guard, which outlives it only on success |
| Opening.OpenCandidate | src/routing/fallback.rs:351-491 | the retry loop makes a complete try, logs it, and leaves no call in flight but a successful one |
| Opening.Consider | src/routing/fallback.rs:331-499 | one candidate visited as breaker, admission and replies decide; its slot and call stay only with a success |
| Opening.Walk | src/routing/fallback.rs:290-507 | the streaming driver with real guards reports the finished walk that the free slots at its start decide, and gives back all it does not hand over |
| Opening.OpenStream | src/routing/fallback.rs:290-507 | and the prefix index gains exactly one record iff the walk succeeded under affinity |
| Opening.Complete | src/routing/fallback.rs:115-288 | the same of a request without streaming |
| Opening.Remember | src/routing/fallback.rs:594-605 | a success under affinity adds one record of its provider, anything else none |
| Opening.LatestIsSuccess | src/routing/fallback.rs:594-605 | after any sequence of requests the latest record of a fingerprint names the provider of the latest success under it |
| Opening.GiveBackSlot | src/routing/admission.rs:291-303 | a candidate's slot goes back and the controller is as it was before |
| Serving.Generate | src/routes/chat.rs:526-680 | what either route's generator emits and records, or nothing if it is never polled |
| Serving.Serve | src/routes/chat.rs:526-531 | for every patience and for a stream never polled: both admission guards give back each held slot once, the call leaves the calls in flight, one request less is open, and the result is logged at most once |
| Serving.DropSlots | src/routing/admission.rs:291-303 | both admission guards go: every count falls by the slots they held |
| Serving.DropMetrics | src/routes/shared.rs:62-71 | the result is recorded and both metrics guards go |
| Serving.Arrive | src/routes/compat.rs:84-112 | admitted iff there is room, with both guards; a refused request is recorded as rejected by the chat route only and changes no counter |
| Serving.ArriveAtChat | src/routes/chat.rs:163-199 | the chat route, which counts the request before it asks |
| Serving.ArriveAtResponses | src/routes/compat.rs:84-112 | the responses route, which counts it afterwards and records no refusal |
| Serving.StreamAdmitted | src/routes/chat.rs:400-531 | an admitted request gives everything back and is recorded as the driver's report or its stream calls for |
| Serving.UnopenedEntry | src/routes/compat.rs:251-345 | a failed driver is a failure without usage, with the calls and last category only of a provider failure |
| Serving.UnopenedExact | src/routes/compat.rs:251-345 | what is recorded of a walk that opened no stream: the category by name of the reported error with all calls, or no provider, or rejection |
| Serving.TurnedAwayCounts | src/routes/chat.rs:163-199 | what the counters say of a request turned away, by route |
| Serving.StreamRequest | src/routes/chat.rs:163-531 | a streamed request from arrival to end: turned away iff there is no room; else the driver reports the finished walk against the free slots, the trace is the route's for every patience, the log grows by what the ending calls for, the prefix index by a success under affinity, and admission counters, calls in flight and open requests are restored |
| Serving.EntryOf | src/routes/chat.rs:616-662 | a stream's result is recorded with usage iff it succeeded |
| Metrics.SumOrderFree | src/storage/sqlite.rs:186-262 | sums over rows do not depend on row order |
| Metrics.CallsSplit | src/telemetry/metrics.rs:413-458 | per provider, requests are successes plus errors; in all, likewise |
| Metrics.CountersDetermined | src/telemetry/metrics.rs:324-366 | counters that agree with the same facts in any order are equal |
| Metrics.FoldRequestAgrees | src/storage/sqlite.rs:186-208 | a request row adds exactly its contribution to every counter |
| Metrics.RecordCallAgrees | src/telemetry/metrics.rs:413-458 | an attempt adds exactly its contribution to every counter |
| Metrics.RecordIsFold | src/telemetry/metrics.rs:324-366 | recording a paired request is folding its row |
| Metrics.RequestWeights | src/telemetry/metrics.rs:324-366 | what a request adds to each number |
| Metrics.CallWeights | src/telemetry/metrics.rs:413-458 | what a call adds, and to which provider |
| Metrics.NumbersMean | src/telemetry/metrics.rs:172-206 | which number holds which sum over the log |
| Metrics.TablesMean | src/telemetry/metrics.rs:172-206 | which table holds which sums, and which providers are listed |
| Metrics.ErrorTablesMean | src/telemetry/metrics.rs:172-206 | the same of the tables of errors and fallbacks |
| Metrics.QueueUnitsExact | src/telemetry/metrics.rs:20-34 | one unit for the call and one for each started 1024 tokens |
| Metrics.CostOrderFree | src/storage/sqlite.rs:186-208 | cost sums do not depend on row order |
| Metrics.WindowSnoc | src/telemetry/metrics.rs:460-479 | a window holds exactly the last 1024 samples |
| Metrics.SampleCallAgrees | src/telemetry/metrics.rs:468-479 | latency and error windows of every provider are the last 1024 of its history |
| Metrics.SampleRequestAgrees | src/telemetry/metrics.rs:460-466 | the request latency window is the last 1024 requests |
| Metrics.BeginKeepsGauges | src/telemetry/metrics.rs:217-226 | starting a call keeps in-flight counts and pressure equal to the sums over live calls |
| Metrics.EndKeepsGauges | src/telemetry/metrics.rs:228-235 | ending it too, without cutting off at zero, and zero entries vanish |
| Telemetry.MetricsRegistry.constructor | src/telemetry/metrics.rs:172-206 | an empty registry agrees with the empty log |
| Telemetry.MetricsRegistry.RecordChat | src/telemetry/metrics.rs:324-366 | a recorded request of any category extends the log that counters, costs and windows agree with |
| Telemetry.MetricsRegistry.RecordProviderAttempts | src/telemetry/metrics.rs:413-458 | the loop over attempts does so call by call |
| Telemetry.MetricsRegistry.BeginProviderRequest | src/telemetry/metrics.rs:217-226 | adds one live call |
| Telemetry.MetricsRegistry.EndProviderRequest | src/telemetry/metrics.rs:228-235 | removes one live call |
| Telemetry.MetricsRegistry.BeginRequest | src/telemetry/metrics.rs:209-211 | one more open request |
| Telemetry.MetricsRegistry.EndRequest | src/telemetry/metrics.rs:213-215 | one open request less, never cut off at zero |
| Telemetry.MetricsRequestGuard.constructor | src/routes/shared.rs:45-60 | counts the request |
| Telemetry.MetricsRequestGuard.Drop | src/routes/shared.rs:62-71 | gives it back once |
| Telemetry.ProviderInFlightGuard.constructor | src/telemetry/metrics.rs:43-61 | registers the call with its queue units |
| Telemetry.ProviderInFlightGuard.Finish | src/telemetry/metrics.rs:63-76 | gives it back once |
| Telemetry.StatsSnapshot | src/storage/sqlite.rs:154-282 | the row loops compute counters, costs, averages and percentiles that agree with the rows |
| Telemetry.FoldRequestRows | src/storage/sqlite.rs:186-208 | the request rows, with the latency sum |
| Telemetry.FoldAttemptRows | src/storage/sqlite.rs:216-262 | the attempt rows on top of them |
| Telemetry.ProviderAverages | src/storage/sqlite.rs:264-273 | the unguarded division gives the registry's guarded averages, because a listed provider has calls |
| Telemetry.AveragesExact | src/telemetry/metrics.rs:368-411 | average latency and error rate times the number of logged requests are their sums; the rate lies between zero and one |
| Telemetry.RecordAndRecompute | src/telemetry/metrics.rs:324-366 | recording any paired requests in a new registry and recomputing from their rows in any order gives equal counters, costs and averages, and equal 95th percentiles of requests and of each provider whose number of samples allows it |
| Telemetry.RegistryMatchesRows | src/storage/sqlite.rs:154-282 | counters and costs that agree with a log and with its rows, in any row order, are equal |
| Percentiles.PercentilesAgreeIff | src/storage/sqlite.rs:311-320 | registry and rows report the same 95th percentile of all lists of n samples iff n is zero, or at most 1024 and no multiple of twenty |
| Percentiles.FullTwentiesDiffer | src/telemetry/metrics.rs:614-623 | for each multiple of twenty up to 1024, samples for which the rows report the next larger one |
| Percentiles.FullWindowDiffers | src/telemetry/metrics.rs:460-466 | for each larger number, samples for which the registry has forgotten the slow ones |
| Percentiles.RanksOf | src/storage/sqlite.rs:311-320 | both ranks are in range; the rows' is one higher iff the number is a multiple of twenty |
| Percentiles.RanksExact | src/telemetry/metrics.rs:614-623 | the registry's rank is the first that 95 of 100 samples do not exceed; the rows' that of 95 of 100 of the others |
| Percentiles.RowPercentiles | src/storage/sqlite.rs:182-278 | the loops report the percentile of all request latencies and of each provider's |
| Percentiles.RowsComparable | src/storage/sqlite.rs:182-278 | a log and its rows in any order report the same percentile if the number of samples allows it |
| Percentiles.AscendingFacts | src/telemetry/metrics.rs:614-623 | the percentile is taken from the samples in ascending order |
| Percentiles.RisingUnique | src/telemetry/metrics.rs:614-623 | there is one ascending order, so the order of samples does not matter |
| Telemetry.SnapshotReflects | src/telemetry/metrics.rs:368-411 | a snapshot shows, for each provider, the 95th percentile of its recent calls, the average of all of them, the size of its error window and its calls and units in flight |
| Telemetry.RecentMeansEver | src/routing/strategy.rs:531-536 | a snapshot of the registry shows recent errors of a provider iff any of its logged calls ever failed |
| Telemetry.HitNeverFailed | src/routing/strategy.rs:197-243 | with a snapshot of the registry, a prefix hit leads only to a provider none of whose logged calls failed and whose calls in flight are within the threshold of every healthy one's |
| Telemetry.FailureNeverFades | src/routing/strategy.rs:531-536 | after one failed call and any number of successful ones the snapshot still shows recent errors, and a healthy recorded provider is passed over for the baseline order |
| Models.ValidateModelPools | src/config.rs:859-950 | no complaint iff the pools are in order; then the result is their public IDs |
| Models.CheckMembers | src/config.rs:907-920 | no complaint iff every trimmed member is a configured provider |
| Models.CheckAliases | src/config.rs:922-946 | no complaint iff the aliases are free and new; then they are the IDs seen |
| Models.ValidateProviders | src/config.rs:752-857 | no complaint iff providers, pools and alias targets are in order |
| Models.CheckProviders | src/config.rs:792-857 | no complaint iff names are distinct and every provider and its settings are well formed |
| Models.CheckSettings | src/config.rs:952-1052 | no complaint iff failure rate, URL, key, timeout, limit, backoffs and breaker settings are in order |
| Models.AcceptedBackoff | src/routing/fallback.rs:509-520 | with accepted settings every pause lies between the first and the longest configured one plus jitter, and fails only for the largest jitter |
| Models.AcceptedBreaker | src/config.rs:970-1052 | with accepted settings an open circuit allows at most the configured probes in each configured open duration, without further condition |
| Models.CheckTargets | src/config.rs:784-790 | no complaint iff every alias target is a provider's model or a pool's ID |
| Models.FromConfigs | src/routing/model_pools.rs:20-52 | the loops build the specified index |
| Models.PoolIdUnique | src/routing/model_pools.rs:20-58 | in an accepted configuration a public ID belongs to one pool and the index finds it |
| Models.ListModels | src/routes/models.rs:12-104 | an ID is listed iff it has an entry, with that entry |
| Models.GroupByModel | src/routes/models.rs:13-19 | the loop collects each model's providers |
| Models.PoolServed | src/routing/strategy.rs:336-356 | with clean names a pool's candidates are its members, at least one |
| Models.ModelServed | src/routing/strategy.rs:336-356 | a model's candidates are the providers that serve it, at least one |
| Models.ListedResolves | src/routes/models.rs:12-104 | with clean names every listed ID and alias has a candidate |
| Models.ListingTruthful | src/routes/models.rs:12-104 | in any configuration the listed model is where requests go iff the ID is not redirected; with clean names in an accepted one the providers shown are its candidates, at least one |
| Models.ShownIff | src/routes/models.rs:12-104 | in any accepted configuration, when exactly the providers shown are the candidates |
| Models.PoolCandidates | src/routing/strategy.rs:336-356 | a pool's candidates are its members that are literally provider names |
| Models.SpacedListing | src/routes/models.rs:56-79 | in an accepted configuration a pool ID with a space is listed with its members while an alias sends its requests elsewhere |
| Models.ServedIff | src/routing/strategy.rs:336-356 | for any accepted configuration, when exactly a name has candidates |
| Models.RedirectedListing | src/routes/models.rs:43-54 | in an accepted configuration a redirected model is listed with providers its requests never reach |
| Models.StraySpace | src/config.rs:907-920 | a member with a stray space is accepted and listed, and leaves its pool without candidates |

## Left out

- Floating point: latencies, costs, tokens and percentages are real numbers; rounding is not modelled.
- Steps of the in-flight gauges: a slot and the guard of its first call are taken in one step and dropped in one step, and a retry replaces its guard in one step; readings between the two locks are not modelled.
- Streamed requests in `Serving` run with nothing else in between; interleavings are those of `GatewayRuns` and `InFlight`. Breaker answers are arbitrary there, and one latency stands for all readings of the clock.
- Mutex poisoning: locks never fail, so the branches that skip or refuse on a poisoned lock are missing.
- Clock order: within one lock, readings never go back; readings taken before waiting for the lock are not reordered.
- SHA-256 and JSON encoding: the hash is an arbitrary function of fingerprint and provider name, and a fingerprint is its canonical value.
- HTTP, axum, middleware, tracing, Prometheus text, SQL, key storage, benchmark and admin programs.
- Placeholder endpoints, the mock provider, health probes, error-to-status mapping, the response and semantic caches, runtime cache signals: each is settled by one branch or lives in a library.
- The token budget check of admission: two comparisons.
- Configuration checks outside `validate_providers` and `validate_model_pools`, and the messages of complaints.
- Redis time and failures: the server expires keys by the timestamps of the calls, and the fallback to the local limiter is not modelled.
- Full server-sent events: only what the parser accepts; chunks end at character boundaries, since callers refuse others before pushing.
- Counters of the metrics registry are unbounded; 64-bit overflow is not modelled, and snapshots are described for at most 2^64 - 1 calls in flight. Nested maps by provider and category are one map on pairs. Time to first token and routing decision counts are left out.
- Reading circuits during selection: one decision sees one state of all circuits; its lookup's effect on the index is modelled with the index.
- Order of `/v1/models`: entries are a map by ID; the final sort by ID is not modelled.
- Log writes and key usage of streams: only that they are awaited, not what they store.
- FallbackLoops.CompleteChatStream: opening a stream and reading its first event are one reply, because nothing else happens in between.
