# Provider health daemon: a verified model

This project models the decision logic of the provider health daemon and proves
what that logic keeps over whole runs. One module stands for one component:

- `MetaRouter`, `RoundRobin`, `ModelIdMapper`, `RouterRegistry`: which downstream
  router serves a request. Smooth weighted round-robin over an eligible set that
  depends on catalogs, failure streaks, exclusions and the data policy; the
  translation of model IDs; the health of the routers themselves.
- `CircuitBreaker`, `Cooldown`, `HealthEntries`, `HealthRegistry`: which provider or
  model is in use. The breaker with its half-open leases and pruned sliding window;
  the life of an entry between healthy, cooling down, probing, disabled and absent.
- `FallbackLadder`, `RaceLeases`, `LeakedLeases`: one request, forwarded to model after
  model, or to two at once, with its hop, call and time budgets and its breaker leases;
  and what leases that are not returned do to the breaker.
- `ChunkedStream`, `DegenerationGuard`: the streamed response as bytes, read back by
  a decoder written after section 7.1.3 of RFC 9112, and the guard that cuts a
  stream which repeats itself.
- `ResponseCache`, `SmartRouter`, `ProxyManager`, `MetricsHistory`: the byte-capped
  cache, least-recently-used spreading, proxy assignment, history downsampling.
- `Text`, `Sequences`, `Arithmetic`, `StableSort`, `Clock`: the operations they share.

Objects that the program updates in place are classes here (`MetaRouterSelector`,
`RouterRegistry`, `ModelIdMapper`, `HealthRegistry`, `Handler`, `Race`, `Response`,
`Cache`, `SmartRouter`, `MetricsPersistence`). Each method's contract ties the new
state to a specification function or relation, and the properties are lemmas about
those, over every run.

The clock is an integer (microseconds in the registry and the cache, seconds in the
router registry and the history) passed to each step. Jitter is a real parameter.
What the network answers is an input: in `FallbackLadder` a script says for every hop
what routing, the breaker, the deadline, the upstream call, the second router and the
ranked chain are going to be, and every theorem is for all scripts.

## Where the code differs from what it says

- `mark_error` is meant to keep the longer cooldown, but hands over a value the
  calculator cannot parse; the exception is swallowed and the old deadline is ignored
  (`HealthEntries.OldDeadlineIgnored`). So the longer one is kept exactly when the earliest
  deadline the new error can set is no earlier (`HealthEntries.KeepsLongerIff`), and a
  week can shrink to a minute (`HealthEntries.CooldownShrinksInARun`).
- Exponential backoff does not grow for a base above 24 hours: the weekly limit drops
  to 24 hours on its second failure (`Cooldown.BackoffGrowsIffBaseWithinCap`).
- Oversized prompts are meant never to lock a model; `calculate` agrees, and a cleanup
  that finds the cooldown over after 30 of them locks it, and only that does
  (`HealthEntries.OversizedPromptsLockIff`, `HealthEntries.PromptsThenCleanup`).
- A rate limit reported as permanent locks a provider, but the thirtieth failure turns
  the lock into a one-day cooldown (`Cooldown.PermanentLimitLocksIff`).
- A canonical ID that is empty leaves `to_router_specific` as it is, so a catalog entry
  that is only a prefix is translated to an ID the catalog does not have
  (`ModelIdMapper.EmptyCanonicalEscapes`).
- `allowed` documents that sensitive data needs an explicitly safe policy. That holds for
  every policy but the unknown one (`MetaRouter.SafePolicyIffKnown`): the code treats
  sensitive and internal data alike, and sends sensitive data to a provider of unknown
  policy exactly when it would send public data (`MetaRouter.SensitiveGoesToUnknown`).
- A failed access error is said to reach the client as a generic 503; the code changes
  the body but sends the upstream's status (`FallbackLadder.ClientErrorsShielded`).
- A router's good probes are counted as consecutive, but one or two failures between two
  of them do not reset the count; three do, unless a probe is announced after them
  (`RouterRegistry.SecondProbePromotesIff`).
- A provider whose name is empty is never recorded as tried
  (`FallbackLadder.NamelessProviderRepeats`).
- A lease is not returned when the deadline has passed between taking it and calling
  upstream (`FallbackLadder.LeasesReturned`), nor when one model is admitted twice to a
  race (`RaceLeases.RaceReturnsLeases`). Three such requests leave a half-open breaker
  refusing every attempt until an outcome, a release or a reload comes from elsewhere
  (`LeakedLeases.ThreeExpiredRequestsWedge`).
- Overwriting a live cache entry leaves the byte counter too high
  (`ResponseCache.CounterExactIffAbsent`).

## Model

| member | source | states |
|---|---|---|
| RoundRobin.PickConserves | meta_router.py:137-147 | A pick leaves the sum of the current weights over all registered routers unchanged, whichever pool it was made from. |
| RoundRobin.DebtBound | meta_router.py:137-147 | Over every run of picks on a fixed pool no router's current weight falls to minus the total weight. |
| RoundRobin.FairShare | meta_router.py:137-147 | After every k picks a router of weight w was picked fewer than k*w/W + 1 times, and at least k*w/W - (n-1)(W-1)/W times. |
| RoundRobin.FullCycle | meta_router.py:137-147 | After exactly W picks every router was picked exactly as often as its weight says, and every current weight is zero again. |
| RoundRobin.Periodic | meta_router.py:137-147 | The picks repeat with period W. |
| RoundRobin.EveryWindowIsFair | meta_router.py:137-147 | Any W consecutive picks, wherever they start, contain each router exactly as often as its weight, so none starves. |
| MetaRouter.MetaRouterSelector.ServableModels | meta_router.py:38-64 | Keeps, in order, exactly the models some healthy router serves. |
| MetaRouter.MetaRouterSelector.EligibleRouters | meta_router.py:66-135 | The policy gate first, then no healthy router, then the routers that serve the model; the result names each router once. |
| MetaRouter.MetaRouterSelector.RoutersServing | meta_router.py:91-135 | The Kiro branch, canonical match, provider prefix or bare name, in that order of preference, else unavailable. |
| MetaRouter.MetaRouterSelector.PickWeighted | meta_router.py:137-147 | Raises every weight by its router's own, picks the first largest, and charges that one the total; picks nothing only from an empty pool. |
| MetaRouter.MetaRouterSelector.RaiseAll | meta_router.py:141-144 | The raising loop leaves every pool weight raised once, others alone, and finds the first largest. |
| MetaRouter.MetaRouterSelector.SelectRouter | meta_router.py:159-183 | Refuses, changing no weight, exactly when no eligible router is left after the exclusions; otherwise one weighted pick from the pool; the weights of all routers still sum to zero. |
| MetaRouter.MetaRouterSelector.Choose | meta_router.py:162-183 | Exclusions, then the streak filter unless it would drop everyone, then the pick. |
| MetaRouter.MetaRouterSelector.PickHealthy | meta_router.py:170-182 | A non-empty pool always yields a pick, so the last-resort arm is unreachable. |
| MetaRouter.MetaRouterSelector.OnSuccess | meta_router.py:185-188 | Counts the success and ends the streak of that router alone. |
| MetaRouter.MetaRouterSelector.OnFailure | meta_router.py:190-200 | Counts the failure, lengthens the streak, tells the registry, and answers with a weighted pick among the eligible routers other than the failed one. |
| MetaRouter.MetaRouterSelector.Fallback | meta_router.py:202-209 | A weighted pick among the eligible routers outside the exclusions, or a refusal that changes nothing. |
| MetaRouter.MetaRouterSelector.ModelForRouter | meta_router.py:149-157 | An empty model comes back as it is; for a known router its catalog is registered, and no other, and the canonical ID is translated against it; for an unknown one nothing is registered. |
| MetaRouter.StreaksAreAvoided | meta_router.py:167-170 | A router at or above the streak threshold is in the pool exactly when every eligible, non-excluded router is at or above it. |
| MetaRouter.EligibleIff | meta_router.py:66-135 | Past the policy gate a healthy router is eligible exactly when no model is asked for; or it is Kiro and lists the bare name of a kr/ model; or no such Kiro is healthy and it lists the model; or no router does either and it lists a model of the same provider or the bare name. |
| MetaRouter.GatedIff | meta_router.py:66-90 | A request is gated exactly when it asks for a model with data that is not public and prompts to the provider may be trained on, or no router is healthy. |
| MetaRouter.GateIffTrainingPossible | data_policy.py:101-110 | Non-public data for a model is gated exactly when prompts to its provider may be trained on; past the gate the data makes no difference to who is eligible. |
| MetaRouter.SensitiveGoesToUnknown | data_policy.py:101-110 | Sensitive data is routed to a model of unknown policy exactly when public data is. |
| MetaRouter.SafePolicyIffKnown | data_policy.py:101-110 | That sensitive data needs an explicitly safe or local policy holds for a policy exactly when it is not the unknown one. |
| MetaRouter.PrefilterEqualsSelector | meta_router.py:38-64 | For every registry state and non-empty model, the pre-filter keeps the model exactly when selection for public data without exclusions would not raise. |
| MetaRouter.KiroPassesPrefilter | meta_router.py:98-107 | Whatever the Kiro branch would route also passes the generic tests the pre-filter makes. |
| MetaRouter.SelectedRouterGetsItsOwnId | meta_router.py:98-157 | A router chosen by canonical match or by the Kiro branch is sent an ID from its own catalog exactly when the canonical ID is neither empty nor router-level, or is itself listed; the ID still names the same model. |
| ModelIdMapper.ModelIdMapper.RegisterMapping | model_id_mapper.py:56-62 | From then on the router's prefixes are the given ones, every other router's are what they were, and routers stay in the order they were first registered. |
| ModelIdMapper.WithSlash | model_id_mapper.py:56-62 | The prefixes registered are exactly the non-empty ones given, each with a slash added unless it ends in one. |
| ModelIdMapper.RegisteredPrefixes | model_id_mapper.py:56-62 | Looking a router up after registering gives the new prefixes for that router and the old ones for every other; the key order changes only by a new key at the end. |
| ModelIdMapper.ModelIdMapper.RegisterCatalog | model_id_mapper.py:64-66 | Replaces one router's catalog. |
| ModelIdMapper.TranslationLandsInCatalog | model_id_mapper.py:81-105 | For a catalog that matches the canonical ID, translation gives an ID of the catalog exactly when the canonical ID is not passed through verbatim, or is listed. |
| ModelIdMapper.TranslationKeepsModel | model_id_mapper.py:68-105 | What translation gives is the canonical ID or canonicalises back to it. |
| ModelIdMapper.TranslationOrder | model_id_mapper.py:81-105 | What wins in a translation: an explicit mapping, then the ID itself if listed, then the first catalog entry with the same canonical ID, then the router's first prefix under which the catalog lists it or is empty, else the ID as it is. |
| ModelIdMapper.EmptyCanonicalEscapes | model_id_mapper.py:81-105 | A catalog entry that is only a prefix is matched and then translated to an ID the catalog lacks. |
| ModelIdMapper.CanonicalStripsOne | model_id_mapper.py:68-79 | For every default prefix and every rest, a prefixed ID that is not router-level canonicalises to the rest. |
| ModelIdMapper.CanonicalFixedIff | model_id_mapper.py:68-79 | An ID is left alone exactly when it is empty, router-level or without a default prefix. |
| ModelIdMapper.CanonicalTwiceIff | model_id_mapper.py:68-79 | Nested prefixes lose one layer per call: canonicalising a prefixed ID twice is canonicalising it once exactly when the rest is empty, router-level or without a default prefix. |
| ModelIdMapper.CanonicalNotIdempotent | model_id_mapper.py:68-79 | The ID groq/kr/x takes two calls to reach x. |
| ModelIdMapper.KiroCanonical | model_id_mapper.py:15-23 | Canonicalising a kr/ ID removes exactly that prefix, unless the ID is router-level. |
| RouterRegistry.RouterRegistry.constructor | router_registry.py:33-46 | One entry per configured name, all unknown with no failures. |
| RouterRegistry.RouterRegistry.GetHealthyRouters | router_registry.py:56-60 | Exactly the healthy routers, each once. |
| RouterRegistry.HealthyRoutersSpec | router_registry.py:56-60 | They come lowest priority number first, heavier first within a priority, and else in the order they were registered. |
| RouterRegistry.RouterRegistry.MarkHealthy | router_registry.py:66-94 | One good probe: clears failures and cooldown, and promotes by way of probing or at once for liveness paths. |
| RouterRegistry.RouterRegistry.MarkUnhealthy | router_registry.py:100-118 | One failure: a strike, and from the third on a cooldown with capped exponential backoff. |
| RouterRegistry.RouterRegistry.MarkProbing | router_registry.py:120-125 | Marks a known router as probing and nothing else. |
| RouterRegistry.RouterRegistry.RefreshModels | router_registry.py:127-132 | Replaces a known router's models and nothing else. |
| RouterRegistry.StrikeHysteresis | router_registry.py:66-118 | Over every run a healthy router has fewer than three failures since its last success, and a cooling one at least three, with its deadline the backoff after its latest failure. |
| RouterRegistry.HealthChangesIff | router_registry.py:66-125 | Over every run: a router becomes healthy exactly on a good probe of a liveness path or a second standing one, is probed exactly from an announced probe or a first good one on, and cools down exactly from its third failure in a row on. |
| RouterRegistry.LeavesHealthyIff | router_registry.py:66-132 | Over every run a healthy router stops being healthy exactly on an announced probe or its third failure since the last success; its models are the latest reported. |
| RouterRegistry.StampsAreRead | router_registry.py:66-118 | The stored count, stamps and deadline are those of the history: a deadline exactly from the third failure in a row on, the backoff of the count after the latest failure. |
| RouterRegistry.PromotionTakesProbes | router_registry.py:66-94 | Over every run a router probed through its full catalog is healthy only after two good probes, one probed for liveness only after one. |
| RouterRegistry.SecondProbePromotesIff | router_registry.py:66-125 | Whatever happens between two good probes of a router probed through its full catalog, the second promotes it exactly when fewer than three failures came between, or a probe was announced after the last one. |
| RouterRegistry.BackoffBounds | router_registry.py:110-118 | Backoff is a minute for the third strike and doubles with each further one, up to an hour. |
| CircuitBreaker.OpenRefuses | health_registry.py:443-481 | After opening at time t every attempt before t + 180 seconds is refused, over every run. |
| CircuitBreaker.NeverOpenedAdmits | health_registry.py:443-481 | Over every run in which it never opens, a breaker admits every attempt. |
| CircuitBreaker.RefusedIff | health_registry.py:443-481 | Over every run an attempt is refused exactly when the breaker opened less than 180 seconds before and has not been half-open since, or is half-open with three slots taken. |
| CircuitBreaker.SlotsAreCounted | health_registry.py:393-494 | The half-open counter is the number of slots taken, read off the history: one for each admitted acquisition, one back for each success or release, all back on a failure or a restart. |
| CircuitBreaker.StateChangesIff | health_registry.py:393-481 | Over every run the breaker opens exactly on the fifth failure within 600 seconds or any failure in half-open, becomes half-open exactly on the first attempt 180 seconds after opening, and closes exactly on the third success of a half-open phase. |
| CircuitBreaker.StampsAreKept | health_registry.py:393-481 | The stamps are those of the last failure and of the last change of state. |
| CircuitBreaker.ClosesAfterProbation | health_registry.py:393-481 | A breaker closes only on a success, after a half-open phase entered at least 180 seconds after opening, with at least 3 successes and no failure in it. |
| CircuitBreaker.SlotsMatchLeases | health_registry.py:420-494 | In half-open the slot counter stays within 3 and never exceeds the leases taken in this phase and not yet ended, over every interleaving. |
| CircuitBreaker.IdleBreakerAdmits | health_registry.py:443-494 | With no lease outstanding a half-open breaker admits a probe, so no slot is ever lost. |
| CircuitBreaker.WindowAgrees | health_registry.py:341-345 | The pruned failure list shows the same failures of the last 600 seconds as the full history since the breaker last became closed. |
| CircuitBreaker.TripsOnFifth | health_registry.py:393-418 | A closed breaker trips on exactly the failure that brings the last 600 seconds of the full history to 5. |
| CircuitBreaker.OldOnesAreForgotten | health_registry.py:341-345 | After a failure, or a success while closed, no stored failure is 600 seconds old; after a 429 no stored 429 is. |
| CircuitBreaker.PenaltyAgrees | health_registry.py:498-538 | The 429 penalty is the same function of the full 429 history, in spite of pruning. |
| CircuitBreaker.PenaltyIs | health_registry.py:524-538 | Read off the full 429 history: nothing below three in the last 600 seconds, 100 for the third and 100 more for each further one, up to 500. |
| CircuitBreaker.BreakersAreIndependent | health_registry.py:325-339 | Each provider's breaker is in the state its own events alone lead to. |
| Cooldown.BackoffGrowsIffBaseWithinCap | cooldown.py:141-156 | Over consecutive failures the backoff never shrinks exactly when the base is at most 24 hours. |
| Cooldown.BackoffIsWait | cooldown.py:141-156 | The backoff after n failures in a row is the base times 2 to the n-1, capped at 24 hours from the second failure on and at least half a minute; from the 31st failure on it stays. |
| Cooldown.BackoffDoubles | cooldown.py:141-156 | From a base of half a minute on, the next failure doubles the wait while that is within 24 hours, and makes it 24 hours once it is not. |
| Cooldown.JitterBand | cooldown.py:161-174 | The deadline is a whole number of seconds away, within 15 percent of the backoff, rounded down. |
| Cooldown.TransportStaysShort | cooldown.py:78-91 | A transport error cools down for half a minute the first time and a minute after that, however many there are, and its count stays at most 2. |
| Cooldown.PermanentLimitLocksIff | cooldown.py:93-139 | A rate limit reported as permanent locks exactly while it is one of the first 29 failures. |
| Cooldown.LocksIff | cooldown.py:78-139 | An error locks exactly when it is the thirtieth or later in a row and neither a rate limit nor an oversized prompt, or an earlier one reported as permanent; transport errors never do. |
| Cooldown.ThirtiethWaits | cooldown.py:93-124 | From the thirtieth in a row on, a rate limit keeps out for a day and an oversized prompt for two minutes. |
| Cooldown.BaseOfRateLimit | health_registry.py:128-135 | A rate-limit type is recovered from its reason with or without the max-failures suffix. |
| HealthEntries.NormalizeIdempotent | provider_aliases.py:47-82 | Normalising a provider name twice is normalising it once. |
| HealthEntries.DenyList | config.py:212 | Names that open with mock or fixture are denied whatever follows, and those that open with test exactly before a dash, an underscore or a colon. |
| HealthEntries.DenyModel | config.py:212 | Names that open with model- are denied exactly when one letter follows, and at most a line break after it. |
| HealthEntries.DenyIgnoresCase | config.py:212 | Letter case makes no difference to the deny list. |
| HealthEntries.AlwaysCoherent | health_registry.py:606-949 | From an empty registry, in every reachable state: healthy means no deadline and no failures, cooling and probing have a deadline, disabled has none, and nothing is garbage. |
| HealthEntries.ProviderChangesIff | health_registry.py:606-949 | Over every run, what changes a provider's entry and to what: a success or reset makes it healthy, an error that counts against it cools it down or locks it, a cleanup has an expired cooldown probed for ten minutes or locks it after thirty failures, and forgets an expired probe; nothing else does. |
| HealthEntries.ModelChangesIff | health_registry.py:606-949 | The same for a model. |
| HealthEntries.CleanupIdempotentIffClockInRange | health_registry.py:851-949 | A second cleanup at the same instant changes and counts nothing, for every coherent table, exactly when the probing deadline lies in the years the expiry test accepts. |
| HealthEntries.TransientErrorsNeverDisableProvider | cooldown.py:78-105 | A provider all of whose errors are transport or non-permanent rate-limit types is never disabled, over every run, however many there are. |
| HealthEntries.TransientErrorsNeverDisableModel | cooldown.py:78-105 | The same for a model. |
| HealthEntries.ErrorsInARowDouble | health_registry.py:657-733 | After k < 30 errors in a row that count against a provider, neither transport nor permanent, the stored count is k and the deadline lies within 15 percent of the base times 2 to the k-1, capped at 24 hours. |
| HealthEntries.ModelErrorsInARowDouble | health_registry.py:657-733 | The same for a model. |
| HealthEntries.HitsAreTracked | health_registry.py:657-733 | Over every run whose errors on a model are oversized prompts, the stored failure count is the number of errors since its last success, reset or removal. |
| HealthEntries.OversizedPromptsLockIff | health_registry.py:867-882 | Over every such run a step turns the model off exactly when it is a cleanup that finds its cooldown expired after at least 30 of them. |
| HealthEntries.PromptsThenCleanup | health_registry.py:867-882 | From an empty registry, oversized prompts in a row and a cleanup once the cooldown is over turn the model off exactly when there were at least 30. |
| HealthEntries.OldDeadlineIgnored | cooldown.py:166-174 | The new deadline does not depend on the one already there. |
| HealthEntries.KeepsLongerIff | cooldown.py:39-185 | A new error keeps the longer cooldown, for every jitter, exactly when the earliest deadline it can set is no earlier than the stored one. |
| HealthEntries.CooldownShrinksInARun | health_registry.py:657-733 | From an empty registry, a weekly limit and then a timeout leave a minute where a week was left. |
| HealthEntries.TokensHaveNoABA | health_registry.py:583-604 | With a strictly increasing clock, a token taken on a cooling, probing or disabled provider equals a later token exactly when no step in between changed that provider's entry. |
| HealthRegistry.CleanEntry | health_registry.py:851-900 | One entry under cleanup: removed, promoted to probing, disabled or kept, and whether it counts. |
| HealthRegistry.Sweep | health_registry.py:851-949 | The cleanup loop treats every entry of a table exactly once, and counts those promoted, disabled or expired. |
| HealthRegistry.HealthRegistry.RecordCbFailure | health_registry.py:393-418 | One failure step of that provider's breaker; nothing for a deny-listed name. |
| HealthRegistry.HealthRegistry.RecordCbSuccess | health_registry.py:420-441 | One success step of that provider's breaker; nothing for a deny-listed name. |
| HealthRegistry.HealthRegistry.CanExecuteCb | health_registry.py:443-481 | Answers whether the breaker admits the call and moves it on, taking a half-open slot when asked to. |
| HealthRegistry.HealthRegistry.ReleaseCb | health_registry.py:487-494 | Gives one half-open slot back, for deny-listed names too. |
| HealthRegistry.HealthRegistry.RecordCb429 | health_registry.py:498-522 | Adds one 429 to the pruned list. |
| HealthRegistry.BreakersAreRuns | health_registry.py:325-538 | The registry keeps for every provider the breaker its own events lead to; one under a deny-listed name stays closed and empty. |
| HealthRegistry.HealthRegistry.Get429Penalty | health_registry.py:524-538 | The penalty comes in steps of 100 up to 500, and is positive exactly from the third recent 429 on. |
| HealthRegistry.HealthRegistry.ProbeTokenMatches | health_registry.py:583-604 | A token that matches pins down the whole entry. |
| HealthRegistry.HealthRegistry.IsModelAvailable | health_registry.py:546-579 | A model is available exactly when neither it nor its provider is disabled, probing, or cooling down with a deadline still to come. |
| HealthRegistry.HealthRegistry.MarkHealthy | health_registry.py:606-625 | Resets the provider and the model, opens the global gate, and feeds the breaker a success; the model is available from then on. |
| HealthRegistry.HealthRegistry.RecordDisabledProbe | health_registry.py:646-655 | Stamps a disabled provider and nothing else. |
| HealthRegistry.HealthRegistry.MarkError | health_registry.py:657-733 | The error step of the entry tables: the global gate, the model or the provider is hit, phantoms and deny-listed names are not, and the breaker is fed a failure except for gate errors and phantoms. |
| HealthRegistry.GateSpec | health_registry.py:657-733 | A gateway-wide error shuts the gate until the deadline its provider would get, and leaves it alone exactly when it would lock. |
| HealthRegistry.HealthRegistry.ForceHealthy | health_registry.py:836-843 | Removes the entries, then marks them healthy, which also opens the global gate. |
| HealthRegistry.HealthRegistry.CleanupExpired | health_registry.py:851-949 | The cleanup step of both tables; the answer is the number of entries it moved. |
| FallbackLadder.Handler.NextFallbackModel | proxy_handler.py:505-523 | The search finds the first model of the chain that the policy allows and that is not spent. |
| FallbackLadder.NextIsBest | proxy_handler.py:505-523 | That model is the best-ranked eligible one: eligible itself, and no earlier one is. |
| FallbackLadder.Handler.PlanFallback | proxy_handler.py:914-930 | The bookkeeping the retrying arms share: the model, and after errors and timeouts its provider, are spent; the attempt is counted only when there is a next model. |
| FallbackLadder.Handler.Start | proxy_handler.py:829-891 | The gates before the call, in order: routing, breaker lease, deadline. |
| FallbackLadder.Handler.Upstream | proxy_handler.py:893-1237 | The reply and its arm do what the specification of one hop says. |
| FallbackLadder.Handler.TryAnotherRouter | proxy_handler.py:946-986 | The second router is tried at most once; it ends the hop when it delivers or raises what is not caught. |
| FallbackLadder.Handler.OnHttpError | proxy_handler.py:935-1128 | The arm for an HTTP error: unreadable body, second router, fallback, or one error response. |
| FallbackLadder.Handler.RetryOrFail | proxy_handler.py:1017-1118 | Which statuses are retried with another model, and which status the client sees otherwise. |
| FallbackLadder.Handler.OnConnectionLost | proxy_handler.py:1130-1200 | The arm for a lost connection: a timeout is a timeout, otherwise the router is penalised and a second one tried. |
| FallbackLadder.Handler.OnUpstreamTimeout | proxy_handler.py:1264-1327 | A timeout falls back, or puts the model or its provider on hold and answers 504. |
| FallbackLadder.Handler.Forward | proxy_handler.py:801-1243 | The recursion terminates, measured by the hop budget, and leaves exactly the trace and the state of the specification. |
| FallbackLadder.GoesOnToBest | proxy_handler.py:1245-1262 | A hop goes on to a model exactly when the reply can be replayed, the hop and time budgets allow it, and that model is the best-ranked one left. |
| FallbackLadder.ErrorsAreRetried | proxy_handler.py:1017-1052 | While a model is left and the budgets last, exactly server errors, 429, access errors and any 4xx of a model the client did not name are retried. |
| FallbackLadder.OneAnswer | proxy_handler.py:893-1243 | The client gets exactly one response head, or none when an exception escapes; one escapes exactly when the last hop reached upstream and raised what no arm catches. |
| FallbackLadder.AnswerIs | proxy_handler.py:865-1243 | The client sees a status exactly when the last hop, or its second router, delivered it; or failed with it, unless it is an unclassified 4xx of a model the client did not name; or it is 504 after the deadline or a timeout; or 503 for a refused, empty, lost or shielded one. |
| FallbackLadder.NothingAfterTheAnswer | proxy_handler.py:893-1327 | Once a response head is out, nothing happens but the return of leases. |
| FallbackLadder.CallBudget | proxy_handler.py:801-1243 | At most two upstream calls for each hop the budget allows. |
| FallbackLadder.FreshRequestIsBounded | proxy_handler.py:801-1243 | A fresh request makes at most three hops and six upstream calls. |
| FallbackLadder.HopsAccountForAll | proxy_handler.py:860-1243 | Over the hops of a request: each that is let in with a guarded model takes a lease and returns it if it reaches upstream; each that reaches upstream calls it once; each left unanswered that has a second router calls that once, and penalises it when its link failed. |
| FallbackLadder.HopsNest | proxy_handler.py:801-1243 | A hop's events come between its opening and the return of its lease, those of the later hops last, so leases are returned in reverse order. |
| FallbackLadder.LeasesReturned | proxy_handler.py:860-1243 | Per provider, every lease taken is returned, even when an exception escapes, except exactly one taken on a last hop whose deadline had passed. |
| FallbackLadder.HopsNeverRepeat | proxy_handler.py:505-523 | The models of the hops are pairwise distinct; each after the first is allowed by the data policy; none comes from a named provider that failed by HTTP error or timeout. |
| FallbackLadder.NamelessProviderRepeats | proxy_handler.py:1037-1041 | A provider with an empty name that failed can be tried again. |
| FallbackLadder.ClientErrorsShielded | proxy_handler.py:1088-1118 | A 4xx reaches the client exactly when the last hop delivered it, or failed with it and it was classified or the client named the model. |
| FallbackLadder.TimeoutCooldown | proxy_handler.py:1294-1322 | Exactly the last model that timed out is put on hold, with its whole provider exactly when the trace has an earlier hop or attempts were made before it. |
| FallbackLadder.SlowIsNotDead | proxy_handler.py:1130-1163 | The chosen router is penalised exactly when its connection was lost without a timeout; never for a slow provider or an HTTP error. |
| RaceLeases.Race.Start | proxy_handler.py:1450-1467 | At most two candidates take a lease, those the breaker admits when it is asked in turn, kept under their model name. |
| RaceLeases.FirstTwoRun | proxy_handler.py:1440-1467 | The race runs the first two candidates and no other, in their order, each exactly when the breaker admits it. |
| RaceLeases.Race.Finish | proxy_handler.py:1494-1531 | Every kept lease but the winner's is returned once. |
| RaceLeases.OpenAfterRace | proxy_handler.py:1450-1531 | What is still out after the race: the winner's lease, and one for every admitted repetition of a model. |
| RaceLeases.RaceReturnsLeases | proxy_handler.py:1450-1531 | Only the winner's lease is left, for its recorded success to end, exactly when no model was admitted twice. |
| LeakedLeases.ExpiredRequestLeaks | proxy_handler.py:860-891 | To the breaker, a request whose deadline passed after it took its lease is an acquisition and nothing else. |
| LeakedLeases.RefusedRequestReturnsNothing | proxy_handler.py:865-871 | A refused request changes no lease, so it cannot free the breaker. |
| LeakedLeases.WedgedStaysIff | health_registry.py:393-494 | A half-open breaker with all slots taken refuses every attempt, and stays so under a step exactly when that is an attempt or a 429. |
| LeakedLeases.ThreeExpiredRequestsWedge | proxy_handler.py:860-891 | Three such requests, the first once the open breaker is due, are each admitted and leave it refusing every attempt, whatever attempts and 429s follow. |
| ChunkedStream.SizeRoundTrip | proxy_handler.py:706-753 | The upper-case hexadecimal size of a chunk of any length reads back as that length. |
| ChunkedStream.HexIsUpper | proxy_handler.py:704-706 | A chunk size is written in digits and capital letters, with a leading zero for zero alone. |
| ChunkedStream.Response.WriteChunk | proxy_handler.py:704-706 | Appends one chunk to what the client has received. |
| ChunkedStream.Response.DrainHead | proxy_handler.py:652-668 | Reads up to 64 lines, fewer only when upstream ends or fails. |
| ChunkedStream.HeadIs | proxy_handler.py:652-668 | The head is the first line and at most 63 more, fewer only when no more arrive. |
| ChunkedStream.Response.StreamLive | proxy_handler.py:707-750 | Forwards line by line until upstream ends, fails, or the guard objects; then the notice goes out instead of the line. |
| ChunkedStream.Response.Emit | proxy_handler.py:645-758 | An empty or budget-error head is reported with not one byte written; otherwise the bytes are the framed lines and the terminating chunk. |
| ChunkedStream.RoundTripIff | proxy_handler.py:702-758 | The bytes written decode, by section 7.1.3 of RFC 9112, to exactly the concatenated lines with nothing left over, exactly when no line is empty. |
| ChunkedStream.EmptyLineTruncates | proxy_handler.py:704-706 | An empty line would be read as the end of the body, leaving the rest unread. |
| ChunkedStream.ClientLines | proxy_handler.py:645-758 | Where the head window ends is invisible: the client gets every line that arrived, up to the first live payload line at which the concatenated text has grown by 2000 characters since the last check and is degenerate; there it gets the notice instead. |
| ChunkedStream.ClientDecodes | proxy_handler.py:702-758 | On the normal, the interrupted and the aborted path the client decodes exactly the lines forwarded. |
| ChunkedStream.LoopBarelyReachesClient | proxy_handler.py:707-750 | Once the concatenated live text holds twelve clear copies of a sentence, fewer than 2000 more characters are forwarded, as long as the loop fits the window. |
| DegenerationGuard.DetectDegeneration | proxy_handler.py:96-127 | Reports exactly the texts in whose window one sentence occurs 12 times, or 8 times and in three tenths of the sentences; what it reports is such a sentence and its count. |
| DegenerationGuard.DegenerateIff | proxy_handler.py:96-127 | A text is degenerate exactly when the multiset of its sentences holds one twelve times, or at least eight times and in three tenths of all. |
| DegenerationGuard.SentencesSpec | proxy_handler.py:109-116 | Of a longer text only the last 40000 characters count, and only trimmed sentences of at least five characters. |
| DegenerationGuard.PhrasesPart | proxy_handler.py:111-119 | A sentence break anywhere parts the sentences before it from those after it, whatever run of breaks it belongs to. |
| DegenerationGuard.LoopIsCaught | proxy_handler.py:96-127 | Twelve copies of a sentence with any breaks and white space between them are caught, whatever comes before them and whatever follows inside the window; the first counts only if a break or nothing comes before it. |
| DegenerationGuard.LoopStopsSoon | proxy_handler.py:724-735 | Text checked at most 2000 characters ago and passed goes on for fewer than 2000 characters after such a loop. |
| ResponseCache.Cache.Get | proxy_handler.py:543-552 | A hit is the last body stored under the key and not yet expired; an expired entry is dropped and its bytes given back. |
| ResponseCache.Cache.Put | proxy_handler.py:559-582 | Expired entries go first, then the oldest as far as needed; the counter is at most the cap for a body no larger than the cap; it stays the sum of the stored lengths when the key was absent. |
| ResponseCache.Cache.EvictFor | proxy_handler.py:576-579 | Evicts from the front of the insertion order, as many as the specification says. |
| ResponseCache.Cache.DropExpired | proxy_handler.py:571-575 | Drops exactly the expired entries. |
| ResponseCache.Cache.Serve | proxy_handler.py:2530-2540 | A request is answered from the cache exactly when an unexpired entry is there, with the last body stored under its key; else by upstream, whose cacheable body is stored for sixty seconds. |
| ResponseCache.EvictsJustEnough | proxy_handler.py:576-579 | The number evicted makes room, or empties the cache, and one fewer would not. |
| ResponseCache.LiveIsSuffix | proxy_handler.py:571-575 | With a strictly increasing clock the expired entries are the oldest ones in insertion order. |
| ResponseCache.CounterExactIffAbsent | proxy_handler.py:581-582 | The counter a put leaves is the sum of the stored lengths exactly when it did not overwrite a live body. |
| SmartRouter.SmartRouter.SpreadSelect | smart_router.py:567-610 | Picks the first least recently used provider of the band, unused-today providers first, never a model more than the band above the best, and stamps it. |
| SmartRouter.EveryProviderOnce | smart_router.py:567-610 | Any n consecutive selections over a band of n providers pick each of them exactly once, from any earlier state. |
| SmartRouter.UnusedThenOldestFirst | smart_router.py:589-601 | While the band holds a provider not used today, one such is picked; among providers of the same kind none was picked longer ago. |
| ProxyManager.GroupByProvider | proxy_manager.py:118-122 | Groups connections by provider in order of first appearance. |
| ProxyManager.ComputeAssignments | proxy_manager.py:125-138 | Deals the pool round over the groups one after the other. |
| ProxyManager.EveryConnectionServed | proxy_manager.py:125-138 | Every connection gets a proxy, and nothing else does. |
| ProxyManager.ProviderProxiesDistinct | proxy_manager.py:125-138 | Connections of one provider get distinct proxies whenever the pool is large enough for them. |
| ProxyManager.LoadsBalanced | proxy_manager.py:125-138 | Each proxy serves the quotient of connections and proxies, the first remainder-many one more. |
| ProxyManager.LoadsDifferByAtMostOne | proxy_manager.py:125-138 | The loads of any two proxies differ by at most one. |
| ProxyManager.UsedProxiesByProvider | proxy_manager.py:141-149 | The proxies each provider's connections already have, blank ones aside. |
| ProxyManager.PickUnusedProxy | proxy_manager.py:152-157 | The first unused proxy counting round from the offset; a used one only when the whole pool is used. |
| ProxyManager.AssignmentsForUnproxied | proxy_manager.py:160-178 | The fill-in loop starts from what is in use and places one unproxied connection after the other. |
| ProxyManager.UnproxiedServed | proxy_manager.py:160-178 | Exactly the connections without a proxy are given one. |
| ProxyManager.ServedInTurn | proxy_manager.py:152-178 | Each unproxied connection gets the first proxy its provider does not use, counting round the pool from the number of connections served before it, or the one at that position when the provider uses them all. |
| ProxyManager.ReuseOnlyWhenExhausted | proxy_manager.py:160-178 | If a connection gets a proxy its provider already uses, every proxy of the pool was already used there. |
| MetricsHistory.MetricsPersistence.Snapshot | metrics_persistence.py:88-90 | Appends a point and keeps the newest ones up to the limit. |
| MetricsHistory.MetricsPersistence.GetHistory | metrics_persistence.py:118-162 | Points of memory since the cutoff, or those of the files when memory has none, sorted by time, then downsampled. |
| MetricsHistory.Downsample | metrics_persistence.py:141-162 | A subsequence ending in the last point; every point has an output at or after it and less than the resolution later; at most span/resolution + 1 outputs; everything when the resolution is not positive. |

## Left out

- HTTP servers, sockets, threads, signals, the dashboard and its event push: only the outcome of a call is an input.
- Persistence: saving, backups, on-disk snapshots and SQLite writes. A reload of the registry appears only as the breaker event that drops in-flight counters.
- The pattern tables that classify errors, access failures and data policies: their results are inputs. The same holds for the provider alias table, of which only the form of its targets is assumed.
- Scoring and ranking of models, catalog fetching, usage accounting and statistics: data, not properties.
- The static parts of `do_POST` before the cache: trivial replies, prompt limits, combo filtering, and the weighted pick it spends on its router gate. So the fairness theorems are about picks, not about forwarded requests.
- Methods that only copy fields: `load_state`, `get_stats`, and configuration parsing.
- The `models` list and `backoff_applied` flag of provider entries, which no modelled decision reads.
- Unicode: letters are ASCII and white space is space, tab, carriage return and newline.
- Forward: client writes succeed, nothing fails once a response head is out, and the recursive call of the three retrying arms is written once, after the arm. Router penalties of the second router are an input (`link`), since the code also penalises it for an HTTP error. The lease that a recorded success ends a second time, and a failure's effect on the breaker, are steps of `CircuitBreaker`, not of the ladder's trace; `LeakedLeases` joins the two for the leases the ladder itself takes and returns.
- Emit: the streamed response only; a buffered one is sent with its length and is not framed. The normalised lines, the text of their deltas and the verdicts on a drained head are inputs, and an exception of the normaliser other than a parse error is not modelled.
- Put: starts from an exact counter; what follows once an overwritten entry has made the counter drift is not modelled, nor is the sharing of one dictionary between handler objects that each hold their own counter.
- SelectRouter: a router's state is a value in the registry's map, so a caller's later change to a router object it was handed is not modelled.
- SelectedRouterGetsItsOwnId: says nothing about a router chosen by the provider-prefix fallback, for which the code makes no such promise.
- EveryProviderOnce: with usage data, only for a band all in one usage tier; the tiers are what `UnusedThenOldestFirst` is about.
- JitterBand: for jitter in the interval the code draws from, and no deadline given as text, which the registry never gives.
- RaceReturnsLeases: which runner wins, and the fallback calls after a lost race, are not modelled; those calls take no lease.
