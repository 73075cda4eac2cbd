# OrcaAI routing core in Dafny

OrcaAI is a gateway that sends each AI request to one of several providers (OpenAI, Claude,
Gemini). It picks a provider by cost, latency, reliability and task type, and keeps fallbacks for
when the choice fails. This project models the gateway's decision logic and proves properties of it:

- **Python worker** (`Worker`, with `Ranking` and `Text`):
  - fixed-window rate limiter over a key-value store;
  - outcome recorder (success and error counters, bounded newest-first latency list, hourly counter);
  - cost formula and weighted provider score;
  - smart-routing decision (winner, two fallbacks, clamped confidence, reason text).
- **Go orchestrator routing** (`Routing`):
  - per-(provider, model) health state machine with a staleness window;
  - healthy-fallback selection with an in-place exchange sort by reliability;
  - capped fallbacks;
  - capacity-aware scoring and the first-maximum scan;
  - confidence clamp and reasoning text;
  - the precedence order of a routing request: cache hit, then usable preferred provider, then automatic routing.
- **Load balancer** (`LoadBalancing`, with `Metrics`):
  - round-robin, least-connections and weighted-response selection;
  - health probe;
  - circuit breaker;
  - bounded retry loop.
- **Brain** (`Brain`): keyword task detection, complexity clamp, capability filter, scoring, and sort-then-fallback selection.
- **In-memory cache** (`ResultCache`): one-hour lifetime, with an expired entry evicted on read.
- **Adapter registry** (`AdapterRegistry`).
- **RBAC** (`Rbac`): the permission subset test, case-insensitive role membership, and both middlewares' decisions.
- **AI request handler** (`AiHandler`): the dispatch loop over the primary provider and its fallbacks, with a health update per attempt, and API-key masking.
- **User handler** (`UserHandler`): the `UPDATE users SET …` builder with consecutive placeholders.

How the model is built:

- State the source updates in place is a class with `modifies` clauses:
  - the Redis client is `Worker.Store`;
  - the provider status table is `Routing.HealthRegistry`;
  - `LoadBalancing.LoadBalancer`, `ResultCache.InMemoryCache` and `AdapterRegistry.Registry` follow the Go types of the same names.
- Loops are methods with invariants, proved against specification functions. The properties the source promises are lemmas about those functions.
- Scores and costs are exact `real`s.
- Time is an explicit `now`: whole seconds in the Python worker, nanoseconds in the Go code.
- Provider calls, pings, `task()` closures, bcrypt and the metrics collector are function parameters.

## Model

| member | source | states |
|---|---|---|
| Worker.Range | python-ai-worker/worker.py:383 | `LRANGE`/`LTRIM` from index 0 to `stop` keep the first `stop+1` elements (fewer when the list is shorter) |
| Worker.Store.constructor | python-ai-worker/worker.py:96 | a fresh store holds no counters, lists or deadlines |
| Worker.Store.SetEx | python-ai-worker/worker.py:291 | `SETEX` sets the counter and its deadline `now+ttl`; lists untouched |
| Worker.Store.Incr | python-ai-worker/worker.py:300 | `INCR` returns the old value plus one (missing counts as 0) and stores it; nothing else changes |
| Worker.Store.LPush | python-ai-worker/worker.py:313 | `LPUSH` puts the value at the front of the list (an absent list is empty); counters untouched |
| Worker.Store.LTrim | python-ai-worker/worker.py:314 | `LTRIM` keeps the index range of an existing list; a missing key is a no-op |
| Worker.Store.Expire | python-ai-worker/worker.py:321 | `EXPIRE` sets a deadline only for a key that exists |
| Worker.MetricKeysDistinct | python-ai-worker/worker.py:312-321 | the success, errors, latencies and hourly keys of one provider are pairwise different, so the updates do not interfere |
| Worker.RateCheck | python-ai-worker/worker.py:290-301 | a missing bucket admits and sets the count to 1; count ≥ limit rejects and leaves the count; otherwise admits and adds exactly 1; an unknown provider is a `KeyError` |
| Worker.CheckRateLimit | python-ai-worker/worker.py:282-301 | no client admits and changes nothing; otherwise the bucket `rate_limit:<p>:<now/60>` moves as `RateCheck` says and nothing else changes |
| Worker.BurstFromCount | python-ai-worker/worker.py:294-301 | from count c ≤ limit, k calls in one bucket admit min(k, limit−c) and leave count c+min(k, limit−c) |
| Worker.BurstAdmitsAtMostLimit | python-ai-worker/worker.py:287-301 | starting from no bucket, limit N ≥ 1 and k calls admit min(k, N); the count never exceeds N |
| Worker.PushLatency | python-ai-worker/worker.py:313-314 | push-then-trim puts the new sample first and keeps at most 100 samples, the rest being the old newest ones |
| Worker.UpdateMetrics | python-ai-worker/worker.py:303-321 | no client: nothing changes. Success: `success` +1 and a latency pushed and trimmed. Failure: `errors` +1, latencies untouched. Both: hourly counter `now/3600` +1 with a 7-day deadline |
| Worker.RecordOutcome | python-ai-worker/worker.py:311-316 | success: `success` +1 and the latency pushed and trimmed; failure: only `errors` +1; deadlines untouched |
| Worker.BumpHour | python-ai-worker/worker.py:319-321 | the counter of hour `now/3600` +1 with a 7-day deadline; lists untouched |
| Worker.PushAllKeepsNewest | python-ai-worker/worker.py:313-314 | after any number of successes the list holds the ≤100 newest samples, newest first |
| Worker.CalculateCost | python-ai-worker/worker.py:276-280 | cost is 0 for no tokens and non-negative for non-negative tokens and prices |
| Worker.CostIsAdditive | python-ai-worker/worker.py:278-280 | the cost of two token counts together is the sum of their costs |
| Worker.CostScore | python-ai-worker/worker.py:429 | cost score is ≥ 0, ≤ 1 for non-negative cost, and 0 exactly when cost ≥ 0.1 |
| Worker.LatencyScore | python-ai-worker/worker.py:430 | latency score is ≥ 0, ≤ 1 for non-negative latency, and 0 exactly when latency ≥ 5000 |
| Worker.ProviderScore | python-ai-worker/worker.py:424-472 | with default weights and in-range inputs the score lies in [0,1]; with all weight on quality it is the constant 0.8 |
| Worker.ScoreNonNegative | python-ai-worker/worker.py:465-470 | with non-negative weights and reliability the score is ≥ 0 |
| Worker.ScoreIsMonotone | python-ai-worker/worker.py:429-470 | cheaper, faster, more reliable never scores lower |
| Worker.AverageLatency | python-ai-worker/worker.py:383-384 | no samples gives 2000 ms |
| Worker.AverageWithinBounds | python-ai-worker/worker.py:383-384 | the mean of samples in [lo, hi] lies in [lo, hi] |
| Worker.Reliability | python-ai-worker/worker.py:387-388 | 0.9 with no requests, within [0,1], and 1 exactly when there were no errors |
| Worker.AssessIn | python-ai-worker/worker.py:377-407 | each entry carries the provider's name and input price; no latency samples means 2000 ms; no counters means reliability 0.9; non-negative counters give reliability in [0,1] |
| Worker.RoutingReasons | python-ai-worker/worker.py:478-488 | each reason is present exactly when its threshold holds, in the order reliability, speed, cost with none repeated; "balanced performance" alone exactly when none holds |
| Worker.RoutingReason | python-ai-worker/worker.py:474-490 | the text is `Selected <p> for <task>: ` followed by the ordered reasons joined by ", "; with no threshold met it ends in `balanced performance` |
| Worker.RoutingReasonAllThree | python-ai-worker/worker.py:480-490 | with all thresholds met the reasons appear in the order reliability, speed, cost, joined by ", " |
| Worker.RankingTailExcludesWinner | python-ai-worker/worker.py:410-414 | no entry after the first of the descending ranking has the winner's name |
| Worker.DecisionProperties | python-ai-worker/worker.py:410-418 | min(2, n−1) fallbacks, none of them the winner; the winner is a registry entry of maximal score; fallbacks in non-increasing score; confidence ≤ 1 |
| Worker.SmartRouting | python-ai-worker/worker.py:368-422 | without a client or providers it fails; otherwise it decides from the registry-order assessments as `DecidedFrom` says |
| Ranking.FirstMaxIndex | python-ai-worker/worker.py:410 | `max` returns the first position of the maximal score |
| Ranking.SortDesc | python-ai-worker/worker.py:413 | the ranking is a permutation of the scores in non-increasing order |
| Ranking.SortDescHead | python-ai-worker/worker.py:410-414 | the ranking starts with `max`'s choice, followed by the ranking of the others |
| Text.NoWordsIffAllSpace | backend/orchestrator/brain.go:157-158 | a text has no words exactly when it is all separators |
| Routing.StatusAfterCases | backend/orchestrator/routing.go:189-219 | an unseen entry starts healthy. Success resets the count and error and marks it healthy. Failure adds 1 and keeps the error text when given. Health is lost only above 5 errors |
| Routing.FailuresUntilUnhealthy | backend/orchestrator/routing.go:209-219 | from a healthy entry with c ≤ 5 errors, k failures leave it healthy exactly while c+k ≤ 5 |
| Routing.HealthRegistry.UpdateProviderStatus | backend/orchestrator/routing.go:189-220 | only the `provider:model` entry changes, as `StatusAfter` says |
| Routing.HealthRegistry.IsProviderHealthy | backend/orchestrator/routing.go:223-237 | an unknown entry or one older than 5 minutes is healthy; an entry checked within 5 minutes answers with its own flag |
| Routing.HealthRegistry.Survivors | backend/orchestrator/routing.go:246-257 | keeps exactly the healthy providers other than the excluded (name, model) pair |
| Routing.HealthRegistry.CollectSurvivors | backend/orchestrator/routing.go:246-257 | the filtering loop computes `Survivors` |
| Routing.HealthRegistry.GetFallbackProviders | backend/orchestrator/routing.go:240-269 | the result is a permutation of the survivors of the task's list (text-generation when unknown) in non-increasing reliability |
| Routing.Swap | backend/orchestrator/routing.go:263 | exchanges two slots and nothing else |
| Routing.ExchangeSort | backend/orchestrator/routing.go:259-266 | the array ends as a permutation of itself in non-increasing reliability |
| Routing.QualityScore | backend/orchestrator/routing.go:397-438 | every quality, listed or defaulted, lies in [0.7, 0.98] |
| Routing.QualityExtremes | backend/orchestrator/routing.go:397-438 | 0.7 for a model or task missing from the matrix; of the listed pairs only gpt-3.5-turbo code generation and gemini-pro summarization sit at 0.7; 0.98 exactly for claude-3-opus text generation and reasoning |
| Routing.CostSubScore | backend/orchestrator/routing.go:374 | in [0,1] for non-negative price; 0 exactly from 0.05 up |
| Routing.LatencySubScore | backend/orchestrator/routing.go:375 | in [0,1] for non-negative latency; 0 exactly from 5000 ms up |
| Routing.CalculateScore | backend/orchestrator/routing.go:372-395 | 0 when len(prompt)/4 exceeds the provider's token limit; otherwise in (0,1] for in-range providers |
| Routing.BestSoFarIsFirstMaximum | backend/orchestrator/routing.go:355-370 | the scan returns the earliest provider with the maximal score (strict `>`), or the zero provider when the list is empty |
| Routing.NeverZeroWhenInRange | backend/orchestrator/routing.go:355-370 | for a non-empty list the chosen provider is one of the list |
| Routing.ScoreProviders | backend/orchestrator/routing.go:355-370 | the loop returns the scan's choice |
| Routing.RunnerUp | backend/orchestrator/routing.go:447-456 | the best reference score among the other pairs, or 0 |
| Routing.Confidence | backend/orchestrator/routing.go:440-463 | 1 for at most one provider; never above 1 |
| Routing.ConfidenceAtLeastHalf | backend/orchestrator/routing.go:440-463 | when the chosen provider has the top reference score, confidence is at least 0.5 |
| Routing.CalculateConfidence | backend/orchestrator/routing.go:440-463 | the loop computes `Confidence` |
| Routing.Reasons | backend/orchestrator/routing.go:466-483 | each reason (printed as `ReasonText` gives) is present exactly when its threshold holds, in the order cost, latency, reliability, context window with none repeated; "balanced performance" alone exactly when none holds |
| Routing.GenerateReasoning | backend/orchestrator/routing.go:465-486 | the text is `Selected for <task>: [` then the ordered reasons separated by single spaces, then `]`, as `%v` prints a string slice |
| Routing.AllFourReasons | backend/orchestrator/routing.go:466-479 | a cheap, fast, highly reliable provider with a large context window gets all four reasons in their fixed order |
| Routing.Others | backend/orchestrator/routing.go:494-502 | keeps exactly the providers other than the excluded pair, in order |
| Routing.OthersOfPrefix | backend/orchestrator/routing.go:494-502 | filtering a prefix gives a prefix of the filtered list |
| Routing.GetFallbacks | backend/orchestrator/routing.go:488-505 | the first two non-excluded providers of the task's list, in registry order |
| Routing.FirstMatch | backend/orchestrator/routing.go:516-522 | the first provider with that name and model, or none when there is none |
| Routing.Concat | backend/orchestrator/routing.go:510-513 | the concatenated lists contain exactly the providers of every task |
| Routing.FindSpecificProvider | backend/orchestrator/routing.go:507-523 | found exactly when the task's own list has the pair; for an unknown task, exactly when some task's list has it |
| Routing.FoundRegardlessOfOrder | backend/orchestrator/routing.go:510-513 | whether a pair is found does not depend on the map's iteration order |
| Routing.AutoRoute | backend/orchestrator/routing.go:328-353 | empty task means text-generation. An empty list is the error "no providers available for task type: …". Otherwise it routes to the scan's choice |
| Routing.AutoRoutedProperties | backend/orchestrator/routing.go:328-353 | the routed provider is in the list, confidence ≤ 1, and at most two fallbacks, none of them the routed pair |
| Routing.RouteRequest | backend/orchestrator/routing.go:289-326 | a cache hit wins with confidence 1; otherwise a found and healthy preferred pair with confidence 1; otherwise automatic routing |
| Routing.RouteRequestWithFallback | backend/orchestrator/routing.go:272-287 | a cache hit and a usable preferred pair succeed with their pair, confidence 1 and their reasoning text; otherwise the outcome is `autoRoute`'s, errors unchanged and successes differing only in the fallbacks; every success carries the healthy, reliability-sorted fallbacks excluding the chosen pair |
| Metrics.Milliseconds | backend/orchestrator/load_balancer.go:230 | duration to milliseconds truncates toward zero |
| LoadBalancing.NominalScorePositive | backend/orchestrator/load_balancer.go:218-239 | the collector's default metrics give a positive weighted score |
| LoadBalancing.FirstHealthy | backend/orchestrator/load_balancer.go:133-142 | none exactly when no provider is healthy; otherwise the first healthy one |
| LoadBalancing.LeastSoFarIsFirstMinimum | backend/orchestrator/load_balancer.go:144-165 | the earliest healthy provider with the fewest active connections, none when none is healthy |
| LoadBalancing.WeightedSoFarIsFirstMaximum | backend/orchestrator/load_balancer.go:167-192 | the corrected scan returns the earliest healthy provider with the maximal score |
| LoadBalancing.SentinelDisplacesBestProvider | backend/orchestrator/load_balancer.go:169-184 | with the source's sentinel test, a best score of exactly −1 is replaced by a worse provider |
| LoadBalancing.WeightedScansAgree | backend/orchestrator/load_balancer.go:167-192 | when no healthy provider scores exactly −1 the loop as written and the corrected loop choose the same provider |
| LoadBalancing.NominalScansAgree | backend/orchestrator/load_balancer.go:167-239 | with metrics in their normal ranges (the collector's defaults among them) the loop as written chooses what the corrected loop chooses |
| LoadBalancing.HealthCheckedOutcome | backend/orchestrator/load_balancer.go:102-131 | after a probe every listed provider has a status. A failed ping marks it unhealthy with one more error and that error; a good ping marks it healthy with no error |
| LoadBalancing.HealthCheckedElsewhere | backend/orchestrator/load_balancer.go:106-130 | a probe round leaves the entries of providers it does not list untouched |
| LoadBalancing.LoadBalancer.constructor | backend/orchestrator/load_balancer.go:10-24 | a balancer with the given configuration and no statuses |
| LoadBalancing.LoadBalancer.Default | backend/orchestrator/load_balancer.go:26-43 | strategy weighted-response, 3 retries, breaker threshold 5, no providers and no statuses |
| LoadBalancing.DefaultSelectsNothing | backend/orchestrator/load_balancer.go:26-59 | the balancer `NewLoadBalancer` builds answers every selection with "no healthy providers available" |
| LoadBalancing.LoadBalancer.MarkUnhealthy | backend/orchestrator/load_balancer.go:199-205 | a known provider becomes unhealthy, checked now; an unknown one changes nothing |
| LoadBalancing.LoadBalancer.CheckHealth | backend/orchestrator/load_balancer.go:102-131 | the status table becomes the probe of every provider in order |
| LoadBalancing.LoadBalancer.RoundRobin | backend/orchestrator/load_balancer.go:133-142 | the first healthy provider, or "no healthy providers available" |
| LoadBalancing.LoadBalancer.LeastConnections | backend/orchestrator/load_balancer.go:144-165 | the running-minimum loop computes `LeastSoFar`; error when none is healthy |
| LoadBalancing.LoadBalancer.WeightedResponse | backend/orchestrator/load_balancer.go:167-192 | the running-maximum loop computes the corrected `WeightedSoFar`: the earliest healthy provider with the top score; error when none is healthy |
| LoadBalancing.LoadBalancer.SelectProvider | backend/orchestrator/load_balancer.go:45-59 | each known strategy answers exactly its own scan's choice: round-robin the first healthy provider, least-connections `LeastSoFar`'s, weighted-response the corrected `WeightedSoFar`'s, or "no healthy providers available" when its scan finds none. The result is always a healthy listed provider. An unknown strategy is the error "unknown load balancing strategy: …" |
| LoadBalancing.LoadBalancer.ExecuteWithRetry | backend/orchestrator/load_balancer.go:61-91 | at most `MaxRetries` calls, made only while the provider is healthy (none without a status). It stops at the first success; otherwise "all retries failed: " with the last error or `<nil>`. A tripped breaker marks the provider unhealthy |
| Brain.DetectTaskType | backend/orchestrator/brain.go:141-153 | case-insensitive keywords in priority classify, translate, summarize; default text-generation |
| Brain.DetectionIgnoresCase | backend/orchestrator/brain.go:141-153 | lower-casing the prompt first does not change the detected type |
| Brain.CalculateComplexity | backend/orchestrator/brain.go:155-162 | within [0,1]; 0 exactly for a prompt with no words; 1 from 1000 words on |
| Brain.ProviderMeetsRequirements | backend/orchestrator/brain.go:169-184 | the nested loop is true exactly when every required capability is offered (vacuously for none) |
| Brain.HistoricalQuality | backend/orchestrator/brain.go:186-199 | 0.5·success + 0.3·(1−error) + 0.2·(1−timeout) lies in [0,1] for rates in [0,1], and is 1 for a perfect record |
| Brain.ScoreProvider | backend/orchestrator/brain.go:106-138 | total = 0.4·cost + 0.3·speed + 0.3·quality. The log has the cost, speed and quality lines in that order. Cost score is 1 exactly when the estimated cost is 0, and speed score exactly when latency is 0 |
| Brain.ScoreWithinBounds | backend/orchestrator/brain.go:115-135 | within budget and time limit, every sub-score and the total lie in [0,1] |
| Brain.Qualified | backend/orchestrator/brain.go:71-79 | only providers meeting the requirements are scored; empty exactly when none qualifies |
| Brain.SelectionProperties | backend/orchestrator/brain.go:81-102 | the winner qualifies and its confidence is the top total; min(n, 3) − 1 fallbacks; the answer is one winning entry and fallback entries drawn from the scores, the reasoning is the winner's log joined by "; ", the fallbacks are in non-increasing order and every entry not drawn scores no higher than any fallback |
| Brain.RankingChooses | backend/orchestrator/brain.go:81-95 | from any descending ordering of the scores, the result takes rank 0 as winner and ranks 1 .. min(n,3)−1 as fallbacks, with the properties `ChosenEntries` lists |
| Brain.RankingOrders | backend/orchestrator/brain.go:81-95 | after sorting, ranks 1 and 2 are in order, below the head and above every later entry |
| Brain.SelectProvider | backend/orchestrator/brain.go:68-103 | "no suitable provider found for the task" exactly when none qualifies; otherwise a result selected from some descending ordering of the scores |
| Brain.ScoreQualifying | backend/orchestrator/brain.go:72-79 | the loop computes `Qualified` |
| Brain.CollectFallbacks | backend/orchestrator/brain.go:91-94 | ranks 1 to min(n,3)−1, at most two |
| ResultCache.InMemoryCache.constructor | backend/orchestrator/cache.go:116-120 | a new cache is empty |
| ResultCache.InMemoryCache.Get | backend/orchestrator/cache.go:123-133 | a live entry (younger than 1 h) is returned with no change; an expired one is removed and missed; an absent key is missed with no change |
| ResultCache.InMemoryCache.Set | backend/orchestrator/cache.go:136-140 | stamps the entry with now and stores it under the key, overwriting; the expiration argument has no effect |
| ResultCache.InMemoryCache.Delete | backend/orchestrator/cache.go:143-146 | removes only that key; absent is a no-op |
| ResultCache.StoreThenRead | backend/orchestrator/cache.go:123-140 | a stored entry is read back within the hour and evicted by the first read after it, whatever expiration was asked |
| AdapterRegistry.Registry.constructor | backend/orchestrator/providers.go:30 | the registry starts empty |
| AdapterRegistry.Registry.GetProviderAdapter | backend/orchestrator/providers.go:41-46 | the registered adapter, or nil for an unknown name |
| AdapterRegistry.Registry.RegisterProviderAdapter | backend/orchestrator/providers.go:33-38 | nil changes nothing. Otherwise the adapter is filed under its own name, overwriting, and every other name keeps its adapter |
| Rbac.HasPermissions | backend/middleware/rbac.go:45-65 | true exactly when every required permission is among the user's (vacuously for none) |
| Rbac.PermissionVerdict | backend/middleware/rbac.go:13-42 | proceeds exactly for a known role covering the requirement. Otherwise 403 with "Access denied", "Invalid role" or "Insufficient permissions", in that precedence |
| Rbac.RbacMiddleware | backend/middleware/rbac.go:13-42 | the handler decides as `PermissionVerdict` |
| Rbac.MatchesAny | backend/middleware/rbac.go:99-105 | true exactly when some allowed role equals the role ignoring case |
| Rbac.IsRoleAllowed | backend/middleware/rbac.go:92-106 | an empty list allows every role; otherwise a case-insensitive match is needed |
| Rbac.RoleMiddleware | backend/middleware/rbac.go:68-89 | proceeds exactly for a present, allowed role; otherwise 403 "Access denied" or "Insufficient role privileges" |
| Rbac.RoleHierarchy | backend/models/user.go:83-102 | whatever user may do, enterprise may, and whatever enterprise may do, admin may |
| Rbac.PrivilegedPermissions | backend/models/user.go:83-102 | only admin holds admin:users; user lacks enterprise:features |
| Rbac.RoleCaseIsTreatedDifferently | backend/middleware/rbac.go:23-105 | a role stored as "Admin" passes a role check for "admin" but is an invalid role to the permission check |
| AiHandler.MakeAIRequest | backend/handlers/ai_handler.go:242-264 | an unregistered provider is "unsupported provider: …" without contacting anyone; otherwise the adapter's outcome |
| AiHandler.Candidates | backend/handlers/ai_handler.go:216-228 | the routed pair first, then the fallbacks in order |
| AiHandler.FirstSuccess | backend/handlers/ai_handler.go:216-233 | the first position that succeeds, all before it failed; none when all fail |
| AiHandler.MakeAIRequestWithEnhancedFallback | backend/handlers/ai_handler.go:214-240 | tries candidates in order up to the first success and returns it, or "all providers failed after fallback attempts". Exactly the attempts made update health, in order |
| AiHandler.TryInOrder | backend/handlers/ai_handler.go:216-239 | the attempt loop stops at the first answer and returns it, every earlier attempt having failed; when all fail it has tried them all and returns "all providers failed after fallback attempts"; the health table reports exactly the attempts made, in order |
| AiHandler.AttemptOne | backend/handlers/ai_handler.go:219-236 | one attempt returns the candidate's outcome and extends the health report by that attempt |
| AiHandler.FirstSuccessAt | backend/handlers/ai_handler.go:216-233 | when attempt i answers after i failures, the dispatch tries i+1 candidates and returns that answer |
| AiHandler.AllFailed | backend/handlers/ai_handler.go:224-239 | when every attempt fails, all are tried and the result is "all providers failed after fallback attempts" |
| AiHandler.ReportAttempt | backend/handlers/ai_handler.go:219-236 | one attempt marks its pair healthy on success, unhealthy with its error on failure |
| AiHandler.PrimaryAnswers | backend/handlers/ai_handler.go:216-221 | a primary that answers is the only attempt and its answer is returned |
| AiHandler.DispatchOutcome | backend/handlers/ai_handler.go:227-239 | the last attempt is the one that answered and all before it failed; failure exactly when all fail |
| AiHandler.ReportedElsewhere | backend/handlers/ai_handler.go:219-236 | entries of pairs never tried are untouched |
| AiHandler.EachFailureCountedOnce | backend/handlers/ai_handler.go:224-236 | when all fail, each distinct pair's error count rises by exactly one and holds its own error |
| AiHandler.Mask | backend/handlers/ai_handler.go:441-446 | the first and last 4 characters of a hash of length ≥ 8, otherwise both empty; never more than the hash |
| AiHandler.MaskKeys | backend/handlers/ai_handler.go:430-457 | one masked entry per stored key, in order |
| UserHandler.BuildProfileUpdate | backend/handlers/user_handler.go:75-120 | a failed hash is "Failed to hash password". Otherwise clause i is `<col> = $i+1` over the given columns. The arguments are the values plus the user id last. The WHERE placeholder is the user id's position |
| UserHandler.AddClause | backend/handlers/user_handler.go:80-84 | one append step gives the new column the next placeholder, so the clauses stay `Numbered` and the counter stays one past them |
| UserHandler.Numbered | backend/handlers/user_handler.go:77-110 | clause i sets the i-th column with placeholder `$i+1`, so placeholders run consecutively from `$1` |
| UserHandler.ColumnsInFixedOrder | backend/handlers/user_handler.go:80-110 | clauses follow name, email, password in that order, each exactly when given, with updated_at always last |
| UserHandler.ArgumentsMatchColumns | backend/handlers/user_handler.go:80-113 | each placeholder gets its column's value; the password only as its hash |
| UserHandler.EmptyRequestTouchesOnlyTimestamp | backend/handlers/user_handler.go:107-120 | with nothing given the only clause is `updated_at = $1` and the arguments are the time and the user id |

## Left out

- Where the code disagrees with the intent around it, the model follows the code, with one exception (the `bestScore == -1` test under Findings):
  - `Worker.SmartRouting` never excludes rate-limited providers;
  - its scorer never reads its quality table, so quality is always 0.8;
  - the rate limiter fails open only when there is no client, and store errors are not caught.
- HTTP handling, SQL execution, Redis connection setup, provider SDK calls and the network.
  - Provider calls, pings and retry tasks are function parameters (`Chat`, `ping`, `attempt`), and bcrypt is a parameter `hash`.
  - The Brain's metrics collector and the rendering of its log lines with `%.2f` are parameters too.
- Concurrency: the health-checker goroutine, mutexes, `time.Sleep` between retries and FastAPI background tasks. Every update is a synchronous call.
- Wall-clock reads. Each call takes one `now`, so the several `time.Now()` reads of one Go call are a single instant.
- Floating point. Scores and costs are exact reals:
  - `round(…, 6)`, `round(…, 2)` and `round(…, 4)` are not modelled;
  - division by zero in the Go scores is excluded by preconditions (`LoadBalancing.Scorable`, `Brain.ScorableProfile`).
- LoadBalancing.LoadBalancer.WeightedResponse: computes the corrected scan rather than the `bestScore == -1` test at load_balancer.go:181. The two differ only when a healthy provider scores exactly −1; `LoadBalancing.WeightedScansAgree` and `LoadBalancing.NominalScansAgree` show they agree otherwise.
- Nothing in the source fills the balancer's provider list: `NewLoadBalancer` and `NewAIBrain` never assign it. `LoadBalancing.LoadBalancer.Default` is therefore empty. The list parameter of the other constructor and of `Brain.SelectProvider` stands for a configuration the source never performs.
- Redis time-to-live eviction: `Worker.Store` records deadlines but never drops keys.
- Text is ASCII: `strings.ToLower`/`EqualFold` act only on A–Z, and Go's `len` is counted in characters rather than UTF-8 bytes.
- Brain's `estimateTokenCount` (brain.go:164-167) does not compile (an `int` times `1.3`). The token estimate is an input of the task profile.
- `calculateQualityScore` is declared twice in the Go package. Each is modelled from its own text: `Routing.QualityScore` and `Brain.HistoricalQuality`.
- `RecordSuccess`/`RecordError` of the metrics collector are empty and are not modelled.
- `ProviderMetrics.ActiveConnections` is a `nat`; the collector only ever reports non-negative counts.
- Arguments that the source never reads are dropped: `scoreProvider`'s context, `weightedResponse`'s task, `calculateProviderScore`'s task type and `Set`'s expiration.
- Go map iteration order in `findSpecificProvider` is a parameter `order` enumerating the keys; `Routing.FoundRegardlessOfOrder` shows the outcome does not depend on it.
- Go's `sort.Slice` is not stable, so `Brain.SelectProvider` is stated for any descending order of the scores.
- The API-key listing's row scanning and its scan errors are database I/O; only the masking of each row is modelled.
- Cache keys (md5), JWT, AES-GCM and the Redis-backed cache are outside the modelled core.

## Findings

| source | as written | input that shows it | evidently intended | confidence | as-written member | corrected member |
|---|---|---|---|---|---|---|
| backend/orchestrator/load_balancer.go:181 | `bestScore == -1` treats a best score of exactly −1 as "nothing selected yet" | healthy providers a then b with scores −1.0 and −1.5 (a overloaded 750 of 100 connections at 1 s latency): a is kept as best, then b replaces it | only the first healthy provider is taken unconditionally, so a (score −1.0) wins | not executed | LoadBalancing.SentinelDisplacesBestProvider | LoadBalancing.WeightedSoFarIsFirstMaximum |
