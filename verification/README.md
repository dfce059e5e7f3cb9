# A verified model of the Aegis gateway core

Aegis routes chat requests to model providers under a policy, runs tool-calling agents on top of that,
records every step and its cost, and authenticates tenants by API key. This project models those parts in
Dafny 4.11 and proves what they guarantee over whole runs and histories. `dafny verify dfyconfig.toml`
checks all of it.

## What is modelled

| file | what it models |
|---|---|
| `CircuitBreaker.dfy` | the per-provider breaker as a class, the history it summarises, the bound on wasted calls and its tightness, when one probe is all |
| `Routing.dfy` | policy rules, candidate lists and one `route` call over an outcome oracle, other tasks working on the same breakers while it waits |
| `Gateway.dfy` | any number of `route` calls interleaving on one breaker registry, stepped by what the registry does to its entries |
| `Failover.dfy` | failover and confinement of every request in every interleaving |
| `Outages.dfy`, `Probes.dfy` | what a failing, a half-open and a rejecting provider cost, in every interleaving |
| `Trace.dfy` | run and step tables, `replay` under ties of its sort key, tenant isolation of reads |
| `Cost.dfy`, `Audit.dfy` | price table, cost ledger, budget check; the audit log |
| `Runtime.dfy` | the agent loop and the tool retry loop as methods, against a function of their world |
| `RunLaws.dfy` | what every run keeps: ledgers, log shape, token budget |
| `Conversation.dfy` | the conversation rebuilt from stored rows |
| `Outcomes.dfy` | what a run sends, answers, bills, stores and audits, said of the world it meets |
| `Golden.dfy` | the scripted provider of the evaluation gate and the runs it drives |
| `Admission.dfy` | the run endpoint's admission order and the monthly overrun |
| `ApiKeys.dfy` | key issuance, revocation, rotation, authentication |
| `Luhn.dfy`, `Pii.dfy` | the card check, PII search and redaction |
| `Splicing.dfy`, `Survival.dfy` | text splicing in general: against a one-pass substitution, and which characters it leaves |
| `Chat.dfy`, `Wrappers.dfy` | shared vocabulary |

Classes follow the objects of the program. Each method is proved against a function of its inputs and the
old state; the theorems are lemmas about those functions, so they hold of what the methods leave behind.
Providers, tools, guardrails, clocks, fresh ids and the order a query picks among ties are parameters.

Conditions the program does not enforce and the statements name where they need them: a failure threshold of
at least 1 and a positive reset timeout; a positive monthly budget for the overrun bound; a clock that does
not go back; tool registries keyed by tool name (which the registry's constructor ensures); key ids and run
ids that have not been drawn before. Step limits, retry limits and token budgets are unrestricted integers
(only the golden-script theorem asks for a step limit and a budget of at least 0), token usage is never
negative, and money and time are real numbers.

## Where the code and its description differ

The model follows the code in each case.

- The breaker's docstring and ADR-0006 speak of one probe while half-open. The code admits every call then.
  In every history, one probe is all if and only if nobody asks while half-open (`OneProbeExactly`), which is
  as long as some call let through has no verdict yet. Two kinds of runs break it, either alone: two requests
  overlap (`OverlapProbesTwice`), or a call ends in an authentication error, which leaves no verdict
  (`AuthErrorProbesTwice`); without both it always holds (`OneProbeIffNeither`). A name the policy has no
  model for would leave no verdict either, but never trips (`UnconfiguredStaysOut`).
- ADR-0006 counts expired credentials among the outages the breaker is for. Authentication errors never reach
  it: as long as no transient error comes back, every request that reaches the provider calls it
  (`WithoutTransientErrorsEveryoneCalls`), and the number of calls has no bound (`RejectedCallsAreUnbounded`).
- A run's replay is called deterministic. The query sorts by `step_index` alone and all steps of an iteration
  share it: `ReplayExactIffNoTools` shows replay is exact for every order the database may pick if and only if
  no iteration used a tool; `ReplayOfARun` says what always survives, and that a tie-keeping sort is exact.
- Redaction replaces each hit when no two hits overlap, and only then (`RedactionIsExactIffNoOverlap`).
  An entity listed twice in the policy is enough to break it (`RepeatedEntityBreaksRedaction`).
- The module's purpose is that no provider sees what was hit. With overlapping hits parts of a hit can stay:
  `LeaksExactly` says which characters do, `NothingLeaks` when none can, and `PhoneInsideCardLeaks` gives a
  phone number inside a card number that leaves the card's last four characters.
- A monthly budget of zero or less never stops anything (`HardStopExactly`, `NonPositiveBudgetNeverStops`).
- A run's result repeats a negative step limit as its step count (`LedgersAgreeAtEveryExit` says exactly when).
- An empty error text is falsy, so the output of such a tool call is stored as a result (`ToolRow`); the
  conversation is still recoverable.

## Model

| member | source | states |
|---|---|---|
| CircuitBreaker.CircuitBreakerRegistry.BeforeCall | src/aegis/providers/circuit_breaker.py:46-52 | admits at time t exactly when the provider's failures since its last success are below the threshold or its last failure is at least the timeout ago, in any interleaving |
| CircuitBreaker.CircuitBreakerRegistry.OnSuccess | src/aegis/providers/circuit_breaker.py:54-57 | keeps the entries a summary of the history, which gains exactly this event |
| CircuitBreaker.CircuitBreakerRegistry.OnFailure | src/aegis/providers/circuit_breaker.py:59-65 | keeps the entries a summary of the history, which gains exactly this event |
| CircuitBreaker.CircuitBreakerRegistry.StateOf | src/aegis/providers/circuit_breaker.py:67-68 | the stored state is the one the history determines |
| CircuitBreaker.HalfOpenOutlivesReset | src/aegis/providers/circuit_breaker.py:46-52 | a half-open breaker has waited out its timeout in every legal history, so it admits every call |
| CircuitBreaker.OwnEventsSuffice | src/aegis/providers/circuit_breaker.py:43-44 | failures, last failure and probes of a provider are those of its own events alone |
| CircuitBreaker.OtherProvidersDoNotMatter | docs/adr/0006-per-provider-circuit-breaker.md:18-24 | admission and state depend on the provider's own events only |
| CircuitBreaker.OutageCallBound | src/aegis/providers/circuit_breaker.py:46-65 | after any legal history, while no call of a provider succeeds and at most m are in flight, those already out counted, it gets at most N + m - 1 + m * floor((t1 - t0) / R) calls in [t0, t1] |
| CircuitBreaker.CallBoundIsAttained | src/aegis/providers/circuit_breaker.py:46-65 | for every m and every number of timeouts a legal outage reaches the bound, so it cannot be lowered |
| CircuitBreaker.OneProbeExactly | docs/adr/0006-per-provider-circuit-breaker.md:18-24 | in every legal history, successes and calls without a verdict included, at most one call goes through between each trip and the next verdict if and only if nobody asks while the state is half-open |
| CircuitBreaker.HalfOpenMeansUnsettled | src/aegis/providers/circuit_breaker.py:46-65 | the state is half-open if and only if the breaker has tripped and some call let through has had no verdict since |
| Routing.FirstMatchDecides | src/aegis/providers/router.py:95-99 | the candidates are the first matching rule's list, or the default alone when none matches |
| Routing.MatchesExactly | src/aegis/providers/router.py:51-56 | a rule matches if and only if it speaks of the three context fields only and each field's value is in the list demanded of it |
| Routing.SlateIsPrefix | src/aegis/providers/router.py:129-130 | a request works through exactly the first min(max_attempts, number of candidates) names of the first matching rule, or of the default alone |
| Routing.EarliestRuleDecides | src/aegis/providers/router.py:51-56 | a rule confining a classification decides it, whatever follows, if no earlier rule can match it |
| Routing.ProviderRouter.Consult | src/aegis/providers/router.py:136-175 | one candidate's fate, and exactly the breaker events around it, other tasks' included: an authentication error leaves no verdict, a missing model leaves an admission |
| Routing.ProviderRouter.TryEach | src/aegis/providers/router.py:131-179 | the loop is a request in the sense of Routed, its result is the verdict on its slots, and the breakers saw exactly its footprints and what other tasks did while it waited |
| Routing.ProviderRouter.Route | src/aegis/providers/router.py:129-179 | the same for the first max_attempts candidates of the context; it runs out of providers if and only if there is a candidate and every one of the first min(max_attempts, number of candidates) was skipped or failed transiently |
| Routing.CalledExactly | src/aegis/providers/router.py:135-157 | a position reached is called exactly when its name is registered, configured and admitted on all that anyone did before, duplicates included |
| Routing.AnswerIsFirstSuccess | src/aegis/providers/router.py:156-179 | the answer is the first success; an authentication error or a missing model ends the request; no healthy provider exactly when every slot was skipped or failed transiently; errors name the provider that ended the request |
| Routing.ExhaustedMeansAll | src/aegis/providers/router.py:130-179 | when a request runs out of providers, each of the first min(max_attempts, number of candidates) names of the first matching rule was not registered, refused by its breaker, or called with a transient error |
| Routing.RequestIsDetermined | src/aegis/providers/router.py:129-179 | the breakers, the slate, the outcomes and the other tasks leave only one possible request |
| Routing.OtherBreakersUntouched | src/aegis/providers/router.py:135-175 | the breakers of names that neither the request nor the other tasks touched are as before |
| Gateway.EveryStateIsSound | src/aegis/providers/circuit_breaker.py:37-65 | in every interleaving the shared entries, stepped as the registry steps them, summarise what all tasks have done, so each decision read from them is the admission rule's |
| Failover.FailoverInAnyInterleaving | src/aegis/providers/router.py:129-179 | every finished task of every interleaving is a request in the sense of Routed, with the same three guarantees: calls, first success, end at an authentication error |
| Failover.AloneIsRoute | src/aegis/providers/router.py:129-179 | a task no other task interrupts is the undisturbed request from the history it found, and leaves exactly that request's history |
| Failover.EveryCallIsOnItsSlate | src/aegis/providers/router.py:129-144 | in every interleaving, every call made for a context is to a provider on its slate |
| Failover.EveryCallObeysFirstRule | src/aegis/providers/router.py:95-99 | in every interleaving, every provider called is in the first matching rule's list, or is the default when none matches |
| Failover.ConfinedDataStaysPut | src/aegis/providers/router.py:51-56 | no later rule, breaker state or other task lets a confined classification reach another provider |
| Outages.StepKeepsBooks | src/aegis/providers/router.py:139-167 | during an outage, after every step, the calls are the admissions, and these are the failures plus the calls in flight |
| Outages.UnconfiguredStaysOut | src/aegis/providers/router.py:145-146 | a name without a model is never called, never fails and so never trips |
| Outages.OutageCallsAreBounded | docs/adr/0006-per-provider-circuit-breaker.md:9-16 | the call bound over every stretch of every interleaving in which only transient errors come back, from any state, with at most m calls in flight |
| Probes.OneProbeInRun | docs/adr/0006-per-provider-circuit-breaker.md:18-24 | in every run one probe is all if and only if no task finds the provider's entry half-open |
| Probes.ProbesAreInFlight | src/aegis/providers/router.py:139-174 | without authentication errors, the calls let through since the last verdict are all still in flight |
| Probes.OneProbeIffNeither | docs/adr/0006-per-provider-circuit-breaker.md:18-24 | one probe is all in every run of a kind if and only if the kind excludes both asking during a call and authentication errors |
| Probes.OverlapProbesTwice | src/aegis/providers/circuit_breaker.py:46-52 | a run without authentication errors in which two overlapping requests probe after one trip |
| Probes.AuthErrorProbesTwice | src/aegis/providers/router.py:158-161 | a run without overlap in which two requests, one after the other, probe after one trip |
| Probes.WithoutTransientErrorsEveryoneCalls | src/aegis/providers/router.py:158-161 | while no transient error comes back, an untripped breaker stays so and the calls are exactly the times the provider was asked for |
| Probes.RejectedCallsAreUnbounded | src/aegis/providers/router.py:158-161 | for every n a run with n rejected calls in no time and never two in flight |
| Trace.TraceStore.Start | src/aegis/agent/trace.py:50-70 | adds the fresh run with zero totals and nothing else |
| Trace.TraceStore.Record | src/aegis/agent/trace.py:72-96 | adds the row and moves the run's three counters with it, nothing else |
| Trace.TraceStore.Finish | src/aegis/agent/trace.py:98-111 | sets status, output, error and end of that run only |
| Trace.TraceStore.Replay | src/aegis/agent/trace.py:135-166 | gives the visible run with exactly the rows the query returned, in that order, or no such run |
| Trace.ReplayTellsTheRow | src/aegis/agent/trace.py:135-166 | every possible answer has the visible run row's status, output and totals, each total its own, and one record per stored step |
| Trace.ReplayKeepsIterations | src/aegis/agent/trace.py:140-142 | for every order among ties, LLM calls stay in recorded order and each position keeps its iteration |
| Trace.StableReplayIsExact | src/aegis/agent/trace.py:140-142 | if ties keep their insertion order, replay is the recorded log |
| Trace.ReplayExactIffNoTools | src/aegis/agent/trace.py:1-7 | what replay returns is what was recorded, for every possible order, if and only if every recorded row is an LLM call |
| Trace.OwnDataDecidesReads | src/aegis/agent/trace.py:113-142 | stores that agree on a tenant's runs and steps give it the same possible answers to all three reads |
| Trace.OthersCannotBeSeen | src/aegis/agent/trace.py:113-142 | no sequence of writes to other tenants' runs changes any read of the tenant |
| Trace.ListIsNewestOwnRuns | src/aegis/agent/trace.py:113-122 | the list has min(limit, all) distinct own runs, newest first, none left out for an older one |
| Trace.ListIsDetermined | src/aegis/agent/trace.py:113-122 | with distinct creation times the list is unique |
| Cost.PricingTable.CostBelowRate | src/aegis/cost/pricing.py:39-48 | a call costs at most its tokens at the dearest rate in the table, the fallback included |
| Cost.PricingTable.PriceOfAThousand | src/aegis/cost/pricing.py:39-48 | a thousand input tokens cost the listed input price, a thousand output tokens the output price, and an unlisted model the fallback's |
| Cost.PricingTable.EstimatesAdd | src/aegis/cost/pricing.py:42-48 | estimates add over tokens, which with the prices of a thousand fixes them |
| Cost.CostTracker.Record | src/aegis/cost/tracker.py:25-48 | adds exactly one row, priced by the table, and returns its cost |
| Cost.SpentConcat | src/aegis/cost/tracker.py:50-58 | a tenant's spend over two stretches of the ledger is the sum of both |
| Cost.SpentIsFilteredSum | src/aegis/cost/tracker.py:53-58 | the month's spend is the sum over the relevant rows |
| Cost.RelevantExactly | src/aegis/cost/tracker.py:53-58 | the relevant rows are the tenant's rows from the start on, each as often as recorded, and no other |
| Cost.HardStopExactly | src/aegis/cost/budgets.py:34-43 | hard stop if and only if a positive budget is used up; ok if and only if below the soft share of it |
| Runtime.ExecuteToolWithRetry | src/aegis/agent/runtime.py:264-292 | the outcome of the first attempt that is not retried; at most max_attempts calls, back-off slept for calls - 1 retries, retry_count calls - 1 on early exit and max_attempts on exhaustion |
| Runtime.BackedOffIsGeometric | src/aegis/agent/runtime.py:288-290 | r retries sleep base * (2^r - 1) in all |
| Runtime.AgentRuntime.CallTool | src/aegis/agent/runtime.py:216-255 | content and stored row of one tool call, known, unknown, rejected or failing |
| Runtime.AgentRuntime.CallTools | src/aegis/agent/runtime.py:215-255 | one row and one message per call, in order |
| Runtime.AgentRuntime.Turn | src/aegis/agent/runtime.py:120-255 | one iteration: its rows, its charge and its exit, before and after every branch |
| Runtime.AgentRuntime.Run | src/aegis/agent/runtime.py:84-262 | result, run row, step rows, cost rows and audit entries are those of the run as a function of its world; all earlier rows are untouched |
| Runtime.AgentRuntime.AuditHits | src/aegis/agent/runtime.py:71-82 | one audit entry per guardrail hit, in order, under the run and its tenant |
| RunLaws.RunPassesThrough | src/aegis/agent/runtime.py:120-255 | every loop head the definition of HeadAt reaches is on the run's path |
| RunLaws.EndsSomewhere | src/aegis/agent/runtime.py:120-262 | every run ends at a loop head, at the limit or in an iteration that stops |
| RunLaws.LedgersAgreeAtEveryHead | src/aegis/agent/runtime.py:147-172 | local totals, run row, step rows and cost rows carry the same tokens at every head; as many LLM rows as iterations |
| RunLaws.LedgersAgreeAtEveryExit | src/aegis/agent/runtime.py:103-262 | they agree at every exit; the row counts all steps, the result exactly the LLM calls unless the step limit is negative |
| RunLaws.LogIsIterations | src/aegis/agent/runtime.py:120-247 | every log is a sequence of LLM calls each followed by its tool calls, indices rising by one |
| RunLaws.StepsOfAFreshRun | src/aegis/agent/trace.py:140-142 | the rows found under a fresh run's id are its log |
| RunLaws.ReplayOfARun | src/aegis/agent/runtime.py:294-295 | replay of any run, for any order among ties: a permutation with LLM calls in order and every step inside its iteration, exact if ties keep their order |
| RunLaws.HeadsAreWithinBudget | src/aegis/agent/runtime.py:120-180 | no LLM call is made with the total above the budget, except the first under a negative one |
| RunLaws.BudgetIsExact | src/aegis/agent/runtime.py:174-213 | for every budget: budget_exceeded if and only if something was charged and the total exceeds it, then by no more than the last response; a final output if and only if completed |
| RunLaws.OverspendIsOneResponse | src/aegis/agent/runtime.py:147-180 | a run's total is at most its budget plus one response |
| Conversation.ToolRowsAnswer | src/aegis/agent/runtime.py:215-255 | the stored tool rows answer the calls one by one and give back the messages the model got |
| Conversation.ToolRowsRead | src/aegis/agent/runtime.py:215-255 | tool rows continue a conversation if and only if they answer its pending calls in order |
| Conversation.RunIsReadable | src/aegis/agent/runtime.py:113-255 | reading any run's rows from first to last succeeds, with every recorded prompt as rebuilt |
| Conversation.ConversationIsRecoverable | src/aegis/agent/runtime.py:150-163 | each recorded prompt is the previous one, the assistant's message and one tool message per call with its id, name and stored content |
| Outcomes.FirstPrompt | src/aegis/agent/runtime.py:103-116 | the first prompt of every run is the system prompt and the text the request verdict lets through, the message itself only without guardrails; with ConversationIsRecoverable this fixes every prompt |
| Outcomes.HowRunsEnd | src/aegis/agent/runtime.py:103-262 | every run is refused at once by the request verdict or ends for the reason its status names; a completed run's output is exactly the text the response verdict allows for the last response |
| Outcomes.RowsTellReplies | src/aegis/agent/runtime.py:131-163 | every LLM row of every run holds the reply of its iteration, with its provider, model and tokens, or the provider's error |
| Outcomes.ResponsesAreBilledOnce | src/aegis/cost/tracker.py:1-6 | the i-th cost row of a run is for the i-th response in its log: run, tenant, provider, model, tokens and their price |
| Outcomes.CallNotMade | src/aegis/agent/runtime.py:218-230 | an unknown tool or rejected arguments: no attempt, the reason stored and told to the model |
| Outcomes.CallSettled | src/aegis/agent/runtime.py:276-282 | the first attempt that returns or fails for good decides what the model is told and the row stores, with the attempts before it as retry count |
| Outcomes.CallExhausted | src/aegis/agent/runtime.py:283-292 | when all attempts time out or crash, the last error is told and stored, and the retry count is the number of attempts |
| Outcomes.RepliesListed | src/aegis/agent/runtime.py:248-255 | each call is answered by a tool message with its own id and name and what its execution came to |
| Outcomes.ResultMatchesRow | src/aegis/agent/runtime.py:94-110 | the caller's result and the stored row agree on status, output and both totals, and the row keeps what the run was started with |
| Outcomes.ReplayMatchesResult | src/aegis/agent/trace.py:135-166 | replay of a finished run gives back the status, output and totals its caller was told, and each total is the sum over the replayed records, for every order among ties |
| Outcomes.HitsAreAudited | src/aegis/agent/runtime.py:71-82 | the audit log grows by exactly one entry per hit on the request and on the final answer, in order |
| Golden.Script | src/aegis/eval/golden_provider.py:66-93 | one response per tool call, with its id, tool, arguments and usage, then the final text with its usage |
| Golden.GoldenScriptProvider.Chat | src/aegis/eval/golden_provider.py:46-53 | the n-th call gets the script's n-th answer, or an error past its end |
| Golden.GoldenRun | src/aegis/eval/golden_provider.py:30-37 | for k tool calls and limit M with the budget covered: min(k + 1, M) calls, completed with the scripted text if and only if k < M, else max_steps_exceeded; the script is never overrun, even when the budget is not covered |
| Golden.GoldenRunPlaysScript | src/aegis/eval/golden_provider.py:66-84 | up to every head the log is one LLM row and one tool row per scripted call, with its tool and arguments, in order |
| Golden.DecimalIsRead | src/aegis/eval/golden_provider.py:73-77 | call ids carry their position in decimal, so no two are the same |
| Admission.RunAgent | src/aegis/api/routes_agent.py:112-177 | unknown tenant: nothing changes; refused if and only if a positive budget is used up this month, with one audit entry, the exact figures and no run; otherwise the run, its charges under the tenant, its guardrail hits and one audit entry with its totals |
| Admission.StoppedExactly | src/aegis/cost/budgets.py:34-43 | requests are stopped if and only if the budget is positive and the month's spend has reached it; the soft alert stops nothing |
| Admission.ServedAlone | src/aegis/api/routes_agent.py:117-168 | the endpoint as a single request sees it is the budget check followed by the commit |
| Admission.BillIsBounded | src/aegis/agent/runtime.py:164-180 | one run costs at most the dearest rate on its token budget plus one response |
| Admission.OverrunCoversBills | src/aegis/cost/pricing.py:42-48 | rate * (token_budget + U) / 1000 covers every run within the limits, and c of them cost c times that |
| Admission.MonthlyOverrunIsBounded | src/aegis/api/routes_agent.py:117-168 | with at most c runs of a tenant open at once, its month's spend stays below the budget plus c worst bills, across month ends and whatever other tenants do |
| ApiKeys.FindActive | src/aegis/tenancy/api_keys.py:64-68 | an active row with the key id, or none exactly when there is no such row |
| ApiKeys.ApiKeyStore.Create | src/aegis/tenancy/api_keys.py:49-62 | the store stays the one its history determines, and the fresh pair is handed out |
| ApiKeys.ApiKeyStore.Revoke | src/aegis/tenancy/api_keys.py:70-74 | the store stays the one its history determines |
| ApiKeys.ApiKeyStore.Rotate | src/aegis/tenancy/api_keys.py:76-94 | the same; a fresh pair exactly when the key was active |
| ApiKeys.LineagesAreChains | src/aegis/tenancy/api_keys.py:1-8 | in every reachable store, rotation links form acyclic chains without branches, of one tenant and role, with successors only of revoked keys and at most one active key |
| ApiKeys.ActiveKeysAfter | src/aegis/tenancy/api_keys.py:76-94 | rotation keeps the number of active keys of every tenant and role; revocation takes at most the named one; creation adds one |
| ApiKeys.AuthenticationRefinesHistory | src/aegis/tenancy/api_keys.py:96-102 | a key authenticates with a secret if and only if some operation issued it with that secret and none retired it since |
| ApiKeys.DeadKeysStayDead | src/aegis/tenancy/api_keys.py:64-102 | once an issued key stops authenticating with a secret, it never does again |
| ApiKeys.AuthenticatedRow | src/aegis/tenancy/api_keys.py:96-102 | what authentication hands back is a stored active row with the given key id and the given secret's hash, of exactly the tenant and role its chain of rotations was created for |
| ApiKeys.OwnershipRefinesHistory | src/aegis/tenancy/api_keys.py:49-94 | a key's tenant and role in the store are those of the creation its chain of rotations goes back to |
| Luhn.LuhnValid | src/aegis/governance/pii.py:38-49 | accepts exactly 13 to 19 digits whose alternating sum is a multiple of ten |
| Luhn.SumIsAnnexB | src/aegis/governance/pii.py:41-49 | the sum taken is the one of Annex B of ISO/IEC 7812-1: from the left, with every second digit from the right doubled and decimal digits added |
| Luhn.SingleErrorDetected | src/aegis/governance/pii.py:41-49 | changing any one digit of a valid number makes it invalid, at any length |
| Luhn.AdjacentSwap | src/aegis/governance/pii.py:41-49 | swapping neighbours goes undetected if and only if they are equal or 0 and 9 |
| Luhn.OneCheckDigit | src/aegis/governance/pii.py:41-49 | each payload has exactly one valid check digit |
| Pii.FindPii | src/aegis/governance/pii.py:52-64 | the accepted stretches of every known entity, in list order then left to right |
| Pii.FoundExactly | src/aegis/governance/pii.py:52-64 | a hit is found if and only if its entity is listed and has a pattern giving its stretch, card numbers passing the card check besides |
| Pii.HitsInListOrder | src/aegis/governance/pii.py:53-64 | hits come entity by entity in list order |
| Pii.StrippedKeepsTheRest | src/aegis/governance/pii.py:60 | spaces and hyphens go, everything else stays |
| Pii.PlaceholderSpelled | src/aegis/governance/pii.py:70 | a placeholder is the entity's name in capitals between fixed ends |
| Pii.Redact | src/aegis/governance/pii.py:67-72 | right-to-left splicing; for hits in the text it is the simultaneous substitution if and only if no two overlap |
| Pii.RedactionIsExactIffNoOverlap | src/aegis/governance/pii.py:67-72 | the same for every list of hits in any order, with the exact length when none overlap |
| Pii.FindThenRedact | src/aegis/governance/pii.py:52-72 | redacting what was found: always exact for one entity, and for several if and only if no two hits overlap |
| Pii.LeaksExactly | src/aegis/governance/pii.py:67-72 | a character inside a hit is still in the result if and only if no hit starting at or before it reaches to where the hits redacted earlier have moved it |
| Pii.NothingLeaks | src/aegis/governance/pii.py:1-3 | nothing inside a hit stays if no two hits overlap, or if no placeholder is longer than its hit |
| Pii.NestedHits | src/aegis/governance/pii.py:67-72 | of a hit around another, the text after the inner one stays exactly as far as the inner placeholder is longer than the inner hit |
| Pii.PhoneInsideCardLeaks | src/aegis/governance/pii.py:67-72 | a phone number inside a card number leaves the card's last four characters |
| Pii.RepeatedEntityBreaksRedaction | src/aegis/governance/pii.py:54-63 | an entity listed twice with any hit makes redaction differ from the substitution |
| Splicing.SpliceIsScan | src/aegis/governance/pii.py:69-71 | descending disjoint splices give the one-pass substitution, with exact length |
| Splicing.OverlapLosesText | src/aegis/governance/pii.py:69-71 | splicing is never longer than the substitution, and strictly shorter on an overlap |
| Splicing.SplicingIsSubstitutionIffDisjoint | src/aegis/governance/pii.py:67-72 | for every list of nonempty in-bounds patches in any order, sorted splicing is the substitution if and only if no two overlap |
| Survival.SurvivesExactly | src/aegis/governance/pii.py:69-71 | for every list of patches in any order: which characters of the text are still in the result |
| Survival.OriginsAreTrue | src/aegis/governance/pii.py:69-71 | every character of the result that comes from the text is the one at the position it is said to come from |

## Left out

- Provider adapters, embedding and streaming: network clients; a call is its outcome (success, authentication error, transient error). Other exceptions and cancelled calls, which leave no verdict either, appear only as an escaped error of the run.
- A breaker registry handed to the router with settings other than the policy's: the router's breakers have the policy's settings.
- Routing by fields other than tenant, classification and cost tier: the context has no others; a rule naming one never matches.
- Metrics, tracing spans, log output and step durations: observability only.
- Sessions, transactions and rollback: tables are sequences and maps of rows; a run that raises keeps the rows it wrote up to then, as they stand before the session is discarded. Only the overrun bound distinguishes committed charges from those of open runs, which other requests do not see.
- Guardrail rules: a guardrail is an abstract verdict, allow with a text or block with a reason, and its hits.
- Regular expressions: each entity gives abstract nonempty stretches, left to right and disjoint.
- Argon2 salts and secret generation: hashing is exact, secrets and key ids are fresh values, and a key row's id is its position.
- JSON encoding: tool results and error objects are already text; the encoding of errors is an arbitrary function.
- Tool schemas: argument validation is an abstract verdict.
- Trace listing is a relation between the store and its possible answers, not a method, because the order of equal creation times is the database's choice; negative limits are not modelled.
- Unicode: digits are '0' to '9', and upper-casing of entity names is ASCII.
- Floating-point rounding: money and back-off are real numbers.
- Authentication headers, role ranking and the other endpoints; the eval report; the individual tools; the console, infrastructure files and YAML loading.
