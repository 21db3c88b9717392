# LLM Access Gateway: a model and its proofs

The gateway stands between clients and several LLM providers. This project models the decisions it makes between its I/O
calls and proves what they amount to over every input and every run. It has three parts.

**Routing.** `Ranking` orders the backends that may serve a model, and `RankingLaws` says what that order means for priorities, rules
and model lists. `RoutePolicy` and `Seeding` follow a configuration through
the seeded route rules and back into rewritten backends, and `ConfigLaws` says what its names and rules mean. `Health` says what a backend's health is as a function of the marks
it has had; `Fallback` says what a request, a stream and a probe round are to do; `Router` is the class whose `states` map and
loops do it; `RouterLaws` says what that means. `Metrics` and `MetricsRuns` are the registry that
rebuilds health from events, and when that works.

**Governance.** `Ledger` holds the usage tables and their aggregates. `Admission` breaks an admission transaction into the
steps at which others can come between (begin, lock, each check, commit, rollback), with settlement free to interleave, and a
run is any sequence of steps. `AdmissionSafety`, `AdmissionTokens` and `AdmissionIsolation` are the theorems over all runs.
`GovernanceStore` is the store's methods, each proved to be one such run, and `StoreLaws` says of rows and limits what they admit. `RedisLimiter` is the other admission path, a command
at a time, and `AdmissionBounds` shows that the bounds are tight. `Governance` is the request tracker, and `Attempts` the
adapter's retry loop and what it leaves in the ledger; `RetryLaws` says which failures are retried.

**Streams.** `Resp` is the Redis codec and `Sse` the event reader, each with its round trip. `AnthropicStream` and
`AnthropicPrompt` translate one provider's streams and prompts. `AnthropicWire` joins reader and translator. `AdapterCalls`,
`ChatService`, `Handlers` and `Pipeline` carry a request from the adapters' attempts to the client's frames and to the bill. `Tokens` and `Text` are the word count that all billing rests on.

## How to read it

Calls that run at the same time are explicit. In the router, a step of a call is preceded by the marks that other calls made
meanwhile (`others`), because the router's mutex admits one mark at a time. In `Admission` and `RedisLimiter`, a run is a
sequence of steps of any number of requests. In `Attempts`, other requests begin and settle attempts of their own between the
passes of a call (`OtherOp`). Upper and lower case are those of `Text.LETTERS`, which may be any mapping that satisfies the few
laws of `Lawful`; Unicode's simple mapping does. Clock readings, upstream answers, failing statements, lost replies, failed writes
and cancellations are inputs (`Script`, `Turns`, `Statement`, `Delivery`, `Writes`, `Cancelled`), so each theorem holds for all of them.

Where the source changes state step by step the model is a class or a loop, and its contract ties it to a function of the
inputs and of the old state; what the gateway promises is then proved of that function.

Several claims that one might expect are false of the code, and what holds exactly is proved instead:

- Seeding keeps a model's routing exactly when every backend is `SeedSafe` for it, and it loses exactly the others
  (`Seeding.UnsafeIsLost`). Every configuration with real priorities is safe for a model if and only if each character of the
  model has a lower-case folding class of its own (`Seeding.SafeSpellings`). Other spellings are lost, because models are matched
  by folding and rules by lower case: a long s for an s, a final sigma for a sigma. `Seeding.OtherSpellingIsLost` gives the
  configuration, the rules and the two rankings. A blank model loses the backends that list models (`Seeding.BlankModelIsLost`).
- A tenant exceeds its budget by what settlement adds after its last admitting read, and for every budget and every amount
  there is a run that does (`AdmissionSafety.BudgetSafety`, `AdmissionBounds.BudgetBoundIsReached`); the token window likewise
  (`AdmissionTokens.SlidingTokenWindow`, `AdmissionBounds.TokenBoundIsReached`).
- A minute keeps the Redis limits in all runs if and only if it starts with a minute of the clock; any other holds twice either
  limit in some run, and none holds more (`RedisLimiter.ExactlyAlignedWindowsHold`, `RedisLimiter.AtMostTwice`).
- The metrics copy does not follow the router through every run of concurrent calls. A mark is made under the router's mutex and
  its events are observed after the mutex is released, so they can arrive in another order than the marks. Two calls that fail at
  once can leave the copy healthy while the router cools the backend down, for every threshold from 2 on
  (`MetricsRuns.LateEventIsBelieved`), and a failure between the two events of a recovery is forgotten
  (`MetricsRuns.LateRecoveryIsBelieved`). The copy agrees after any delivery if and only if, for each backend, the last event
  delivered about it says what the history says (`Metrics.ReplicaAfterAnyDelivery`). For that it suffices that each backend's
  events are delivered in the order of its marks; across backends any order will do (`MetricsRuns.DeedsKeepReplica`).
- When `[DONE]` itself cannot be written, the request is settled as failed although all of its text was sent
  (`Handlers.LostMarkerFailsAll`, for every stream).

The registry drops events without a backend name; every backend that a configuration builds has one
(`MetricsRuns.ConfiguredBackendsAreNamed`).

Where the documents and the code differ, the model follows the code: the budget is read from the attempt table and not, as
docs/architecture/governance.md:165-172 shows, from the request table; and the Redis counters that line 213 of that document
calls sliding windows are fixed minutes of the clock, which is why they admit up to twice the limit.

## Model

| member | source | states |
|---|---|---|
| Text.TrimIsTrimmed | internal/provider/tokens.go:18 | trimming leaves no blank at either end |
| Text.TrimLower | internal/provider/router/chat.go:595 | lowering and trimming commute, so the order in which the sources apply them does not matter |
| Text.NormalizeIdempotent | internal/routingpolicy/policy.go:74-89 | a normal model name is its own normal form |
| Text.WordsConcat | internal/provider/tokens.go:23 | joining two texts joins at most one pair of words |
| Text.FieldsCountWords | internal/provider/tokens.go:23-26 | splitting on blanks gives one field for each place where a word starts |
| Tokens.EstimateCountsWords | internal/provider/tokens.go:17-29 | the estimate is the number of words, and the rune-count branch is never reached |
| Tokens.EstimatePromptTokens | internal/provider/tokens.go:5-15 | the prompt estimate is the sum of the words of all roles and all contents |
| Tokens.PromptTokensAppend | internal/provider/tokens.go:5-15 | estimates of message lists add up |
| Tokens.StreamEstimateBounds | internal/service/governance/service.go:410-422 | the estimate of a stream of k chunks lies between the sum of the chunk estimates less k - 1 and that sum |
| Tokens.StreamEstimateMonotone | internal/service/governance/service.go:410-422 | the estimate never falls as chunks are observed |
| AnthropicPrompt.SplitMessages | internal/provider/anthropic/chat.go:420-435 | the other messages are exactly those that are not system ones, in the order of their positions; the system prompt is the non-blank system contents, trimmed, in the order of theirs, joined |
| AnthropicPrompt.MergedParts | internal/provider/anthropic/chat.go:420-435 | the prompt holds each kept system content at its place, with two line ends between one and the next, and nothing else |
| AnthropicPrompt.EstimateAttemptPromptTokens | internal/provider/anthropic/chat.go:794-809 | what an attempt reserves is the words of its merged system message and of its messages |
| AnthropicPrompt.SplitConservesTokens | internal/provider/anthropic/chat.go:420-435 | splitting loses no word but the roles of the system messages |
| AnthropicPrompt.ReservationIsAdmissionLessSystemRoles | internal/provider/anthropic/chat.go:794-809 | the reservation equals the admission estimate less the number of system messages, plus one if any is not blank |
| AnthropicPrompt.ReservationWithinAdmission | internal/service/governance/service.go:456-466 | no message list reserves more than it was admitted for |
| Ranking.LowestPriorityIsLowest | internal/provider/router/chat.go:660-676 | the priority kept is the least among matching rules, and one of them has it unless none is below maxInt |
| Ranking.RouteRulePreference | internal/provider/router/chat.go:660-686 | an exact rule scores 2, a generic one 1; a priority of maxInt counts as no rule |
| Ranking.BackendPreference | internal/provider/router/chat.go:641-658 | rules decide if there are any, else the model list under case folding |
| Ranking.RankBackends | internal/provider/router/chat.go:594-639 | the result is the stable sort of the applicable backends, whose order RankingOrder and TiedBackendsKeepOrder spell out |
| Ranking.SortSorts | internal/provider/router/chat.go:621-631 | sorting yields an ordered permutation |
| Ranking.SortIsStable | internal/provider/router/chat.go:621-631 | items with equal keys keep their order |
| Ranking.StableSortIsUnique | internal/provider/router/chat.go:621-631 | an ordered sequence with the same items in the same order under each key is the same sequence |
| Ranking.SortCommutesWithFilter | internal/provider/router/chat.go:621-631 | deleting items before or after a stable sort is the same |
| Ranking.RankingIsTheStableSort | internal/provider/router/chat.go:594-639 | the ranking holds exactly the applicable backends, by score, rule priority and backend priority, ties in configuration order, and nothing else does |
| RankingLaws.PlainPreference | internal/provider/router/chat.go:641-658 | a backend without rules scores 2 if it lists the model, 1 if it lists none or no model is asked for, 0 if it lists only others, at its own priority |
| RankingLaws.RulePreferenceMeans | internal/provider/router/chat.go:660-686 | rules for the model itself decide before rules for any model, whatever their priorities; the least of the deciding ones counts; without one the backend takes no part |
| RankingLaws.RankingOrder | internal/provider/router/chat.go:621-631 | higher scores come first, then lower rule priorities, then lower backend priorities |
| RankingLaws.WhoIsRanked | internal/provider/router/chat.go:594-620 | a backend is ranked if and only if it is configured and has a preference |
| RankingLaws.ListedComesFirst | internal/provider/router/chat.go:621-658 | a backend that lists the model comes before one that lists none, and that before one that lists only others; within these the lower priority first |
| RankingLaws.TiedBackendsKeepOrder | internal/provider/router/chat.go:621-631 | backends that tie in everything are ranked in the order of their configuration |
| RoutePolicy.NormalizeModels | cmd/gateway/main.go:483-505 | the non-blank names, lowered and trimmed, each once, in first-seen order |
| RoutePolicy.ModelNamesAreNormal | internal/routingpolicy/policy.go:74-89 | the kept names are exactly the non-blank normal forms, each once, and each its own normal form |
| RoutePolicy.DesiredRouteRuleSeeds | internal/routingpolicy/policy.go:16-41 | one rule for each configured endpoint and model, and a generic one for an endpoint without models |
| RoutePolicy.ApplyRouteRules | cmd/gateway/main.go:337-387 | without rules nothing changes; otherwise backends without rules are dropped, the others get their rules and their least priority, and a rule for a blank or unknown name is an error |
| RoutePolicy.GroupsOfNamedBackends | cmd/gateway/main.go:343-362 | a backend has a group exactly when a rule names it |
| ConfigLaws.DefaultNamesAreDistinct | internal/routingpolicy/policy.go:43-72 | endpoints without a name are given different ones, whatever their kinds |
| ConfigLaws.EndpointsInOrder | internal/routingpolicy/policy.go:43-60 | the listed backends are the endpoints, each in its place; without a list, the primary and then the secondary one |
| ConfigLaws.BackendMeans | cmd/gateway/main.go:389-475 | for which kinds and base URLs a backend is built, and its name, priority, models and first-chunk time |
| ConfigLaws.RulesPicked | cmd/gateway/main.go:343-358 | a backend's rules are those that name it, in the order of the table, with their models normalised |
| ConfigLaws.RoutedMeans | cmd/gateway/main.go:361-375 | backends that no rule names are dropped; the others stay in order, with their rules for their models and the least of the rules' priorities |
| Seeding.SeededRulesApply | cmd/gateway/main.go:337-387 | seeded rules, in any order, are accepted and rewrite every backend |
| Seeding.RulesOfBackend | internal/routingpolicy/policy.go:16-41 | a backend's rules are its own seeds and no others |
| Seeding.RewrittenPreference | internal/provider/router/chat.go:641-686 | the rewritten backend's preference for a model, worked out from its configuration |
| Seeding.SeededRanking | internal/provider/router/chat.go:594-639 | for every model, ranking the rewritten backends gives the configuration's ranking with the backends deleted that score 0 or that seeding loses |
| Seeding.SeedingPreservesRouting | cmd/gateway/main.go:337-387 | the rewritten backends rank as the configuration does, less its score-0 backends, if and only if every backend is seed-safe for the model |
| Seeding.UnsafeIsLost | cmd/gateway/main.go:337-387 | a backend is ranked by configuration and lost by seeding exactly when it is not seed-safe |
| Seeding.OrdinaryConfigurationsAreSafe | internal/provider/router/chat.go:652-656 | a backend with a priority below maxInt is seed-safe for a model that is not blank when no listed name uses another character of the same folding class |
| Seeding.AsciiConfigurationsAreSafe | internal/provider/router/chat.go:652-656 | in particular, ASCII names are safe for every ASCII model |
| Seeding.OtherSpellingIsLost | internal/provider/router/chat.go:653 | a configuration whose endpoint spells the model with another character of the same folding class: ranked before seeding, gone after |
| Seeding.SafeSpellings | internal/provider/router/chat.go:653-670 | every configuration with real priorities is seed-safe for a model if and only if each of its characters has a lower-case folding class of its own |
| Seeding.BlankModelIsLost | internal/provider/router/chat.go:646-648 | seeding loses a backend for the blank model exactly when the backend lists models |
| Health.HealthIsIncremental | internal/provider/router/chat.go:490-539 | one mark moves the marked backend's health as the mark methods do, and nobody else's |
| Health.MarksMean | internal/provider/router/chat.go:490-539 | a success forgets failures, cooldown and probe error; a failure counts one more, and cools down from its own time on when the count has reached the threshold; a probe leaves its time and its error, which a request leaves alone |
| Health.CooldownIsExact | internal/provider/router/chat.go:501-512 | a cooldown is set exactly when the failures since the last success reach the threshold, and ends one cooldown after the last failure |
| Health.OtherMarks | internal/provider/router/chat.go:490-539 | marks of other backends leave a backend's health alone |
| Router.Router.constructor | internal/provider/router/chat.go:100-119 | thresholds and cooldowns that are not positive become 1 and 30 seconds |
| Router.Router.MarkSuccess | internal/provider/router/chat.go:490-499 | the history grows by a success; recovered is reported if and only if a failure came after the last success |
| Router.Router.MarkFailure | internal/provider/router/chat.go:501-512 | the history grows by a failure; count and cooldown reported are what the history gives |
| Router.Router.MarkProbeSuccess | internal/provider/router/chat.go:514-524 | as MarkSuccess, with the time of the probe |
| Router.Router.MarkProbeFailure | internal/provider/router/chat.go:526-539 | as MarkFailure, with the time and error of the probe |
| Router.Router.Interfere | internal/provider/router/chat.go:490-539 | any marks of other calls keep the states equal to the history's health |
| Router.Router.Candidates | internal/provider/router/chat.go:465-488 | candidates and skipped backends are those of the ranking, at the instant's health |
| Router.Router.BackendStatuses | internal/provider/router/chat.go:551-575 | each backend is reported with the health its history gives |
| Router.Router.Ready | internal/provider/router/chat.go:541-549 | true if and only if some backend is not cooling down |
| Router.Router.Win | internal/provider/router/chat.go:144-170 | the winner is reset and its success, fallback and recovery are reported, each when it is due |
| Router.Router.Lose | internal/provider/router/chat.go:178-191 | a failure is marked once and reported with the health after it |
| Router.Router.CreateChatCompletion | internal/provider/router/chat.go:121-199 | the first answer in candidate order; each earlier candidate failed once; an accounting error stops unmarked; the last error when all fail; the exact events |
| Router.Router.StreamChatCompletion | internal/provider/router/chat.go:201-306 | commits to the first backend that delivers a chunk; earlier ones failed once; each called backend's context is cancelled; none is called later; the exact events and marks |
| Router.Router.ForwardStreamEvent | internal/provider/router/chat.go:434-463 | an error is marked and reported even when nobody takes it |
| Router.Router.WrapStream | internal/provider/router/chat.go:355-393 | what is forwarded, marked and reported, for every pattern of cancellation |
| Router.Router.ProbeAll | internal/provider/router/chat.go:308-353 | history and events of a probe round, backend by backend |
| Fallback.Deciding | internal/provider/router/chat.go:136-194 | every attempt before the deciding one was refused, and the deciding one was not |
| Fallback.AwaitedMeans | internal/provider/router/chat.go:395-432 | a stream is answered exactly when it was opened and its first chunk was waited for and came; the errors of refusals and of accounting |
| Fallback.Ending | internal/provider/router/chat.go:374-389 | everything before the end is a chunk that was delivered, and the end is an error or a done context |
| RouterLaws.CandidateSplit | internal/provider/router/chat.go:465-488 | candidates and skipped partition the ranking in order; a cooling backend is a candidate only when all are cooling |
| RouterLaws.NotReadyTriesAll | internal/provider/router/chat.go:483-485 | when no backend is ready, any model's candidates are its whole ranking |
| RouterLaws.OneMarkEach | internal/provider/router/chat.go:177-178 | among the marks of other calls, each refused candidate has exactly one failure, in order, right after what others did during its attempt |
| RouterLaws.RefusalsCount | internal/provider/router/chat.go:177-191 | a backend that no other call marks has one failure more for each time it was refused, and its old health if it was not tried |
| RouterLaws.FallbackEffect | internal/provider/router/chat.go:121-199 | among the marks of other calls, the winner has no failures; a backend that they do not mark has one more for each refusal, or its old health |
| RouterLaws.DistinctFallback | internal/provider/router/chat.go:121-199 | with distinct names, each refused candidate has exactly one failure more and each later one its old health, unless another call marks it |
| RouterLaws.WhatIsReported | internal/provider/router/chat.go:121-199 | the events of a request, one by one: the skipped backends, each refusal with its place, its error and the health after it, and success, fallback and recovery exactly when they are due |
| RouterLaws.CommittedStream | internal/provider/router/chat.go:355-463 | what is forwarded starts with a chunk and is a prefix of one backend's events, up to its first error at the latest, and all of that when nothing is cancelled |
| RouterLaws.InterruptionMark | internal/provider/router/chat.go:434-450 | a forwarded stream gives a backend that no other call marks one failure more exactly when an error arrives |
| Metrics.Registry.SyncProviderStatuses | internal/obs/metrics/registry.go:60-71 | each report replaces its backend's entry |
| Metrics.Registry.UpdateProviderStatus | internal/obs/metrics/registry.go:322-342 | success kinds reset, failure kinds copy, other kinds and unnamed backends change nothing |
| Metrics.Registry.OnEvents | internal/obs/metrics/registry.go:115-121 | events are absorbed one by one, in the order delivered |
| Metrics.Registry.ReadyGauge | internal/obs/metrics/registry.go:181-216 | 1 if there is no entry or some entry is healthy, else 0 |
| Metrics.SyncMakesReplica | internal/obs/metrics/registry.go:60-71 | after the initial sync the copy agrees with the router |
| Metrics.AnnouncedMark | internal/obs/metrics/registry.go:322-342 | one mark whose events arrive before the next keeps the entries of named backends in agreement and leaves an unnamed one alone |
| Metrics.NamedPartFollows | internal/obs/metrics/registry.go:322-342 | in every run the entries of named backends agree after every step |
| Metrics.MetricsFollowRouter | internal/obs/metrics/registry.go:115-121 | in every run in which each mark's events arrive before the next mark, the whole copy agrees if and only if no backend lacks a name or its health is what its entry said |
| Metrics.ReplicaAfterAnyDelivery | internal/obs/metrics/registry.go:322-342 | whatever is delivered in whatever order, the copy agrees if and only if for each backend the last event about it, or its old entry, says what the history says |
| Metrics.OrderAcrossBackendsIsFree | internal/obs/metrics/registry.go:322-342 | two deliveries with the same events of each backend in the same order leave the same copy |
| Metrics.GaugeIsReady | internal/obs/metrics/registry.go:211-215 | while the copy agrees and there is a backend, the gauge is Ready |
| MetricsRuns.OpAnnounces | internal/provider/router/chat.go:144-191 | whatever the router does and whatever came before, the events it reports carry its mark's figures and no others |
| MetricsRuns.DeedsAreDelivered | internal/obs/metrics/registry.go:115-121 | any list of operations whose events happen to arrive in turn is a run that MetricsFollowRouter is about |
| MetricsRuns.DeedsKeepReplica | internal/obs/metrics/registry.go:322-342 | after any list of operations of any calls the copy agrees, if each backend's events were delivered in the order of its marks and every backend has a name |
| MetricsRuns.LateEventIsBelieved | internal/provider/router/chat.go:184-185 | two failures whose events arrive the other way round: the router cools the backend down and the copy has it healthy at every instant, for every threshold from 2 on |
| MetricsRuns.LateRecoveryIsBelieved | internal/provider/router/chat.go:150-170 | a failure between the first and the last event of a recovery: the copy has no failure and the router one |
| MetricsRuns.ConfiguredBackendsAreNamed | cmd/gateway/main.go:389-398 | every backend that a configuration builds has a name |
| MetricsRuns.AnyMarksAreDeeds | internal/provider/router/chat.go:490-539 | whatever marks other calls leave, some operations leave them |
| MetricsRuns.RequestTold | internal/provider/router/chat.go:121-199 | a request among other calls: its operations and theirs make up the history, and its own tell everything that it reports |
| MetricsRuns.ForwardingTold | internal/provider/router/chat.go:355-463 | the same for the forwarding of a stream |
| MetricsRuns.ProbesTold | internal/provider/router/chat.go:308-353 | the same for a round of probes |
| MetricsRuns.WatchedCreate | internal/provider/router/chat.go:121-199 | a create request of the router among other calls keeps every copy in agreement to which each backend's events are delivered in the order of its marks |
| MetricsRuns.WatchedStream | internal/provider/router/chat.go:201-306 | so does a stream request, to the end of the stream, on the same condition |
| MetricsRuns.WatchedProbes | internal/provider/router/chat.go:308-353 | so does a round of probes, on the same condition |
| Sums.SumAtMost | internal/store/mysql/governance_store.go:454-486 | a smaller weight has a smaller aggregate |
| Ledger.MineReplaced | internal/store/mysql/governance_store.go:280-303 | updating a row updates it among its tenant's rows and nowhere else |
| Ledger.SumOfMine | internal/store/mysql/governance_store.go:504-518 | an aggregate for a tenant can be taken over that tenant's rows alone |
| Admission.StepKeepsExclusive | internal/store/mysql/governance_store.go:389-407 | a tenant's lock has one holder, and whoever is between its checks holds it |
| Admission.PassedByCheck | internal/store/mysql/governance_store.go:409-424 | a transaction is past its budget check only by having passed it, on the sum it read then |
| AdmissionSafety.OnlyCommitsAndUpdates | internal/store/mysql/governance_store.go:151-231 | every step but a commit, a settlement and an unlocked insert leaves both tables as they are, a rejection included |
| AdmissionSafety.RejectedForGood | internal/store/mysql/governance_store.go:217-231 | a rejected admission stays rejected in every run, and can neither lock nor commit |
| AdmissionSafety.BudgetSafeInRuns | internal/store/mysql/governance_store.go:184-251 | the budget invariant holds after every step of every run |
| AdmissionSafety.BudgetSafety | internal/store/mysql/governance_store.go:409-424 | in every run a tenant's attempt total is at most its budget plus what settlement added since its last admitting read |
| AdmissionSafety.RateSafeInRuns | internal/store/mysql/governance_store.go:426-452 | the request-rate invariant holds after every step of every run of transactions |
| AdmissionSafety.SlidingWindow | internal/store/mysql/governance_store.go:426-438 | every closed minute of created_at holds at most the request limit, in whatever order the locks were taken |
| AdmissionTokens.BudgetWithoutGrowth | internal/store/mysql/governance_store.go:333-356 | if no settlement raises an attempt, an admitted tenant stays within its budget |
| AdmissionTokens.SlidingTokenWindow | internal/store/mysql/governance_store.go:440-452 | every closed minute of created_at holds at most the token limit plus what settlement raised requests by |
| AdmissionBounds.BudgetBoundIsReached | internal/store/mysql/governance_store.go:333-356 | for every budget and every growth there is a run whose attempt total is exactly the budget plus that growth |
| AdmissionBounds.TokenBoundIsReached | internal/store/mysql/governance_store.go:280-303 | for every token limit, admitted prompt and raise there is a run whose window holds exactly the prompt plus the raise |
| AdmissionIsolation.SameChecks | internal/store/mysql/governance_store.go:409-452 | a check sees the same numbers when other tenants are not there |
| AdmissionIsolation.StepAlone | internal/store/mysql/governance_store.go:151-251 | one step, seen from one tenant, is that tenant's own step or none |
| AdmissionIsolation.TenantsAreIsolated | internal/store/mysql/governance_store.go:151-251 | in every run a tenant's rows, transactions and lock are what its own steps alone would give it |
| GovernanceStore.Transaction.Finish | internal/store/mysql/governance_store.go:223-229 | a transaction is rolled back by each finish until it is committed, and never after |
| GovernanceStore.Store.EnforceBudget | internal/store/mysql/governance_store.go:409-424 | a budget that is not positive makes no query; otherwise sum plus prompt above it is refused |
| GovernanceStore.Store.EnforceRateLimit | internal/store/mysql/governance_store.go:426-452 | requests before tokens; a count that has reached its limit, or a sum that the prompt would take above it, is refused |
| GovernanceStore.Store.Admit | internal/store/mysql/governance_store.go:233-251 | the first failing check, in the order lock, budget, request rate, token rate |
| GovernanceStore.Store.BeginRequestAtomic | internal/store/mysql/governance_store.go:151-182 | one row more and its id, or the refusal and the tables as they were; rolled back exactly when begun and not committed |
| GovernanceStore.Store.BeginAttemptAtomic | internal/store/mysql/governance_store.go:184-215 | the same for attempts, against the budget alone |
| GovernanceStore.Store.InsertUsageRecord | internal/store/mysql/governance_store.go:253-278 | one row more; an id that cannot be read leaves the row behind |
| GovernanceStore.Store.UpdateUsageRecord | internal/store/mysql/governance_store.go:280-303 | the row with the id, if there is one, and no other; nothing when the statement fails |
| GovernanceStore.Store.UpdateAttemptUsageRecord | internal/store/mysql/governance_store.go:333-356 | the row with the id, if there is one, and no other; nothing when the statement fails |
| GovernanceStore.DisturbedKeepsOwn | internal/store/mysql/governance_store.go:333-356 | what other requests do leaves the rows of this one as they are |
| GovernanceStore.AttemptIsARun | internal/store/mysql/governance_store.go:184-215 | BeginAttemptAtomic's verdict and table are those of the small steps taken without interruption |
| GovernanceStore.RequestIsARun | internal/store/mysql/governance_store.go:151-182 | and BeginRequestAtomic's likewise |
| StoreLaws.RequestVerdict | internal/store/mysql/governance_store.go:233-244 | a request is refused for its rate if and only if as many of the tenant's rows as the limit lie in the minute up to it, for its budget or its tokens if and only if the sum and its prompt exceed the limit, in this order |
| StoreLaws.AttemptVerdict | internal/store/mysql/governance_store.go:246-251 | an attempt is refused if and only if the tenant's attempts and its prompt exceed a positive budget |
| StoreLaws.FailuresAreNotVerdicts | internal/store/mysql/governance_store.go:151-215 | a statement that fails is a failed store or is not reached: it admits nothing that would be refused, and nothing is admitted whose row is not there |
| StoreLaws.ChecksThatAreNotDue | internal/store/mysql/governance_store.go:409-452 | a check that is not due makes no query that could fail: without a limit, and the rate checks of an attempt |
| StoreLaws.RateIsReached | internal/store/mysql/governance_store.go:426-438 | for every limit, exactly as many requests as the limit are admitted at one instant, and the next is refused and leaves no row |
| StoreLaws.ServiceVerdict | internal/service/governance/service.go:162-210 | the service's verdict by who decides: the transaction, the budget and then the counters, the transaction again when they do not answer, or the budget alone |
| StoreLaws.RowsLeftBehind | internal/service/governance/service.go:185-203 | a request that is turned away leaves a row only outside a transaction, and only when reading its id was all that failed |
| RedisLimiter.Limiter.Admit | internal/service/governance/redis_limiter.go:51-79 | no command without limits; the script's verdict, or unavailable when no answer comes back; the counters after it in each case |
| RedisLimiter.Limiter.RecordCompletionTokens | internal/service/governance/redis_limiter.go:81-94 | a positive completion of a tenant with a token limit is counted and then given its expiry; a failure is absorbed by a fallback and otherwise returned |
| RedisLimiter.TimelyIsLive | internal/service/governance/redis_limiter.go:12-30 | a command within a minute of its time finds its counters alive: the 120 seconds outlast the minute |
| RedisLimiter.WindowAccounting | internal/service/governance/redis_limiter.go:12-30 | in every interleaving the request counter is the admitted requests, the token counter the admitted prompts plus recorded completions, and neither limit is passed in a minute |
| RedisLimiter.VerdictIsExact | internal/service/governance/redis_limiter.go:12-30 | in every timely run a request is refused for its rate if and only if as many requests as the limit were admitted in its minute, and otherwise for its tokens if and only if they exceed the limit with its prompt |
| RedisLimiter.AdmissionCounts | internal/service/governance/redis_limiter.go:25-29 | an admission raises one counter by one and the other by its prompt, and both live for 120 seconds |
| RedisLimiter.CompletionCounts | internal/service/governance/redis_limiter.go:81-94 | a completion is counted once, or not at all when it is not positive, when there is no limit or when its command is never sent |
| RedisLimiter.Limiter.KeepsAccounts | internal/service/governance/redis_limiter.go:12-30 | the counters of a limiter are what its commands made of them, so while these are timely the accounting holds of them |
| RedisLimiter.AtMostTwice | internal/service/governance/redis_limiter.go:96-98 | any half-open minute admits at most twice either limit |
| RedisLimiter.AlignedWindow | internal/service/governance/redis_limiter.go:96-98 | a minute that starts with a minute of the clock keeps both limits in every timely run |
| RedisLimiter.BurstIsAdmitted | internal/service/governance/redis_limiter.go:19-30 | a burst of as many requests as the limit, before and again after a minute's end, is admitted whole |
| RedisLimiter.ExactlyAlignedWindowsHold | internal/service/governance/redis_limiter.go:96-98 | a minute keeps the request limit in all timely runs if and only if it starts with a minute of the clock; any other holds exactly twice the limit in some run |
| RedisLimiter.ExactlyAlignedWindowsHoldTokens | internal/service/governance/redis_limiter.go:96-98 | the same for the token limit and admitted prompts |
| Governance.Complete | internal/service/governance/service.go:329-353 | the attempt's row is settled with what was reported, zeros filled in from the reservation |
| Governance.RequestTracker.BeginAttempt | internal/service/governance/service.go:258-327 | the attempt is admitted by the store with trimmed or default model and backend; only a stream attempt becomes the one that text is billed to |
| Governance.AttemptRow | internal/service/governance/service.go:258-300 | the row an attempt begins with: names trimmed or by default, its prompt as its whole charge |
| Governance.RequestTracker.Record | internal/service/governance/service.go:394-398 | a positive completion changes the counters as RecordCompletionTokens does, and fails when it does |
| Governance.RequestTracker.Fail | internal/service/governance/service.go:355-378 | the request is failed at no tokens, a stream attempt at its prompt plus the words observed |
| Governance.RequestTracker.CompleteNonStream | internal/service/governance/service.go:380-408 | the row settled and the count recorded, number by number: reported usage; where no prompt is reported the estimate of the messages; where no total is reported the words of the answer and their sum with the prompt |
| Governance.ContentAppends | internal/service/governance/service.go:468-474 | the text of an answer is that of its choices, in order |
| Governance.RequestTracker.ObserveStreamChunk | internal/service/governance/service.go:410-418 | the text to bill grows by the text of all choices |
| Governance.RequestTracker.CompleteStream | internal/service/governance/service.go:420-454 | the observed words are recorded in the counters, and request and attempt are both settled at the prompt's words plus them |
| Governance.Service.BeginRequest | internal/service/governance/service.go:162-210 | the verdict on every path: no principal, transaction, budget and counters, no limiter, unanswered counters; the exact table and counters after each, a row whose id cannot be read included |
| Attempts.TryOnce | internal/provider/openai/chat.go:392-402 | an attempt among the work of other requests is refused, handed back open, left open by a failed settlement, or settled as failed, by its id |
| Attempts.UpstreamMeansSettled | internal/provider/openai/chat.go:400-407 | a pass ends in an upstream error exactly when its attempt was admitted, failed and was settled |
| Attempts.DoRequest | internal/provider/openai/chat.go:389-415 | the passes that go on and the last one, each among the work of other requests, and the total of the full waits between passes |
| RetryLaws.RetriesReachTheAnswer | internal/provider/openai/chat.go:389-415 | passes that fail with 408, 429, a status from 500 on, a deadline or a network error, up to maxRetries of them, are followed by the next; the first that is answered is handed back |
| RetryLaws.OtherFailuresAreFinal | internal/provider/openai/chat.go:484-504 | any other failure, a cancelled call, an ended context or the last retry ends the call with that error |
| RetryLaws.RowsOfACall | internal/provider/openai/chat.go:253-302 | a failed attempt is charged its prompt; the winner what the upstream reports, or else what was reserved |
| RetryLaws.ConfiguredMeans | internal/provider/openai/chat.go:89-97 | retries below zero are none, and a wait that is not positive is 200 milliseconds |
| Attempts.FailedPasses | internal/provider/openai/chat.go:389-415 | after n passes that went on, the call has begun n rows, all settled as failed, whatever others did between |
| Attempts.PassTotal | internal/provider/openai/chat.go:389-415 | a pass adds to the tenant's total what others add and its attempt's prompt |
| Attempts.LastPass | internal/provider/openai/chat.go:405-411 | every earlier pass was admitted, failed, settled and retryable, and there are at most maxRetries + 1 |
| Attempts.WaitIsBounded | internal/provider/openai/chat.go:459-470 | back-off takes at most backoff times maxRetries (maxRetries + 1) / 2 |
| Attempts.DoJSONRequest | internal/provider/openai/chat.go:253-302 | the table and the result of a whole call among other requests; a settlement that fails is an accounting error |
| Attempts.CallConserves | internal/provider/openai/chat.go:253-302 | when settlement works, the total grows by what others add, the failed attempts' prompts and the winner's total; at most maxRetries + 1 attempts, none left open |
| AdapterCalls.OpenOne | internal/provider/openai/chat.go:304-323 | what a call that opens a stream answers and what it leaves in the ledger, from the ledger it starts from; an opened stream comes with the id of its attempt |
| AdapterCalls.OpenStreams | internal/provider/router/chat.go:213-262 | the calls up to the deciding one, each on the ledger that those before it have left; the tracker's latest attempt is the winner's |
| AdapterCalls.AskOne | internal/provider/openai/chat.go:253-302 | the same for a call that is not streamed |
| AdapterCalls.WhatACallAnswers | internal/provider/openai/chat.go:253-302 | an answer exactly when an attempt is handed back, settled and decoded; a body that does not decode is a refusal, a settlement that fails an accounting error |
| AdapterCalls.CallRows | internal/provider/openai/chat.go:253-302 | the rows of a call, column by column: as an attempt begins, and as the winner's is settled with the usage its answer reports |
| AdapterCalls.AskAll | internal/provider/router/chat.go:136-194 | the calls of a request that is not streamed, up to the deciding one, and the ledger after them |
| AdapterCalls.CallCharge | internal/provider/openai/chat.go:253-302 | a call begins at most maxRetries + 1 attempts and raises the total by what others add, its prompts, and the winner's total in place of its prompt |
| AdapterCalls.RequestConserves | internal/provider/router/chat.go:136-194 | over a whole request that is not streamed, fallback included, the total grows by the charges of the calls that are made |
| AdapterCalls.RouterIsTold | internal/provider/router/chat.go:172-191 | an upstream's failure reaches the router as its text, one of the accounting as the limit that was passed |
| Resp.RespReader.Read | internal/store/redis/client.go:198-218 | reads what the grammar says and leaves exactly the bytes after it, for every input |
| Resp.RespReader.ReadBulkString | internal/store/redis/client.go:233-247 | a negative size is an empty string, a bad size and short input are errors, and the trailing two bytes are skipped |
| Resp.RespReader.ReadArray | internal/store/redis/client.go:249-267 | as many items as announced, or the first item's error |
| Resp.DecimalRoundTrip | internal/store/redis/client.go:234 | a printed size is read back |
| Resp.BulkRoundTrip | internal/store/redis/client.go:233-247 | any bytes, line ends included, are read back whole |
| Resp.ReplyRoundTrip | internal/store/redis/client.go:198-218 | every printed reply, however nested, is read back and the bytes after it are left |
| Resp.ErrorReply | internal/store/redis/client.go:211-212 | an error reply is read as an error with its text |
| Resp.ReplyStays | internal/store/redis/client.go:198-218 | a reply that has been read is the same whatever arrives after it, and that is left unread |
| Resp.CutRepliesAreRefused | internal/store/redis/client.go:198-267 | a printed reply that is cut short, wherever and however deeply nested, is never taken for a whole one |
| Resp.NumbersRead | internal/store/redis/client.go:214-250 | digits after one sign or none are read as their number when it fits in 64 bits, and refused otherwise |
| Resp.OtherTextsAreNoNumbers | internal/store/redis/client.go:214-250 | a text with any other character, or without a digit, is refused |
| Resp.LeadingZero | internal/store/redis/client.go:214-250 | leading zeros do not matter |
| Resp.WriteCommand | internal/store/redis/client.go:177-192 | a command is printed as an array of bulk strings |
| Resp.CommandRoundTrip | internal/store/redis/client.go:177-192 | the reader gets back exactly the strings of the command |
| Resp.CommandsAreUnambiguous | internal/store/redis/client.go:177-192 | two different commands never print alike, whatever follows them |
| Sse.SseReader.ReadSSEEvent | internal/provider/anthropic/chat.go:497-528 | the next event, or the end; an unterminated event at the end is delivered |
| Sse.ReaderDenotes | internal/provider/anthropic/chat.go:497-548 | reading a printed stream gives the events that its lines mean, under either line ending |
| Sse.TidyMeansTheSame | internal/provider/anthropic/chat.go:537-548 | comments, unknown lines and extra blank lines mean nothing |
| Sse.StreamRoundTrip | internal/provider/anthropic/chat.go:530-548 | the lines of a list of messages mean those messages |
| Sse.PrintedStreamRoundTrip | internal/provider/anthropic/chat.go:497-548 | reading the printed stream gives the same messages, with noise lines and either line ending |
| Sse.FinalBlank | internal/provider/anthropic/chat.go:518-528 | with or without its final blank line, a stream means the same |
| AnthropicStream.StreamTranslator.ConsumeEvent | internal/provider/anthropic/chat.go:259-284 | the state and the published events after one upstream event, for every kind of event |
| AnthropicStream.StreamTranslator.Run | internal/provider/anthropic/chat.go:207-257 | everything a run publishes |
| AnthropicStream.ContentIsDeltaText | internal/provider/anthropic/chat.go:326-337 | the published content is exactly the live text deltas, in order |
| AnthropicStream.EndingIsMarked | internal/provider/anthropic/chat.go:233-250 | a stream that ends in message_stop carries a finish reason and no error; any other ends in exactly one error, last |
| AnthropicStream.RolesFollowAnnouncements | internal/provider/anthropic/chat.go:310-337 | the role is sent with the first text after it was announced |
| AnthropicStream.RolesAreBounded | internal/provider/anthropic/chat.go:310-337 | at most one role is sent for each message_start |
| AnthropicStream.ServerEventsMean | internal/provider/anthropic/chat.go:259-352 | what each kind of server event does, whether its name is on the event line or in the payload; a payload with an error ends the stream |
| AnthropicStream.FinishReasons | internal/provider/anthropic/chat.go:448-461 | end_turn and no reason are stop, tool_use is tool_calls, and any other reason is passed on |
| AnthropicStream.FinishesFollowStops | internal/provider/anthropic/chat.go:339-352 | the finish reasons sent are one for each stop reason, in order, and stop at the end if there was none |
| AnthropicStream.ChunksCarryTheLastStart | internal/provider/anthropic/chat.go:310-324 | every chunk carries the last id and model announced that were not blank |
| AnthropicStream.UnfinishedBodies | internal/provider/anthropic/chat.go:233-250 | a body that ends before message_stop ends the stream with the reader's error, or with one that says so |
| AnthropicStream.ExtractTextContent | internal/provider/anthropic/chat.go:437-446 | the text of the text blocks |
| AnthropicStream.StreamMatchesResponse | internal/provider/anthropic/chat.go:437-446 | a stream whose text deltas are those of the text blocks, with any other events between them, sends the answer's text |
| AnthropicWire.ReadAndTranslate | internal/provider/anthropic/chat.go:207-257 | the reading goroutine: from the bytes of the body to everything that is published |
| AnthropicWire.PrintedText | internal/provider/anthropic/chat.go:220-367 | a server's messages, printed with any line endings and noise, read and translated: the content is exactly their live text deltas |
| AnthropicWire.PrintedStreamMatchesResponse | internal/provider/anthropic/chat.go:437-446 | and that is the text of an answer with the same blocks |
| ChatService.ToChunkChoices | internal/service/chat/service.go:257-277 | choice by choice, nothing lost |
| ChatService.ConversionKeepsText | internal/service/chat/service.go:257-287 | conversion keeps the text |
| ChatService.DeltaTextAppends | internal/service/chat/service.go:257-277 | the text of a chunk is that of its choices, in order |
| ChatService.Service.PrepareProviderRequest | internal/service/chat/service.go:212-239 | no messages is an invalid request; a missing model is the default |
| ChatService.Service.CreateCompletion | internal/service/chat/service.go:95-129 | the provider's error or its answer, choice by choice |
| ChatService.Service.HandleProviderStreamEvent | internal/service/chat/service.go:174-210 | a done context stops silently, an error is sent and stops, a chunk is sent |
| ChatService.Service.StreamCompletion | internal/service/chat/service.go:131-172 | what is served for every pattern of cancellation |
| ChatService.ServedUncancelled | internal/service/chat/service.go:131-172 | without cancellation: the chunks up to the first error, and the error |
| Handlers.ChatHandler.StreamCompletion | internal/api/handlers/chat.go:117-216 | the frames; exactly one ending, completed only when all was written; the text and the model observed; both tables and the counters after either ending; the stream counters |
| Handlers.ChatHandler.SendEvents | internal/api/handlers/chat.go:147-189 | a chunk is observed, then written, then counted, until an error or a failed write |
| Handlers.ChatHandler.EndStream | internal/api/handlers/chat.go:165-216 | what either ending makes of both tables and the counters, whichever update fails |
| Handlers.ChatHandler.HandleNonStreamCompletion | internal/api/handlers/chat.go:83-102 | one body, one ending, and what is settled and recorded; a completion that cannot be settled is an internal error |
| Handlers.BodiesAndFramesNeverMix | internal/api/handlers/chat.go:117-216 | a JSON body stands alone; the end marker is last, once, after a chunk, and exactly when the request is completed |
| Handlers.SentIsObserved | internal/api/handlers/chat.go:174-189 | the text sent is the text observed, but for the one chunk whose write failed |
| Handlers.LastModelNamed | internal/service/governance/service.go:410-413 | a stream is billed under the last model that an observed chunk named, or else the one requested |
| Handlers.LostMarkerFailsAll | internal/api/handlers/chat.go:198-202 | every stream that is written whole but for its end marker has sent and observed all of its text, and is not completed |
| Handlers.StatusTable | internal/api/handlers/chat.go:231-251 | the status and the message of each error; nothing is told of what is not the client's |
| Handlers.EarlyEndings | internal/api/handlers/chat.go:147-214 | a stream that ends before its first chunk is answered by its error, or by an internal error when it has none |
| Pipeline.ServedWhole | internal/service/chat/service.go:131-172 | router and service together pass on the backend's chunks up to its first error, and the error |
| Pipeline.EndToEnd | internal/api/handlers/chat.go:117-216 | without cancellation and failed writes: text sent, text billed and the backend's text up to its first error are the same; the end marker follows exactly when there was no error |
| Pipeline.StreamRequest | internal/api/handlers/chat.go:117-216 | router, adapters, service and handler composed: the first candidate whose stream opens with a chunk makes the frames, its attempt is billed for the observed text, even after the adapter settled it; otherwise the one error body; one ending |
| Pipeline.RoutedStream | internal/provider/router/chat.go:201-306 | router and adapters composed: the first candidate whose stream opens with a chunk wins and its attempt is the tracker's latest; otherwise the exact error |
| Pipeline.BillReaches | internal/service/governance/service.go:355-378 | the bill of an ending replaces whatever the attempt was settled as before |
| Pipeline.PlainRequest | internal/api/handlers/chat.go:83-102 | composed for a request that is not streamed: the first answer, converted, is the body and is settled, number by number; the exact error otherwise; the attempt table that the calls leave |
| Pipeline.RoutedAnswer | internal/provider/router/chat.go:121-199 | router and adapters composed for an answer: the first in candidate order, and the ledger after the calls |
| Pipeline.NoAnswerMeans | internal/provider/router/chat.go:121-199 | a request that nobody answers ends with the accounting error, or else with the last candidate's; without candidates, with the text that says why |
| Pipeline.RefusalTable | internal/api/handlers/chat.go:60-75 | a limit passed when a request begins and one passed by an attempt of its are answered alike |
| Pipeline.CreateCompletion | internal/api/handlers/chat.go:41-115 | a request that is turned away gets its status, reaches no backend and has the exact request table; an admitted one has its row, one ending, and what StreamRequest or PlainRequest promise |
| Pipeline.AnthropicToClient | internal/provider/anthropic/chat.go:207-257 | an Anthropic stream that ends in message_stop reaches client and bill as exactly its text deltas, followed by the end marker |
| Pipeline.PrintedToClient | internal/provider/anthropic/chat.go:207-257 | from the bytes of the backend: printed messages that end in message_stop reach client and bill as exactly their text deltas, followed by the end marker |

## Left out

- HTTP, JSON, SQL text, TLS, sockets, tracing, logging, exporters and configuration loading: no decision depends on them. Upstream calls, statements and writes are scripted outcomes, and JSON encoding of a chunk is taken to succeed.
- API keys and authentication: a principal with its limits, or none, is an input.
- Ollama and mock adapters, model listing, usage summaries, load and nightly tools: they would add only easy members.
- The Anthropic retry loop: the same code as the OpenAI one, which `Attempts` models. In `AdapterCalls` an adapter's own settlement of a broken stream comes right after opening; only its order before the tracker's is used.
- The calls of one request are made on the ledger one after the other, and the router's marks for them follow; they touch different state.
- Letter case: Unicode's tables are not spelled out; every lawful mapping of code points is covered. Malformed UTF-8 is not modelled.
- Backend names: seeding is proved for distinct names; those that are given by default are distinct (`ConfigLaws.DefaultNamesAreDistinct`). The error text for a rule that names no backend is not the source's.
- Enabled and disabled rules, and the SQL that lists them (internal/store/mysql/routing_store.go): a rule list is an input.
- The sort itself: Go's `sort.SliceStable` is modelled by its contract, an ordered stable permutation, which determines the result.
- Time: instants are integers; MySQL's rounding of `created_at`, durations in events and chunk creation times are not modelled. A Go zero time is `None`.
- Transaction isolation: each query of an admission reads the committed tables at its own step. MySQL's snapshot reads, which may serve a later query of the same transaction from the instant of its first one, are not distinguished.
- Row ids are positions; ids that a rolled-back insert uses up are not modelled.
- Governance.RequestTracker.BeginAttempt: the store is the one the gateway has, which admits attempts in a transaction; the path for a store that cannot is not modelled.
- RedisLimiter.WindowAccounting: assumes that a command is carried out within a minute of the time it was made for and that the server's clock does not run backwards; Lua's number precision and the key's text are not modelled.
- RedisLimiter.ExactlyAlignedWindowsHold: for minutes that start at or after the zero of the clock, where the server's clock starts.
- AnthropicStream.StreamTranslator.ConsumeEvent: for contexts that are not cancelled.
- AnthropicStream.StreamTranslator.Run: for contexts that are not cancelled, as is `AnthropicWire`.
- Attempts.DoRequest: the part of a wait that an ended context cuts short is not counted.
- Events of the router are delivered in any order and none is lost or repeated; the registry's counters of events and durations are not modelled.
- Pipeline.EndToEnd: for runs without cancellation, because the router ends a cancelled stream without an error and the handler may then still write the end marker.
- Handlers.ChatHandler.StreamCompletion: a write that fails is taken to have sent nothing, and the metrics recorder is taken to be present.
- Resp.RespReader.ReadBulkString: memory that cannot be allocated for an absurd size, and sizes beyond 64 bits, are not modelled.
