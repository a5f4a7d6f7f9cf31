# A verified model of the AI node's ledgers, registries and protocols

This project models, in Dafny 4.11, the parts of the AI node that keep state or
make decisions, and proves what they promise over every input and every run.
`dafny verify dfyconfig.toml` verifies it.

| files | what they model |
|---|---|
| `Text`, `Money`, `Traces` | trimming, lower-casing, text order and lists; exact money; counting |
| `Calendar` | the weekly and monthly budget windows |
| `BudgetLedger`, `BudgetManagement` | the two-level budget ledger: reserve, finalize, release, rollback, denial, saving |
| `BudgetRollback`, `BudgetRuns`, `BudgetSettlement`, `BudgetLimits` | all-or-nothing booking, validity over runs, settling once, no over-commitment |
| `PromptEntries`, `PromptRegistry`, `PromptRuns`, `Gateway` | the prompt registry, its normaliser and its reader |
| `PromptTemplate` | rendering a template by replacement |
| `UsageCounters`, `UsageRollups`, `UsageSummary`, `UsageAggregates` | the usage tables, their summary and the historical aggregators |
| `ProviderSelection`, `ExecutionGovernance` | the selection policy and the governance decision that must agree with it |
| `ProviderMetrics`, `ProviderMetricsRuns`, `ExecutionRouter` | counters, latency window, snapshots, retries and fallback |
| `LeaseExecution` | the lease runner and its heartbeat loop as interleaved processes |
| `BenchmarkStore` | benchmark rows claimed by concurrent workers |
| `PricingRules`, `PricingRefresh`, `PricingCatalog`, `PricingRuns`, `PricingLoss` | price rules per model family, the refresh with its fallback to the last good prices, prices set by hand |
| `ManualPricing`, `ManualPricingRuns` | the manual price file: printer, parser, synchronisation |

State that the program edits in place is a class whose methods follow the
program step by step; each method is proved to reach exactly the state that a
specification function gives, and the results below are about those functions
and about all runs made of them. Money is counted in whole units of 1e-10 USD,
so sums, comparisons and the rounding to ten places are exact.

Some promises turn out not to hold everywhere. Each is stated with its exact
condition and a concrete case where it fails:

- One pass of the provider-preference normaliser is not a fixpoint exactly when two
  names differ only in case (`Text.OnePassSettlesIff`, `Text.OnePassCanFallShort`).
- Provider selection can emit a model that governance refuses: exactly when governance
  lists models under the provider's own key, the usable and the approved models have
  nothing in common and the request names a model that is not approved
  (`ExecutionGovernance.SelectionIsAllowedIff`, `ExecutionGovernance.SelectionCanEmitARefusedModel`).
- A metrics snapshot that is saved and loaded shows another average latency exactly when
  an average changes on rounding its latencies first (`ProviderMetricsRuns.ReloadIsIdentityIff`,
  `ProviderMetricsRuns.FinerLatenciesShift`). That takes an adapter that does not round to
  three places: the OpenAI, local and mock adapters all do, and under every run that
  records whole thousandths the snapshot survives (`ProviderMetricsRuns.RunsOfWholeThousandthsSurvive`).
- A price family can count as refreshed and still lose all its previous prices: exactly
  when its job succeeds with an answer that names none of its models
  (`PricingRuns.RefreshedAndEmptyIff`). A family with a job of its own never does
  (`PricingRuns.OwnJobNeverEmpties`); moderation, which shares the embedding job, does
  (`PricingLoss.AModerationPriceIsLost`).
- A price set by hand keeps the stored catalogue valid exactly when it is not negative
  (`PricingRuns.PricedByHandValidatesIff`, `PricingRuns.NegativePriceIsKept`).
- An update that asks for no version name raises exactly when a stored version cannot be
  numbered, such as one named v and a superscript two (`PromptEntries.NextVersionIsFresh`,
  `PromptEntries.SuperscriptsAreUnreadable`).

Rendering a template is simultaneous substitution as long as no literal and no value
has two braces `{{` in a row or ends in `{` (`PromptTemplate.RenderIsOnePass`); single
braces, as in the JSON text of a dictionary, change nothing. With `{{` in a value the
two can differ (`PromptTemplate.BracesInValuesAreReplacedAgain`).

## Model

| member | source | states |
|---|---|---|
| Calendar.WindowsPartitionTime | src/ai_node/runtime/budget_manager.py:608-621 | every instant lies in its own window, and two instants have one window exactly when one lies in the other's, for weeks and months, leap years and December included |
| Calendar.NextWindowStartsAfterEnd | src/ai_node/runtime/budget_manager.py:608-621 | the instant one microsecond after a window's end opens the next window |
| Calendar.MonthsAbut | src/ai_node/runtime/budget_manager.py:614-618 | the next month starts the day after the last day of this one |
| Money.CeilCents | src/ai_node/runtime/budget_manager.py:817-823 | the least number of cents that covers an exact amount |
| Money.RoundingGap | src/ai_node/runtime/budget_manager.py:477-481 | rounding n charges up one by one costs at least the rounded total and at most n - 1 cents more |
| BudgetLedger.HoldStaysBalanced | src/ai_node/runtime/budget_manager.py:373-383 | holding a new reservation keeps the reserved total equal to the sum over the reservations |
| BudgetLedger.ReturnUndoesHold | src/ai_node/runtime/budget_manager.py:522-529 | giving a reservation back restores the entry it was held on |
| BudgetLedger.SettleStaysBalanced | src/ai_node/runtime/budget_manager.py:422-441 | settling keeps the reserved total right and the clamp at zero never bites |
| BudgetLedger.StaysRefused | src/ai_node/runtime/budget_manager.py:347-375 | after the first refusal no further grant is looked at |
| BudgetManagement.BudgetManager.Save | src/ai_node/persistence/budget_state_store.py:190-199 | a ledger that fails validation is refused and the stored one stays |
| BudgetManagement.BudgetManager.CachePolicyFromGovernance | src/ai_node/runtime/budget_manager.py:145-155 | the bundle's policy replaces the stored one if it differs and validates |
| BudgetManagement.BudgetManager.SelectGrants | src/ai_node/runtime/budget_manager.py:531-565 | the applicable grants, in policy order |
| BudgetManagement.BudgetManager.EnsureUsageEntry | src/ai_node/runtime/budget_manager.py:911-941 | a missing entry is created and one of another period is wiped, reservations included |
| BudgetManagement.BudgetManager.RollbackReservations | src/ai_node/runtime/budget_manager.py:522-529 | the loop undoes a reservation on each grant booked so far |
| BudgetManagement.BudgetManager.BookOnGrants | src/ai_node/runtime/budget_manager.py:347-383 | books on every grant in turn and undoes what was booked at the first refusal |
| BudgetManagement.BudgetManager.ReserveProviderBudget | src/ai_node/runtime/budget_manager.py:654-681 | books on the provider's entry of the period within the limit the entry was created with |
| BudgetManagement.BudgetManager.RecordDenial | src/ai_node/runtime/budget_manager.py:957-992 | a denial is recorded on the ledger as stored, the last fifty kept |
| BudgetManagement.BudgetManager.ReserveExecution | src/ai_node/runtime/budget_manager.py:283-409 | the whole call: stored ledger and result are those of the specification, all five denials included |
| BudgetManagement.BudgetManager.FinalizeExecution | src/ai_node/runtime/budget_manager.py:411-453 | settles a reservation wherever it is held, charges grants and providers, saves if anything was settled |
| BudgetManagement.BudgetManager.FinalizeProviderBudget | src/ai_node/runtime/budget_manager.py:683-715 | settles the provider entries in exact cost, without an estimate nothing is charged |
| BudgetManagement.BudgetManager.ReleaseExecution | src/ai_node/runtime/budget_manager.py:455-475 | releases a reservation wherever it is held |
| BudgetManagement.BudgetManager.ReleaseProviderBudget | src/ai_node/runtime/budget_manager.py:894-909 | releases it on every provider entry |
| BudgetRollback.BookingHoldsOnce | src/ai_node/runtime/budget_manager.py:347-383 | booking on n grants is making sure of their entries and holding the reservation once on each |
| BudgetRollback.RefusedBookingIsUndone | src/ai_node/runtime/budget_manager.py:347-375 | whichever grant refuses, also when grants share an id, rollback leaves the entries it found, up to fresh or newly emptied ones |
| BudgetRollback.FullBookingIsUndone | src/ai_node/runtime/budget_manager.py:385-400 | the same when every grant took the reservation and the provider refuses it |
| BudgetSettlement.GrantedIffEachTakes | src/ai_node/runtime/budget_manager.py:347-383 | grants with distinct ids take a reservation exactly when each has it not yet and has the room |
| BudgetSettlement.SharedIdIsRefused | src/ai_node/runtime/budget_manager.py:356-375 | two applicable grants with one id and period are always refused |
| BudgetSettlement.RefusedReserveKeepsUsage | src/ai_node/runtime/budget_manager.py:957-992 | a refused reserve leaves every stored usage entry as it was |
| BudgetRuns.StepKeepsSound | src/ai_node/runtime/budget_manager.py:283-475 | every call, whatever its arguments, keeps the ledger valid and every reserved total equal to its reservations |
| BudgetRuns.EveryLedgerIsSound | src/ai_node/persistence/budget_state_store.py:93-182 | every ledger reached from the empty one is valid and balanced |
| BudgetSettlement.ReserveReturnsIff | src/ai_node/persistence/budget_state_store.py:93-182 | a reserve call raises exactly for an invalid new policy or a blank task id with something to record |
| BudgetSettlement.FinalizeReturnsIff | src/ai_node/runtime/budget_manager.py:422-441 | a finalize call raises exactly when it would drive a token count below zero, and then changes nothing |
| BudgetSettlement.ReleaseStores | src/ai_node/runtime/budget_manager.py:455-475 | a release never raises and stores the released ledger |
| BudgetSettlement.SettledIsHeldNowhere | src/ai_node/runtime/budget_manager.py:422-441 | after a settlement no entry anywhere holds the reservation |
| BudgetSettlement.ReportsIfHeld | src/ai_node/runtime/budget_manager.py:447-453 | a settlement reports nothing exactly when the reservation was held nowhere |
| BudgetSettlement.SettlingAgainDoesNothing | src/ai_node/runtime/budget_manager.py:411-475 | settling a task that is held nowhere changes nothing |
| BudgetSettlement.SettledStaysSettled | src/ai_node/runtime/budget_manager.py:411-475 | in no run is a reservation settled twice unless it is made again |
| BudgetSettlement.ReserveThenRelease | src/ai_node/runtime/budget_manager.py:283-475 | reserving and releasing restores every entry |
| BudgetLimits.CountersAreCharges | src/ai_node/runtime/budget_manager.py:433-441 | a grant's used cents, requests and tokens are exactly those of its completed tasks that still held a reservation, since its period last changed |
| BudgetLimits.NoGrantIsOvercommitted | src/ai_node/runtime/budget_manager.py:347-402 | in every run, used plus reserved exceeds a positive limit at most by what completed tasks cost above their reservations |
| BudgetLimits.NoProviderIsOvercommitted | src/ai_node/runtime/budget_manager.py:654-715 | the same for a provider entry in exact cost against the limit it was created with |
| BudgetLimits.ProviderLimitIsFixed | src/ai_node/runtime/budget_manager.py:623-652 | a provider entry keeps the limit it was created with |
| BudgetLimits.LedgersRoundApart | src/ai_node/runtime/budget_manager.py:805-823 | provider cents are the total rounded up, and provider used <= grant used <= provider used + n - 1 for n equal charges |
| Text.NormalizeStringList | src/ai_node/prompts/registration.py:29-37 | the loop keeps the trimmed, distinct, non-blank texts in order |
| Text.CleanListIsClean | src/ai_node/prompts/registration.py:29-37 | a cleaned list is clean and holds exactly the trimmed texts that are not blank |
| Text.OnePassSettlesIff | src/ai_node/prompts/registration.py:86-97 | one pass over preferences is a fixpoint exactly when no two texts differ only in case |
| Text.OnePassCanFallShort | src/ai_node/prompts/registration.py:86-97 | the list A, a needs a second pass |
| Text.LowerListSettles | src/ai_node/prompts/registration.py:86-97 | two passes always reach a fixpoint |
| PromptEntries.NextVersionIsFresh | src/ai_node/prompts/registration.py:142-150 | the next version name is that of no stored version; there is none exactly when a stored name has digits `int` cannot read or more than 4300 of them, or the next number would have |
| PromptEntries.SuperscriptsAreUnreadable | src/ai_node/prompts/registration.py:147-149 | a stored version named v and a superscript two makes the next one raise |
| PromptEntries.CreatedEntryIsSound | src/ai_node/prompts/registration.py:153-234 | an accepted registration satisfies every entry invariant |
| PromptEntries.UpdateVersionsKeepSound | src/ai_node/prompts/registration.py:296-313 | adding a version keeps names distinct and makes it current; it raises exactly when the name asked for is stored, or none is asked for and none can be numbered |
| PromptEntries.UpdateKeepsSound | src/ai_node/prompts/registration.py:237-313 | an update keeps the entry sound also when it raises half-way |
| PromptEntries.TransitionKeepsSound | src/ai_node/prompts/registration.py:316-333 | a transition keeps the entry sound, its history ending in its status |
| PromptEntries.ReviewKeepsSound | src/ai_node/prompts/registration.py:336-352 | a review keeps it sound |
| PromptEntries.ProbationKeepsSound | src/ai_node/prompts/registration.py:355-361 | probation changes keep it sound |
| PromptEntries.RecordingKeepsSound | src/ai_node/prompts/registry.py:209-240 | usage recording keeps executions equal to successes plus failures |
| PromptEntries.NormalizeSoundEntry | src/ai_node/persistence/prompt_service_state_store.py:88-142 | normalising a sound entry never raises and changes at most its preferences, which it settles |
| PromptRegistry.RebuildProbationIndex | src/ai_node/persistence/prompt_service_state_store.py:145-168 | the loops compute the index of the entries |
| PromptRegistry.PromptRegistry.NormalizeState | src/ai_node/persistence/prompt_service_state_store.py:185-206 | the normaliser over all entries, raising when one does |
| PromptRegistry.PromptRegistry.Save | src/ai_node/prompts/registry.py:34-40 | normalises into memory, and again into the store; returns when neither raises |
| PromptRegistry.PromptRegistry.FindEntry | src/ai_node/prompts/registration.py:364-372 | the first entry with the trimmed id |
| PromptRegistry.PromptRegistry.CreatePrompt | src/ai_node/prompts/registry.py:51-109 | whether a creation returns or raises, and memory and store after it, a retired entry being replaced in place |
| PromptRegistry.PromptRegistry.EditEntry | src/ai_node/prompts/registration.py:237-313 | the fields edited in order, what was set before an exception staying set |
| PromptRegistry.PromptRegistry.UpdatePrompt | src/ai_node/prompts/registry.py:111-153 | whether an update returns or raises, and memory and store after it |
| PromptRegistry.PromptRegistry.Review | src/ai_node/prompts/registry.py:155-168 | whether a review returns or raises, and memory and store after it |
| PromptRegistry.PromptRegistry.MigrateAllToReviewDue | src/ai_node/prompts/registry.py:170-191 | memory and store after the migration, and the number of entries it moved |
| PromptRegistry.PromptRegistry.Transition | src/ai_node/prompts/registry.py:193-199 | whether a transition returns or raises, and memory and store after it |
| PromptRegistry.PromptRegistry.SetProbation | src/ai_node/prompts/registry.py:201-207 | whether a probation change returns or raises, and memory and store after it |
| PromptRegistry.PromptRegistry.RecordAuthorization | src/ai_node/prompts/registry.py:209-222 | memory and store after an authorization is counted, its last-use and last-denial fields included |
| PromptRegistry.PromptRegistry.RecordExecution | src/ai_node/prompts/registry.py:224-240 | memory and store after an execution is counted, its last-use, last-status and last-failure fields included |
| PromptRuns.PerformKeepsSound | src/ai_node/prompts/registry.py:51-240 | every operation keeps the registry sound, also one that raises half-way |
| PromptRuns.EveryRegistryIsSound | src/ai_node/prompts/registry.py:51-240 | over every run: distinct ids and version names, a stored current version, a history ending in the status, executions adding up |
| PromptRuns.SavedStatesAreFixpoints | src/ai_node/persistence/prompt_service_state_store.py:185-206 | in every run, normalising what was saved changes nothing |
| PromptRuns.ProbationIndexIsExact | src/ai_node/persistence/prompt_service_state_store.py:145-168 | in every run, in memory and in the store, the index is exactly the sorted ids on probation, each with its latest reason |
| PromptRuns.RaisingKeepsIndex | src/ai_node/prompts/registry.py:111-207 | an operation that raises half-way leaves the index of the entries in memory as it was |
| PromptRuns.OnlyEditsRaise | src/ai_node/prompts/registry.py:34-240 | in every run saving never raises: an operation raises exactly when its own edit does or its prompt is missing, and counting usage never does |
| Gateway.VersionsAreFound | src/ai_node/prompts/registration.py:375-391 | a sound entry finds its current version, and a pinned one exactly when it is stored |
| Gateway.EntryVerdicts | src/ai_node/execution/gateway.py:75-160 | the exact condition of every verdict on a registered prompt |
| Gateway.UnpinnedCallsFindTheirVersion | src/ai_node/execution/gateway.py:103-105 | in every run, on memory or store, an unpinned call on a registered prompt is never refused for its version; a pinned one exactly when it is not stored |
| Gateway.ProbationIsNeverAuthorized | src/ai_node/execution/gateway.py:75-160 | in every run, on memory or store, a prompt in the probation index is never authorized |
| PromptTemplate.RenderPromptTemplate | src/ai_node/runtime/prompt_construction.py:29-42 | the replacement loop over the sorted variables, with the defaults merged under the inputs |
| PromptTemplate.ReplaceFills | src/ai_node/runtime/prompt_construction.py:40-41 | replacing a placeholder in a text whose literals open none fills it in every piece and touches nothing else |
| PromptTemplate.VariablesAreSlots | src/ai_node/runtime/prompt_construction.py:5-5 | the pattern finds exactly the names of the placeholders |
| PromptTemplate.AnyOrderIsSimultaneous | src/ai_node/runtime/prompt_construction.py:38-41 | replacing the variables in any order, by values that open no placeholder, is one simultaneous pass |
| PromptTemplate.RenderIsOnePass | src/ai_node/runtime/prompt_construction.py:29-42 | rendering literals and values without `{{` or a final `{` is simultaneous substitution, single braces included |
| PromptTemplate.BracesInValuesAreReplacedAgain | src/ai_node/runtime/prompt_construction.py:38-41 | with `{{` in a value the two can differ |
| UsageCounters.PartsMakeTheWhole | src/ai_node/persistence/client_usage_store.py:322-425 | splitting charges by key loses none and counts none twice |
| UsageRollups.ClientUsageStore.UpsertUsage | src/ai_node/persistence/client_usage_store.py:322-425 | both tables after one upsert in both scopes |
| UsageRollups.ClientUsageStore.RecordExecution | src/ai_node/persistence/client_usage_store.py:261-287 | one call counted, always aggregated |
| UsageRollups.ClientUsageStore.SeedHistoricalUsage | src/ai_node/persistence/client_usage_store.py:289-320 | a seed of nothing is skipped |
| UsageRollups.RowsAgreeWithTheLog | src/ai_node/persistence/client_usage_store.py:322-425 | a row exists exactly when a booked call fills it, and holds their clamped totals, their latest use and the last customer named |
| UsageRollups.LifetimeIsTheSumOfMonths | src/ai_node/persistence/client_usage_store.py:346-385 | a lifetime row is the sum of its monthly rows |
| UsageRollups.ModelRowsSplitTheRow | src/ai_node/persistence/client_usage_store.py:386-425 | model rows add up to the calls that name a model, and to the row itself when every call aggregates and names one |
| UsageSummary.SummaryPayload | src/ai_node/persistence/client_usage_store.py:427-571 | the grouping loops over the lifetime rows of both tables, and the sorting |
| UsageSummary.GroupingIsExact | src/ai_node/persistence/client_usage_store.py:504-559 | one entry for each client with a row, made of all its rows and no other |
| UsageSummary.ModelsAreGrouped | src/ai_node/persistence/client_usage_store.py:475-503 | grouping lists under each row exactly its own model rows, in order |
| UsageSummary.PromptsComeSorted | src/ai_node/persistence/client_usage_store.py:560-566 | a client's prompts are already in order of cost, so sorting them changes nothing |
| UsageSummary.SummaryAgreesWithTheLog | src/ai_node/persistence/client_usage_store.py:465-571 | in every run the summary has one entry for each client with a call, dearest first, with the totals of all its calls and of its calls in the month |
| UsageSummary.PromptModelsAgreeWithTheLog | src/ai_node/persistence/client_usage_store.py:465-571 | in every run a prompt lists exactly the models its calls name, dearest first, and their counters add up to those calls |
| UsageAggregates.AggregateProviderMetrics | src/ai_node/persistence/client_usage_store.py:15-41 | the totals of all usable model entries |
| UsageAggregates.AggregateProviderMetricsByModel | src/ai_node/persistence/client_usage_store.py:44-77 | one total for each model and no other |
| UsageAggregates.AggregateExecutionLog | src/ai_node/persistence/client_usage_store.py:80-116 | the totals and the last time of the successful lines |
| UsageAggregates.AggregateExecutionLogByModel | src/ai_node/persistence/client_usage_store.py:119-160 | the same for each model |
| UsageAggregates.ByModelAddsUp | src/ai_node/persistence/client_usage_store.py:15-160 | the totals by model add up to the direct totals on every counter |
| UsageAggregates.LastUseIsSomeModels | src/ai_node/persistence/client_usage_store.py:80-160 | the last use of all is that of the model used last |
| ProviderSelection.BuildProviderSelectionPolicy | src/ai_node/execution/provider_selection_policy.py:71-172 | the whole decision, rejections included |
| ProviderSelection.NormalizeProviderModels | src/ai_node/execution/provider_selection_policy.py:19-28 | the models by lower-cased provider, the last of like keys winning |
| ProviderSelection.NormalizeProviderBudgetLimits | src/ai_node/execution/provider_selection_policy.py:31-43 | the limits by provider, those without a maximum skipped |
| ProviderSelection.OrderIsExact | src/ai_node/execution/provider_selection_policy.py:108-122 | no provider twice, and exactly the enabled, approved, healthy and affordable ones |
| ProviderSelection.RequestedThenDefault | src/ai_node/execution/provider_selection_policy.py:108-122 | the requested provider first, then the default, then the rest as enabled |
| ProviderSelection.RejectionIsExact | src/ai_node/execution/provider_selection_policy.py:71-132 | which rejection is given when, and when falling back is allowed |
| ProviderSelection.EachSelectedProviderIsServed | src/ai_node/execution/provider_selection_policy.py:134-163 | models and retries for exactly the selected providers, retries within both caps |
| ExecutionGovernance.TaskFamilyAllowed | src/ai_node/execution/governance.py:20-40 | the loop decides whether some allowed family admits the request's |
| ExecutionGovernance.FamiliesEndAtADot | src/ai_node/execution/governance.py:30-39 | a short family name admits what continues it with a dot and nothing that continues it otherwise |
| ExecutionGovernance.SelectionIsAllowedIff | src/ai_node/execution/governance.py:50-98 | a selected provider, model and timeout pass the governance checks exactly unless governance lists models under that provider and the model was let back in |
| ExecutionGovernance.SelectionCanEmitARefusedModel | src/ai_node/execution/provider_selection_policy.py:139-151 | a concrete selection whose model governance refuses |
| ProviderMetrics.ProviderMetricsCollector.RecordSuccess | src/ai_node/providers/metrics.py:31-50 | the counters, window and sums after a success |
| ProviderMetrics.ProviderMetricsCollector.RecordFailure | src/ai_node/providers/metrics.py:52-57 | the counters after a failure of a class |
| ProviderMetrics.ProviderMetricsCollector.Snapshot | src/ai_node/providers/metrics.py:59-76 | every model's snapshot with its success rate, and the totals and rate of each provider |
| ProviderMetrics.ProviderMetricsCollector.Hydrate | src/ai_node/providers/metrics.py:95-123 | the state after loading a saved file item by item |
| ProviderMetricsRuns.CountersAreTheLog | src/ai_node/providers/metrics.py:31-57 | total = successes + failures = events of the model, each failure in its class, and the window holds the latest fifty latencies |
| ProviderMetricsRuns.AmountsAreTheLog | src/ai_node/providers/metrics.py:46-50 | tokens and cost are the clamped sums over a model's successes, and the total is prompt plus completion unless one is reported negative |
| ProviderMetricsRuns.ProviderFailuresAreCounted | src/ai_node/providers/metrics.py:59-76 | in every run a provider's failures, taken as requests less successes, are those counted on its models |
| ProviderMetricsRuns.PercentileCovers | src/ai_node/providers/metrics.py:132-145 | at least 95 of 100 latencies as saved, rounded to three places, are at most the percentile, and it is the least such latency |
| ProviderMetricsRuns.PercentileCoversRawSamples | src/ai_node/providers/metrics.py:132-145 | the same of the raw latencies when they are whole thousandths |
| ProviderMetricsRuns.FinerLatencyExceedsItsPercentile | src/ai_node/providers/metrics.py:132-145 | the latency 0.0004 alone has the percentile 0 |
| ProviderMetricsRuns.ReloadIsIdentityIff | src/ai_node/providers/metrics.py:95-157 | snapshot, load, snapshot is the identity exactly when no average changes on rounding its latencies first; all else always survives |
| ProviderMetricsRuns.WholeThousandthsSurvive | src/ai_node/providers/metrics.py:132-157 | a model's latencies in whole thousandths always survive |
| ProviderMetricsRuns.RunsOfWholeThousandthsSurvive | src/ai_node/providers/metrics.py:95-157 | in every run whose latencies are rounded to three places, as the adapters round them, snapshot, load, snapshot is the identity |
| ProviderMetricsRuns.FinerLatenciesShift | src/ai_node/providers/metrics.py:132-157 | three latencies of less than a thousandth whose average does not survive |
| ExecutionRouter.ProviderExecutionRouter.OrderProviders | src/ai_node/providers/execution_router.py:24-37 | the order of providers |
| ExecutionRouter.ProviderExecutionRouter.Execute | src/ai_node/providers/execution_router.py:39-92 | result, calls and metrics for every sequence of outcomes and every reading of the registry |
| ExecutionRouter.OrderIsComplete | src/ai_node/providers/execution_router.py:24-37 | each provider once: the requested, the default, the fallback, then all others listed |
| ExecutionRouter.AttemptsAreBounded | src/ai_node/providers/execution_router.py:40-91 | at most retries + 1 calls of a provider, none of one that is not ready, all of them when none returns |
| ExecutionRouter.FirstReturnAnswers | src/ai_node/providers/execution_router.py:49-92 | the calls stop at the first that returns; without one the first error is raised |
| ExecutionRouter.EveryCallIsRecordedOnce | src/ai_node/providers/execution_router.py:52-78 | a run adds exactly one request for each call, one success if it answers and failures for the rest |
| LeaseExecution.StepKeepsInv | src/ai_node/runtime/lease_execution_mode.py:22-120 | every step of either process keeps the protocol's invariant |
| LeaseExecution.CompletionFollowsAStoppedHeartbeat | src/ai_node/runtime/lease_execution_mode.py:60-93 | under every interleaving a completion follows progress, execution and stop, with the heartbeat ended as stopped |
| LeaseExecution.CompletionIsSentOnceAndLast | src/ai_node/runtime/lease_execution_mode.py:36-101 | at most one completion or rejection is ever sent, and no call, no heartbeat either, follows it |
| LeaseExecution.LostLeaseIsNeverCompleted | src/ai_node/runtime/lease_execution_mode.py:71-78 | a lease whose heartbeat was refused is not completed, then or later |
| LeaseExecution.AtMostOneBeatAfterStop | src/ai_node/runtime/lease_execution_mode.py:103-120 | at most one heartbeat is sent after the stop event |
| LeaseExecution.OutcomesAreTrue | src/ai_node/runtime/lease_execution_mode.py:28-101 | what the runner returns is what happened, and it never returns while its heartbeat runs |
| BenchmarkStore.LocalLLMBenchmarkStore.RecordOpenAIExecution | src/ai_node/persistence/local_llm_benchmark_store.py:182-256 | the record and its pending rows, those that exist left alone |
| BenchmarkStore.LocalLLMBenchmarkStore.SelectPending | src/ai_node/persistence/local_llm_benchmark_store.py:342-354 | some oldest pending row of the model, or none when none is pending |
| BenchmarkStore.LocalLLMBenchmarkStore.MarkRunning | src/ai_node/persistence/local_llm_benchmark_store.py:355-364 | the guarded update |
| BenchmarkStore.LocalLLMBenchmarkStore.ClaimNextPending | src/ai_node/persistence/local_llm_benchmark_store.py:336-365 | undisturbed, a model with a pending row is always served its oldest |
| BenchmarkStore.LocalLLMBenchmarkStore.RecordModelResult | src/ai_node/persistence/local_llm_benchmark_store.py:367-418 | an existing row is completed |
| BenchmarkStore.LocalLLMBenchmarkStore.RecordModelFailure | src/ai_node/persistence/local_llm_benchmark_store.py:420-436 | an existing row is failed |
| BenchmarkStore.NoRowIsClaimedTwice | src/ai_node/persistence/local_llm_benchmark_store.py:336-365 | for any interleaving of workers no row is handed out twice |
| BenchmarkStore.ClaimsWereOldestWhenSelected | src/ai_node/persistence/local_llm_benchmark_store.py:342-354 | a row handed out had been selected by the worker that got it, when it was an oldest pending one of its model |
| BenchmarkStore.RowsGoToTheirWorkers | src/ai_node/persistence/local_llm_benchmark_store.py:355-365 | only a guarded update hands a row out, one, to the worker that makes it |
| BenchmarkStore.NoRowReturnsToPending | src/ai_node/persistence/local_llm_benchmark_store.py:244-255 | no step, recording again included, moves a row back to pending |
| PricingRules.EnforceIsIdempotent | src/ai_node/providers/openai_catalog.py:345-436 | enforcing the family rules twice changes nothing more |
| PricingRules.EnforcedIsValidIffPriced | src/ai_node/providers/openai_catalog.py:874-909 | enforced terms meet every basis, unit and status clause of the family validator; they pass exactly when a usable price is there |
| PricingRules.EnforceKeepsPrices | src/ai_node/providers/openai_catalog.py:319-436 | the rules bring in no negative price and lose none the basis can use |
| PricingCatalog.EnforceFamilyPricingRules | src/ai_node/providers/openai_catalog.py:345-436 | the rules as they run |
| PricingCatalog.TargetModels | src/ai_node/providers/openai_catalog.py:1729-1739 | the targets of a refresh, each in the family its name suggests |
| PricingCatalog.NormalizeExtractedItems | src/ai_node/providers/openai_catalog.py:799-866 | the loop over an answer's items |
| PricingCatalog.RunJobs | src/ai_node/providers/openai_catalog.py:1869-1990 | merged entries and the families that succeeded or failed |
| PricingCatalog.MergeWithPrevious | src/ai_node/providers/openai_catalog.py:1992-2013 | the merge with the previous entries |
| PricingCatalog.ApplyOverrides | src/ai_node/providers/openai_catalog.py:1104-1162 | the loop over the overrides |
| PricingCatalog.OpenAIPricingCatalogService.RefreshCatalog | src/ai_node/providers/openai_catalog.py:1673-2087 | what is stored and returned by a refresh |
| PricingCatalog.OpenAIPricingCatalogService.SaveManualPricing | src/ai_node/providers/openai_catalog.py:2089-2167 | what is stored after a price is set by hand, or that the call raises |
| PricingRefresh.SucceededAndFailedPartition | src/ai_node/providers/openai_catalog.py:1981-1990 | the families of the target models split into succeeded and failed ones |
| PricingRuns.JobEntriesAreSound | src/ai_node/providers/openai_catalog.py:799-909 | a job that succeeds gives valid entries of its own targets and their families, at least one |
| PricingRuns.MergeIsExact | src/ai_node/providers/openai_catalog.py:1992-2013 | before overrides, succeeded families take entries only from the new extraction, failed ones only their previous target-model entries |
| PricingRuns.PreservingKeepsPrices | src/ai_node/providers/openai_catalog.py:2003-2010 | a preserved entry keeps its prices, basis and unit |
| PricingRuns.GivesTheNamedFamilies | src/ai_node/providers/openai_catalog.py:799-866 | a job that succeeds gives entries of a family exactly when an item of its answer names one of the family's targets |
| PricingRuns.RefreshedAndEmptyIff | src/ai_node/providers/openai_catalog.py:1981-2013 | a family with a target counts as succeeded and keeps no entry exactly when its job succeeds and no item of the answer names it |
| PricingRuns.OwnJobNeverEmpties | src/ai_node/providers/openai_catalog.py:1797-1990 | a family with a job of its own that counts as succeeded always keeps an entry |
| PricingLoss.AModerationPriceIsLost | src/ai_node/providers/openai_catalog.py:1994-2012 | with gpt-5, text-embedding-3-small and omni-moderation-2024-09-26 as targets, an answer that prices the embedding model alone makes a refresh drop the moderation price, whatever was stored |
| PricingRuns.OverridingKeepsValid | src/ai_node/providers/openai_catalog.py:1104-1162 | overriding valid entries gives valid entries and loses none |
| PricingRuns.OverriddenPricesHold | src/ai_node/providers/openai_catalog.py:1123-1147 | an override's normalised price is the one saved |
| PricingRuns.OverridesFallBackPriceByPrice | src/ai_node/providers/openai_catalog.py:1114-1132 | per token, each price is the override's if it gives one, else the existing entry's |
| PricingRuns.RefreshSucceedsIff | src/ai_node/providers/openai_catalog.py:1992-2059 | when all calls return, a refresh succeeds exactly when some family succeeded or some previous entry is kept |
| PricingRuns.SavedValidatesOrIsPrevious | src/ai_node/providers/openai_catalog.py:2022-2081 | what is saved validates or has exactly the previous entries |
| PricingRuns.PricedByHandValidatesIff | src/ai_node/providers/openai_catalog.py:2097-2167 | a price set by hand keeps the catalogue valid exactly when it is not negative |
| PricingRuns.EverySnapshotValidates | src/ai_node/providers/openai_catalog.py:474-491 | over every run of refreshes and non-negative prices set by hand each saved snapshot validates, and one is never lost |
| PricingRuns.NegativePriceIsKept | src/ai_node/providers/openai_catalog.py:2097-2167 | a negative price set by hand is saved and outlives a failed refresh |
| ManualPricing.SaveManualPricing | src/ai_node/providers/openai_catalog.py:991-1019 | the text of the file |
| ManualPricing.LoadManualPricing | src/ai_node/providers/openai_catalog.py:951-988 | the prices read line by line |
| ManualPricing.BuildManualPricingModels | src/ai_node/providers/openai_catalog.py:1061-1101 | each model's prices from the file, else the snapshot, else the overrides |
| ManualPricing.SyncManualPricing | src/ai_node/providers/openai_catalog.py:1228-1250 | the file rewritten for every known model |
| ManualPricingRuns.LoadedIsSaved | src/ai_node/providers/openai_catalog.py:951-1019 | loading a saved file gives each plain name under its base id with the prices that were written |
| ManualPricingRuns.RoundTrip | src/ai_node/providers/openai_catalog.py:951-1019 | plain names that are their own base ids and exactly written prices come back as they were |
| ManualPricingRuns.OneModelReturnsIff | src/ai_node/providers/openai_catalog.py:951-1019 | a plain name comes back as itself exactly when it is its own base id |
| ManualPricingRuns.SyncSettles | src/ai_node/providers/openai_catalog.py:1228-1250 | synchronising twice writes the same file |

## Left out

- HTTP, MQTT, sockets, subprocesses, the frontend, logging, notifications, telemetry and status payloads: no state the results depend on.
- JSON, file and SQL mechanics: a store is a value that saving and loading copy, an upsert is a map update, a transaction one step.
- Timestamps of creation and update, and the clock: where time matters it is a parameter.
- Floating point and number printing: money is in whole units of 1e-10 USD and latencies are real numbers.
- Unicode case folding: lower-casing is modelled on A to Z. Digits of other scripts are read in version names; in the dates of model names digits are 0 to 9.
- Calendar.WindowsPartitionTime: does not model the overflow of dates after the year 9999.
- Reservation estimates (src/ai_node/runtime/budget_manager.py:483-510): a reservation's cents are an arbitrary natural number.
- Texts of errors, denials and notes: only those that decide something are modelled.
- BudgetManagement.BudgetManager.FinalizeProviderBudget: does not model the order in which provider entries are settled; they are settled one by one and do not depend on each other. An entry's key is the tuple that the program joins into a text.
- States loaded from foreign files: runs start from the empty ledger, registry, tables and catalogue.
- UsageSummary.SummaryPayload: takes the order of the queries' rows as given: dearest first, ties in any order.
- Database columns that only display: `updated_at`, and of the benchmark rows all but the status.
- UsageAggregates.AggregateExecutionLog: starts after a log line is parsed, its time already rewritten.
- ProviderSelection.BuildProviderSelectionPolicy: values that are not texts, lists or numbers are taken as absent.
- ExecutionGovernance.SelectionIsAllowedIff: assumes that no other spelling of the provider's own key follows it in the approved models, since selection takes the last spelling and governance the exact one; and a request without overrides.
- ExecutionRouter.ProviderExecutionRouter.Execute: a response has the numbers its type promises, so recording it does not raise. `Registry` is what the list and each provider are found to be when the run looks at them, each once.
- LeaseExecution.OutcomesAreTrue: does not model a second cancellation while the runner waits for its cancelled heartbeat; which exception a failing run raises is left open.
- BenchmarkStore.LocalLLMBenchmarkStore.RecordOpenAIExecution: the digest that names a record is a parameter.
- Page fetching, section splitting, and the extraction calls: what they return is an arbitrary input.
- PricingCatalog.OpenAIPricingCatalogService.RefreshCatalog: a catalogue lists each model once; saved notes, change summaries and cache files are left out.
- PricingCatalog.OpenAIPricingCatalogService.SaveManualPricing: leaves out the overrides file it also writes; the overrides of a later refresh are arbitrary.
- ManualPricingRuns.RoundTrip: assumes of the number format only that a written price reads as a price written the same way.
- PromptTemplate.RenderPromptTemplate: inputs are already texts.
- Manifest and configuration validators, environment hints, node lifecycle, schedulers and rotation: finite tables and field checks.
