# FreeAI gateway: admission, dispatch, ranking, translation and rollup

FreeAI is a gateway that spreads chat requests over several rate-limited upstream providers. This
project models its logic and proves properties of it, in Dafny. Run `dafny verify dfyconfig.toml`.

**Admission and health.** Each (user, provider) has a `provider_stats` row and rows in `rate_events`.
`Admission` is the reservation function as a transition system: transactions with a fixed start time,
row locks held to the end, one snapshot per statement, abort, and a step that would have to wait is not
enabled. It covers three versions of the function: the create-or-lock upsert (0007), the deployed SELECT
FOR UPDATE then INSERT DO NOTHING (0014), and the advisory lock for clients (0004, where the key is a
client hash). `RollingCap` proves the caps over every interleaving, `FirstRowRace` shows when 0014 keeps
the cap, `RequestOverlap` when two requests of a key can overlap, `LockOrder` when transactions that lock
several rows can deadlock. `RateRepo` is the repository on its tables, `ReserveRefinement` ties it to the
small steps. `StatsRow`, `Breaker` and `TokenLedger` follow one row over whole histories of commits and
resets; `SerialRuns` shows that the committed dispatches of every run of the transition system are such a
history. `RateCounters` is the in-memory counter, next to the table and over restarts.

**Dispatch.** `ModelCooldowns` and `InFlight` are the orchestrator's in-memory maps. `Upstream` tries one
candidate (retries, then models), `Dispatch` the candidates in order, `Streaming` the same for streams,
both against the orchestrator's own cool-down memory; `DispatchProperties` and `StreamingProperties` say
what every run guarantees, `ServeRequest` joins a chat request to the tables and the memory it reads, and
`UnavailableFlag` says when the provider-wide flag means what it says. Upstream is an oracle: it says how
each call or stream ends, including cancellation; a client may leave at any event. `FailureKinds`,
`ModelOutcomes`, `Aftermath` and `ClientView` say the same in plain figures: what each kind of failure does
to a provider, to the next call and model, and to the next request, and what text a client reads.

**Strategies.** `StrategyDsl` is the parser, evaluator and printer of the rule language, with what its
operators mean; `Ranking` is the score and the ranking, `RankingMeaning` who is ranked and with how many
points.

**Responses API.** `Conversation` turns input items into chat messages and repairs tool pairs over chained
turns, `ConversationMeaning` shows that what it says determines the messages; `ResponseEvents` holds the two
event printers and a strict client that reads them back.

**Analytics.** `Rollup` is the daily rollup, `RollupMeaning` what each of its columns counts,
`RollupSchedule` the hourly rollup-then-purge job.
`KnownModels` suggests models for a mistyped name.

Where the code and its comments differ, the model follows the code:

- The breaker's window is anchored at the first failure of a streak; the comment calls it sliding
  (`Breaker.SlidingWindowIff` says when the two agree).
- 0014 brought back the unlocked first-row path that 0007 had removed
  (`FirstRowRace.DeployedCapIffRowExists`).
- A trip assigns `quarantined_until`; only the benign path takes a maximum
  (`Breaker.QuarantineShrinksIff`, `RequestOverlap.OverlappingTripShortens`).
- `reset_health` leaves `cooldown_level` and `recent_failures_started_at` alone.
- `all_models_unavailable` is decided by the last error, although the comment says every model
  (`UnavailableFlag.FlagHoldsAlwaysIff` says when they agree).
- `parse_definition` promises a ParseError for every bad definition, and raises a TypeError for a section
  that is a nonzero number or `true` (`StrategyDsl.CrashesIff`) and an OverflowError for a weight too large
  to be a float (`StrategyDsl.OverflowsIff`).
- `rollup_day` groups by the stored columns, so NULL and 0 users (or NULL and empty models) collide on the
  primary key (`Rollup.UsageRepository.RollupDay` fails exactly then).
- The in-memory counts stand in for the table's, and start empty in a new process
  (`RateCounters.NeverUnderreportsIff` says when they cover the table, `RateCounters.RestartForgets` when
  they do not).
- The purge loop's comment says no late row is lost; a row written after the last rollup of its day is
  never counted (`RollupSchedule.HistoryIsExactIff`).

## Model

| member | source | states |
|---|---|---|
| Windows.AdmittedRowKeepsCap | backend/alembic/versions/0007_fix_reserve_race.py:68-85 | a row may be added when fewer than cap rows lie at or after its stamp minus the width, even if later stamps are already there: no closed window then exceeds the cap |
| Windows.FewerRowsKeepCap | backend/app/repositories/rate_repo.py:223-226 | deleting rows keeps every window within its cap |
| RollingCap.StepKeepsInv | backend/alembic/versions/0014_multiuser_scoping.py:143-187 | every step of every transaction (tick, begin, statement, stats write, rollback, purge, commit, abort) keeps the locking and cap invariant of a key |
| RollingCap.RunKeepsInv | backend/alembic/versions/0007_fix_reserve_race.py:42-86 | so does every interleaving |
| RollingCap.InsertKeepsTxInv | backend/alembic/versions/0007_fix_reserve_race.py:68-84 | the counts made under the lock still bound the view when the row is inserted |
| RollingCap.CapHolds | backend/alembic/versions/0007_fix_reserve_race.py:42-85 | in every interleaving from a quiescent state, under 0007 and 0004, and under 0014 once the stats row exists, no closed 60 s or 86400 s interval with a row admitted since then holds more rows than its cap |
| FirstRowRace.MissingRowOverAdmits | backend/alembic/versions/0014_multiuser_scoping.py:144-155 | without the stats row, for every smallest cap r >= 1 (per minute or per day), a run of 0014 ends with r + 1 rows of one instant |
| FirstRowRace.DeployedCapIffRowExists | backend/alembic/versions/0014_multiuser_scoping.py:144-181 | for all caps: 0014 keeps them over every run if and only if the stats row exists, or there is no cap, or a cap lets nothing through |
| FirstRowRace.ClosedAdmitsNone | backend/alembic/versions/0014_multiuser_scoping.py:164-181 | a cap of zero or less admits no row in any interleaving |
| FirstRowRace.LockedCapAlways | backend/alembic/versions/0004_client_rate_limit.py:56-76 | 0007 and 0004 keep it from every quiescent state |
| ReserveRefinement.DeployedCallIsAtomic | backend/alembic/versions/0014_multiuser_scoping.py:143-187 | statement by statement, a call that finds the key free ends with exactly the token and rows of the repository's single call |
| ReserveRefinement.LoneCallIsLetInIff | backend/alembic/versions/0007_fix_reserve_race.py:42-86 | a call of any of the three functions that finds the key free is let in if and only if there is room in the minute and, but for 0004, in the day and the quarantine is over, and, in 0014, the row is not unhealthy without one; 0007 heals a row whose quarantine is over |
| ReserveRefinement.StatementsMean | backend/app/repositories/rate_repo.py:223-226 | a rollback takes exactly its row out of what the transaction sees, a purge exactly the older ones, a stats write replaces the row |
| ReserveRefinement.EndsMean | backend/alembic/versions/0014_multiuser_scoping.py:143-187 | a commit makes what the transaction sees the table; an abort changes nothing |
| RateRepo.RateRepository.TryReserve | backend/app/repositories/rate_repo.py:61-84 | grants exactly when the gate is open and both counts are below their caps; creates the row either way; inserts exactly one event |
| RateRepo.RateRepository.Commit | backend/app/repositories/rate_repo.py:86-221 | the row becomes the success, benign or breaker successor of the old one; other rows stay; nothing happens without a row |
| RateRepo.RateRepository.Rollback | backend/app/repositories/rate_repo.py:223-226 | deletes the reservation's own row and no other |
| RateRepo.RateRepository.Snapshot | backend/app/repositories/rate_repo.py:230-274 | shows the two window counts and a health equal to the reserve gate |
| RateRepo.RateRepository.SnapshotAll | backend/app/repositories/rate_repo.py:276-339 | the same projection for every name, with the in-memory counts |
| RateRepo.SnapshotShows | backend/app/repositories/rate_repo.py:230-274 | which count is which, and of the row the totals, the last outcome, the average, a running quarantine and the tokens of the last 86400 s |
| RateRepo.RateRepository.ResetHealth | backend/app/repositories/rate_repo.py:341-355 | clears health, streak count, error and quarantine, and leaves the level and the anchor |
| RateRepo.RateRepository.PurgeOldEvents | backend/app/repositories/rate_repo.py:357-362 | deletes exactly the rows before the cutoff and counts them |
| RateRepo.RollbackUndoesReserve | backend/app/repositories/rate_repo.py:223-226 | a rolled back reservation leaves the event table as it was |
| RateRepo.PurgeIsInvisible | backend/app/repositories/rate_repo.py:357-362 | the two-day purge changes no later window count |
| Breaker.ReachableRow | backend/app/repositories/rate_repo.py:108-221 | every reachable row has a streak below the threshold, an anchor when the streak is not empty, and a quarantine stamp when unhealthy |
| Breaker.LevelsArePaidFor | backend/app/repositories/rate_repo.py:188-215 | threshold * cooldown_level + consecutive_failures <= breaker failures since the last success |
| Breaker.StreakStart | backend/app/repositories/rate_repo.py:181-198 | a positive count is backed by exactly that many failures since the anchor, with no success, reset or trip among them |
| Breaker.TripMeansBurst | backend/app/repositories/rate_repo.py:199-215 | at a trip the last threshold-many breaker failures lie within the window, with no success, reset or earlier trip among them |
| Breaker.SlidingIsAnchored | backend/app/repositories/rate_repo.py:183-189 | with a threshold of at most two, or no window, a full burst always trips |
| Breaker.MissedBurstIsMissed | backend/app/repositories/rate_repo.py:183-189 | otherwise there is a full burst within half a window that does not trip |
| Breaker.SlidingWindowIff | backend/app/repositories/rate_repo.py:172-189 | the breaker is the sliding-window breaker of its comment if and only if threshold <= 2 or window <= 0 |
| Breaker.CooldownsGrow | backend/app/repositories/rate_repo.py:203-211 | cooldowns never shrink with the level and never exceed the maximum |
| Breaker.TripsWaitOutQuarantine | backend/alembic/versions/0014_multiuser_scoping.py:157-162 | in a serial run without success (transactions may start early and wait for the lock), trip k comes after the current quarantine plus the k cooldowns in between |
| Breaker.TripsSpreadOut | backend/app/repositories/rate_repo.py:199-215 | trip k + 1 comes at least the sum of the first k cooldowns after the first trip |
| Breaker.QuarantineShrinksIff | backend/app/repositories/rate_repo.py:151-219 | a failure shortens a quarantine if and only if it is a trip that meets a longer one; a benign one never does |
| Breaker.SerialFailureNeverShortens | backend/app/repositories/rate_repo.py:210 | with one request at a time no failure shortens a quarantine |
| SerialRuns.ActKeepsSound | backend/alembic/versions/0014_multiuser_scoping.py:143-187 | every step, and every commit of a reservation's outcome, keeps the locks, caps and row versions of a key in order |
| SerialRuns.RunsAreSerial | backend/alembic/versions/0014_multiuser_scoping.py:143-162 | in every run of 0014 from a state with the stats row, the key's committed dispatches are a serial run that leads from that row to the committed one |
| SerialRuns.CommittedTripsSpreadOut | backend/app/repositories/rate_repo.py:199-215 | so in every such run without success, trip k + 1 comes at least the first k cooldowns after the first |
| LockOrder.CallWaitsIffHeld | backend/alembic/versions/0014_multiuser_scoping.py:144-147 | a reservation of an existing row waits exactly while another transaction holds it |
| LockOrder.InsertWaitsIffPending | backend/alembic/versions/0014_multiuser_scoping.py:150-155 | the insert of a missing row waits exactly while another open transaction has inserted it, and does nothing once that has committed |
| LockOrder.OppositeOrdersDeadlock | backend/app/orchestrator.py:968-981 | a run in which two requests that reserve two providers in opposite orders wait for each other |
| LockOrder.CommonOrderNeverDeadlocks | backend/app/orchestrator.py:968-981 | transactions that take their rows in one common order are never deadlocked |
| LockOrder.CommonOrderGoesOn | backend/app/orchestrator.py:968-981 | then, when every open transaction asks for its next row, one of them gets it |
| RequestOverlap.OverlapIff | backend/alembic/versions/0014_multiuser_scoping.py:144-155 | two requests of a key can hold reservations at the same time if and only if the stats row is missing and the caps let something through |
| RequestOverlap.OverlappingTripShortens | backend/app/repositories/rate_repo.py:163-219 | a run of the two overlapping requests in which one commits a six-hour quarantine and the other, reserved before, cuts it to 30 s |
| Breaker.SnapshotIsGateIff | backend/app/repositories/rate_repo.py:260-261 | shown health equals the reserve gate at every instant, for exactly the rows not unhealthy with a negative stamp |
| Breaker.NoProviderStaysDead | backend/alembic/versions/0014_multiuser_scoping.py:157-162 | on every reachable row shown health, gate and "quarantine expired" are the same thing, and "unhealthy with no quarantine" never holds |
| Breaker.DeadRowReachableIff | backend/app/repositories/rate_repo.py:199-215 | some history makes a provider unhealthy with no quarantine if and only if a cooldown setting is negative and the breaker can trip |
| FailureKinds.SparedProviderStaysHealthy | backend/app/repositories/rate_repo.py:26-29 | over any history whose failures are rate limits, client errors, filtered content, bad credentials, empty quotas or missing models, the row stays healthy with no streak and no level, and its quarantine ends at the greatest time asked for since the last success or reset |
| FailureKinds.BlamedFailureCounts | backend/app/repositories/rate_repo.py:172-219 | a server, network or parsing error, an empty answer or an unknown error raises the streak by one, inside the window, or trips |
| FailureKinds.BurstTripsFresh | backend/app/repositories/rate_repo.py:172-219 | threshold-many of them at one instant take a fresh provider out for the base cool-down, and one fewer do not |
| FailureKinds.CooldownDoubles | backend/app/repositories/rate_repo.py:203-210 | each level doubles the cool-down, up to the maximum and for twenty levels |
| FailureKinds.DefaultsTripAtThree | backend/app/repositories/rate_repo.py:172-219 | with the default settings three such failures within 300 s trip for 30 s, two or later ones do not, and no cool-down exceeds an hour |
| FailureKinds.TotalsCountAll | backend/app/repositories/rate_repo.py:127-149 | total_calls and total_failures count every outcome and every failure since the row was made; the last error is that of the last outcome |
| TokenLedger.LedgerIsExact | backend/app/repositories/rate_repo.py:119-129 | tokens_today is exactly the tokens of the successes since tokens_day_start, all within 24 h of it |
| TokenLedger.SnapshotWithinTrailingDay | backend/app/repositories/rate_repo.py:263 | the snapshot never shows more than the trailing 24 h total |
| TokenLedger.BudgetPlusOneResponse | backend/app/orchestrator.py:455-459 | with one request at a time the ledger stays below tpd_limit plus one response |
| TokenLedger.EmaClosedForm | backend/app/repositories/rate_repo.py:113-117 | latency_ema_ms is the closed-form weighted sum of all success latencies |
| TokenLedger.OneMoreSample | backend/app/repositories/rate_repo.py:113-117 | appending a sample to the closed form is one step of the average |
| TokenLedger.EmaBetweenExtremes | backend/app/repositories/rate_repo.py:113-117 | and lies between the least and the greatest of them |
| RateCounters.RateCounterStore.Record | backend/app/rate_counters.py:26-32 | appends the call to the key's history, keeps the others |
| RateCounters.RateCounterStore.Prune | backend/app/rate_counters.py:34-42 | drops nothing younger than a day |
| RateCounters.RateCounterStore.Rpm | backend/app/rate_counters.py:44-48 | equals counting the full unpruned history of the last 60 s |
| RateCounters.RateCounterStore.Rpd | backend/app/rate_counters.py:50-53 | equals counting the full unpruned history of the last 86400 s |
| RateCounters.RateCounterStore.Counts | backend/app/rate_counters.py:55-61 | both at once |
| RateCounters.PopOld | backend/app/rate_counters.py:34-42 | the pruning loop leaves what a prune of the full history may leave, and nothing older than a day |
| RateCounters.CountFrom | backend/app/rate_counters.py:44-61 | counts the times at or after the cutoff |
| RateCounters.PrunedAnswers | backend/app/rate_counters.py:34-61 | what pruning leaves answers every later window as the full history does |
| RateCounters.GrantsAccount | backend/app/orchestrator.py:975-981 | in every run of grants, deletions and restarts, a key's records are those of grants since the last start that cover all its rows but the ones from before that start |
| RateCounters.ShortfallIsOldRows | backend/app/orchestrator.py:234-235 | in every such run and every window the table exceeds the store by at most the surviving rows from before the last start |
| RateCounters.NeverUnderreportsIff | backend/app/orchestrator.py:234-235 | a process that starts on a table never reports fewer calls than the table holds in a window, whatever is granted and deleted, if and only if the table had no row of the key in that window at the start |
| RateCounters.RestartForgets | backend/app/orchestrator.py:235 | a run in which a call is granted and the process restarts: one row in the window, count 0 |
| RateCounters.CountedTable.Counts | backend/app/rate_counters.py:55-61 | the store object's counts, next to the table's rows, in every run of the object's methods |
| RateCounters.RecordsCoverRows | backend/app/orchestrator.py:975-981 | a key's records cover its surviving rows in every window |
| Providers.QuarantineOnlyForBenign | backend/app/providers/base.py:102-146 | only benign kinds get an explicit quarantine, so policy and breaker never act on the same error |
| Providers.SecondsExhausted | backend/app/providers/base.py:348-359 | the longest wait of the empty buckets, if any is empty |
| ModelCooldowns.ModelChain | backend/app/providers/catalog.py:203-219 | duplicate-free: the configured model unless missing or retired, then exactly the other auto-fallback models in catalog order |
| ModelCooldowns.ChainMeans | backend/app/providers/catalog.py:203-219 | it begins with the configured model exactly if there is one that is not retired, and holds besides it exactly the auto-fallback models, each once |
| ModelCooldowns.ChainIsUnique | backend/app/providers/catalog.py:203-219 | there is only one chain that meets the contract |
| ModelCooldowns.CoolingIffCovered | backend/app/orchestrator.py:132-150 | a slot is cooling exactly while some call still covers now |
| ModelCooldowns.LongestIsEarliest | backend/app/orchestrator.py:132-139 | of calls for a slot that end together the earliest one counts |
| ModelCooldowns.Cooldowns.Cool | backend/app/orchestrator.py:132-139 | the lazily expired map answers as the history of calls since the last clear; the call is added to it |
| ModelCooldowns.Cooldowns.Reason | backend/app/orchestrator.py:141-150 | the answer is that of the full history; dropping the expired entry changes no later answer |
| ModelCooldowns.Cooldowns.Survey | backend/app/orchestrator.py:602-608 | the chain's models with no reason, in order, and whether every reason is "unavailable" |
| ModelCooldowns.Cooldowns.ModelsFor | backend/app/orchestrator.py:586-610 | the models the history of calls leaves usable (which ones: NamedModelIsUsed, UsableModelsAreTheWarm, ProbeIffAllUnavailable) |
| ModelCooldowns.AliveIsFilter | backend/app/orchestrator.py:602-605 | exactly the chain's models that are not cooling |
| ModelCooldowns.AliveKeepsOrder | backend/app/orchestrator.py:602-605 | as a duplicate-free subsequence of the chain |
| ModelCooldowns.UsableModelsSound | backend/app/orchestrator.py:586-610 | a duplicate-free subsequence of the chain with no cooling model, or one probe when all are cooling as unavailable, or nothing |
| ModelCooldowns.UnavailableIsAvoided | backend/app/orchestrator.py:599-608 | a model cooled as unavailable is not chosen for six hours while another one is usable |
| ModelCooldowns.CoolingIsOnlyProbed | backend/app/orchestrator.py:599-610 | a cooling model is only chosen as the lone probe of a chain that is cooling as unavailable throughout |
| ModelCooldowns.ReasonMeans | backend/app/orchestrator.py:141-150 | the reason given is that of the call that outlasts all others |
| ModelCooldowns.NamedModelIsUsed | backend/app/orchestrator.py:595-601 | a cooling provider gives nothing; otherwise a named model is exactly the one tried, and an empty chain gives the provider's own default |
| ModelCooldowns.UsableModelsAreTheWarm | backend/app/orchestrator.py:602-605 | otherwise, if some model of the chain is not cooling, exactly those are tried, in chain order |
| ModelCooldowns.ProbeIffAllUnavailable | backend/app/orchestrator.py:606-610 | and if all are cooling, the first one is tried if and only if all are unavailable, and none otherwise |
| ModelCooldowns.Remember | backend/app/orchestrator.py:630-672 | cools every slot asked for, in order, each at the time it is asked |
| InFlight.DecUndoesInc | backend/app/orchestrator.py:300-314 | a start and its end leave the map as it was, also when the map was full |
| InFlight.CountersNeverExceedOpen | backend/app/orchestrator.py:300-314 | in every interleaving stored counts are at least 1 and never exceed the open dispatches |
| InFlight.EmptyWhenAllEnded | backend/app/orchestrator.py:300-314 | the map is empty once all dispatches have ended |
| InFlight.CountersAreExact | backend/app/orchestrator.py:300-314 | while the map is never full the stored counts are exactly the open dispatches |
| InFlight.CountersAreBounded | backend/app/orchestrator.py:300-314 | the map never holds more than 10000 keys |
| InFlight.RepeatedLimitsEscalate | backend/app/orchestrator.py:275-295 | whatever other keys do in between, the n-th 429 in a row is quarantined for exactly the wait asked for, or a minute, but from the second on at least a minute doubled each time up to an hour |
| InFlight.StreaksCountInARow | backend/app/orchestrator.py:275-298 | the stored streak is the number of 429s since the key's last answer and the last clearing of the map |
| InFlight.StreaksAreBounded | backend/app/orchestrator.py:275-295 | nor does the map of streaks, and it is cleared only when full |
| Upstream.TryWithRetry | backend/app/orchestrator.py:551-584 | the loop ends as the retry rule says and counts its calls |
| Upstream.RetriesAreBounded | backend/app/orchestrator.py:551-584 | at most max_retries + 1 calls, all but the last transient; the verdict is the last call's; a transient one is reported only with the budget spent |
| Upstream.TryModels | backend/app/orchestrator.py:681-721 | tries the candidate's models; the memory grows by exactly the cool-downs their outcomes ask for |
| Upstream.ModelsInOrder | backend/app/orchestrator.py:695-713 | the verdict is the last tried model's, every earlier one failed with an error of its own, and the loop stops early only otherwise |
| Upstream.ModelsWithinBudget | backend/app/orchestrator.py:681-721 | at most models * (max_retries + 1) calls per candidate |
| Upstream.UnavailableModelsAreCooled | backend/app/orchestrator.py:612-653 | every model tried that answered "unavailable" is cooled for six hours |
| ModelOutcomes.RetriesWhileWorthIt | backend/app/orchestrator.py:551-584 | calls are repeated exactly while they fail with a server or network error, the budget lasts and the request is not cancelled; the last one decides |
| ModelOutcomes.TriedWhileModelsFail | backend/app/orchestrator.py:681-720 | the next model is tried exactly after an error of the model's own: missing, over its own quota (never status 402), empty or filtered |
| ModelOutcomes.EachModelIsRemembered | backend/app/orchestrator.py:655-712 | the memory is asked exactly for what each tried model asks: six hours for a missing one, the hint or a minute or an hour for its quota, or what the headers report |
| ModelOutcomes.HeadersMean | backend/app/orchestrator.py:655-679 | headers that report an empty quota put the model aside, or the whole provider without per-model quotas, for the longest reset of an empty quota; others put nothing aside |
| ModelOutcomes.EachModelIsCharged | backend/app/orchestrator.py:681-720 | and exactly the calls the tried models make are made |
| Dispatch.Orchestrator.IncInFlight | backend/app/orchestrator.py:300-306 | adds one, unless the key is new and the map full |
| Dispatch.Orchestrator.DecInFlight | backend/app/orchestrator.py:308-314 | takes one off and drops the key at zero |
| Dispatch.Orchestrator.QuarantineFor | backend/app/orchestrator.py:275-295 | the policy's seconds, raised to the floor of the 429 streak, and the new streaks |
| Dispatch.Orchestrator.Chat | backend/app/orchestrator.py:968-1087 | the loop's outcome, log and streaks are those of the run specification, the in-flight map is as before on every way out, and the cool-down memory has grown by what the run asked for |
| Dispatch.Orchestrator.DispatchOne | backend/app/orchestrator.py:995-1030 | one granted dispatch, with its cool-downs and the settlement of its finally block |
| DispatchProperties.FirstUsableAnswerWins | backend/app/orchestrator.py:968-1087 | served by candidate k with r if and only if k is the first that has models, is granted and answers r, and fewer than two before it rejected the request |
| DispatchProperties.FateMeans | backend/app/orchestrator.py:966-1018 | a candidate is skipped exactly without a usable model or a reservation; otherwise its one deciding model decides |
| DispatchProperties.AnswerComesFrom | backend/app/orchestrator.py:964-965 | in terms of the ranking: the first candidate that answers, and without fallback the first candidate or none |
| DispatchProperties.OnlyFirstWithoutFallback | backend/app/orchestrator.py:964-965 | without fallback only the first candidate is dispatched or skipped, logged and charged calls |
| DispatchProperties.FallbackVisitsPrefix | backend/app/orchestrator.py:966-1087 | with fallback the candidates visited are a prefix of the ranking, cut short only by an answer, an interruption or two rejections |
| DispatchProperties.EmptyQuotaRestsProvider | backend/app/orchestrator.py:655-679 | after an answer that reports an empty quota of the account no model of that provider is tried for the time reported |
| DispatchProperties.RefusalNamesTheCause | backend/app/orchestrator.py:1371-1407 | a refused run carries the kind of its last failure, or RATE_LIMITED when every candidate was skipped; with candidates to try it is never "unknown" of its own |
| DispatchProperties.AnswerForgetsRateLimits | backend/app/orchestrator.py:297-298 | an answer clears the provider's count of consecutive 429s |
| DispatchProperties.ChainAndSkippedPartition | backend/app/orchestrator.py:960-988 | fallback_chain and skipped partition the visited prefix without duplicates |
| DispatchProperties.EverySettledOnce | backend/app/orchestrator.py:995-1030 | every reservation has exactly one commit or rollback, and its slot is taken and given back once, cancellation included |
| DispatchProperties.PositionsAreConsecutive | backend/app/orchestrator.py:988-1016 | recorded fallback positions are 1, 2, ..., n |
| DispatchProperties.CallsAfter | backend/app/orchestrator.py:968-1087 | a run makes at most the sum over candidates of models * (max_retries + 1) calls |
| DispatchProperties.AnsweredUnavailableIsAvoided | backend/app/orchestrator.py:586-653 | a model that answered "unavailable" in a run is not chosen for that user within six hours while another is usable |
| DispatchProperties.UnavailableIsAsked | backend/app/orchestrator.py:612-653 | every model a run found unavailable is put into the memory for six hours |
| DispatchProperties.ChatThenModels | backend/app/orchestrator.py:586-653 | a run and then the next request's models: within six hours a model found unavailable comes back only as the lone probe of an unavailable chain |
| DispatchProperties.ChatWithRetry | backend/app/orchestrator.py:864-894 | the retry as auto happens exactly for a named real model that is unavailable; at most the two runs' budgets are spent |
| ServeRequest.Service.Serve | backend/app/orchestrator.py:953-1085 | one request on the real memory and tables: each visited candidate has the models and the grant its provider had at the start of the request (what the request does to other providers changes neither, short of a full memory being cleared), outcome, tables and memory are those of the run on these candidates, and exactly the visited ones are asked; without fallback the row and events of every other provider stay as they were |
| ServeRequest.ModelsAsAtStart | backend/app/orchestrator.py:586-610 | cooling other providers leaves this one's usable models as they were, or as they are with an empty memory |
| ServeRequest.EachLeavesItsOwn | backend/app/orchestrator.py:968-1018 | a provider's row and events after the request are what its own turn alone would make of those at the start |
| ServeRequest.RequestKeepsCaps | backend/app/orchestrator.py:972-980 | a request keeps the minute and day cap of every provider it visits |
| ServeRequest.OneEventPerPosition | backend/app/orchestrator.py:1000-1018 | conservation: the request adds one event per fallback position recorded, on every way out |
| ServeRequest.FailedIsLeftAlone | backend/app/repositories/rate_repo.py:148-221 | after a request, a provider that failed it is granted nothing before its back-off (the error's, or the tripped breaker's cool-down) is over |
| ServeRequest.ServeTwice | backend/app/orchestrator.py:968-981 | two requests of a user in turn: the second does not dispatch a provider that failed the first within its back-off |
| Aftermath.OpensExactlyAfter | backend/app/providers/base.py:127-160 | a healthy provider that failed a request takes reservations again exactly after a day (credentials), the hint or a minute (rate limit), the hint or an hour or six (quota, empty account), an hour (no model left), or at once (rejected or filtered) |
| Aftermath.SecondLimitWaitsLonger | backend/app/orchestrator.py:275-295 | after a second 429 in a row not before two minutes |
| Aftermath.AnswerIsCredited | backend/app/repositories/rate_repo.py:108-147 | an answer adds its prompt and completion tokens to the day, moves the average latency by 0.3 and clears all that was held against the provider |
| Aftermath.ChargedIff | backend/app/orchestrator.py:1000-1018 | a provider is charged one event exactly for an answer or a failure |
| Aftermath.GrantedIff | backend/app/orchestrator.py:972-980 | a visited provider is granted a reservation exactly when at the start of the request its quarantine is over, it is not unhealthy without one, and both caps have room |
| Aftermath.UndecidedKeepsItsRow | backend/app/orchestrator.py:985-1030 | a refused or interrupted provider keeps its row, or gets a fresh one |
| Aftermath.BackOffMeans | backend/app/repositories/rate_repo.py:148-221 | what the back-off of FailedIsLeftAlone is, in figures |
| UnavailableFlag.FlagIsTheOrchestrators | backend/app/orchestrator.py:716-720 | the flag of these statements is the one the orchestrator quarantines by, for the error a candidate's models end with |
| UnavailableFlag.FlagHoldsInRunIff | backend/app/orchestrator.py:714-720 | in a run a set all_models_unavailable means what it is documented to mean if and only if no earlier model was left for a limit, an empty answer or filtered content |
| UnavailableFlag.FlagHoldsAlwaysIff | backend/app/orchestrator.py:101-103 | it does so whatever upstream answers if and only if the caller named the model or there is one model to try |
| UnavailableFlag.EmptyThenGoneSetsFlag | backend/app/orchestrator.py:714-720 | the input: an empty answer and then unavailable models set the flag |
| UnavailableFlag.QuotaThenGoneQuarantines | backend/app/orchestrator.py:714-720 | a model waiting a minute for its own quota and an unavailable one get the provider quarantined for an hour |
| UnavailableFlag.StreamFlagHoldsInRunIff | backend/app/orchestrator.py:1228-1232 | the same for the models of a stream, in one run |
| UnavailableFlag.StreamFlagHoldsAlwaysIff | backend/app/orchestrator.py:1228-1232 | and whatever the streams do |
| Streaming.PumpChunks | backend/app/orchestrator.py:1156-1203 | the held-back buffer loses, repeats and reorders nothing: all chunks once text has come, none before, cut at a disconnect; the memory grows by what the received chunks' rate-limit headers ask for |
| Streaming.Pump | backend/app/orchestrator.py:1156-1243 | and how the stream ends for its attempt |
| Streaming.TryModels | backend/app/orchestrator.py:1155-1243 | the model loop; the memory grows by exactly the cool-downs of the received chunks and of the failed models |
| Streaming.RunStream | backend/app/orchestrator.py:1126-1334 | the loop's outcome, output, log and streaks are those of the run specification, the in-flight map is as before on every way out, and the cool-down memory has grown by what the run asked for |
| Streaming.DispatchOne | backend/app/orchestrator.py:1139-1332 | one granted dispatch, with its cool-downs and the settlement of its finally block |
| Streaming.Settle | backend/app/orchestrator.py:1247-1311 | commit of a finished or failed stream; an interrupted one is left to the rollback |
| StreamingProperties.OnlyLastModelSends | backend/app/orchestrator.py:1155-1243 | only the last model tried sends anything, and only if the candidate is not given up |
| StreamingProperties.ClientSeesOneStream | backend/app/orchestrator.py:1126-1334 | the client of a run gets the formatted prefix of exactly one adapter stream; a run that gives up has sent nothing |
| StreamingProperties.DoneMeansWholeStream | backend/app/orchestrator.py:1204-1278 | the done event appears if and only if a stream ended normally with text, was sent whole, and was committed as a success |
| StreamingProperties.CompletedIsCommitted | backend/app/orchestrator.py:1247-1252 | the completed candidate's reservation is committed ok at its fallback position |
| StreamingProperties.EveryStreamSettledOnce | backend/app/orchestrator.py:1141-1332 | every reservation has exactly one commit or rollback on every exit, disconnect and cancellation included |
| StreamingProperties.StreamWithRetry | backend/app/orchestrator.py:896-920 | the retry as auto happens exactly for a named real model that is unavailable, and then nothing was sent before, so the client still sees one stream |
| StreamingProperties.StreamedUnavailableIsAvoided | backend/app/orchestrator.py:1211-1234 | a model a streaming run found unavailable is not chosen within six hours while another is usable |
| ClientView.ClientReceivesTheText | backend/app/orchestrator.py:1156-1203 | the events received are, one for one, the first chunks of one stream of a candidate that may be tried, with its text, finish, provider and shown model; the text received is the text of these chunks, all of it when completed |
| ClientView.StreamEndMeans | backend/app/orchestrator.py:1156-1243 | how a stream ends for the loop, from its text, its ending and the client's patience |
| ClientView.StreamModelsInOrder | backend/app/orchestrator.py:1155-1243 | of a candidate's models exactly the last one tried decides; each before it failed without text and with an error of its own |
| ClientView.StreamsAreRemembered | backend/app/orchestrator.py:1160-1234 | the memory is asked exactly for what the headers read and the failures before any text of the tried models ask |
| ClientView.FirstStreamDecides | backend/app/orchestrator.py:1117-1334 | a stream is completed, or cut off, by the first candidate that comes to anything; without fallback only by the first |
| ClientView.OnlyFirstWithoutFallback | backend/app/orchestrator.py:1117 | without fallback nothing is done for any candidate but the first |
| ClientView.GivingUpNamesTheCause | backend/app/orchestrator.py:1380-1407 | a stream that is given up carries the kind of its last failure, or says that candidates were busy, or that none streams |
| StrategyDsl.ParseSound | backend/app/strategy_dsl.py:113-261 | every definition the parser accepts is well typed, with floats as weights |
| StrategyDsl.CrashesIff | backend/app/strategy_dsl.py:113-139 | a TypeError escapes the parser exactly when a section it gets to is a nonzero number or true |
| StrategyDsl.NumberSectionCrashes | backend/app/strategy_dsl.py:113-139 | a definition whose require is 1 raises a TypeError |
| StrategyDsl.OverflowsIff | backend/app/strategy_dsl.py:188-196 | an OverflowError escapes it exactly when everything up to some prefer clause parses and that clause has a number too large to be a float as weight |
| StrategyDsl.HugeWeightOverflows | backend/app/strategy_dsl.py:188-196 | one well-formed prefer clause with such a weight raises an OverflowError |
| StrategyDsl.RoundTripIff | backend/app/strategy_dsl.py:415-429 | parse(serialize(d)) = d if and only if d is well typed and its weights are floats |
| StrategyDsl.SerializedIsFixedPoint | backend/app/strategy_dsl.py:415-429 | serialize(parse(raw)) is a fixed point |
| StrategyDsl.RequireAcceptedIff | backend/app/strategy_dsl.py:142-207 | a require clause is accepted exactly when it is an object of a field, an operator and a value that go together, all written out |
| StrategyDsl.PreferAcceptedIff | backend/app/strategy_dsl.py:142-207 | a prefer clause needs a weight that is a float besides, and carries it |
| StrategyDsl.DefinitionAcceptedIff | backend/app/strategy_dsl.py:113-139 | a definition is accepted exactly when it is null or an object of at most the two sections, each missing, standing for nothing, or a list of accepted clauses; it holds these clauses in order |
| StrategyDsl.ComputeScore | backend/app/strategy_dsl.py:339-359 | the first failing require excludes, otherwise the weights of the matching prefers are added up; on accepted definitions through what the operators mean |
| StrategyDsl.MatchIsSafe | backend/app/strategy_dsl.py:267-297 | a well-typed clause evaluates without a type error on a typed context |
| StrategyDsl.MatchesMeans | backend/app/strategy_dsl.py:267-297 | an accepted clause matches a typed context if and only if the field's value and the clause's stand in the relation its operator names; a missing field never matches |
| StrategyDsl.ScoreMeans | backend/app/strategy_dsl.py:339-362 | an accepted definition excludes exactly for a require clause that does not hold, and otherwise gives the weights of the prefer clauses that hold |
| StrategyDsl.PassesIsSafe | backend/app/strategy_dsl.py:352-354 | a provider passes exactly when every require clause matches |
| StrategyDsl.AcceptedDefinitionsAreSafe | backend/app/strategy_dsl.py:113-359 | type soundness: an accepted definition never raises a type error, and excludes exactly on a require that does not match |
| Ranking.ContextIsTyped | backend/app/strategy_dsl.py:365-412 | every context the orchestrator builds is typed |
| Ranking.BaselineScore | backend/app/strategy_dsl.py:300-336 | the accumulated score is the sum of its signals |
| Ranking.BaselineBounds | backend/app/strategy_dsl.py:300-336 | the baseline lies in [weight - 3.0, weight + 5.5], and exactly who gets the two ends |
| Ranking.BaselineAntitone | backend/app/strategy_dsl.py:300-336 | more requests, tokens or failures or a slower answer never raise it |
| Ranking.RemainingIsShare | backend/app/strategy_dsl.py:389-397 | a remaining share is in [0, 1], is 1 exactly when unlimited or unused, 0 exactly when used up |
| Ranking.SortIsStable | backend/app/orchestrator.py:469 | the sort is descending, keeps ties in order, and is a permutation |
| Ranking.StableSortIsUnique | backend/app/orchestrator.py:469 | any list that meets that contract is the same list |
| Ranking.TotalScore | backend/app/orchestrator.py:330-373 | baseline plus rule points minus half a point per dispatch in flight, or excluded |
| Ranking.Rank | backend/app/orchestrator.py:425-470 | the ranking is the stable descending sort of the scored providers; unhealthy names those quarantined or out of budget |
| Ranking.RankedAreThePassing | backend/app/orchestrator.py:448-470 | a candidate is ranked if and only if a provider passes every filter with that score, each as often |
| Ranking.UnhealthyAreTheUnavailable | backend/app/orchestrator.py:448-459 | unhealthy holds exactly the eligible providers that are quarantined or out of tokens |
| Ranking.PointsSpread | backend/app/strategy_dsl.py:355-359 | two providers' rule points differ by at most the sum of the absolute prefer weights |
| Ranking.PreferredOutscores | backend/app/orchestrator.py:330-373 | the preferred provider outscores a rival whenever 8.5 + weight gap + prefer weights + 0.5 * in flight < 100 |
| Ranking.PreferredComesFirst | backend/app/orchestrator.py:466-469 | then it is ranked first |
| RankingMeaning.RankedIff | backend/app/orchestrator.py:448-470 | a provider is ranked if and only if it is enabled, has a key, is healthy, has tokens left, has an adapter, and every require clause holds |
| RankingMeaning.UnavailableIff | backend/app/orchestrator.py:448-459 | and reported unavailable if and only if it is enabled with a key but not known healthy or out of tokens |
| RankingMeaning.PointsMean | backend/app/orchestrator.py:330-373 | its points from its settings and snapshot: weight, shares left, answer time, failures, rules, dispatches under way and preference |
| RankingMeaning.FieldsShow | backend/app/strategy_dsl.py:365-412 | what a rule finds in each field |
| RankingMeaning.SharesShow | backend/app/strategy_dsl.py:389-397 | the shares left of the three limits |
| Conversation.AppendItem | backend/app/responses_api.py:170-203 | adds exactly what the item says, and never splits consecutive calls over two turns |
| Conversation.ContentToChat | backend/app/responses_api.py:104-133 | content parts become blocks or, without an image, one string; rejected exactly for a part chat has no match for |
| Conversation.BlocksHoldImages | backend/app/responses_api.py:130-133 | the blocks are pure text exactly when no part is an image |
| ConversationMeaning.PartsBecome | backend/app/responses_api.py:104-133 | parts are rejected exactly for an unknown one or an image without URL; without images they become their texts, a line each, and with images blocks that carry every text and image |
| ConversationMeaning.RolesMean | backend/app/responses_api.py:170-203 | the four role names |
| Conversation.ItemsToMessages | backend/app/responses_api.py:155-167 | the loop over the items, with references looked up |
| Conversation.InputToMessages | backend/app/responses_api.py:139-167 | the messages say exactly what the input says, in order; the request is rejected exactly for an unacceptable item or an input that is neither a string nor a list |
| ConversationMeaning.MessagesAreDetermined | backend/app/responses_api.py:139-203 | two lists of messages that say the same, are tidy and split no turn are the same list: the promise of the translation leaves no freedom |
| ConversationMeaning.RejectedInputs | backend/app/responses_api.py:139-167 | an input is rejected exactly when it is of no known form or for one of its items |
| ConversationMeaning.RejectedItems | backend/app/responses_api.py:170-203 | an item is a reason to exactly when it is no object, or a message with an unknown role or content |
| ConversationMeaning.ReferencesMean | backend/app/responses_api.py:155-167 | a reference stands for the stored item, if it is an object; otherwise, or when that is a reference, for nothing |
| Conversation.RepairToolPairs | backend/app/responses_api.py:206-226 | the loop repairs as specified |
| Conversation.RepairAt | backend/app/responses_api.py:206-226 | length-preserving; each message is kept, or demoted exactly when no earlier turn announces its call |
| ConversationMeaning.DemotedCarriesTheResult | backend/app/responses_api.py:217-224 | a demoted result is a user message that names its call and ends with the whole result |
| ConversationMeaning.TextIsJoined | backend/app/responses_api.py:217-224 | the text of blocks is their texts with blanks between |
| Conversation.RepairIsIdentityIff | backend/app/responses_api.py:206-226 | repair changes nothing if and only if every tool message has its call in an earlier assistant turn |
| Conversation.RepairIsIdempotent | backend/app/responses_api.py:206-226 | repairing twice is repairing once, and the result is paired |
| Conversation.RepairIsPrefixStable | backend/app/responses_api.py:206-226 | repair(repair(a) + b) = repair(a + b), which extends repair(a) |
| Conversation.RepairKeepsKnown | backend/app/responses_api.py:214-217 | repair hides no announced call |
| Conversation.ToChatRequest | backend/app/responses_api.py:229-249 | stores the repaired conversation without the instructions, sends it with them; rejected exactly when empty |
| Conversation.StoredIsRepairedTranscript | backend/app/routers/chat.py:265-269 | along any chain of turns the stored history is the repair of the whole transcript, with every tool message paired |
| Conversation.HistoryIsNeverRewritten | backend/app/routers/chat.py:265-269 | no later turn rewrites what an earlier one stored |
| Conversation.OutputItems | backend/app/responses_api.py:278-297 | a message item when there is text or no call, then one item per call with the upstream id or a drawn one |
| Conversation.ReturnedOutputIsPairedIff | backend/app/responses_api.py:278-304 | an output sent back with the call_id of an emitted call is kept if and only if upstream gave the call an id |
| ConversationMeaning.CallComesBack | backend/app/responses_api.py:278-287 | a function_call item that a client sends back is the same call, under the id it was emitted with |
| ConversationMeaning.CallGetsAnId | backend/app/responses_api.py:170-203 | a call item keeps its call id, else takes the item's, else a drawn one; missing arguments are an empty object |
| ConversationMeaning.MessageComesBack | backend/app/responses_api.py:307-314 | and a message item is the assistant saying the same text |
| ConversationMeaning.ReplyIsKept | backend/app/responses_api.py:300-304 | the reply kept in the history says what the output items say |
| ResponseEvents.Replay | backend/app/responses_api.py:482-523 | the events in order, numbered 1, 2, 3, ... |
| ResponseEvents.Stream | backend/app/responses_api.py:406-479 | the events in order, numbered 1, 2, 3, ...; the turn is remembered with the whole text, and only if the stream did not break |
| ResponseEvents.NumbersMean | backend/app/responses_api.py:428-432 | numbers start at 1 and leave none out |
| ResponseEvents.ReplayIsInvertibleIff | backend/app/responses_api.py:482-523 | a strict client rebuilds the items from the events if and only if every message has one part, as output_items makes them |
| ResponseEvents.MessageIsUnderstood | backend/app/responses_api.py:501-514 | a message is rebuilt from its deltas, and rejected if the done item is not that message |
| ResponseEvents.WholeStreamIsUnderstood | backend/app/responses_api.py:443-479 | the client of a whole stream rebuilds the remembered item, whose text is everything upstream sent |
| ResponseEvents.BrokenStreamStaysOpen | backend/app/responses_api.py:443-458 | the client of a broken stream is never told it is complete and holds exactly the text so far |
| ResponseEvents.AcceptedItemsAreInOrder | backend/app/responses_api.py:406-523 | whatever the client accepts opens and closes each item once, in order |
| ResponseEvents.DeltasAreTheText | backend/app/responses_api.py:362-368 | the concatenated deltas are the text of the rebuilt items, hence the output_text mirror |
| Rollup.UsageRepository.RollupDay | backend/app/repositories/usage_repo.py:341-424 | fails and changes nothing exactly when two groups share a primary key; otherwise replaces the day's rows by one per key over all its events |
| Rollup.NullAndZeroCollide | backend/app/repositories/usage_repo.py:374-423 | an event without a user and one of user 0 collide, and so do a missing and an empty model |
| Rollup.UsageRepository.PurgeOlderThan | backend/app/repositories/usage_repo.py:596-601 | keeps exactly the events since the cutoff |
| Rollup.UsageRepository.PurgeRollupsOlderThan | backend/app/repositories/usage_repo.py:569-575 | keeps exactly the rows since the cutoff day |
| Rollup.DayRowsAreConsistent | backend/app/repositories/usage_repo.py:380-420 | in every row total = success + failed, errors_by_kind sums to failed and the position histogram to total |
| Rollup.RollupIsIdempotent | backend/app/repositories/usage_repo.py:354-359 | a second rollup changes nothing, late rows are absorbed as if they had been there, other days are untouched |
| Rollup.RollupConserves | backend/app/repositories/usage_repo.py:374-423 | conservation: every column summed over the day's rows, for any user and provider, is the direct aggregate over the day's events |
| RollupMeaning.RowExistsIff | backend/app/repositories/usage_repo.py:374-423 | a rolled-up day has a row exactly for the keys some event of the day belongs to |
| RollupMeaning.RowMeans | backend/app/repositories/usage_repo.py:380-420 | every column of a row is what its name says over the events that belong to it: counts, sums, errors by kind, positions 1, 2 and 3 or more |
| RollupMeaning.QueryMeans | backend/app/repositories/usage_repo.py:442-499 | the aggregate the summary is measured against: the events of the day and of the user and provider asked for |
| RollupSchedule.Round | backend/app/lifecycle.py:222-241 | one round rolls up yesterday and today and purges, or leaves everything as it was |
| RollupMeaning.RoundMeans | backend/app/lifecycle.py:222-241 | without a collision a round keeps the events of 90 days, remakes the rows of yesterday and today, leaves other days and drops rows of more than 730 days |
| RollupSchedule.RecentDaysAreWhole | backend/app/lifecycle.py:219-238 | the 90-day purge never reaches a day that a rollup may still need |
| RollupSchedule.LastRollupStays | backend/app/lifecycle.py:222-241 | for two years a day's rows stay what its last successful rollup, on the day or the day after, made of the events written until then; without one there are none |
| RollupSchedule.ClosedDayIsExact | backend/app/lifecycle.py:222-241 | after a successful round, on day d or d + 1, that comes after d's last event, every column of d equals the direct aggregate over all its events, from then on |
| RollupSchedule.HistoryIsExactIff | backend/app/lifecycle.py:219-232 | in every run the call count shown for a day is right if and only if none of its events was written after its last successful rollup (or at all, if it had none) |
| RollupSchedule.ColumnsAreExact | backend/app/lifecycle.py:222-241 | every other column is then right as well |
| RollupSchedule.LateRowIsLost | backend/app/lifecycle.py:219-232 | the input: an event written after the closing round is never counted |
| RollupSchedule.TotalsAreSumOfDays | backend/app/repositories/usage_repo.py:442-499 | the summary's totals are the sum of its daily series |
| KnownModels.LcsLen | backend/app/providers/known_models.py:60-72 | the table loop computes the greatest common-suffix length over all pairs of positions |
| KnownModels.LongestCommonIsExact | backend/app/providers/known_models.py:60-72 | some common substring has that length and none is longer |
| KnownModels.SuggestSimilar | backend/app/providers/known_models.py:43-57 | at most the asked number of models that share at least four characters in a row, by similarity and then by id, both descending; one is left out only if it shares less or the list is full of models not below it |
| Common.StringLessIff | backend/app/providers/known_models.py:43-57 | ids are ordered by the first character that differs, a prefix first |

## Left out

- Composition of one request end to end is proved for chat (`ServeRequest`), from a given ranking, in one transaction and without the counter; for streams `Streaming` takes each candidate's usable models and grant as given.
- Repository calls and the commit of an attempt are one atomic step each inside a dispatch; interleavings of transactions are in `Admission` only.
- Postgres's detection of a deadlock: `LockOrder` says when one arises; the abort that ends it is a step of `Admission`, at any time.
- Two row versions of `provider_stats` written by concurrent commits: `Breaker` and `TokenLedger` follow the serial order of committed writes, which `SerialRuns` derives for runs whose row exists and is written by commits alone (no `reset_health`).
- One nondecreasing clock for Python and Postgres, read once per call (`ModelsFor` reads it once for all models).
- Breaker.ReachableRow: assumes cooldown tunables that are not negative (the columns default to 30 and 3600 and have no check of their own), as do CooldownsGrow, SerialFailureNeverShortens and NoProviderStaysDead; DeadRowReachableIff says exactly what negative ones do.
- Floating-point rounding and overflow; numbers are reals, and the values drawn as jitter, latencies and ids are parameters.
- `last_error` text, metrics, logs, request cost, and the retry delay's length.
- The router's rollback of the whole session when every provider fails: dispatch properties are about effects inside the session.
- Embeddings and transcription: they reserve without recording in the counter and commit with default tunables.
- Capability filters, strategy resolution and language detection before ranking.
- Streaming.Delivered: the client leaving at the final done event is not a separate case; the reservation is settled by then.
- StrategyDsl.ToFloat: what `float` makes of a string, and which integers overflow it, are parameters; not-a-number and infinity are not modelled.
- StrategyDsl.Less: two lists count as not comparable, which only makes type soundness stronger; equality of a number and a boolean inside nested lists is structural.
- The strategy preview endpoint, which omits `tpd_limit`.
- Conversation.InputToMessages: size caps and image checks of a message are not modelled, and the output of a tool is given as text.
- Tool definitions, tool choice and sampling options of a Responses request.
- `failed_event`, whose sequence number is always 0.
- Percentiles, time to first byte, averages and `MAX(p95)` in the rollup and the summary; the dense daily list, `by_provider` and `by_model` orders.
- KnownModels.SuggestSimilar: lower-casing is a parameter.
- HTTP adapters, classification of error bodies, parsing of rate-limit headers, auth, encryption, settings and the frontend.
