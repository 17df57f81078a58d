# Football alert pipeline core, modelled in Dafny

This project models the core of a football live-data pipeline. The pipeline fetches match data, enriches it, runs a set of alert rules over the matches and logs everything through one central logging setup. The model covers seven parts:

- **Network resilience** (`network_resilience.dfy`):
  - the circuit breaker (CLOSED / OPEN / HALF_OPEN). It is a class whose `Call` is proved to perform exactly the transition function `Step` on a value snapshot of its fields;
  - the retry loop with exponential backoff, capped at `max_backoff`;
  - `resilient_fetch`, which runs the retry loop inside the breaker.
- **Orchestrator** (`orchestrate.dfy`):
  - `sort_by_status` (a stable sort by position in the desired status order);
  - `unpack_full_cache` (splitting the match cache into the live list and maps keyed by match, team, competition and country id);
  - the deduplicating loop of `run_alerters`, which runs every alert over every selected match unless the match id is already in that alert's seen set.
- **The OU3 alert** (`ou3.dfy`): the guard chain of the Over/Under rule, the way it picks the latest over/under entry with `max`, and the `safe_check` wrapper.
- **Logging core** (`log_config.dfy`):
  - the newest-first `PrependFileHandler`;
  - the single-line formatter;
  - the log file layout chosen for each new logger;
  - the process-wide state as a class: the "configured" flag, the configured alert loggers and the logger registry. Its methods are `configure_logging`, `get_logger`, `configure_alert_logger`, `cleanup_handlers` and `validate_logger_count`.
- **Standards gate** (`enforce_standards.dfy`): the diagnostic filter and report of `enforce_logging_standards.py` and its overall exit code.
- **Compliance validator** (`validate_logging.dfy`): the per-logger checks and counters of `validate_logging.py`.
- **Benchmark bookkeeping** (`benchmark_timings.dfy`): the per-operation running statistics and the report.

`json.dfy` models parsed JSON values together with Python's `dict.get`, truthiness, `or`, `int()` and `float()`. `text.dfy` models the `str` operations the core uses. `wrappers.dfy` holds the `Option` type.

The model does not perform I/O, take clock readings or make network calls. Outcomes that depend on them are parameters:

- the protected call's outcome and the clock readings;
- the outcome of each request attempt, as a function from attempt number to outcome;
- whether an alert noticed a match, and what delivering the alert then did;
- the text printed by each `grep` search;
- the result of the runtime logging validation;
- elapsed times and timestamps;
- Python's `str()` and the text-to-number conversions.

## Model

| member | source | states |
|---|---|---|
| NetworkResilience.Initial | network_resilience.py:68-74 | A new breaker is CLOSED with every counter at zero and no failure time. |
| NetworkResilience.CircuitBreaker.constructor | network_resilience.py:62-74 | The constructor stores the threshold, the timeout and the half-open capacity (defaults 5, 30 and 3) and starts from the initial snapshot. |
| NetworkResilience.CircuitBreaker.StateTransition | network_resilience.py:93-97 | Sets the state to the new state and changes nothing else. |
| NetworkResilience.Admit | network_resilience.py:113-138 | Every call is counted in total_calls. A refused call is counted as failed. An admitted call never leaves the breaker OPEN. An admitted HALF_OPEN call keeps the half-open counter between 1 and the capacity. |
| NetworkResilience.Complete | network_resilience.py:145-176 | A success adds one successful call. A failure adds one failed call, one to the failure count and records the failure time. |
| NetworkResilience.Step | network_resilience.py:99-176 | One call is counted once in total_calls and once in exactly one of successful_calls and failed_calls. An admitted call returns on success and re-raises on failure. |
| NetworkResilience.StepKeepsValid | network_resilience.py:99-176 | Every call keeps the breaker invariant: calls balance, an OPEN breaker has a failure time, HALF_OPEN is within capacity, and CLOSED is below the threshold. |
| NetworkResilience.OpenRejects | network_resilience.py:116-128 | OPEN with no failure time, or before the recovery timeout has strictly passed: the call is rejected, the breaker stays OPEN, and only total and failed calls move. |
| NetworkResilience.OpenRecovers | network_resilience.py:116-138 | OPEN after the timeout has strictly passed: the breaker becomes HALF_OPEN with its counter reset. The call is admitted as the first half-open call when the capacity is positive, and refused otherwise. |
| NetworkResilience.HalfOpenAtCapacityRejects | network_resilience.py:131-134 | HALF_OPEN at capacity: the call is rejected without invoking the function, and the state and the counter are unchanged. |
| NetworkResilience.HalfOpenOutcome | network_resilience.py:137-176 | HALF_OPEN below capacity: a failure reopens the breaker. A success closes it, with the failure count reset, exactly when this call reaches the capacity; otherwise the breaker stays HALF_OPEN. |
| NetworkResilience.ClosedOutcome | network_resilience.py:145-176 | CLOSED: a success resets the failure count. A failure increments it, records its time, and opens the breaker exactly when the threshold is reached. |
| NetworkResilience.RunKeepsValid | network_resilience.py:99-176 | Over any sequence of calls the invariant holds and total_calls grows by the number of calls. |
| NetworkResilience.FailuresOpenAtThreshold | network_resilience.py:159-176 | Consecutive failures from CLOSED increment the failure count one by one, whatever the clock says. The breaker opens exactly at the failure that reaches the threshold. |
| NetworkResilience.FreshBreakerOpensAtThreshold | network_resilience.py:159-176 | A fresh breaker opens after exactly failure_threshold consecutive failures, and not before. |
| NetworkResilience.CircuitBreaker.Call | network_resilience.py:99-176 | The new fields and the result are exactly those of `Step` from the old fields. |
| NetworkResilience.BackoffsAt | network_resilience.py:304 | The k-th sleep of the schedule is the initial backoff multiplied by the factor k times, capped at each step. |
| NetworkResilience.RetryFromMeaning | network_resilience.py:256-315 | The loop makes at most max_retries + 1 attempts, and none for a negative max_retries, in which case the result is the unknown failure. Every attempt before the last was a retryable error. A success is returned. A non-retryable error is re-raised at once. A retryable one is re-raised only on the final attempt. |
| NetworkResilience.FetchWithRetry | network_resilience.py:256-315 | The loop's result and attempt count are those of `RetryFrom`. The sleeps are the backoff schedule, one per retried attempt. |
| NetworkResilience.BackoffCapped | network_resilience.py:304 | Every backoff after the first is at most max_backoff. |
| NetworkResilience.BackoffMonotone | network_resilience.py:304 | For a non-negative start within the cap and a factor of at least 1, the backoff never decreases and never exceeds the cap. |
| NetworkResilience.DefaultSchedule | network_resilience.py:181-185 | The default configuration makes 4 attempts and sleeps 1, 2 and 4 seconds before jitter. |
| NetworkResilience.ResilientFetch | network_resilience.py:192-254 | At most max_retries + 1 attempts are made, and a fetched payload is that of the last attempt. Without a breaker, or when the breaker admits the call, the result and attempt count are exactly those of the retry loop (`RetryFrom`). With a breaker, the breaker takes exactly one `Step`, and the result is "circuit open" with no attempt exactly when the breaker rejects. |
| Text.FirstIndex | orchestrate_complete.py:182-186 | `index`: absent exactly when the element is absent; otherwise the position of its first occurrence. |
| Orchestrate.RankMeaning | orchestrate_complete.py:167-186 | The sort key is 14 unless `status_id` is one of the listed strings, and then it is that string's position. |
| Orchestrate.SortByCorrect | orchestrate_complete.py:169-187 | Sorting by key gives a permutation that is ordered by key and stable. |
| Orchestrate.SortByStatus | orchestrate_complete.py:169-187 | `sort_by_status` returns a permutation of the matches, ordered by rank, with matches of equal rank in input order. |
| Orchestrate.UnknownStatusLast | orchestrate_complete.py:182-186 | After sorting, a match with an unknown status comes after every match with a known one. |
| Orchestrate.MatchList | orchestrate_complete.py:268 | A cache without "matches" iterates over nothing. |
| Orchestrate.AbsorbMatch | orchestrate_complete.py:268-292 | One loop iteration computes exactly `Absorb`, including every case that raises. |
| Orchestrate.UnpackFullCache | orchestrate_complete.py:260-294 | The result is the fold of `Absorb` over the match list, or none where some iteration raises. |
| Orchestrate.AddTeamsTruthy | orchestrate_complete.py:276-280 | The team loop only adds truthy ids. |
| Orchestrate.AbsorbEffect | orchestrate_complete.py:268-292 | A successful iteration appends the match's `basic_info` and sets its details and odds under its match id. It keeps team, competition and country keys truthy. |
| Orchestrate.UnpackStep | orchestrate_complete.py:268-292 | Unpacking one more match extends the previous result as one iteration does. |
| Orchestrate.UnpackObjects | orchestrate_complete.py:268-270 | Unpacking succeeds only when every match is an object. |
| Orchestrate.UnpackLive | orchestrate_complete.py:269-271 | The live list is the `basic_info` column of the matches. |
| Orchestrate.UnpackLiveInOrder | orchestrate_complete.py:269-271 | The live list has one entry per match, in input order. |
| Orchestrate.UnpackKeys | orchestrate_complete.py:276-292 | Team and competition keys are truthy. Country keys and names are truthy. |
| Orchestrate.UnpackMaps | orchestrate_complete.py:272-273 | `details` and `odds` are the dicts built by assigning each match's entry under its id, in order. |
| Orchestrate.UnpackLastWins | orchestrate_complete.py:272-273 | The keys of `details` and `odds` are exactly the match ids. A later match with the same id overwrites an earlier one. |
| Orchestrate.AssignedKeys | orchestrate_complete.py:272-292 | The keys of a dict filled by assignments in order are exactly the keys assigned. |
| Orchestrate.AssignedFrom | orchestrate_complete.py:272-292 | Every entry of such a dict is one of the assignments. |
| Orchestrate.AssignedLastWins | orchestrate_complete.py:272-292 | The last assignment to a key is the value the dict holds for it. |
| Orchestrate.FlatMembers | orchestrate_complete.py:268-292 | An assignment is in the flattened list exactly when some match makes it. |
| Orchestrate.AddTeamsAssigned | orchestrate_complete.py:276-280 | A successful team loop continues the cache with the match's home-team then away-team assignments (a truthy id to its team dict). |
| Orchestrate.UnpackCaches | orchestrate_complete.py:268-292 | The team, competition and country caches are exactly the dicts built by every match's assignments, in match order. |
| Orchestrate.UnpackCacheContents | orchestrate_complete.py:276-292 | Every truthy team or competition id of a match, and every truthy country id with a truthy country name, is a key. Every key holds what some match assigned to it, and the last assignment to a key wins. |
| Orchestrate.SelectMatchesMeaning | orchestrate_complete.py:438-443 | Without match ids every match is processed. With some, exactly the matches whose raw id is listed are processed. |
| Orchestrate.SelectMatchesInOrder | orchestrate_complete.py:438-443 | The selection keeps input order: selecting from a concatenation concatenates the selections. |
| Orchestrate.RunAlerters | orchestrate_complete.py:414-486 | Each new seen set is the old one plus the ids marked for it. No check repeats a seen or already-marked id. Every check is faithful to the notice and delivery outcomes, and checks come in match-then-alert order. Alert `a` checks match `k` exactly when the id is non-empty, was not in the alert's seen set at the start, and no earlier check marked it for the same seen file. Every non-empty id is afterwards seen by, or was checked by, every alert. |
| Orchestrate.AlertMatches | orchestrate_complete.py:446-486 | The same guarantees as RunAlerters, stated over the ids of the selected matches. |
| Orchestrate.CheckMatch | orchestrate_complete.py:454-486 | After the alert loop for one match, every alert either has checked the match or had the id in its seen set when it came to it (from the start or marked by an earlier check). Earlier coverage and the bookkeeping are kept. |
| Orchestrate.CoverageDone | orchestrate_complete.py:446-486 | Once every match is covered, an alert due to check a match did check it, and every non-empty id is in every alert's seen set or was checked by it. |
| Orchestrate.VisitedDue | orchestrate_complete.py:459-480 | Every check made was due: its id was neither in the seen set at the start nor marked by an earlier check for the same seen file. |
| Orchestrate.MarkedEarlier | orchestrate_complete.py:459-480 | An id marked so far for a seen file was marked before the current alert reaches the current match. |
| Orchestrate.CheckAlert | orchestrate_complete.py:459-486 | An alert with the id already seen is skipped. Otherwise it checks the match once, and the id is marked exactly when it noticed and delivery got past formatting and sending. |
| OverUnder.LatestFrom | Alerts/OU3.py:70-74 | The scan of `max` picks the current best or one of the remaining entries. |
| OverUnder.Latest | Alerts/OU3.py:70-74 | `max` picks one of the entries. |
| OverUnder.LatestEntry | Alerts/OU3.py:62-74 | A missing, empty or non-dict over/under map is Missing. Odds that are not a dict are Broken. A found entry comes from a non-empty over/under map. |
| OverUnder.Check | Alerts/OU3.py:35-102 | It is quiet unless the status is live and an entry is found. It raises exactly for live matches with broken odds. It fires exactly when the latest line parses and is strictly above the threshold, with the payload built from that entry. |
| OverUnder.PayloadTimestamp | Alerts/OU3.py:100 | The payload's timestamp is None exactly when the entry has no timestamp or holds null, and otherwise is the entry's value. |
| OverUnder.SafeCheck | Alerts/base_alert.py:93-116 | It returns a payload exactly when `check` fires, and then exactly the payload `check` built, whose line is above its threshold. A raising `check` gives no alert. |
| OverUnder.AtThresholdIsQuiet | Alerts/OU3.py:83-85 | A line exactly at the threshold does not fire. |
| OverUnder.LowerThresholdStillFires | Alerts/OU3.py:83-101 | Lowering the threshold keeps the alert firing with the same line and entry. |
| OverUnder.LatestIsFirstMaximal | Alerts/OU3.py:70-74 | When the timestamps are all numbers (a missing one counting as 0) or all strings, `max` picks the first entry with the largest timestamp. |
| OverUnder.TextBelowTransitive | Alerts/OU3.py:70-74 | String comparison is transitive. |
| OverUnder.TextBelowTotal | Alerts/OU3.py:70-74 | Two different strings are always ordered one way or the other. |
| OverUnder.DefaultThresholdFires | Alerts/OU3.py:26-33 | The rule built with the default threshold of 3.0 fires only on a line above 3.0, and reports that threshold. |
| LogConfig.Emitted | log_config.py:157-198 | A filtered record, or one that fails before writing, leaves the file unchanged. Otherwise the message line goes in front of the old content, which counts as empty when reading failed. |
| LogConfig.PrependFileHandler.Emit | log_config.py:157-198 | The file content becomes `Emitted` of the old content. |
| LogConfig.NewestFirst | log_config.py:170-185 | After single-line messages are emitted, the file's lines are the messages newest first, followed by the old lines. |
| LogConfig.ReadBackNewestFirst | log_config.py:170-185 | Read back from an empty file, the lines are the messages in reverse order. |
| Text.Lower | log_config.py:634 | `name.lower()` on ASCII: every capital letter becomes its small letter, every other character is kept, and no capital is left. |
| LogConfig.FormatSingleLine | log_config.py:220-227 | Splitting at the first newline and rejoining gives the message back unchanged. |
| LogConfig.ResolvedName | log_config.py:103-122 | No name, an empty name or "root" resolves to the root logger. Any other name resolves to itself. |
| LogConfig.LogPath | log_config.py:910-921 | Summary loggers write to logs/summary/ plus the name with every "summary." removed. Others write to logs/ plus the name with every dot made an underscore, so no dot is left in the stem. Every path ends in .log. |
| LogConfig.AlertFile | log_config.py:691-697 | Alert loggers write to logs/alerts/ plus the name with every alert prefix removed, plus .log. |
| LogConfig.SummaryPath | log_config.py:912-916 | "summary.x" writes logs/summary/x.log. |
| LogConfig.AlertPath | log_config.py:691-697 | "alert.x" writes logs/alerts/x.log. |
| LogConfig.DotAndUnderscoreShareFile | log_config.py:918-921 | "a.b" and "a_b" write the same file. |
| LogConfig.CentralSetup | log_config.py:894-930 | The root logger, or a logger that already has handlers, is unchanged. Any other logger gets exactly two handlers, a console handler then a newest-first file handler for its `LogPath`, both in the standard format, and stops propagating. |
| LogConfig.Register | log_config.py:103-122 | Looking up a name puts a newly set-up `CentralSetup` logger under a new or placeholder name, leaves an existing logger and the root alone, and leaves every other entry alone. |
| LogConfig.LoggingSystem.constructor | log_config.py:77-80 | The system starts unconfigured, with no alert loggers. |
| LogConfig.LoggingSystem.ConfigureLogging | log_config.py:482-503 | The configuration is applied the first time only. |
| LogConfig.LoggingSystem.GetLogger | log_config.py:94-100 | Configures on first use, then registers the resolved name. |
| LogConfig.LoggingSystem.ConfigureAlertLogger | log_config.py:681-705 | The first call for a name appends one newest-first handler writing the alert file. Later calls change nothing. |
| LogConfig.LoggingSystem.CleanupHandlers | log_config.py:472-480 | Every registered logger is left without handlers. Placeholders, propagation and the root logger are untouched. |
| LogConfig.LoggingSystem.ValidateLoggerCount | log_config.py:582-667 | It fails exactly when some logger has more than four handlers, or, in strict mode, when an unexpected name exists or there are more than fifty entries. |
| LogConfig.Cleared | log_config.py:472-480 | The same names, every logger's handlers empty, and propagation kept. |
| LogConfig.AlertLoggerCompliant | log_config.py:681-705 | A fresh alert logger's handler list stays compliant. |
| EnforceLoggingStandards.KeptMembers | tools/enforce_logging_standards.py:84-100 | Exactly the lines that are not allowed survive the filter. |
| EnforceLoggingStandards.KeptAppend | tools/enforce_logging_standards.py:84-100 | The filter works line by line and keeps the order. |
| EnforceLoggingStandards.ToolsAndTestsAlwaysDropped | tools/enforce_logging_standards.py:51-57 | Lines under tools/ or tests/ are dropped by every diagnostic. |
| EnforceLoggingStandards.ReportListing | tools/enforce_logging_standards.py:108-119 | A failure report lists at most ten lines, numbered from 1. It reports how many more there are exactly when there are more than ten. |
| EnforceLoggingStandards.RunDiagnostic | tools/enforce_logging_standards.py:65-119 | The written text is the filtered output. The diagnostic passes exactly when that text is blank, and the report matches the verdict. |
| EnforceLoggingStandards.AllAllowedPasses | tools/enforce_logging_standards.py:84-108 | Output whose lines are all allowed passes. |
| EnforceLoggingStandards.CountedCheck | tools/enforce_logging_standards.py:151-158 | A counted check keeps the gate passing exactly when its diagnostic passes. Its section is the diagnostic's report: passed under the check's name when nothing outside the allowed paths matched, otherwise the failure report of the filtered output. |
| EnforceLoggingStandards.InformationalCheck | tools/enforce_logging_standards.py:161-168 | An informational check only writes its filtered text. |
| EnforceLoggingStandards.CountedChecks | tools/enforce_logging_standards.py:147-209 | Checks 1, 3, 4 and 5 pass together exactly when each one's filtered output is empty, and their sections are their diagnostics' reports, in order. |
| EnforceLoggingStandards.EnforceStandards | tools/enforce_logging_standards.py:132-239 | The exit code is 0 exactly when checks 1, 3, 4 and 5 pass, the entry-point search found something, and the runtime validation returned true. The report is exactly the seven sections in order: the four diagnostics' reports (passed, or the failure report of the filtered output), the factory-usage count, the entry-point result and the runtime result. |
| ValidateLogging.TallyCountsIssues | tools/validate_logging.py:51-92 | The three issue counters add up to the number of issues, and no counter exceeds the number of loggers. |
| ValidateLogging.NoIssueIffCompliant | tools/validate_logging.py:59-92 | A logger raises no issue exactly when it has handlers, one of them in the standard format, and no plain file handler. |
| ValidateLogging.CentralLoggerPasses | tools/validate_logging.py:51-92 | A logger set up by the central logger class passes every check. |
| ValidateLogging.ValidateLoggingCompliance | tools/validate_logging.py:27-116 | The issues and counters accumulate in registry order. The result is true exactly when there is no issue; in strict mode, issues raise instead. |
| ValidateLogging.CheckLogger | tools/validate_logging.py:52-92 | One entry's issues and counters. |
| ValidateLogging.FindStandardFormatter | tools/validate_logging.py:66-84 | It finds exactly a non-null handler in the standard format. |
| ValidateLogging.FindPlainFile | tools/validate_logging.py:87-92 | It finds exactly a plain file handler. |
| BenchmarkTimings.Update | tools/benchmark_timings.py:103-108 | Folding in a timing adds one to the count and the time to the total. The minimum becomes the smaller of the old minimum and the time, the maximum the larger of the old maximum and the time, and the average is the total over the count. |
| BenchmarkTimings.UpdateConsistent | tools/benchmark_timings.py:103-108 | A non-negative timing keeps the statistics consistent. |
| BenchmarkTimings.AverageBetween | tools/benchmark_timings.py:103-108 | In consistent statistics, minimum <= average <= maximum. |
| BenchmarkTimings.SummaryConsistent | tools/benchmark_timings.py:93-108 | The running statistics count exactly the operation's runs and stay consistent. |
| BenchmarkTimings.Benchmarks.Record | tools/benchmark_timings.py:64-116 | Appends one run, updates only that operation's statistics, and passes the result through. |
| BenchmarkTimings.Benchmarks.GenerateReport | tools/benchmark_timings.py:154-192 | No report without runs. Otherwise the report holds the statistics and the last ten runs, numbered from 1. |
| BenchmarkTimings.RecordedAveragesBetween | tools/benchmark_timings.py:93-108 | Every recorded average lies between its operation's minimum and maximum. |

## Left out

- Asynchronous execution, HTTP sessions, sleeping and the clock are not modelled. The retry jitter is not modelled either: sleeps are the backoffs before jitter.
- NetworkResilience.Step: a call ended by an exception that is not an `Exception` (such as a task cancellation) counts in the total calls and half-open calls but neither as a success nor as a failure; the model's calls end in success or failure only, so the call-balance invariant of `StepKeepsValid` is proved for those calls.
- The retry defaults in the code are 3 retries (4 attempts) and a 1-second backoff doubling up to 30 seconds. The repository's description of the fetch layer gives different numbers. The model follows the code.
- File I/O is not modelled: directory creation, absolute paths under the module's directory, rotation at midnight, encodings and fsync. A handler's file is its content as a string, and log paths are relative ("logs/...").
- LogConfig.Emitted: formatting the record (log_config.py:161) happens before the guarded block, so a formatting error escapes `emit`; the model takes the formatted message as an input and does not model that failure.
- LogConfig.Emitted: a write that fails after the file was opened for writing (and so truncated) is modelled as leaving the file unchanged.
- The effects of the dictionary configuration (LOGGING_CONFIG, levels, the summary loggers it declares) are not modelled. `configure_logging` only sets the configured flag and counts the application.
- The installation of `_central_getLogger` over `logging.getLogger` is not modelled, nor is its fallback to the standard lookup before the factories exist.
- LogConfig.Register: Python's `getLogger` also adds a placeholder entry for every missing dotted parent of the name. The model adds only the name itself (`r.Keys == reg.Keys + {name}`); placeholders are inputs of the registry. So the count of entries that `ValidateLoggerCount` compares with 50, and the unexpected names it may flag (log_config.py:611-633), do not include the placeholders a `getLogger` call would create.
- LogConfig.LoggingSystem.GetLogger: the same holds, since it registers through `Register`.
- The output of each `grep` search and the runtime validation's result are inputs. The runtime result is an `Option<bool>`, with None when the validation raised.
- Report wording, emojis, colours and log messages are not modelled.
- `splitlines` treats only '\n' as a line break; `strip` and `lower` are ASCII-only.
- Python treats 1, 1.0 and True as the same dict key; the model keeps them as different JSON values.
- Json.Get: a JSON object whose text repeats a key becomes a dict holding the last value; the model's objects are read as already having distinct keys, and for one that repeats a key `Get` takes the first field.
- NaN, infinities and float rounding are not modelled: numbers and times are mathematical reals.
- BenchmarkTimings.UpdateConsistent: the consistency lemmas assume non-negative elapsed times.
- Loading and saving the benchmark JSON file are not modelled. A wrapped function that raises records no run in the source; the model records calls that returned.
- The fetch cache module, the alerter main loop and the formatting utilities are not part of this model. In `run_alerters` the alert instances are represented by their seen-file bases. What `check`, formatting, sending and saving do is given by the `notice` and `deliver` parameters.
- `int()` and `float()` on strings are the parameters `parseInt` and `parseReal`.
- OverUnder.KeyOf: Python orders two list timestamps element by element; the model treats any list timestamp as not comparable, so `max` over entries with list timestamps is modelled as raising.
- Orchestrate.RunAlerters: the matches are dicts. A non-dict match makes `m.get` raise in the source, which ends `run_alerters`; this error path is not modelled.
- Orchestrate.UnpackMaps: Python dicts keep insertion order and the model's maps do not. `details`, `odds` and the three caches are modelled as maps, so the order of their keys is not modelled. Their contents and the last-assignment-wins rule are.
- Orchestrate.UnpackCaches: the same holds for the team, competition and country caches. Their key order is not modelled.
- LogConfig.LoggingSystem.ConfigureAlertLogger: `setLevel(logging.INFO)` on the logger and on its handler (log_config.py:689, 698) is not modelled. Logger and handler levels are not modelled anywhere: an entry has no level, and every record a logger receives is emitted.
- BenchmarkTimings.Benchmarks.GenerateReport: `generate_report` lists the operations in dict insertion order (tools/benchmark_timings.py:173-174). The report's operations are a map, so that order is not modelled.
- The OU3 rule's description says the alert fires at or above the threshold. The code fires only strictly above it, and the model follows the code (see `AtThresholdIsQuiet`).
