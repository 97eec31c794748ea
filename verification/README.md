# A verified model of the `llm_eval` run engine

`llm_eval` benchmarks large language models on multiple-choice questions
(an MMLU subset). A run configuration lists providers (Anthropic, OpenAI,
Gemini, Groq, local) with their models. For every provider and every sample,
`run_evaluation` does the following:

- builds the prompt and derives a request key;
- skips keys that an earlier run already completed;
- serves a cached response or calls the provider, retrying retryable HTTP
  failures with a back-off schedule;
- scores the answer letter and appends one result row;
- stops early when a provider's error rate trips the circuit breaker.

Around the loop sit several helpers:

- the artifact store (manifest, append-only result and error logs, summary);
- the response cache;
- the scorer, which groups rows by system and category;
- the statistics (Wilson intervals, paired sign tests with an exact binomial
  p-value);
- prompt construction, the dataset loader, the policy merge, the `.env`
  parser, provider-key resolution, run-id derivation and secret redaction.

This project models that core in Dafny and proves what the code promises.

## Layout

One module per source file, plus shared helpers:

| file | module | models |
|---|---|---|
| `wrappers.dfy` | `Wrappers` | `Option`, `Result` |
| `text.dfy` | `Text` | strip, split, join, substring, ASCII `upper`, lexicographic order, `sorted` |
| `sums.dfy` | `Sums` | sums over the keys of a map |
| `binomial.dfy` | `Binomial` | `math.comb` by Pascal's rule and the facts about rows the p-value needs |
| `benchmarks_base.dfy` | `Benchmarks` | `BenchmarkSample` and `prompt()` |
| `mmlu_subset.dfy` | `MmluSubset` | `MMLUSubsetDataset.load` |
| `config.dfy` | `Config` | policy defaults, `validate_temperature`, `build_run_manifest`, `load_env_file` (class `Environ`), `resolve_provider_keys` |
| `policy.dfy` | `Policy` | `load_policy_yaml`, `merge_policy` |
| `cache.dfy` | `Cache` | class `ResponseCache` |
| `storage.dfy` | `Storage` | class `ArtifactStore` and the records it writes |
| `runner.dfy` | `Runner` | `run_evaluation` and its helpers |
| `runner_props.dfy` | `RunnerProps` | properties of the run |
| `scoring.dfy` | `Scoring` | `load_results`, `_resolve_system_id`, `score_results` |
| `run_report.dfy` | `RunReport` | what scoring reports about rows the runner wrote |
| `stats.dfy` | `Stats` | `wilson_confidence_interval`, `add_confidence_intervals` (class `Scored`), `_binomial_two_sided_p_value`, `pairwise_significance` |
| `connectivity.dfy` | `Connectivity` | `redact_secrets` and the failure-detail truncation |

### How the run is modelled

**The run as a function.** The run is stated twice.

- As functions over a run state: `Runner.Attempts` is the retry loop for one
  pair, `Runner.Process` one pair, and `Runner.RunSamples` / `Runner.RunAll`
  the nested loops.
- As methods that update the real objects. `Runner.CallProvider` is the
  `while True` retry loop. `Runner.Execute` holds the two loops over the
  `ArtifactStore` and `ResponseCache` objects. `Runner.RunEvaluation` is the
  whole entry point.

Each method's contract says that it computes exactly what the function
computes. The properties are proved once, about the functions:

- the counter invariants hold after every step;
- the breaker stops the run exactly when the code says it does;
- a resumed run skips exactly the completed keys.

**The environment.** The provider is an oracle from (provider index, sample
index, attempt number) to an outcome:

- a response;
- a `ProviderHTTPError` with its status;
- any other exception.

`time.sleep` and the provider calls are recorded as a trace of
`Generate(p, s, attempt)` and `Sleep(seconds)` events. SHA-256 is a function
parameter that returns a 64-character digest. The run directories and cache
directories on disk are maps from run id to their contents. A file that does
not exist is `None`.

**Exceptions.** Every exception the run can raise is a `Crash` value:

- a `.env` line names the empty variable, or has a NUL character in its name
  or value, and is not yet set: `os.environ.setdefault` raises `ValueError`
  before anything is written;
- `local` has no client;
- an empty back-off list fails with `IndexError` at the first retry;
- a negative back-off entry makes `time.sleep` raise `ValueError` at the retry
  that uses it;
- `chr` rejects the answer index;
- the benchmark is not supported;
- the policy, dataset or results file cannot be read.

A crash leaves the files as they were at that point. In particular, no
summary is written.

### Behaviour that may surprise, as the code has it

- A pair whose retries end in a failure still gets a result row, with empty
  text and `is_correct = false`. Control falls through from the `break` to
  the scoring code. That pair's key therefore counts as completed on resume
  (`RunnerProps.PairRow`, `RunnerProps.ResumeAfterCompletedRun`).
- `load_completed_keys` and `load_results` fail on a malformed line; they do
  not skip it (`Storage.MalformedLineFails`, `Scoring.LoadLines`).
- The runner keys `provider_metrics` by provider name and writes no
  `system_id`. Scoring falls back to `provider:model` and looks up the error
  count under that id. For rows the runner wrote, every reported error count
  is therefore 0 (`RunReport.ScoredRun`).
- The first standalone capital letter of the reply is taken as the answer,
  even when it is not meant as one: "I think B" is read as `I`
  (`RunnerProps.FirstStandaloneLetterWins`).
- A `max_samples` below 1 still lets one sample through, because the limit
  is checked after each yield (`MmluSubset.Cut`).
- Scoring renders a missing provider or model as `unknown`. The pairwise
  statistics render one as `None`.

## Model

| member | source | states |
|---|---|---|
| Benchmarks.Label | src/llm_eval/benchmarks/base.py:17 | the label of option `i` is the character with code `65 + i` |
| Benchmarks.OptionLines | src/llm_eval/benchmarks/base.py:17 | one option line per choice, in choice order; line `i` is that choice's labelled line |
| Benchmarks.FixedLinesOneLine | src/llm_eval/benchmarks/base.py:20-24 | the category prefix, the instruction and the reply line hold no newline |
| Benchmarks.PromptLinesOneLineEach | src/llm_eval/benchmarks/base.py:18-25 | no part of the prompt holds a newline when no field of the sample does |
| Benchmarks.PromptLineByLine | src/llm_eval/benchmarks/base.py:16-26 | splitting the prompt at newlines gives back exactly `len(choices) + 4` lines: `Category: <category>`, the instruction, the question, `<label>. <choice>` for each choice in order, the reply line |
| Benchmarks.PromptShowsFirstLabels | src/llm_eval/benchmarks/base.py:17-26 | with at least two choices the prompt contains `A.` and `B.` |
| MmluSubset.ParseSample | src/llm_eval/benchmarks/mmlu_subset.py:27-33 | a record yields a sample iff `sample_id`, `question`, `choices` and `answer_index` are all present; the sample copies them; `category` defaults to `general`; a missing `sample_id` is the field reported |
| MmluSubset.Cut | src/llm_eval/benchmarks/mmlu_subset.py:34-36 | with no limit every sample comes through; with a limit `m` the count is `min(n, max(m, 1))` |
| MmluSubset.LoadDataset | src/llm_eval/benchmarks/mmlu_subset.py:17-36 | the loop with the `loaded` counter and the early return computes `Load`: a missing file fails with `FileNotFound` before anything is read, blank lines are skipped, a bad line stops the load |
| MmluSubset.LoadFromValid | src/llm_eval/benchmarks/mmlu_subset.py:22-36 | from any line on, on valid lines, the loop yields the remaining lines' samples in order, cut at the remaining limit |
| MmluSubset.LoadYieldsPrefix | src/llm_eval/benchmarks/mmlu_subset.py:22-36 | on a file of valid lines the loader yields the samples of the non-blank lines in file order, cut to `min(count, max(m, 1))` |
| MmluSubset.LoadFromPassesValid | src/llm_eval/benchmarks/mmlu_subset.py:21-36 | blank and complete lines too few to reach the limit are loaded in order, and loading then goes on at the next line, with the counter advanced by their samples |
| MmluSubset.MalformedLineFails | src/llm_eval/benchmarks/mmlu_subset.py:24-26 | a line that is not JSON, preceded only by blank and complete lines fewer than the limit, fails the whole load with `InvalidJson` at its index; it is not skipped |
| MmluSubset.MissingFieldFails | src/llm_eval/benchmarks/mmlu_subset.py:27-33 | a record without a required field, preceded only by blank and complete lines fewer than the limit, fails the whole load with `MissingField` at its index, naming the first field missing in the order the code reads them |
| MmluSubset.LoadChoicesAtMost | src/llm_eval/benchmarks/mmlu_subset.py:30 | every loaded sample keeps the bound that the file's lines have on the number of choices |
| Config.DefaultRetryPolicy | src/llm_eval/config.py:14-27 | the defaults are 3 attempts, back-off `[1, 2, 4]`, retryable statuses exactly {408, 429, 500, 502, 503, 504}, window 50, hard stop 10 % |
| Config.ProviderText | src/llm_eval/config.py:52 | a provider's literal is non-empty and holds no colon |
| Config.ProviderTextInjective | src/llm_eval/config.py:52 | distinct providers have distinct literals |
| Config.ValidateTemperature | src/llm_eval/config.py:58-63 | a temperature is accepted, unchanged, iff it lies in `[0, 2]`; otherwise the error is the source's message |
| Config.BuildRunManifest | src/llm_eval/config.py:110-129 | the run id has 16 characters and is the prefix of the digest of (run name, seed, benchmark, providers); the other fields are copied, the policy snapshot is the policy |
| Config.RunIdIgnoresPolicyAndTime | src/llm_eval/config.py:111-120 | two configurations that agree on run name, seed, benchmark and providers get the same run id, whatever their policies and creation times |
| Config.ParseEnvLineMeaning | src/llm_eval/config.py:95-100 | a line yields nothing iff it is blank after strip, starts with `#`, or has no `=`; otherwise it splits at its first `=`, the key is stripped and the value is stripped, then stripped of `"`, then of `'` |
| Config.EnvKeepsExisting | src/llm_eval/config.py:100 | `setdefault` never overwrites a variable that was set before loading |
| Config.EnvFirstOccurrenceWins | src/llm_eval/config.py:95-100 | for a variable not set before, the first line of the file that sets it decides its value |
| Config.LoadEnvMeaning | src/llm_eval/config.py:95-100 | a file that loads leaves the environment after `setdefault` for each line in turn; one rejected at line `i` has `i` in range, loaded exactly the lines before `i` without an exception, and line `i` raises in the environment they left |
| Config.EmptyNameRaises | src/llm_eval/config.py:99-100 | a line whose first non-blank character is `=` sets the empty variable name, which raises when that name is not set |
| Config.Environ.LoadEnvFile | src/llm_eval/config.py:91-100 | a missing file leaves the environment unchanged; otherwise the line loop computes `LoadEnv`: the environment it leaves, and the index of the line that raised, if any |
| Config.ResolveKeys | src/llm_eval/config.py:134-139 | the keys are exactly the providers' names; for the last entry of each name, the value is true iff the provider is `local` without `api_key_env`, or its variable is set to a non-empty value |
| Config.ResolveProviderKeys | src/llm_eval/config.py:132-140 | loads the `.env` file as `LoadEnvFile` does and fails with the line that raised; otherwise resolves as `ResolveKeys` does against the loaded environment |
| Policy.LoadPolicyYaml | src/llm_eval/policy.py:10-14 | a missing file or a truthy non-mapping document fails (the second with `ValueError`); a falsy document is the empty mapping; a mapping is returned as it is |
| Policy.MergePolicy | src/llm_eval/policy.py:17-70 | fails exactly when the file cannot be loaded; `retry` always comes from the run configuration; an empty document gives the configuration's policy |
| Policy.EmptyDocKeepsBase | src/llm_eval/policy.py:19-69 | merging an empty document gives back the run configuration's policy |
| Policy.MergeOverrideElseDefault | src/llm_eval/policy.py:23-69 | each of the eleven budget, reliability and security keys takes the document's value when present and the configuration's otherwise; the error-rate keys come from the nested `provider_error_rate` map; `retry` is the configuration's |
| Policy.MergeIdempotent | src/llm_eval/policy.py:17-70 | merging a document a second time changes nothing |
| Policy.FullDocDecides | src/llm_eval/policy.py:25-69 | a document that sets every key fixes the merged policy apart from `retry` |
| Cache.ResponseCache.constructor | src/llm_eval/cache.py:11-13 | opening a cache directory gives the payloads it already holds |
| Cache.ResponseCache.Lookup | src/llm_eval/cache.py:21-25 | a payload is found iff one is stored for the key, and it is that payload |
| Cache.ResponseCache.Has | src/llm_eval/cache.py:18-19 | true iff a payload is stored for the key; agrees with `Lookup`; the cache is not changed |
| Cache.ResponseCache.Get | src/llm_eval/cache.py:21-25 | `None` iff nothing is stored for the key, else the stored payload; the cache is not changed |
| Cache.ResponseCache.Set | src/llm_eval/cache.py:27-29 | the key now maps to the payload, replacing any earlier one; every other key keeps its payload |
| Cache.SetThenGet | src/llm_eval/cache.py:21-29 | `get` after `set` returns what was set, and a second `set` of the same key replaces the first |
| Storage.RowKey | src/llm_eval/storage.py:42-44 | a row contributes nothing, or exactly its non-empty `request_key` |
| Storage.ResultsAfter | src/llm_eval/storage.py:22-24 | appending no rows leaves the results file as it was; appending rows creates it when missing |
| Storage.ArtifactStore.constructor | src/llm_eval/storage.py:11-17 | opening a run directory gives what it already holds, for that run id |
| Storage.ArtifactStore.WriteManifest | src/llm_eval/storage.py:19-20 | replaces the manifest and leaves both logs and the summary untouched |
| Storage.ArtifactStore.AppendResult | src/llm_eval/storage.py:22-24 | adds exactly one record at the end of the results log, creating it when missing; nothing else changes |
| Storage.ArtifactStore.AppendError | src/llm_eval/storage.py:26-28 | adds exactly one record at the end of the error log; nothing else changes |
| Storage.ArtifactStore.WriteSummary | src/llm_eval/storage.py:30-31 | replaces the summary (the last write wins) and leaves both logs untouched |
| Storage.ArtifactStore.LoadCompletedKeys | src/llm_eval/storage.py:33-45 | the loop computes `CompletedKeysOf`: the empty set for a missing file, otherwise the keys collected line by line, failing at a malformed line |
| Storage.KeysFromWellFormed | src/llm_eval/storage.py:37-44 | from any line on, a file without malformed lines yields the truthy request keys of its records; blank lines contribute nothing |
| Storage.CompletedKeysOfWellFormed | src/llm_eval/storage.py:33-45 | `load_completed_keys` of a file without malformed lines is exactly the set of truthy `request_key` values of its records |
| Storage.MalformedLineFails | src/llm_eval/storage.py:41 | a malformed line anywhere ahead fails the whole load instead of being skipped |
| Storage.KeysFromAppend | src/llm_eval/storage.py:22-44 | reading a file with one record appended gives the earlier keys plus that record's key |
| Storage.AppendedKeyIsCompleted | src/llm_eval/storage.py:22-44 | after `append_result` of a row with a non-empty key `k`, a later `load_completed_keys` returns the earlier keys plus `k` |
| Storage.CompletedAfterRows | src/llm_eval/storage.py:22-44 | appending rows to a readable results file adds exactly their truthy keys to the completed set |
| Text.Upper | src/llm_eval/runner.py:57 | `upper` keeps the length and upper-cases each ASCII letter |
| Runner.FindStandalone | src/llm_eval/runner.py:19 | the search returns the leftmost position at or after `from` where an upper-case letter stands between non-word characters, or `None` iff there is none |
| Runner.ExtractOptionLetter | src/llm_eval/runner.py:56-58 | the result is `None` iff the upper-cased text has no standalone capital; otherwise it is a letter `A`–`Z` and it is the first standalone capital |
| Runner.CorrectLetter | src/llm_eval/runner.py:61-62 | `chr(65 + answer_index)` succeeds iff the code point is in `[0, 0x10FFFF]`; the code point is `65 + answer_index`; otherwise it fails with that index |
| Runner.KeyDependsOnRequestOnly | src/llm_eval/runner.py:105-113 | with the same digest, two pairs get the same key when they agree on the provider name, model, temperature, token limit, sample id and prompt, whatever the run id, policy, completed keys, cache, positions, API key variable and expected answer |
| Runner.BackoffAt | src/llm_eval/runner.py:159-161 | the sleep after attempt `a` is `backoff_seconds[a - 1]`, clamped to the last entry once `a` passes the end of the list |
| Runner.AttemptsRetry | src/llm_eval/runner.py:153-163 | a retried attempt whose back-off is not negative adds its call and its back-off sleep before the remaining attempts |
| Runner.CallProvider | src/llm_eval/runner.py:127-194 | the `while True` loop with its `attempt` counter computes `Attempts`: its result (a crash on an empty back-off list or a negative back-off), its number of calls and its trace of calls and sleeps |
| Runner.WithAccuracy | src/llm_eval/runner.py:30-33 | the counters are kept; accuracy is 0 when nothing was attempted, else `correct / attempted`, so it lies in [0, 1] when `correct <= attempted` |
| Runner.FinalizeMetrics | src/llm_eval/runner.py:30-33 | the loop over `provider_metrics` gives each entry its accuracy, 0 for an entry with no attempts |
| Runner.ProcessPair | src/llm_eval/runner.py:104-246 | one pair on the store and cache objects: the new state is `Process` of the old one; the objects mirror it; the manifest and summary are untouched |
| Runner.StuckWithin | src/llm_eval/runner.py:230-246 | once the run has stopped or crashed, the remaining samples of the provider change nothing |
| Runner.StuckAfter | src/llm_eval/runner.py:246 | once the run has stopped or crashed, the remaining providers change nothing |
| Runner.Stuck | src/llm_eval/runner.py:246 | a run that stops after some pair ends in that pair's state |
| Runner.Finish | src/llm_eval/runner.py:248-265 | returns the execution summary of the state, and writes the summary file exactly once, with nothing else changed |
| Runner.RunSample | src/llm_eval/runner.py:104-246 | one iteration of the sample loop takes the objects from the state after `s` samples to the state after `s + 1` |
| Runner.RunProvider | src/llm_eval/runner.py:104-246 | the sample loop of one provider ends after its last sample, or, when the breaker or a crash stops it, in the final state of the run |
| Runner.Execute | src/llm_eval/runner.py:91-265 | the two loops leave in the cache the run's cache; the results log gets the run's rows appended and the error log its error rows; the manifest is unchanged. A crash returns its error and writes no summary; otherwise the summary is written exactly once and the execution summary is returned |
| Runner.Prepare | src/llm_eval/runner.py:77-94 | the run can start iff the benchmark is `mmlu_subset`, the dataset loads and the results file can be read; the context then holds the loaded samples, the completed keys, the run id, the providers and the merged policy; another benchmark fails with `NotImplementedError` |
| Runner.PrepareRun | src/llm_eval/runner.py:77-94 | computes `Prepare` on the store's and cache's contents and changes neither |
| Runner.RunWithPolicy | src/llm_eval/runner.py:73-265 | only the directories of this run id change. Its manifest is written first. A failure before the loop leaves the rest as it was; otherwise the run is `Execute` |
| Runner.RunEvaluation | src/llm_eval/runner.py:65-265 | loads the `.env` file, and a line that raises fails the run before anything is written; a policy that cannot be loaded fails the same way; otherwise the caller's configuration gets the merged policy and the run behaves as `RunWithPolicy` with it |
| RunnerProps.SingleLetterReply | src/llm_eval/runner.py:56-58 | a one-letter reply is read as that letter, upper-cased |
| RunnerProps.FirstStandaloneLetterWins | src/llm_eval/runner.py:56-58 | "I think B" is read as `I`, "(b)" as `B`, and "none" as no letter |
| RunnerProps.CorrectNeedsLetterIndex | src/llm_eval/runner.py:196-198 | a pair can only be correct when the answer index is between 0 and 25 |
| RunnerProps.ExpectedLetterIsPromptLabel | src/llm_eval/runner.py:61-62 | the expected letter is the label the prompt shows for the correct option |
| RunnerProps.ReplyingTheLabelScores | src/llm_eval/runner.py:196-198 | replying with exactly the label of the correct option scores, for the first 26 options |
| RunnerProps.AttemptsShape | src/llm_eval/runner.py:131-194 | the number of calls is between 1 and `max(1, max_attempts)`; every attempt before the last was a retryable HTTP error below `max_attempts`; without back-off entries, or at a negative back-off, the retry crashes after that call; the trace alternates calls and clamped, non-negative sleeps; the last outcome decides the result |
| RunnerProps.AtMostMaxAttempts | src/llm_eval/runner.py:131-194 | a pair makes at least one and at most `max(1, max_attempts)` calls |
| RunnerProps.DefaultPolicyOnServerErrors | src/llm_eval/runner.py:153-178 | with the default policy, a provider that always answers 503 is called 3 times, with sleeps of 1 and 2 seconds, and the error recorded is the HTTP 503 one of the third attempt |
| RunnerProps.NamesDistinct | src/llm_eval/runner.py:91-94 | the keys of `provider_metrics` are listed once each |
| RunnerProps.NamesCover | src/llm_eval/runner.py:91-94 | every provider's name is a key of `provider_metrics` |
| RunnerProps.ProcessConsistent | src/llm_eval/runner.py:117-200 | one pair keeps the per-provider counters in agreement with the two logs |
| RunnerProps.BeforeConsistent | src/llm_eval/runner.py:99-246 | the counters agree with the logs before every provider |
| RunnerProps.RunTotals | src/llm_eval/runner.py:117-200 | at the end of the run, `total_requests` and `total_errors` are the sums of the per-provider counters and `total_errors` is the number of error rows. Without a crash there is one row per request. Per provider, `requests == attempted`, `0 <= errors <= requests`, `0 <= correct <= attempted`, accuracy in [0, 1], `errors` the provider's error rows and `correct` its correct rows |
| RunnerProps.PairCalls | src/llm_eval/runner.py:117-194 | a pair that is not skipped counts one request. A cache hit calls nothing and leaves the cache and the error log unchanged. Otherwise the trace grows by the retry loop's calls; the cache is set exactly when the call succeeded; one error row is appended exactly when the loop gave up |
| RunnerProps.ScoreKeeps | src/llm_eval/runner.py:196-217 | scoring touches neither the request count, the trace, the cache nor the error log |
| RunnerProps.ScoreRow | src/llm_eval/runner.py:196-217 | scoring crashes exactly when `chr` rejects the answer index, writing no row; otherwise it appends exactly the pair's row, with the reply text |
| RunnerProps.PairRow | src/llm_eval/runner.py:164-217 | a processed pair crashes exactly on an empty back-off list or a negative back-off at a retry, or an answer index `chr` rejects; otherwise it appends exactly one row, its own; after a failure that row has empty text and `is_correct = false` |
| RunnerProps.PairBreaker | src/llm_eval/runner.py:219-229 | a processed pair stops the run with `stopped_due_to_error_rate` exactly when it does not crash and the provider's counters trip the breaker |
| RunnerProps.DefaultBreaker | src/llm_eval/runner.py:219-229 | with the default policy, 6 errors in 50 requests trip the breaker, 5 do not, and nothing trips before the 50th request |
| RunnerProps.RunAllCovers | src/llm_eval/runner.py:114-217 | a run that ends still going has every pair's key among the completed keys or the keys of its rows |
| RunnerProps.CompletedRunHasNoLocalProvider | src/llm_eval/runner.py:99-103 | a run that went to the end had no `local` provider |
| RunnerProps.AllSkipped | src/llm_eval/runner.py:114-115 | when every key is completed and no provider is `local`, every pair is skipped and the state stays the initial one: no call, no counter change, no row |
| RunnerProps.ResumeAfterCompletedRun | src/llm_eval/runner.py:90-115 | after a run that did not crash, re-reading the results file gives the earlier keys plus the run's keys, and running again with that set and the cache appends no row, calls nothing and counts nothing |
| Scoring.LoadLines | src/llm_eval/scoring.py:13-18 | reading succeeds iff no line is malformed; otherwise it fails at the first malformed line |
| Scoring.LoadResults | src/llm_eval/scoring.py:9-18 | a missing file gives no rows; otherwise the records are read as `LoadLines` reads them |
| Scoring.LoadAfterAppend | src/llm_eval/scoring.py:13-18 | reading back a results file after appending rows gives the earlier records followed by the appended ones |
| Scoring.FallbackIdRoundTrip | src/llm_eval/scoring.py:28-33 | without a system id, the id splits at its colon back into the provider and the model (each `unknown` when missing), when neither holds a colon |
| Scoring.SystemIdWins | src/llm_eval/scoring.py:28-30 | a truthy `system_id` is used as it is |
| Scoring.BucketOfDescribes | src/llm_eval/scoring.py:57-66 | a system's bucket holds its records' count, correct count and latency sum, and the provider and model of the latest one. Its categories are exactly those of its records, each with the counts of its own records, and they add up to the system's counts |
| Scoring.TallyIsBuckets | src/llm_eval/scoring.py:49-66 | after the first loop the systems are exactly the ids some record resolves to, each listed once; each bucket is its own records folded |
| Scoring.AttemptsAddUp | src/llm_eval/scoring.py:49-66 | every record is counted in exactly one system: the systems' attempts add up to the number of records |
| Scoring.RatioBounds | src/llm_eval/scoring.py:70 | a count that is part of the attempts gives an accuracy in [0, 1] |
| Scoring.ReportSystems | src/llm_eval/scoring.py:68-86 | `total_rows` is the number of records; the systems are each listed once and are exactly the ids some record resolves to; their attempts add up to `total_rows`; the status is the summary's, `unknown` without one |
| Scoring.ScoreSystemFacts | src/llm_eval/scoring.py:68-73 | a finalized system has its records' counts, `0 <= correct <= attempted`, accuracy `correct / attempted`, average latency `sum / attempted`, and the given error count |
| Scoring.ScoreCategoryFacts | src/llm_eval/scoring.py:75-78 | a finalized category has its records' counts and the accuracy `correct / attempted` |
| Scoring.ScoreCategoriesFacts | src/llm_eval/scoring.py:75-80 | a system's finalized categories are its records' categories and their counts add up to the system's |
| Scoring.ReportEntry | src/llm_eval/scoring.py:36-80 | the entry of a system in the report is its own records folded, then finalized with the summary's error count for its id |
| Scoring.ReportSystem | src/llm_eval/scoring.py:68-73 | the entry's error count is the summary's `provider_metrics[id].errors`, or 0 when there is no summary or no entry for the id |
| Scoring.ReportCategories | src/llm_eval/scoring.py:64-78 | the categories of a system's entry are those of its records, with their counts |
| Scoring.NoSystemIdNoErrors | src/llm_eval/scoring.py:73 | rows without a system id never match a summary whose keys hold no colon, so every error count is 0 |
| Scoring.AddRecord | src/llm_eval/scoring.py:49-66 | the body of the first loop on the mutable buckets adds one record as `AddRow` does |
| Scoring.TallyResults | src/llm_eval/scoring.py:49-66 | the first loop builds the buckets `Tally` describes |
| Scoring.FinalizeCategories | src/llm_eval/scoring.py:75-80 | the inner loop gives every category its finalized score |
| Scoring.FinalizeSystems | src/llm_eval/scoring.py:68-80 | the second loop gives every system its finalized score with the summary's error count for it |
| Scoring.ScoreResults | src/llm_eval/scoring.py:36-86 | `score_results` computes the report whose properties `ReportSystems`, `ReportEntry` and `ReportCategories` state |
| RunReport.BeforeRows | src/llm_eval/runner.py:202-217 | every row the run writes is the row of one of its providers and samples |
| RunReport.NoSystemIds | src/llm_eval/runner.py:202-217 | the runner writes no system id |
| RunReport.NamesWithoutColon | src/llm_eval/runner.py:91-94 | the provider names of a run are non-empty and hold no colon |
| RunReport.RowSystem | src/llm_eval/scoring.py:28-33 | the system of a row of the run is `<provider>:<model>` of one of its providers |
| RunReport.SystemsOfRun | src/llm_eval/scoring.py:28-33 | every system scored from rows of the run is one of its providers with its model |
| RunReport.ScoredRun | src/llm_eval/scoring.py:36-86 | scoring the rows of a run that did not crash against its own summary gives `total_rows` equal to `total_requests`, the run's status, systems that are its providers with their models, and an error count of 0 for each |
| Binomial.ChooseAbove | src/llm_eval/stats.py:31-34 | `comb(n, k)` is 0 for `k > n` |
| Binomial.ChoosePositive | src/llm_eval/stats.py:31-34 | `comb(n, k)` is at least 1 for `k <= n` |
| Binomial.RowSumPow2 | src/llm_eval/stats.py:31-36 | the coefficients of row `n` add up to `2^n` |
| Binomial.ChooseSymmetric | src/llm_eval/stats.py:31-34 | `comb(n, k) == comb(n, n - k)` |
| Binomial.ChooseMiddleIsMax | src/llm_eval/stats.py:31-35 | no coefficient of a row exceeds the middle one |
| Stats.Wilson | src/llm_eval/stats.py:8-17 | `total <= 0` gives `(0, 0)`; otherwise the square root fails exactly on a negative radicand, and the clamped interval has `low >= 0` and `high <= 1` |
| Stats.RadicandNonNegative | src/llm_eval/stats.py:14 | for a proportion the square root is always defined |
| Stats.CenterInUnit | src/llm_eval/stats.py:13 | the centre of the interval of a proportion lies in [0, 1] |
| Stats.WilsonOrdered | src/llm_eval/stats.py:8-17 | for a proportion and `z >= 0` the interval is defined and `0 <= low <= high <= 1` |
| Stats.PValue | src/llm_eval/stats.py:28-37 | the p-value lies in [0, 1] |
| Stats.BinomialTwoSidedPValue | src/llm_eval/stats.py:28-37 | the loop over the outcomes `0..n` computes `PValue`: `min(1, Σ{comb(n, i) : comb(n, i) <= comb(n, k)} / 2^n)`, without the `1e-15` tolerance |
| Stats.PValueBounds | src/llm_eval/stats.py:29-37 | for an outcome `k <= n` the p-value is positive and at most 1 |
| Stats.PValueTie | src/llm_eval/stats.py:31-37 | an even split has p-value exactly 1 |
| Stats.PValueSymmetric | src/llm_eval/stats.py:69 | `k` successes and `n - k` successes have the same p-value |
| Stats.AttachAll | src/llm_eval/stats.py:20-25 | when every interval is defined, the visit ends without error, every listed system gets its interval and every other entry is kept |
| Stats.AttachFails | src/llm_eval/stats.py:20-25 | the visit stops with an error exactly when some listed system's interval is undefined |
| Stats.ScoredIntervals | src/llm_eval/stats.py:20-25 | on a report of `score_results` every system gets an interval with `0 <= low <= high <= 1` and no error occurs |
| Stats.Scored.constructor | src/llm_eval/stats.py:20 | a report starts without intervals |
| Stats.Scored.AddConfidenceIntervals | src/llm_eval/stats.py:20-25 | visits the systems in order and sets each one's `accuracy_ci95` as `Attach` describes; the report's other fields are unchanged |
| Stats.GroupRowsOk | src/llm_eval/stats.py:41-45 | after grouping, each label and each sample id is listed once, and exactly the keys are listed |
| Stats.GroupRowsMeaning | src/llm_eval/stats.py:41-45 | a system is grouped iff some row has its label; a sample is recorded for it iff some row matches both; the recorded outcome is that of the last matching row |
| Stats.GroupResults | src/llm_eval/stats.py:41-45 | the first loop builds the grouping `GroupRows` describes |
| Stats.SharedIds | src/llm_eval/stats.py:55 | the shared ids are among the samples both systems have |
| Stats.SharedIdsMeaning | src/llm_eval/stats.py:55 | the shared ids are sorted, are exactly the samples both systems have, and are the same from either side |
| Stats.TallyCounts | src/llm_eval/stats.py:56-68 | each counter is the number of distinct shared samples of its kind (left right and right wrong, the reverse, or both alike); they add up to the number of shared samples |
| Stats.TallySwap | src/llm_eval/stats.py:59-67 | exchanging the sides exchanges the wins and keeps the ties |
| Stats.TallyShared | src/llm_eval/stats.py:56-67 | the loop over the shared samples computes `TallyOf` |
| Stats.SharedTally | src/llm_eval/stats.py:55-68 | over the shared samples of two systems, the wins and ties count the samples of each kind and add up to the number of samples both have |
| Stats.TallyPValue | src/llm_eval/stats.py:68-69 | the p-value of a tally lies in (0, 1] and is 1 when the wins are even |
| Stats.CompareWithFacts | src/llm_eval/stats.py:68-79 | a comparison record carries its tally's counts, `non_ties = wins_a + wins_b`, and a p-value in (0, 1] that is 1 on even wins |
| Stats.CompareFacts | src/llm_eval/stats.py:51-79 | the comparison of two systems names them; its wins and ties count the samples both have by kind and add up to their number; `non_ties = wins_a + wins_b`; the p-value lies in (0, 1] and is 1 on even wins |
| Stats.CompareSwap | src/llm_eval/stats.py:69 | comparing the other way round exchanges the sides and the wins and keeps the ties and the p-value |
| Stats.RowOf | src/llm_eval/stats.py:50-80 | system `i` is compared with each of the `k - i - 1` later systems |
| Stats.SortedSystems | src/llm_eval/stats.py:47 | the systems in strictly increasing order, exactly the grouped ones, as many as there are labels |
| Stats.ComparePair | src/llm_eval/stats.py:51-80 | the body of the inner loop computes `Compare` |
| Stats.CompareRow | src/llm_eval/stats.py:50-80 | the inner loop computes the comparisons of system `i` with each later one |
| Stats.PairwiseSignificance | src/llm_eval/stats.py:40-81 | the grouping loop and the nested loops compute `Pairwise` |
| Stats.SystemsAreGroups | src/llm_eval/stats.py:41-47 | the grouped systems are exactly the labels of the rows, each listed once |
| Stats.PairwiseCount | src/llm_eval/stats.py:47-50 | with `k` systems there are exactly `k * (k - 1) / 2` comparisons |
| Stats.PairwiseEntries | src/llm_eval/stats.py:47-79 | every comparison is of two systems of the rows, with `provider_a < provider_b`, and is their comparison |
| Stats.PairwiseComplete | src/llm_eval/stats.py:47-50 | every two systems of the rows are compared, in sorted order |
| Connectivity.Run | src/llm_eval/connectivity.py:10 | the run of key characters `[A-Za-z0-9_-]` at the start of the text is maximal |
| Connectivity.MatchAt | src/llm_eval/connectivity.py:10-11 | a pattern matches at the start iff its prefix is followed by at least its minimum run of key characters; the greedy match covers the whole run and is followed by a non-key character or the end |
| Connectivity.RedactSecrets | src/llm_eval/connectivity.py:23-27 | the loop over the two patterns computes `Redacted`, and no match of either pattern is left |
| Connectivity.RedactedInOrder | src/llm_eval/connectivity.py:25-26 | the `sk-` substitution is applied first, then the `AIza` one |
| Connectivity.LeftmostGreedy | src/llm_eval/connectivity.py:26 | after a stretch with no match, the leftmost match is replaced whole by `[REDACTED_KEY]` and the scan resumes after it |
| Connectivity.SubUnchanged | src/llm_eval/connectivity.py:26 | a substitution without a match changes nothing |
| Connectivity.NoSecretLeft | src/llm_eval/connectivity.py:23-27 | no match of either pattern survives redaction, not even one formed across the marker |
| Connectivity.RedactedFixedPoint | src/llm_eval/connectivity.py:23-27 | redaction leaves a text unchanged iff neither pattern matches in it |
| Connectivity.RedactIdempotent | src/llm_eval/connectivity.py:23-27 | redacting twice gives what redacting once gives |
| Connectivity.AbsentPrefixNoMatch | src/llm_eval/connectivity.py:10-11 | a pattern whose prefix does not occur has no match |
| Connectivity.NoPrefixUnchanged | src/llm_eval/connectivity.py:9-27 | a text with neither `sk-` nor `AIza` is returned unchanged |
| Connectivity.ShortTextUnchanged | src/llm_eval/connectivity.py:10 | a text shorter than 11 characters is returned unchanged |
| Connectivity.ShortKeyKept | src/llm_eval/connectivity.py:10 | `sk-` followed by fewer than 8 key characters is no match |
| Connectivity.KeyMatch | src/llm_eval/connectivity.py:10 | `sk-` followed by a run of at least 8 key characters matches that whole run |
| Connectivity.OpenAiKeyMasked | tests/test_connectivity.py:23-27 | in "bad key sk-abc123456789xyz and should be hidden" the key is replaced by the marker: the key no longer occurs and the marker does |
| Connectivity.FailureDetail | src/llm_eval/connectivity.py:61 | the failure detail has at most 220 characters and is a prefix of the redacted message, the whole of it when shorter |
| Connectivity.FailureDetailHasNoSecret | src/llm_eval/connectivity.py:61 | the truncated failure detail holds no match of either pattern |

## Left out

- `check_connectivity` (src/llm_eval/connectivity.py:30-64) makes live provider calls; only its detail string (`FailureDetail`) is modelled.
- The provider clients, `ProviderHTTPError` and the client factory are network code. The provider is an oracle per (provider, sample, attempt), and `local`'s missing client is a crash.
- SHA-256 and the canonical JSON fed to it are a function parameter returning 64 hex characters. Only the 24- and 16-character prefixes are modelled, and no property relies on the hash being injective.
- Reading and writing files, JSON and YAML (de)serialisation and `os.environ` are in-memory values: records are typed, a missing file is `None`, a parsed YAML document is a value. I/O failures such as permissions or a full disk are not modelled. `load_summary` (src/llm_eval/scoring.py:21-25) is an optional summary value.
- A cached payload is assumed well formed: `str(cached["text"])` and `int(cached.get("latency_ms") or 0)` are taken as the identity.
- `time.sleep` is a `Sleep` event in the trace. `random.seed` has no effect on anything modelled. `datetime.now` is the `createdAt` parameter.
- `load_run_config` (src/llm_eval/config.py:103-107) and pydantic validation apart from the temperature validator are left out; they are YAML and library code.
- The CLI, the UI, job plumbing, publishing scripts and `reporting.py` are outside the engine.
- Runner.TripsBreaker: the breaker is the exact integer test `errors * 100 > hard_stop_percent * requests`. Python computes `errors / requests * 100` in floating point, which can exceed the threshold where the exact value equals it (7 / 100 * 100 is 7.000000000000001).
- Runner.ExtractOptionLetter: `str.upper` and the regex word boundary are modelled on ASCII. Non-ASCII characters are treated as non-word characters and left unchanged by upper-casing.
- Text.Upper: ASCII only, for the same reason.
- Stats.Wilson: the formula is kept in exact real arithmetic and `math.sqrt` is a parameter. Only the clamping, the domain error and, for a square root that behaves as one (`WilsonOrdered`), the ordering are proved. The numerical value of the interval is not.
- Stats.PValue: exact rationals replace floating point. `p**i * (1 - p)**(n - i)` at `p = 1/2` is `comb(n, i) / 2^n`, and rounding in Python's floats can admit or drop a term the exact comparison does not.
- Stats.PValue: the `1e-15` tolerance of the comparison is dropped: an outcome is admitted when `comb(n, i) <= comb(n, k)`. Below `n = 50`, `2^n * 1e-15 < 1` and no coefficient lies between the two thresholds; from `n = 50` on they can differ. For `k = n = 56`, Python admits every outcome with `comb(56, i) <= 73` (`i` in {0, 1, 55, 56}, 114 / 2^56), while the model admits only `i` in {0, 56} (2 / 2^56). The same holds for Stats.BinomialTwoSidedPValue.
- Stats.PValue: from about `n = 1030` on, `comb(n, i)` no longer converts to a float and Python raises `OverflowError`; the exact model returns a value for every `n`. The same holds for Stats.BinomialTwoSidedPValue.
- Runner.RunEvaluation: requires every dataset's choice lists to have fewer than 55231 entries (`Benchmarks.MaxChoices`). Dafny characters exclude the surrogate code points that `chr(65 + i)` would produce beyond that. The same precondition is on Runner.RunWithPolicy, Runner.PrepareRun and Runner.Prepare.
- Benchmarks.Label: defined for fewer than 55231 options, for the same reason.
- Scoring.ResolveSystemId: a provider or model present as JSON `null` is treated like a missing one (`unknown`), where Python would print `None`.
- Python `str` slicing counts code points, as Dafny sequences do, so the `[:220]`, `[:24]` and `[:16]` truncations need no adjustment.
- Concurrency: the engine is sequential; `max_parallel_requests` and `request_timeout_seconds` are only carried through the policy.
