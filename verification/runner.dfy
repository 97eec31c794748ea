/** The evaluation run engine (src/llm_eval/runner.py): answer letters,
    request keys, the retry loop, the per-pair step of the run and the run
    itself. A provider is an oracle from (provider index, sample index,
    attempt number) to the outcome of that call; SHA-256 is a parameter;
    sleeping is recorded in a trace of events. */
module Runner {
  import opened Wrappers
  import opened Text
  import opened Benchmarks
  import opened MmluSubset
  import opened Config
  import opened Policy
  import opened Cache
  import opened Storage

  // ----- Answer letters -----

  /** The regex `\b([A-Z])\b` matches at `i` of `u`: an upper-case ASCII
      letter with no word character on either side. */
  predicate StandaloneAt(u: string, i: int) {
    0 <= i < |u| && 'A' <= u[i] <= 'Z'
    && (i == 0 || !IsWordChar(u[i - 1]))
    && (i + 1 == |u| || !IsWordChar(u[i + 1]))
  }

  /** The leftmost match at or after `from`. */
  function FindStandalone(u: string, from: nat): (r: Option<nat>)
    requires from <= |u|
    ensures r.Some? ==> from <= r.value < |u| && StandaloneAt(u, r.value)
    ensures r.Some? ==> forall j :: from <= j < r.value ==> !StandaloneAt(u, j)
    ensures r.None? ==> forall j :: from <= j < |u| ==> !StandaloneAt(u, j)
    decreases |u| - from
  {
    if from == |u| then None
    else if StandaloneAt(u, from) then Some(from)
    else FindStandalone(u, from + 1)
  }

  /** `_extract_option_letter`: the first standalone capital letter of the
      upper-cased text, if there is one. */
  function ExtractOptionLetter(text: string): (r: Option<char>)
    ensures r.Some? ==> 'A' <= r.value <= 'Z'
    ensures r.None? <==> forall j :: 0 <= j < |text| ==> !StandaloneAt(Upper(text), j)
    ensures r.Some? ==> exists i :: 0 <= i < |text| && StandaloneAt(Upper(text), i)
                                  && Upper(text)[i] == r.value
                                  && forall j :: 0 <= j < i ==> !StandaloneAt(Upper(text), j)
  {
    var u := Upper(text);
    match FindStandalone(u, 0)
    case None => None
    case Some(i) => Some(u[i])
  }

  /** The largest code point `chr` accepts. */
  const MaxCodePoint: int := 0x10FFFF

  /** `_correct_letter`: the code point `65 + answer_index`, or the
      `ValueError` of `chr` outside `[0, 0x10FFFF]`. Code points are kept as
      integers, since Python strings may hold surrogates. */
  function CorrectLetter(answerIndex: int): (r: Result<int, int>)
    ensures r.Ok? <==> -65 <= answerIndex <= MaxCodePoint - 65
    ensures r.Ok? ==> r.value - 65 == answerIndex
    ensures r.Err? ==> r.error == answerIndex
  {
    var code := 65 + answerIndex;
    if 0 <= code <= MaxCodePoint then Ok(code) else Err(answerIndex)
  }

  /** `predicted == expected`. */
  predicate IsCorrect(predicted: Option<char>, expected: int) {
    predicted.Some? && predicted.value as int == expected
  }

  // ----- Request keys -----

  /** What `_request_key` hashes (as canonical JSON). */
  datatype RequestPayload = RequestPayload(
    provider: string,
    model: string,
    sampleId: string,
    prompt: string,
    temperature: real,
    maxTokens: int)

  /** `_request_key`: the first 24 hex characters of the digest. */
  function RequestKey(sha: RequestPayload -> HexDigest, payload: RequestPayload): (k: string)
    ensures |k| == 24 && k == sha(payload)[..24]
  {
    sha(payload)[..24]
  }

  // ----- Provider calls and the retry loop -----

  /** The outcome of one `client.generate` call: a response, a
      `ProviderHTTPError`, or any other exception. */
  datatype Outcome =
    | Response(text: string, latencyMs: Option<int>, usage: Option<Usage>)
    | HttpError(status: int, message: string)
    | OtherError(errorType: string, message: string)

  /** The provider oracle: (provider index, sample index, attempt number). */
  type Oracle = (nat, nat, nat) -> Outcome

  /** What the run does that the result files do not show: provider calls and
      the sleeps between them. */
  datatype Event = Generate(provider: nat, sample: nat, attempt: nat) | Sleep(seconds: int)

  datatype CallResult =
    | Succeeded(text: string, latencyMs: int, usage: Option<Usage>)
    | GaveUp(errorType: string, message: string)
    | Raised(crash: Crash)

  /** How the retry loop for one pair ends, after how many attempts, and what
      it did on the way. */
  datatype Calls = Calls(result: CallResult, attempts: nat, events: seq<Event>)

  /** `str(ProviderHTTPError(status, message))`. */
  function HttpErrorText(status: int, message: string): string {
    "HTTP " + IntToString(status) + ": " + message
  }

  function Min(a: int, b: int): int {
    if a <= b then a else b
  }

  function Max(a: int, b: int): int {
    if a >= b then a else b
  }

  /** `backoff_seconds[min(attempt - 1, len(backoff_seconds) - 1)]`. */
  function BackoffAt(retry: RetryPolicy, attempt: nat): (b: int)
    requires |retry.backoffSeconds| > 0 && attempt >= 1
    ensures attempt <= |retry.backoffSeconds| ==> b == retry.backoffSeconds[attempt - 1]
    ensures attempt >= |retry.backoffSeconds| ==> b == retry.backoffSeconds[|retry.backoffSeconds| - 1]
  {
    retry.backoffSeconds[Min(attempt - 1, |retry.backoffSeconds| - 1)]
  }

  /** The `while True` loop of one pair after `made` attempts: a response
      ends it; an HTTP error whose status is retryable is retried while the
      attempt number is below `max_attempts`, after the backoff sleep (an
      empty backoff list fails with `IndexError`, a negative backoff makes
      `time.sleep` raise `ValueError`); anything else gives up. */
  function Attempts(retry: RetryPolicy, oracle: Oracle, p: nat, s: nat, made: nat): Calls
    decreases retry.maxAttempts - made
  {
    var n := made + 1;
    var call := [Generate(p, s, n)];
    match oracle(p, s, n)
    case Response(text, latency, usage) => Calls(Succeeded(text, latency.GetOr(0), usage), n, call)
    case HttpError(status, message) =>
      if n < retry.maxAttempts && status in retry.retryableStatusCodes then
        if |retry.backoffSeconds| == 0 then Calls(Raised(BackoffIndexOutOfRange), n, call)
        else if BackoffAt(retry, n) < 0 then Calls(Raised(NegativeSleep(BackoffAt(retry, n))), n, call)
        else
          var rest := Attempts(retry, oracle, p, s, n);
          Calls(rest.result, rest.attempts, call + [Sleep(BackoffAt(retry, n))] + rest.events)
      else Calls(GaveUp("ProviderHTTPError", HttpErrorText(status, message)), n, call)
    case OtherError(errorType, message) => Calls(GaveUp(errorType, message), n, call)
  }

  function Prefixed(events: seq<Event>, c: Calls): Calls {
    Calls(c.result, c.attempts, events + c.events)
  }

  /** A retried attempt adds its call and its back-off to the events before
      the remaining attempts. */
  lemma AttemptsRetry(retry: RetryPolicy, oracle: Oracle, p: nat, s: nat, made: nat, events: seq<Event>)
    requires oracle(p, s, made + 1).HttpError? && made + 1 < retry.maxAttempts
    requires oracle(p, s, made + 1).status in retry.retryableStatusCodes && |retry.backoffSeconds| > 0
    requires BackoffAt(retry, made + 1) >= 0
    ensures Prefixed(events, Attempts(retry, oracle, p, s, made))
         == Prefixed(events + [Generate(p, s, made + 1)] + [Sleep(BackoffAt(retry, made + 1))],
                     Attempts(retry, oracle, p, s, made + 1))
  {
    var rest := Attempts(retry, oracle, p, s, made + 1);
    assert events + ([Generate(p, s, made + 1)] + [Sleep(BackoffAt(retry, made + 1))] + rest.events)
        == events + [Generate(p, s, made + 1)] + [Sleep(BackoffAt(retry, made + 1))] + rest.events;
  }

  /** The retry loop itself. */
  method CallProvider(retry: RetryPolicy, oracle: Oracle, p: nat, s: nat) returns (c: Calls)
    ensures c == Attempts(retry, oracle, p, s, 0)
  {
    var attempt: nat := 0;
    var events: seq<Event> := [];
    assert Prefixed(events, Attempts(retry, oracle, p, s, 0)).events == Attempts(retry, oracle, p, s, 0).events;
    while true
      invariant attempt < Max(retry.maxAttempts, 1)
      invariant Attempts(retry, oracle, p, s, 0) == Prefixed(events, Attempts(retry, oracle, p, s, attempt))
      decreases Max(retry.maxAttempts, 1) - attempt
    {
      ghost var before := events;
      attempt := attempt + 1;
      events := events + [Generate(p, s, attempt)];
      var outcome := oracle(p, s, attempt);
      match outcome {
        case Response(text, latency, usage) =>
          return Calls(Succeeded(text, latency.GetOr(0), usage), attempt, events);
        case HttpError(status, message) =>
          var retryable := status in retry.retryableStatusCodes;
          if attempt < retry.maxAttempts && retryable {
            if |retry.backoffSeconds| == 0 {
              return Calls(Raised(BackoffIndexOutOfRange), attempt, events);
            }
            var backoff := BackoffAt(retry, attempt);
            if backoff < 0 {
              return Calls(Raised(NegativeSleep(backoff)), attempt, events);
            }
            events := events + [Sleep(backoff)];
            AttemptsRetry(retry, oracle, p, s, attempt - 1, before);
          } else {
            return Calls(GaveUp("ProviderHTTPError", HttpErrorText(status, message)), attempt, events);
          }
        case OtherError(errorType, message) =>
          return Calls(GaveUp(errorType, message), attempt, events);
      }
    }
  }

  // ----- The state of a run -----

  /** One entry of `provider_metrics` while the run is going. */
  datatype Counters = Counters(requests: int, errors: int, correct: int, attempted: int)

  const Zero: Counters := Counters(0, 0, 0, 0)

  /** What the run keeps in memory: `provider_metrics`, keyed by provider
      name, and the two totals. */
  datatype Live = Live(metrics: map<string, Counters>, totalRequests: int, totalErrors: int)

  /** Why a run ends with an exception. */
  datatype Crash =
    | EnvFileRejected(line: nat)
    | PolicyUnreadable(policyError: PolicyError)
    | UnsupportedBenchmark(name: string)
    | DatasetUnreadable(loadError: LoadError)
    | ResultsUnreadable(line: nat)
    | ProviderNotImplemented(provider: string)
    | BackoffIndexOutOfRange
    | NegativeSleep(seconds: int)
    | AnswerIndexOutOfRange(answerIndex: int)

  datatype Status = Running | StoppedOnErrorRate | Crashed(crash: Crash)

  /** The state after some pairs: in memory (`live`), in the cache directory,
      appended to the two logs during this run, and the trace. */
  datatype RunState = RunState(
    status: Status,
    live: Live,
    cache: map<string, Payload>,
    rows: seq<ResultRow>,
    errors: seq<ErrorRow>,
    trace: seq<Event>)

  /** Everything the loop of `run_evaluation` depends on. */
  datatype Ctx = Ctx(
    runId: string,
    providers: seq<ProviderConfig>,
    samples: seq<Sample>,
    policy: RuntimePolicy,
    completed: set<string>,
    cache0: map<string, Payload>,
    oracle: Oracle,
    sha: RequestPayload -> HexDigest)

  /** Prompts are built for every sample (see `Benchmarks.MaxChoices`). */
  predicate ValidCtx(ctx: Ctx) {
    forall s :: 0 <= s < |ctx.samples| ==> |ctx.samples[s].choices| <= MaxChoices
  }

  function NameOf(ctx: Ctx, p: nat): string
    requires p < |ctx.providers|
  {
    ProviderText(ctx.providers[p].provider)
  }

  function Key(ctx: Ctx, p: nat, s: nat): (k: string)
    requires ValidCtx(ctx) && p < |ctx.providers| && s < |ctx.samples|
    ensures |k| == 24
  {
    var pc := ctx.providers[p];
    var sample := ctx.samples[s];
    RequestKey(ctx.sha, RequestPayload(ProviderText(pc.provider), pc.model, sample.sampleId,
                                       Prompt(sample), pc.temperature, pc.maxTokens))
  }

  /** The request key depends on the request alone: two runs that use the
      same digest give the same key to a provider and a sample that agree on
      the provider name, model, temperature, token limit and the sample's id
      and prompt, whatever their run ids, policies, completed keys, caches,
      positions, API key variables and expected answers. */
  lemma KeyDependsOnRequestOnly(c1: Ctx, p1: nat, s1: nat, c2: Ctx, p2: nat, s2: nat)
    requires ValidCtx(c1) && p1 < |c1.providers| && s1 < |c1.samples|
    requires ValidCtx(c2) && p2 < |c2.providers| && s2 < |c2.samples|
    requires c1.sha == c2.sha
    requires var a, b := c1.providers[p1], c2.providers[p2];
      a.provider == b.provider && a.model == b.model && a.temperature == b.temperature && a.maxTokens == b.maxTokens
    requires var a, b := c1.samples[s1], c2.samples[s2];
      && a.sampleId == b.sampleId && a.question == b.question && a.choices == b.choices
      && a.category == b.category
    ensures Key(c1, p1, s1) == Key(c2, p2, s2)
  {
    assert PromptLines(c1.samples[s1]) == PromptLines(c2.samples[s2]);
  }

  /** The names of the providers, each once, in order of first appearance:
      the keys of `provider_metrics`. */
  function Names(providers: seq<ProviderConfig>): seq<string>
    decreases |providers|
  {
    if |providers| == 0 then []
    else
      var init := Names(providers[..|providers| - 1]);
      var n := ProviderText(providers[|providers| - 1].provider);
      if n in init then init else init + [n]
  }

  function CountersOf(live: Live, name: string): Counters {
    if name in live.metrics then live.metrics[name] else Zero
  }

  /** `requests += 1; attempted += 1; total_requests += 1`. */
  function CountRequest(live: Live, name: string): Live {
    var c := CountersOf(live, name);
    live.(metrics := live.metrics[name := c.(requests := c.requests + 1, attempted := c.attempted + 1)],
          totalRequests := live.totalRequests + 1)
  }

  /** `errors += 1; total_errors += 1`. */
  function CountError(live: Live, name: string): Live {
    var c := CountersOf(live, name);
    live.(metrics := live.metrics[name := c.(errors := c.errors + 1)],
          totalErrors := live.totalErrors + 1)
  }

  /** `correct += 1`. */
  function CountCorrect(live: Live, name: string): Live {
    var c := CountersOf(live, name);
    live.(metrics := live.metrics[name := c.(correct := c.correct + 1)])
  }

  /** The circuit breaker in exact integer form of
      `errors / requests * 100 > hard_stop_percent`. */
  predicate TripsBreaker(policy: RuntimePolicy, c: Counters) {
    c.requests > 0
    && policy.budget.enforceHardStop
    && c.requests >= policy.reliability.errorRateWindowSizeRequests
    && c.errors * 100 > policy.reliability.errorRateHardStopPercent * c.requests
  }

  function InitLive(providers: seq<ProviderConfig>): Live {
    Live(map n | n in Names(providers) :: Zero, 0, 0)
  }

  function Init(ctx: Ctx): RunState {
    RunState(Running, InitLive(ctx.providers), ctx.cache0, [], [], [])
  }

  /** The result row of runner.py:202-217. */
  function ResultRowFor(ctx: Ctx, p: nat, s: nat, key: string, predicted: Option<char>, expected: int,
                        text: string, latency: int, usage: Option<Usage>): ResultRow
    requires p < |ctx.providers| && s < |ctx.samples|
  {
    var pc := ctx.providers[p];
    var sample := ctx.samples[s];
    ResultRow(Some(ctx.runId), None, Some(ProviderText(pc.provider)), Some(pc.model), Some(sample.sampleId),
              Some(sample.category), Some(key), predicted, Some(expected),
              Some(IsCorrect(predicted, expected)), Some(latency), usage, Some(text))
  }

  /** Scoring the answer, appending the result row, then the breaker check
      (runner.py:196-246). */
  function Score(ctx: Ctx, st: RunState, p: nat, s: nat, key: string,
                 text: string, latency: int, usage: Option<Usage>): RunState
    requires p < |ctx.providers| && s < |ctx.samples|
  {
    var name := NameOf(ctx, p);
    var predicted := ExtractOptionLetter(text);
    match CorrectLetter(ctx.samples[s].answerIndex)
    case Err(ai) => st.(status := Crashed(AnswerIndexOutOfRange(ai)))
    case Ok(expected) =>
      var live := if IsCorrect(predicted, expected) then CountCorrect(st.live, name) else st.live;
      var row := ResultRowFor(ctx, p, s, key, predicted, expected, text, latency, usage);
      var next := st.(live := live, rows := st.rows + [row]);
      if TripsBreaker(ctx.policy, CountersOf(live, name)) then next.(status := StoppedOnErrorRate) else next
  }

  /** The body of the inner loop for provider `p` and sample `s`
      (runner.py:105-246). */
  function Process(ctx: Ctx, st: RunState, p: nat, s: nat): RunState
    requires ValidCtx(ctx) && p < |ctx.providers| && s < |ctx.samples|
  {
    if !st.status.Running? then st
    else
      var key := Key(ctx, p, s);
      if key in ctx.completed then st
      else
        var name := NameOf(ctx, p);
        var counted := st.(live := CountRequest(st.live, name));
        if key in st.cache then
          var cached := st.cache[key];
          Score(ctx, counted, p, s, key, cached.text, cached.latencyMs, cached.usage)
        else
          var calls := Attempts(ctx.policy.reliability.retry, ctx.oracle, p, s, 0);
          var called := counted.(trace := st.trace + calls.events);
          match calls.result
          case Raised(crash) => called.(status := Crashed(crash))
          case Succeeded(text, latency, usage) =>
            Score(ctx, called.(cache := st.cache[key := Payload(text, latency, usage)]), p, s, key,
                  text, latency, usage)
          case GaveUp(errorType, message) =>
            var pc := ctx.providers[p];
            var err := ErrorRow(ctx.runId, name, pc.model, ctx.samples[s].sampleId, key,
                                errorType, message, calls.attempts);
            Score(ctx, called.(live := CountError(counted.live, name), errors := st.errors + [err]),
                  p, s, key, "", 0, None)
  }

  /** Building the client for provider `p` (runner.py:100-103): `local` has
      none and raises `NotImplementedError`. */
  function StartProvider(ctx: Ctx, st: RunState, p: nat): RunState
    requires p < |ctx.providers|
  {
    if st.status.Running? && ctx.providers[p].provider == Local
    then st.(status := Crashed(ProviderNotImplemented(NameOf(ctx, p))))
    else st
  }

  /** The state after all samples of the providers before `p` and the first
      `s` samples of provider `p`. */
  function RunSamples(ctx: Ctx, p: nat, s: nat): RunState
    requires ValidCtx(ctx) && p < |ctx.providers| && s <= |ctx.samples|
    decreases p, s, 1
  {
    if s == 0 then StartProvider(ctx, Before(ctx, p), p)
    else Process(ctx, RunSamples(ctx, p, s - 1), p, s - 1)
  }

  /** Sample `s - 1` of provider `p` is one `Process` step. */
  lemma SampleStep(ctx: Ctx, p: nat, s: nat)
    requires ValidCtx(ctx) && p < |ctx.providers| && 0 < s <= |ctx.samples|
    ensures RunSamples(ctx, p, s) == Process(ctx, RunSamples(ctx, p, s - 1), p, s - 1)
  {
  }

  /** The state before provider `p` is started. */
  function Before(ctx: Ctx, p: nat): RunState
    requires ValidCtx(ctx) && p <= |ctx.providers|
    decreases p, 0, 0
  {
    if p == 0 then Init(ctx) else RunSamples(ctx, p - 1, |ctx.samples|)
  }

  /** The state at the end of the loop over providers. */
  function RunAll(ctx: Ctx): RunState
    requires ValidCtx(ctx)
  {
    Before(ctx, |ctx.providers|)
  }

  // ----- Finishing a run -----

  /** `_finalize_metrics` for one provider. */
  function WithAccuracy(c: Counters): (m: Metrics)
    ensures m.requests == c.requests && m.errors == c.errors
    ensures m.correct == c.correct && m.attempted == c.attempted
    ensures c.attempted == 0 ==> m.accuracy == 0.0
    ensures c.attempted != 0 ==> m.accuracy * (c.attempted as real) == c.correct as real
    ensures 0 <= c.correct <= c.attempted ==> 0.0 <= m.accuracy <= 1.0
  {
    var acc := if c.attempted != 0 then (c.correct as real) / (c.attempted as real) else 0.0;
    Metrics(c.requests, c.errors, c.correct, c.attempted, acc)
  }

  function Finalized(names: seq<string>, metrics: map<string, Counters>): map<string, Metrics> {
    map n | n in names :: WithAccuracy(if n in metrics then metrics[n] else Zero)
  }

  /** `_finalize_metrics`: the loop over the entries of `provider_metrics`. */
  method FinalizeMetrics(names: seq<string>, metrics: map<string, Counters>) returns (m: map<string, Metrics>)
    ensures m == Finalized(names, metrics)
    ensures forall n :: n in m ==> m[n].attempted == 0 ==> m[n].accuracy == 0.0
  {
    m := map[];
    var i := 0;
    while i < |names|
      invariant 0 <= i <= |names|
      invariant m == Finalized(names[..i], metrics)
    {
      assert names[..i + 1] == names[..i] + [names[i]];
      m := m[names[i] := WithAccuracy(if names[i] in metrics then metrics[names[i]] else Zero)];
      i := i + 1;
    }
    assert names[..i] == names;
  }

  /** `ExecutionSummary`. */
  datatype ExecutionSummary = ExecutionSummary(
    runId: string,
    totalRequests: int,
    totalErrors: int,
    names: seq<string>,
    providerMetrics: map<string, Metrics>)

  function StatusText(status: Status): string {
    if status.StoppedOnErrorRate? then "stopped_due_to_error_rate" else "completed"
  }

  function ExecutionOf(ctx: Ctx, st: RunState): ExecutionSummary {
    var names := Names(ctx.providers);
    ExecutionSummary(ctx.runId, st.live.totalRequests, st.live.totalErrors, names,
                     Finalized(names, st.live.metrics))
  }

  /** What `summary.json` holds at the end of a run that did not crash. */
  function SummaryOf(ctx: Ctx, st: RunState): Summary {
    var e := ExecutionOf(ctx, st);
    Summary(e.runId, StatusText(st.status), e.totalRequests, e.totalErrors, e.names, e.providerMetrics)
  }

  // ----- The run loop over the store and the cache -----

  /** The objects hold what `st` says: the cache its map, and the two logs
      what they held before the run followed by the run's rows. */
  ghost predicate Mirrors(st: RunState, live: Live, trace: seq<Event>, store: ArtifactStore,
                          cache: ResponseCache, results0: Option<seq<LogLine>>, errors0: seq<ErrorRow>)
    reads store, cache
  {
    st.live == live && st.trace == trace && st.cache == cache.entries
    && store.results == ResultsAfter(results0, st.rows)
    && store.errors == errors0 + st.errors
  }

  lemma ResultsAfterSnoc(file: Option<seq<LogLine>>, rows: seq<ResultRow>, row: ResultRow)
    ensures ResultsAfter(file, rows + [row]) == Some(ResultsAfter(file, rows).GetOr([]) + [Row(row)])
  {
    assert (rows + [row])[..|rows|] == rows;
  }

  /** One pair of the inner loop (runner.py:105-246) on the objects. */
  method ProcessPair(ctx: Ctx, p: nat, s: nat, store: ArtifactStore, cache: ResponseCache,
                     live0: Live, trace0: seq<Event>, ghost st: RunState,
                     ghost results0: Option<seq<LogLine>>, ghost errors0: seq<ErrorRow>)
    returns (status: Status, live: Live, trace: seq<Event>, ghost next: RunState)
    requires ValidCtx(ctx) && p < |ctx.providers| && s < |ctx.samples|
    requires st.status == Running
    requires Mirrors(st, live0, trace0, store, cache, results0, errors0)
    modifies store, cache
    ensures next == Process(ctx, st, p, s) && status == next.status
    ensures Mirrors(next, live, trace, store, cache, results0, errors0)
    ensures store.manifest == old(store.manifest) && store.summary == old(store.summary)
    ensures store.summaryWrites == old(store.summaryWrites)
  {
    live, trace := live0, trace0;
    var pc := ctx.providers[p];
    var sample := ctx.samples[s];
    var name := ProviderText(pc.provider);
    var prompt := Prompt(sample);
    var key := RequestKey(ctx.sha, RequestPayload(name, pc.model, sample.sampleId, prompt,
                                                  pc.temperature, pc.maxTokens));
    next := Process(ctx, st, p, s);
    if key in ctx.completed {
      return Running, live, trace, next;
    }
    live := CountRequest(live, name);
    ghost var scored := st.(live := live);
    var text: string := "";
    var latency := 0;
    var usage: Option<Usage> := None;
    var cached := cache.Get(key);
    if cached.Some? {
      text, latency, usage := cached.value.text, cached.value.latencyMs, cached.value.usage;
    } else {
      var calls := CallProvider(ctx.policy.reliability.retry, ctx.oracle, p, s);
      trace := trace + calls.events;
      scored := scored.(trace := trace);
      match calls.result {
        case Raised(crash) =>
          return Crashed(crash), live, trace, next;
        case Succeeded(t, l, u) =>
          text, latency, usage := t, l, u;
          cache.Set(key, Payload(text, latency, usage));
          scored := scored.(cache := cache.entries);
        case GaveUp(errorType, message) =>
          live := CountError(live, name);
          var err := ErrorRow(ctx.runId, name, pc.model, sample.sampleId, key, errorType, message, calls.attempts);
          store.AppendError(err);
          scored := scored.(live := live, errors := st.errors + [err]);
      }
    }
    assert next == Score(ctx, scored, p, s, key, text, latency, usage);
    var predicted := ExtractOptionLetter(text);
    var expected := CorrectLetter(sample.answerIndex);
    if expected.Err? {
      return Crashed(AnswerIndexOutOfRange(expected.error)), live, trace, next;
    }
    if IsCorrect(predicted, expected.value) {
      live := CountCorrect(live, name);
    }
    var row := ResultRowFor(ctx, p, s, key, predicted, expected.value, text, latency, usage);
    store.AppendResult(row);
    ResultsAfterSnoc(results0, scored.rows, row);
    status := if TripsBreaker(ctx.policy, CountersOf(live, name)) then StoppedOnErrorRate else Running;
  }

  /** Once the run has stopped or crashed, the remaining pairs change
      nothing. */
  lemma {:induction false} StuckWithin(ctx: Ctx, p: nat, s: nat, t: nat)
    requires ValidCtx(ctx) && p < |ctx.providers| && s <= t <= |ctx.samples|
    requires !RunSamples(ctx, p, s).status.Running?
    ensures RunSamples(ctx, p, t) == RunSamples(ctx, p, s)
    decreases t
  {
    if t > s {
      StuckWithin(ctx, p, s, t - 1);
    }
  }

  lemma {:induction false} StuckAfter(ctx: Ctx, p: nat, q: nat)
    requires ValidCtx(ctx) && p <= q <= |ctx.providers|
    requires !Before(ctx, p).status.Running?
    ensures Before(ctx, q) == Before(ctx, p)
    decreases q
  {
    if q > p {
      StuckAfter(ctx, p, q - 1);
      StuckWithin(ctx, q - 1, 0, |ctx.samples|);
    }
  }

  /** `keep` holds of every state reached from a state where it holds, by
      starting a provider or by one pair. */
  ghost predicate StepsKeep(ctx: Ctx, keep: RunState -> bool)
    requires ValidCtx(ctx)
  {
    && (forall st, q :: 0 <= q < |ctx.providers| && keep(st) ==> keep(StartProvider(ctx, st, q)))
    && (forall st, q, t :: 0 <= q < |ctx.providers| && 0 <= t < |ctx.samples| && keep(st) ==>
          keep(Process(ctx, st, q, t)))
  }

  /** Induction over the run: a property of the initial state that every
      step keeps holds of every state of the run. */
  lemma {:induction false} RunInduct(ctx: Ctx, keep: RunState -> bool, p: nat, s: nat)
    requires ValidCtx(ctx) && p < |ctx.providers| && s <= |ctx.samples|
    requires keep(Init(ctx)) && StepsKeep(ctx, keep)
    ensures keep(RunSamples(ctx, p, s))
    decreases p, s, 1
  {
    if s == 0 {
      BeforeInduct(ctx, keep, p);
    } else {
      RunInduct(ctx, keep, p, s - 1);
    }
  }

  lemma {:induction false} BeforeInduct(ctx: Ctx, keep: RunState -> bool, p: nat)
    requires ValidCtx(ctx) && p <= |ctx.providers|
    requires keep(Init(ctx)) && StepsKeep(ctx, keep)
    ensures keep(Before(ctx, p))
    decreases p, 0, 0
  {
    if p > 0 {
      RunInduct(ctx, keep, p - 1, |ctx.samples|);
    }
  }

  lemma Stuck(ctx: Ctx, p: nat, s: nat)
    requires ValidCtx(ctx) && p < |ctx.providers| && s <= |ctx.samples|
    requires !RunSamples(ctx, p, s).status.Running?
    ensures RunAll(ctx) == RunSamples(ctx, p, s)
  {
    StuckWithin(ctx, p, s, |ctx.samples|);
    StuckAfter(ctx, p + 1, |ctx.providers|);
  }

  /** `_finalize_metrics`, the `ExecutionSummary` and the summary file
      (runner.py:230-246 and 248-265). */
  method Finish(ctx: Ctx, store: ArtifactStore, live: Live, status: Status, ghost st: RunState)
    returns (e: ExecutionSummary)
    requires st.live == live && st.status == status && !status.Crashed?
    modifies store
    ensures e == ExecutionOf(ctx, st)
    ensures store.Contents() == old(store.Contents()).(summary := Some(SummaryOf(ctx, st)))
    ensures store.summaryWrites == old(store.summaryWrites) + 1
  {
    var names := Names(ctx.providers);
    var metrics := FinalizeMetrics(names, live.metrics);
    e := ExecutionSummary(ctx.runId, live.totalRequests, live.totalErrors, names, metrics);
    store.WriteSummary(Summary(e.runId, StatusText(status), e.totalRequests, e.totalErrors,
                               e.names, e.providerMetrics));
  }

  /** One iteration of the loop over the samples of provider `p`: the pair
      (`p`, `s`) takes the run from its state after `s` samples to its state
      after `s + 1`. */
  method RunSample(ctx: Ctx, p: nat, s: nat, store: ArtifactStore, cache: ResponseCache,
                   live0: Live, trace0: seq<Event>, ghost st: RunState,
                   ghost results0: Option<seq<LogLine>>, ghost errors0: seq<ErrorRow>)
    returns (status: Status, live: Live, trace: seq<Event>, ghost next: RunState)
    requires ValidCtx(ctx) && p < |ctx.providers| && s < |ctx.samples|
    requires st == RunSamples(ctx, p, s) && st.status == Running
    requires Mirrors(st, live0, trace0, store, cache, results0, errors0)
    modifies store, cache
    ensures next == RunSamples(ctx, p, s + 1) && status == next.status
    ensures Mirrors(next, live, trace, store, cache, results0, errors0)
    ensures store.manifest == old(store.manifest) && store.summary == old(store.summary)
    ensures store.summaryWrites == old(store.summaryWrites)
  {
    SampleStep(ctx, p, s + 1);
    status, live, trace, next := ProcessPair(ctx, p, s, store, cache, live0, trace0, st, results0, errors0);
  }

  /** The loop over the samples of one provider (runner.py:104-246): it
      ends with the provider's last sample, or with the state of the whole
      run when the circuit breaker or a crash stops it. */
  method RunProvider(ctx: Ctx, p: nat, store: ArtifactStore, cache: ResponseCache,
                     live0: Live, trace0: seq<Event>, ghost st0: RunState,
                     ghost results0: Option<seq<LogLine>>, ghost errors0: seq<ErrorRow>)
    returns (status: Status, live: Live, trace: seq<Event>, ghost st: RunState)
    requires ValidCtx(ctx) && p < |ctx.providers|
    requires st0 == RunSamples(ctx, p, 0) && st0.status == Running
    requires Mirrors(st0, live0, trace0, store, cache, results0, errors0)
    modifies store, cache
    ensures status == st.status && Mirrors(st, live, trace, store, cache, results0, errors0)
    ensures status.Running? ==> st == RunSamples(ctx, p, |ctx.samples|)
    ensures !status.Running? ==> st == RunAll(ctx)
    ensures store.manifest == old(store.manifest) && store.summary == old(store.summary)
    ensures store.summaryWrites == old(store.summaryWrites)
  {
    live, trace, st := live0, trace0, st0;
    status := Running;
    var s := 0;
    while s < |ctx.samples| && status.Running?
      invariant 0 <= s <= |ctx.samples| && status == st.status
      invariant st == RunSamples(ctx, p, s)
      invariant Mirrors(st, live, trace, store, cache, results0, errors0)
      invariant store.manifest == old(store.manifest) && store.summary == old(store.summary)
      invariant store.summaryWrites == old(store.summaryWrites)
    {
      status, live, trace, st := RunSample(ctx, p, s, store, cache, live, trace, st, results0, errors0);
      s := s + 1;
    }
    ProviderDone(ctx, p, s, st);
  }

  /** Where the loop over one provider's samples ends: after its last
      sample, or stopped, at the end of the whole run. */
  lemma ProviderDone(ctx: Ctx, p: nat, s: nat, st: RunState)
    requires ValidCtx(ctx) && p < |ctx.providers| && s <= |ctx.samples|
    requires st == RunSamples(ctx, p, s) && (s == |ctx.samples| || !st.status.Running?)
    ensures st.status.Running? ==> st == RunSamples(ctx, p, |ctx.samples|)
    ensures !st.status.Running? ==> st == RunAll(ctx)
  {
    if !st.status.Running? {
      Stuck(ctx, p, s);
    }
  }

  /** The loop of `run_evaluation` (runner.py:91-265) once the samples and the
      completed keys are known: its effect on the cache, the logs and the
      summary is the one `RunAll` describes, and the summary is written
      exactly once unless the run crashes, when it is not written at all. */
  method Execute(ctx: Ctx, store: ArtifactStore, cache: ResponseCache)
    returns (r: Result<ExecutionSummary, Crash>, trace: seq<Event>)
    requires ValidCtx(ctx) && cache.entries == ctx.cache0
    modifies store, cache
    ensures var st := RunAll(ctx);
      && trace == st.trace && cache.entries == st.cache
      && store.results == ResultsAfter(old(store.results), st.rows)
      && store.errors == old(store.errors) + st.errors
      && store.manifest == old(store.manifest)
      && (st.status.Crashed? ==>
            r == Err(st.status.crash) && store.summary == old(store.summary)
            && store.summaryWrites == old(store.summaryWrites))
      && (!st.status.Crashed? ==>
            r == Ok(ExecutionOf(ctx, st)) && store.summary == Some(SummaryOf(ctx, st))
            && store.summaryWrites == old(store.summaryWrites) + 1)
  {
    ghost var results0 := store.results;
    ghost var errors0 := store.errors;
    var live := InitLive(ctx.providers);
    trace := [];
    ghost var st := Init(ctx);
    assert errors0 + [] == errors0;
    var status := Running;
    var p := 0;
    while p < |ctx.providers| && status.Running?
      invariant 0 <= p <= |ctx.providers| && status == st.status
      invariant status.Running? ==> st == Before(ctx, p)
      invariant !status.Running? ==> st == RunAll(ctx)
      invariant Mirrors(st, live, trace, store, cache, results0, errors0)
      invariant store.manifest == old(store.manifest) && store.summary == old(store.summary)
      invariant store.summaryWrites == old(store.summaryWrites)
    {
      if ctx.providers[p].provider == Local {
        st := StartProvider(ctx, st, p);
        Stuck(ctx, p, 0);
        status := Crashed(ProviderNotImplemented(NameOf(ctx, p)));
      } else {
        assert st == RunSamples(ctx, p, 0);
        status, live, trace, st := RunProvider(ctx, p, store, cache, live, trace, st, results0, errors0);
        BeforeNext(ctx, p);
      }
      p := p + 1;
    }
    if status.Crashed? {
      r := Err(status.crash);
    } else {
      var e := Finish(ctx, store, live, status, st);
      r := Ok(e);
    }
  }

  /** The state before provider `p + 1` is the state after all samples of
      provider `p`. */
  lemma BeforeNext(ctx: Ctx, p: nat)
    requires ValidCtx(ctx) && p < |ctx.providers|
    ensures Before(ctx, p + 1) == RunSamples(ctx, p, |ctx.samples|)
  {
  }

  // ----- run_evaluation -----

  /** The run directory `runs/<runId>` as it is on disk: empty when absent. */
  function DirectoryOf(runs: map<string, RunDirectory>, runId: string): RunDirectory {
    if runId in runs then runs[runId] else EmptyDirectory
  }

  /** The cache directory of a run: empty when absent. */
  function CacheDirOf(caches: map<string, map<string, Payload>>, runId: string): map<string, Payload> {
    if runId in caches then caches[runId] else map[]
  }

  /** The dataset file at `path`; `None` when it does not exist. */
  function DatasetFile(datasets: map<string, seq<DatasetLine>>, path: string): Option<seq<DatasetLine>> {
    if path in datasets then Some(datasets[path]) else None
  }

  /** What the loop of `run_evaluation` starts from (runner.py:81-90), or the
      exception raised before it: an unsupported benchmark, a dataset that
      cannot be read, or a results file that cannot be parsed. */
  function Prepare(config: RunConfig, policy: RuntimePolicy, manifest: RunManifest,
                   datasets: map<string, seq<DatasetLine>>, runDir: RunDirectory,
                   cache0: map<string, Payload>, oracle: Oracle, keySha: RequestPayload -> HexDigest)
    : (r: Result<Ctx, Crash>)
    requires forall path :: path in datasets ==> ChoicesAtMost(datasets[path], MaxChoices)
    ensures r.Ok? ==> ValidCtx(r.value)
    ensures r.Ok? <==> config.benchmark.name == "mmlu_subset"
                       && Load(DatasetFile(datasets, config.benchmark.datasetPath), config.benchmark.maxSamples).Ok?
                       && CompletedKeysOf(runDir.results).Ok?
    ensures r.Ok? ==> r.value.completed == CompletedKeysOf(runDir.results).value
                      && r.value.samples == Load(DatasetFile(datasets, config.benchmark.datasetPath),
                                                 config.benchmark.maxSamples).value
                      && r.value.runId == manifest.runId && r.value.cache0 == cache0
                      && r.value.providers == config.providers && r.value.policy == policy
    ensures config.benchmark.name != "mmlu_subset" ==> r == Err(UnsupportedBenchmark(config.benchmark.name))
  {
    if config.benchmark.name != "mmlu_subset" then Err(UnsupportedBenchmark(config.benchmark.name))
    else
      var file := DatasetFile(datasets, config.benchmark.datasetPath);
      match Load(file, config.benchmark.maxSamples)
      case Err(e) => Err(DatasetUnreadable(e))
      case Ok(samples) =>
        LoadChoicesAtMost(file, config.benchmark.maxSamples, MaxChoices);
        match CompletedKeysOf(runDir.results)
        case Err(line) => Err(ResultsUnreadable(line))
        case Ok(keys) => Ok(Ctx(manifest.runId, config.providers, samples, policy, keys, cache0, oracle, keySha))
  }

  /** What the loop does to a run directory that held `before` and to the
      cache: the trace and the cache are those of `RunAll`, the manifest is
      kept, its records and errors are appended to the logs, and the summary
      is written unless the run crashes. */
  ghost predicate Ran(ctx: Ctx, before: RunDirectory, after: RunDirectory, cacheAfter: map<string, Payload>,
                      r: Result<ExecutionSummary, Crash>, trace: seq<Event>)
    requires ValidCtx(ctx)
  {
    var st := RunAll(ctx);
    && trace == st.trace && cacheAfter == st.cache
    && after.manifest == before.manifest
    && after.results == ResultsAfter(before.results, st.rows)
    && after.errors == before.errors + st.errors
    && (st.status.Crashed? ==> r == Err(st.status.crash) && after.summary == before.summary)
    && (!st.status.Crashed? ==> r == Ok(ExecutionOf(ctx, st)) && after.summary == Some(SummaryOf(ctx, st)))
  }

  /** The steps of `run_evaluation` between writing the manifest and the
      loop (runner.py:81-90): they read the dataset and the results log
      and change nothing. */
  method PrepareRun(config: RunConfig, policy: RuntimePolicy, manifest: RunManifest,
                    datasets: map<string, seq<DatasetLine>>, store: ArtifactStore, cache: ResponseCache,
                    oracle: Oracle, keySha: RequestPayload -> HexDigest)
    returns (r: Result<Ctx, Crash>)
    requires forall path :: path in datasets ==> ChoicesAtMost(datasets[path], MaxChoices)
    ensures r == Prepare(config, policy, manifest, datasets, store.Contents(), cache.entries, oracle, keySha)
  {
    if config.benchmark.name != "mmlu_subset" {
      return Err(UnsupportedBenchmark(config.benchmark.name));
    }
    var file := DatasetFile(datasets, config.benchmark.datasetPath);
    var samples := LoadDataset(file, config.benchmark.maxSamples);
    if samples.Err? {
      return Err(DatasetUnreadable(samples.error));
    }
    var completed := store.LoadCompletedKeys();
    if completed.Err? {
      return Err(ResultsUnreadable(completed.error));
    }
    r := Ok(Ctx(manifest.runId, config.providers, samples.value, policy, completed.value,
                cache.entries, oracle, keySha));
  }

  /** `run_evaluation` once the policy is merged (runner.py:68-265): the
      manifest is written, the run prepared and the loop executed; only the
      directories of this run change. */
  method RunWithPolicy(config: RunConfig, policy: RuntimePolicy, createdAt: string,
                       runSha: Fingerprint -> HexDigest, keySha: RequestPayload -> HexDigest,
                       datasets: map<string, seq<DatasetLine>>, runs: map<string, RunDirectory>,
                       caches: map<string, map<string, Payload>>, oracle: Oracle)
    returns (r: Result<ExecutionSummary, Crash>, trace: seq<Event>,
             runsAfter: map<string, RunDirectory>, cachesAfter: map<string, map<string, Payload>>)
    requires forall path :: path in datasets ==> ChoicesAtMost(datasets[path], MaxChoices)
    ensures var m := BuildRunManifest(config.(policy := policy), createdAt, runSha);
      var runDir := DirectoryOf(runs, m.runId).(manifest := Some(m));
      && runsAfter.Keys == runs.Keys + {m.runId} && cachesAfter.Keys == caches.Keys + {m.runId}
      && (forall id :: id in runs && id != m.runId ==> runsAfter[id] == runs[id])
      && (forall id :: id in caches && id != m.runId ==> cachesAfter[id] == caches[id])
      && match Prepare(config, policy, m, datasets, runDir, CacheDirOf(caches, m.runId), oracle, keySha)
         case Err(crash) =>
           r == Err(crash) && trace == []
           && runsAfter[m.runId] == runDir && cachesAfter[m.runId] == CacheDirOf(caches, m.runId)
         case Ok(ctx) => Ran(ctx, runDir, runsAfter[m.runId], cachesAfter[m.runId], r, trace)
  {
    var cfg := config.(policy := policy);
    var manifest := BuildRunManifest(cfg, createdAt, runSha);
    var store := new ArtifactStore(manifest.runId, DirectoryOf(runs, manifest.runId));
    var cache := new ResponseCache(CacheDirOf(caches, manifest.runId));
    store.WriteManifest(manifest);
    var prepared := PrepareRun(config, policy, manifest, datasets, store, cache, oracle, keySha);
    trace := [];
    if prepared.Ok? {
      ghost var before := store.Contents();
      r, trace := Execute(prepared.value, store, cache);
      assert Ran(prepared.value, before, store.Contents(), cache.entries, r, trace);
    } else {
      r := Err(prepared.error);
    }
    runsAfter := runs[manifest.runId := store.Contents()];
    cachesAfter := caches[manifest.runId := cache.entries];
  }

  /** `run_evaluation` (runner.py:65-265) over a disk given as the existing run
      and cache directories, keyed by run id, and the dataset files, keyed by
      path. It returns the caller's configuration, whose policy the run
      replaces by the merged one, and the disk afterwards: only the
      directories of this run change. The clock reading, the hash functions
      and the providers are parameters; `random.seed` has no effect on
      anything modelled. */
  method RunEvaluation(config: RunConfig, policyFile: Option<YamlValue>, env: Environ, envFile: Option<seq<string>>,
                       createdAt: string, runSha: Fingerprint -> HexDigest, keySha: RequestPayload -> HexDigest,
                       datasets: map<string, seq<DatasetLine>>, runs: map<string, RunDirectory>,
                       caches: map<string, map<string, Payload>>, oracle: Oracle)
    returns (r: Result<ExecutionSummary, Crash>, configAfter: RunConfig, trace: seq<Event>,
             runsAfter: map<string, RunDirectory>, cachesAfter: map<string, map<string, Payload>>)
    requires forall path :: path in datasets ==> ChoicesAtMost(datasets[path], MaxChoices)
    modifies env
    ensures envFile.None? ==> env.vars == old(env.vars)
    ensures envFile.Some? ==> env.vars == LoadEnv(old(env.vars), envFile.value).vars
    ensures !EnvLoads(old(env.vars), envFile) ==>
      && r == Err(EnvFileRejected(LoadEnv(old(env.vars), envFile.value).line))
      && configAfter == config && trace == [] && runsAfter == runs && cachesAfter == caches
    ensures EnvLoads(old(env.vars), envFile) && MergePolicy(config, policyFile).Err? ==>
      r == Err(PolicyUnreadable(MergePolicy(config, policyFile).error)) && configAfter == config
      && trace == [] && runsAfter == runs && cachesAfter == caches
    ensures EnvLoads(old(env.vars), envFile) && MergePolicy(config, policyFile).Ok? ==>
      var policy := MergePolicy(config, policyFile).value;
      var m := BuildRunManifest(config.(policy := policy), createdAt, runSha);
      var runDir := DirectoryOf(runs, m.runId).(manifest := Some(m));
      && configAfter == config.(policy := policy)
      && runsAfter.Keys == runs.Keys + {m.runId} && cachesAfter.Keys == caches.Keys + {m.runId}
      && (forall id :: id in runs && id != m.runId ==> runsAfter[id] == runs[id])
      && (forall id :: id in caches && id != m.runId ==> cachesAfter[id] == caches[id])
      && match Prepare(config, policy, m, datasets, runDir, CacheDirOf(caches, m.runId), oracle, keySha)
         case Err(crash) =>
           r == Err(crash) && trace == []
           && runsAfter[m.runId] == runDir && cachesAfter[m.runId] == CacheDirOf(caches, m.runId)
         case Ok(ctx) => Ran(ctx, runDir, runsAfter[m.runId], cachesAfter[m.runId], r, trace)
  {
    var rejected := env.LoadEnvFile(envFile);
    if rejected.Some? {
      return Err(EnvFileRejected(rejected.value)), config, [], runs, caches;
    }
    var merged := MergePolicy(config, policyFile);
    if merged.Err? {
      return Err(PolicyUnreadable(merged.error)), config, [], runs, caches;
    }
    configAfter := config.(policy := merged.value);
    r, trace, runsAfter, cachesAfter := RunWithPolicy(config, merged.value, createdAt, runSha, keySha,
                                                      datasets, runs, caches, oracle);
  }
}
