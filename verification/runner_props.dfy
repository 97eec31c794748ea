/** Properties of the run engine: answer letters, the retry loop, one step of
    the run, the counters, the circuit breaker and resuming a run. */
module RunnerProps {
  import opened Wrappers
  import opened Text
  import opened Benchmarks
  import opened Config
  import opened Cache
  import opened Storage
  import opened Runner
  import opened Sums

  // ----- Answer letters -----

  /** A one-letter reply is read as that letter, upper-cased. */
  lemma SingleLetterReply(c: char)
    requires IsAsciiLetter(c)
    ensures ExtractOptionLetter([c]) == Some(UpperChar(c))
  {
    assert StandaloneAt(Upper([c]), 0);
  }

  /** The first standalone capital wins, even when it is not meant as an
      answer: "I think B" is read as `I`; letters in brackets stand alone. */
  lemma FirstStandaloneLetterWins()
    ensures ExtractOptionLetter("I think B") == Some('I')
    ensures ExtractOptionLetter("(b)") == Some('B')
    ensures ExtractOptionLetter("none") == None
  {
    var u := Upper("I think B");
    assert StandaloneAt(u, 0);
    var v := Upper("(b)");
    assert v == "(B)";
    assert StandaloneAt(v, 1);
    var w := Upper("none");
    assert w == "NONE";
  }

  /** A correct answer can only be one of the 26 letters: the answer index is
      between 0 and 25. */
  lemma CorrectNeedsLetterIndex(text: string, answerIndex: int)
    requires CorrectLetter(answerIndex).Ok?
    requires IsCorrect(ExtractOptionLetter(text), CorrectLetter(answerIndex).value)
    ensures 0 <= answerIndex <= 25
  {
  }

  /** The expected letter is the label the prompt shows for the correct
      option. */
  lemma ExpectedLetterIsPromptLabel(sample: Sample)
    requires 0 <= sample.answerIndex < |sample.choices| <= MaxChoices
    ensures CorrectLetter(sample.answerIndex) == Ok(Label(sample.answerIndex) as int)
  {
  }

  /** Replying with exactly the label of the correct option scores, for the
      first 26 options. */
  lemma ReplyingTheLabelScores(sample: Sample)
    requires 0 <= sample.answerIndex < |sample.choices| && sample.answerIndex < 26
    ensures IsCorrect(ExtractOptionLetter([Label(sample.answerIndex)]), CorrectLetter(sample.answerIndex).value)
  {
    var c := Label(sample.answerIndex);
    SingleLetterReply(c);
  }

  // ----- The retry loop -----

  /** The loop retries this outcome of attempt `m`. */
  predicate Retried(retry: RetryPolicy, o: Outcome, m: nat) {
    o.HttpError? && m < retry.maxAttempts && o.status in retry.retryableStatusCodes
  }

  /** How the last attempt ends the loop. */
  predicate Ends(retry: RetryPolicy, o: Outcome, n: nat, result: CallResult) {
    match o
    case Response(text, latency, usage) => result == Succeeded(text, latency.GetOr(0), usage)
    case HttpError(status, message) =>
      if Retried(retry, o, n) then
        if |retry.backoffSeconds| == 0 then result == Raised(BackoffIndexOutOfRange)
        else n >= 1 && BackoffAt(retry, n) < 0 && result == Raised(NegativeSleep(BackoffAt(retry, n)))
      else result == GaveUp("ProviderHTTPError", HttpErrorText(status, message))
    case OtherError(errorType, message) => result == GaveUp(errorType, message)
  }

  /** The trace of attempts `made + 1` onwards: calls at even positions,
      backoff sleeps, never negative, at odd ones. */
  ghost predicate Alternates(retry: RetryPolicy, p: nat, s: nat, made: nat, events: seq<Event>) {
    forall k :: 0 <= k < |events| ==>
      if k % 2 == 0 then events[k] == Generate(p, s, made + 1 + k / 2)
      else SleptFor(retry, made + 1 + k / 2, events[k])
  }

  /** The sleep after attempt `m`: its backoff, which is not negative. */
  predicate SleptFor(retry: RetryPolicy, m: nat, e: Event) {
    |retry.backoffSeconds| > 0 && m >= 1 && BackoffAt(retry, m) >= 0 && e == Sleep(BackoffAt(retry, m))
  }

  lemma AlternatesCons(retry: RetryPolicy, p: nat, s: nat, made: nat, rest: seq<Event>)
    requires |retry.backoffSeconds| > 0 && BackoffAt(retry, made + 1) >= 0
    requires Alternates(retry, p, s, made + 1, rest)
    ensures Alternates(retry, p, s, made, [Generate(p, s, made + 1), Sleep(BackoffAt(retry, made + 1))] + rest)
  {
    var e := [Generate(p, s, made + 1), Sleep(BackoffAt(retry, made + 1))] + rest;
    forall k | 2 <= k < |e|
      ensures if k % 2 == 0 then e[k] == Generate(p, s, made + 1 + k / 2)
              else SleptFor(retry, made + 1 + k / 2, e[k])
    {
      assert e[k] == rest[k - 2];
      assert (k - 2) % 2 == k % 2 && (k - 2) / 2 + 1 == k / 2;
    }
  }

  /** The retry loop in closed form: attempts `made + 1` to `n`, at most
      `max(made + 1, max_attempts)` of them, all but the last retried; the
      trace alternates the calls with the backoff sleeps; the last attempt
      decides the result. */
  lemma {:induction false} AttemptsShape(retry: RetryPolicy, oracle: Oracle, p: nat, s: nat, made: nat)
    ensures var c := Attempts(retry, oracle, p, s, made);
      && made < c.attempts <= Max(made + 1, retry.maxAttempts)
      && (forall m :: made < m < c.attempts ==> Retried(retry, oracle(p, s, m), m))
      && (|retry.backoffSeconds| == 0 ==> c.attempts == made + 1)
      && |c.events| == 2 * (c.attempts - made) - 1
      && Alternates(retry, p, s, made, c.events)
      && Ends(retry, oracle(p, s, c.attempts), c.attempts, c.result)
    decreases retry.maxAttempts - made
  {
    var n := made + 1;
    var o := oracle(p, s, n);
    var c := Attempts(retry, oracle, p, s, made);
    if o.HttpError? && n < retry.maxAttempts && o.status in retry.retryableStatusCodes
       && |retry.backoffSeconds| > 0 && BackoffAt(retry, n) >= 0 {
      AttemptsShape(retry, oracle, p, s, n);
      var rest := Attempts(retry, oracle, p, s, n);
      assert c == Calls(rest.result, rest.attempts, [Generate(p, s, n), Sleep(BackoffAt(retry, n))] + rest.events);
      AlternatesCons(retry, p, s, made, rest.events);
    } else {
      assert |c.events| == 1 && c.events[0] == Generate(p, s, n);
    }
  }

  /** `max_attempts` bounds the calls made for one pair (one call at least). */
  lemma AtMostMaxAttempts(retry: RetryPolicy, oracle: Oracle, p: nat, s: nat)
    ensures 1 <= Attempts(retry, oracle, p, s, 0).attempts <= Max(1, retry.maxAttempts)
  {
    AttemptsShape(retry, oracle, p, s, 0);
  }

  /** With the default policy, a provider that keeps answering 503 is called
      three times, with sleeps of 1 and 2 seconds between the calls, and the
      error recorded is the third one. */
  lemma DefaultPolicyOnServerErrors(oracle: Oracle, p: nat, s: nat, message: string)
    requires forall m :: oracle(p, s, m) == HttpError(503, message)
    ensures Attempts(DefaultRetry, oracle, p, s, 0)
         == Calls(GaveUp("ProviderHTTPError", "HTTP 503: " + message), 3,
                  [Generate(p, s, 1), Sleep(1), Generate(p, s, 2), Sleep(2), Generate(p, s, 3)])
  {
    assert IntToString(503) == "503" by {
      assert IntToString(5) == "5";
      assert IntToString(50) == "50";
    }
    var text := "HTTP 503: " + message;
    assert HttpErrorText(503, message) == text;
    assert oracle(p, s, 3) == HttpError(503, message);
    assert Attempts(DefaultRetry, oracle, p, s, 2) == Calls(GaveUp("ProviderHTTPError", text), 3, [Generate(p, s, 3)]);
    assert oracle(p, s, 2) == HttpError(503, message);
    assert Attempts(DefaultRetry, oracle, p, s, 1)
        == Calls(GaveUp("ProviderHTTPError", text), 3, [Generate(p, s, 2), Sleep(2), Generate(p, s, 3)]);
    assert oracle(p, s, 1) == HttpError(503, message);
  }

  // ----- Provider names -----

  lemma {:induction false} NamesDistinct(providers: seq<ProviderConfig>)
    ensures Distinct(Names(providers))
    decreases |providers|
  {
    if |providers| > 0 {
      NamesDistinct(providers[..|providers| - 1]);
    }
  }

  /** Every provider's name is a key of `provider_metrics`. */
  lemma {:induction false} NamesCover(providers: seq<ProviderConfig>, p: nat)
    requires p < |providers|
    ensures ProviderText(providers[p].provider) in Names(providers)
    decreases |providers|
  {
    var init := providers[..|providers| - 1];
    if p < |providers| - 1 {
      assert init[p] == providers[p];
      NamesCover(init, p);
    }
  }

  // ----- Sums over the providers -----

  function Requests(c: Counters): int {
    c.requests
  }

  function ErrorCount(c: Counters): int {
    c.errors
  }

  // ----- What the logs say per provider -----

  function RowsFor(rows: seq<ResultRow>, name: string): nat
    decreases |rows|
  {
    if rows == [] then 0
    else RowsFor(rows[..|rows| - 1], name) + (if rows[|rows| - 1].provider == Some(name) then 1 else 0)
  }

  function CorrectRowsFor(rows: seq<ResultRow>, name: string): nat
    decreases |rows|
  {
    if rows == [] then 0
    else
      var r := rows[|rows| - 1];
      CorrectRowsFor(rows[..|rows| - 1], name) + (if r.provider == Some(name) && r.isCorrect == Some(true) then 1 else 0)
  }

  function ErrorRowsFor(errors: seq<ErrorRow>, name: string): nat
    decreases |errors|
  {
    if errors == [] then 0
    else ErrorRowsFor(errors[..|errors| - 1], name) + (if errors[|errors| - 1].provider == name then 1 else 0)
  }

  lemma {:induction false} CorrectRowsAtMostRows(rows: seq<ResultRow>, name: string)
    ensures CorrectRowsFor(rows, name) <= RowsFor(rows, name)
    decreases |rows|
  {
    if rows != [] {
      CorrectRowsAtMostRows(rows[..|rows| - 1], name);
    }
  }

  lemma AppendRow(rows: seq<ResultRow>, r: ResultRow, name: string)
    ensures RowsFor(rows + [r], name) == RowsFor(rows, name) + (if r.provider == Some(name) then 1 else 0)
    ensures CorrectRowsFor(rows + [r], name)
         == CorrectRowsFor(rows, name) + (if r.provider == Some(name) && r.isCorrect == Some(true) then 1 else 0)
  {
    assert (rows + [r])[..|rows|] == rows;
  }

  lemma AppendErrorRow(errors: seq<ErrorRow>, e: ErrorRow, name: string)
    ensures ErrorRowsFor(errors + [e], name) == ErrorRowsFor(errors, name) + (if e.provider == name then 1 else 0)
  {
    assert (errors + [e])[..|errors|] == errors;
  }

  // ----- The counters agree with the logs -----

  predicate Sane(c: Counters) {
    c.requests == c.attempted && 0 <= c.errors <= c.requests && 0 <= c.correct <= c.attempted
  }

  /** The counters of provider `n` agree with the logs written during the
      run; `pending` is the provider whose request has been counted but whose
      result row is not written yet. */
  ghost predicate Ledger(st: RunState, n: string, pending: Option<string>) {
    var c := CountersOf(st.live, n);
    && Sane(c)
    && ErrorRowsFor(st.errors, n) == c.errors
    && CorrectRowsFor(st.rows, n) == c.correct
    && RowsFor(st.rows, n) + (if pending == Some(n) then 1 else 0) == c.requests
  }

  /** The totals are the sums of the per-provider counters and the lengths of
      the logs. */
  ghost predicate Totals(names: seq<string>, st: RunState, pending: Option<string>) {
    && st.live.totalRequests == SumOf(names, st.live.metrics, Requests)
    && st.live.totalErrors == SumOf(names, st.live.metrics, ErrorCount)
    && |st.errors| == st.live.totalErrors
    && |st.rows| + (if pending.Some? then 1 else 0) == st.live.totalRequests
  }

  ghost predicate Books(ctx: Ctx, st: RunState, pending: Option<string>) {
    var names := Names(ctx.providers);
    && (forall n :: n in st.live.metrics <==> n in names)
    && Totals(names, st, pending)
    && (forall n {:trigger Ledger(st, n, pending)} :: n in names ==> Ledger(st, n, pending))
  }

  /** A run that has not crashed has one result row per counted request; a
      crash may leave the last counted request without its row. */
  ghost predicate Consistent(ctx: Ctx, st: RunState) {
    if st.status.Crashed? then exists pending :: Books(ctx, st, pending) else Books(ctx, st, None)
  }

  lemma InitConsistent(ctx: Ctx)
    ensures Consistent(ctx, Init(ctx))
  {
    var names := Names(ctx.providers);
    var live := InitLive(ctx.providers);
    SumOfZero(names, live.metrics, Requests);
    SumOfZero(names, live.metrics, ErrorCount);
    assert Books(ctx, Init(ctx), None);
  }

  lemma CountRequestTotals(names: seq<string>, st: RunState, name: string)
    requires Distinct(names) && name in names && Totals(names, st, None)
    ensures Totals(names, st.(live := CountRequest(st.live, name)), Some(name))
  {
    var c := CountersOf(st.live, name);
    var c2 := c.(requests := c.requests + 1, attempted := c.attempted + 1);
    assert CountRequest(st.live, name)
        == st.live.(metrics := st.live.metrics[name := c2], totalRequests := st.live.totalRequests + 1);
    SumUpdate(names, st.live.metrics, name, c2, Requests);
    SumUpdate(names, st.live.metrics, name, c2, ErrorCount);
  }

  lemma CountRequestLedger(st: RunState, n: string, name: string)
    requires Ledger(st, n, None)
    ensures Ledger(st.(live := CountRequest(st.live, name)), n, Some(name))
  {
    var c := CountersOf(st.live, n);
    if n == name {
      assert CountersOf(CountRequest(st.live, name), n) == c.(requests := c.requests + 1, attempted := c.attempted + 1);
    } else {
      assert CountersOf(CountRequest(st.live, name), n) == c;
    }
  }

  lemma CountRequestBooks(ctx: Ctx, st: RunState, name: string)
    requires Books(ctx, st, None) && name in Names(ctx.providers)
    ensures var after := st.(live := CountRequest(st.live, name));
      && Books(ctx, after, Some(name))
      && CountersOf(after.live, name).errors < CountersOf(after.live, name).requests
  {
    var names := Names(ctx.providers);
    NamesDistinct(ctx.providers);
    var after := st.(live := CountRequest(st.live, name));
    CountRequestTotals(names, st, name);
    forall n | n in names ensures Ledger(after, n, Some(name)) {
      CountRequestLedger(st, n, name);
    }
    assert forall n :: n in after.live.metrics <==> n in st.live.metrics;
    assert Ledger(st, name, None);
    assert Ledger(after, name, Some(name));
  }

  lemma CountErrorTotals(names: seq<string>, st: RunState, name: string, err: ErrorRow)
    requires Distinct(names) && name in names && Totals(names, st, Some(name))
    ensures Totals(names, st.(live := CountError(st.live, name), errors := st.errors + [err]), Some(name))
  {
    var c := CountersOf(st.live, name);
    var c2 := c.(errors := c.errors + 1);
    assert CountError(st.live, name)
        == st.live.(metrics := st.live.metrics[name := c2], totalErrors := st.live.totalErrors + 1);
    SumUpdate(names, st.live.metrics, name, c2, Requests);
    SumUpdate(names, st.live.metrics, name, c2, ErrorCount);
  }

  lemma CountErrorLedger(st: RunState, n: string, name: string, err: ErrorRow)
    requires Ledger(st, n, Some(name)) && err.provider == name
    requires CountersOf(st.live, name).errors < CountersOf(st.live, name).requests
    ensures Ledger(st.(live := CountError(st.live, name), errors := st.errors + [err]), n, Some(name))
  {
    var c := CountersOf(st.live, n);
    AppendErrorRow(st.errors, err, n);
    if n == name {
      assert CountersOf(CountError(st.live, name), n) == c.(errors := c.errors + 1);
    } else {
      assert CountersOf(CountError(st.live, name), n) == c;
    }
  }

  lemma CountErrorBooks(ctx: Ctx, st: RunState, name: string, err: ErrorRow)
    requires Books(ctx, st, Some(name)) && name in Names(ctx.providers) && err.provider == name
    requires CountersOf(st.live, name).errors < CountersOf(st.live, name).requests
    ensures Books(ctx, st.(live := CountError(st.live, name), errors := st.errors + [err]), Some(name))
  {
    var names := Names(ctx.providers);
    NamesDistinct(ctx.providers);
    var after := st.(live := CountError(st.live, name), errors := st.errors + [err]);
    CountErrorTotals(names, st, name, err);
    forall n | n in names ensures Ledger(after, n, Some(name)) {
      CountErrorLedger(st, n, name, err);
    }
    assert forall n :: n in after.live.metrics <==> n in st.live.metrics;
  }

  /** Writing the result row of the pending request settles it, for one
      provider's counters. */
  lemma RecordRowLedger(st: RunState, n: string, name: string, row: ResultRow, correct: bool)
    requires Ledger(st, n, Some(name))
    requires row.provider == Some(name) && row.isCorrect == Some(correct)
    ensures Ledger(st.(live := if correct then CountCorrect(st.live, name) else st.live,
                       rows := st.rows + [row]), n, None)
  {
    var live := if correct then CountCorrect(st.live, name) else st.live;
    var c := CountersOf(st.live, n);
    AppendRow(st.rows, row, n);
    CorrectRowsAtMostRows(st.rows, n);
    if n == name && correct {
      assert CountersOf(live, n) == c.(correct := c.correct + 1);
    } else {
      assert CountersOf(live, n) == c;
    }
  }

  /** Writing the result row of the pending request settles it, for the
      totals. */
  lemma RecordRowTotals(names: seq<string>, st: RunState, name: string, row: ResultRow, correct: bool)
    requires Distinct(names) && Totals(names, st, Some(name))
    ensures Totals(names, st.(live := if correct then CountCorrect(st.live, name) else st.live,
                              rows := st.rows + [row]), None)
  {
    var live := if correct then CountCorrect(st.live, name) else st.live;
    if correct {
      var c := CountersOf(st.live, name);
      assert live.metrics == st.live.metrics[name := c.(correct := c.correct + 1)];
      SumUpdate(names, st.live.metrics, name, c.(correct := c.correct + 1), Requests);
      SumUpdate(names, st.live.metrics, name, c.(correct := c.correct + 1), ErrorCount);
    }
  }

  /** Writing the result row of the pending request settles it. */
  lemma RecordRowBooks(ctx: Ctx, st: RunState, name: string, row: ResultRow, correct: bool)
    requires Books(ctx, st, Some(name)) && name in Names(ctx.providers)
    requires row.provider == Some(name) && row.isCorrect == Some(correct)
    ensures Books(ctx, st.(live := if correct then CountCorrect(st.live, name) else st.live,
                           rows := st.rows + [row]), None)
  {
    var names := Names(ctx.providers);
    NamesDistinct(ctx.providers);
    var after := st.(live := if correct then CountCorrect(st.live, name) else st.live, rows := st.rows + [row]);
    RecordRowTotals(names, st, name, row, correct);
    forall n | n in names ensures Ledger(after, n, None) {
      RecordRowLedger(st, n, name, row, correct);
    }
    assert forall n :: n in after.live.metrics <==> n in st.live.metrics;
  }

  /** The books read only the counters and the two logs. */
  lemma BooksSame(ctx: Ctx, a: RunState, b: RunState, pending: Option<string>)
    requires Books(ctx, a, pending)
    requires a.live == b.live && a.rows == b.rows && a.errors == b.errors
    ensures Books(ctx, b, pending)
  {
    var names := Names(ctx.providers);
    assert Totals(names, b, pending);
    forall n | n in names ensures Ledger(b, n, pending) {
      assert Ledger(a, n, pending);
    }
  }

  /** The books do not mention the status, so a run that stops keeps them. */
  lemma BooksConsistent(ctx: Ctx, st: RunState, status: Status)
    requires Books(ctx, st, None)
    ensures Consistent(ctx, st.(status := status))
  {
    BooksSame(ctx, st, st.(status := status), None);
  }

  /** The state `Score` leaves when the expected letter is known. */
  lemma ScoreShape(ctx: Ctx, st: RunState, p: nat, s: nat, key: string,
                   text: string, latency: int, usage: Option<Usage>, expected: int)
    requires p < |ctx.providers| && s < |ctx.samples|
    requires CorrectLetter(ctx.samples[s].answerIndex) == Ok(expected)
    ensures var name := NameOf(ctx, p);
      var predicted := ExtractOptionLetter(text);
      var live := if IsCorrect(predicted, expected) then CountCorrect(st.live, name) else st.live;
      var row := ResultRowFor(ctx, p, s, key, predicted, expected, text, latency, usage);
      var status := if TripsBreaker(ctx.policy, CountersOf(live, name)) then StoppedOnErrorRate else st.status;
      Score(ctx, st, p, s, key, text, latency, usage) == st.(live := live, rows := st.rows + [row], status := status)
  {
  }

  lemma ScoreConsistent(ctx: Ctx, st: RunState, p: nat, s: nat, key: string,
                        text: string, latency: int, usage: Option<Usage>)
    requires p < |ctx.providers| && s < |ctx.samples|
    requires Books(ctx, st, Some(NameOf(ctx, p))) && NameOf(ctx, p) in Names(ctx.providers)
    ensures Consistent(ctx, Score(ctx, st, p, s, key, text, latency, usage))
  {
    match CorrectLetter(ctx.samples[s].answerIndex)
    case Err(ai) =>
      ScoreCrashConsistent(ctx, st, p, s, key, text, latency, usage, ai);
    case Ok(expected) =>
      ScoreRowConsistent(ctx, st, p, s, key, text, latency, usage, expected);
  }

  /** A crash on the answer index leaves the pending request without its
      row. */
  lemma ScoreCrashConsistent(ctx: Ctx, st: RunState, p: nat, s: nat, key: string,
                             text: string, latency: int, usage: Option<Usage>, ai: int)
    requires p < |ctx.providers| && s < |ctx.samples|
    requires CorrectLetter(ctx.samples[s].answerIndex) == Err(ai)
    requires Books(ctx, st, Some(NameOf(ctx, p)))
    ensures Consistent(ctx, Score(ctx, st, p, s, key, text, latency, usage))
  {
    var next := st.(status := Crashed(AnswerIndexOutOfRange(ai)));
    assert Score(ctx, st, p, s, key, text, latency, usage) == next;
    BooksSame(ctx, st, next, Some(NameOf(ctx, p)));
  }

  /** Writing the row settles the pending request. */
  lemma ScoreRowConsistent(ctx: Ctx, st: RunState, p: nat, s: nat, key: string,
                           text: string, latency: int, usage: Option<Usage>, expected: int)
    requires p < |ctx.providers| && s < |ctx.samples|
    requires CorrectLetter(ctx.samples[s].answerIndex) == Ok(expected)
    requires Books(ctx, st, Some(NameOf(ctx, p))) && NameOf(ctx, p) in Names(ctx.providers)
    ensures Consistent(ctx, Score(ctx, st, p, s, key, text, latency, usage))
  {
    var name := NameOf(ctx, p);
    var predicted := ExtractOptionLetter(text);
    var correct := IsCorrect(predicted, expected);
    var row := ResultRowFor(ctx, p, s, key, predicted, expected, text, latency, usage);
    var live := if correct then CountCorrect(st.live, name) else st.live;
    var after := st.(live := live, rows := st.rows + [row]);
    var status := if TripsBreaker(ctx.policy, CountersOf(live, name)) then StoppedOnErrorRate else st.status;
    ScoreShape(ctx, st, p, s, key, text, latency, usage, expected);
    RecordRowBooks(ctx, st, name, row, correct);
    BooksConsistent(ctx, after, status);
  }

  /** One step keeps the counters in agreement with the logs. */
  lemma ProcessConsistent(ctx: Ctx, st: RunState, p: nat, s: nat)
    requires ValidCtx(ctx) && p < |ctx.providers| && s < |ctx.samples|
    requires Consistent(ctx, st)
    ensures Consistent(ctx, Process(ctx, st, p, s))
  {
    if st.status.Running? && Key(ctx, p, s) !in ctx.completed {
      var name := NameOf(ctx, p);
      NamesCover(ctx.providers, p);
      CountRequestBooks(ctx, st, name);
      assert Ledger(st, name, None);
      if Key(ctx, p, s) in st.cache {
        CachedConsistent(ctx, st, p, s);
      } else {
        CalledConsistent(ctx, st, p, s);
      }
    }
  }

  /** The request about to be made for pair (`p`, `s`) is counted. */
  ghost predicate Counted(ctx: Ctx, st: RunState, p: nat, s: nat)
    requires ValidCtx(ctx) && p < |ctx.providers| && s < |ctx.samples|
  {
    && st.status.Running? && Key(ctx, p, s) !in ctx.completed
    && NameOf(ctx, p) in Names(ctx.providers)
    && Sane(CountersOf(st.live, NameOf(ctx, p)))
    && Books(ctx, st.(live := CountRequest(st.live, NameOf(ctx, p))), Some(NameOf(ctx, p)))
  }

  lemma CachedConsistent(ctx: Ctx, st: RunState, p: nat, s: nat)
    requires ValidCtx(ctx) && p < |ctx.providers| && s < |ctx.samples|
    requires Counted(ctx, st, p, s) && Key(ctx, p, s) in st.cache
    ensures Consistent(ctx, Process(ctx, st, p, s))
  {
    var key := Key(ctx, p, s);
    var counted := st.(live := CountRequest(st.live, NameOf(ctx, p)));
    var cached := st.cache[key];
    assert Process(ctx, st, p, s) == Score(ctx, counted, p, s, key, cached.text, cached.latencyMs, cached.usage);
    ScoreConsistent(ctx, counted, p, s, key, cached.text, cached.latencyMs, cached.usage);
  }

  lemma CalledConsistent(ctx: Ctx, st: RunState, p: nat, s: nat)
    requires ValidCtx(ctx) && p < |ctx.providers| && s < |ctx.samples|
    requires Counted(ctx, st, p, s) && Key(ctx, p, s) !in st.cache
    ensures Consistent(ctx, Process(ctx, st, p, s))
  {
    match Attempts(ctx.policy.reliability.retry, ctx.oracle, p, s, 0).result
    case Raised(_) =>
      RaisedConsistent(ctx, st, p, s);
    case Succeeded(_, _, _) =>
      SucceededConsistent(ctx, st, p, s);
    case GaveUp(_, _) =>
      GaveUpConsistent(ctx, st, p, s);
  }

  lemma RaisedConsistent(ctx: Ctx, st: RunState, p: nat, s: nat)
    requires ValidCtx(ctx) && p < |ctx.providers| && s < |ctx.samples|
    requires Counted(ctx, st, p, s) && Key(ctx, p, s) !in st.cache
    requires Attempts(ctx.policy.reliability.retry, ctx.oracle, p, s, 0).result.Raised?
    ensures Consistent(ctx, Process(ctx, st, p, s))
  {
    var name := NameOf(ctx, p);
    var counted := st.(live := CountRequest(st.live, name));
    var calls := Attempts(ctx.policy.reliability.retry, ctx.oracle, p, s, 0);
    var next := counted.(trace := st.trace + calls.events, status := Crashed(calls.result.crash));
    assert Process(ctx, st, p, s) == next;
    BooksSame(ctx, counted, next, Some(name));
  }

  lemma SucceededConsistent(ctx: Ctx, st: RunState, p: nat, s: nat)
    requires ValidCtx(ctx) && p < |ctx.providers| && s < |ctx.samples|
    requires Counted(ctx, st, p, s) && Key(ctx, p, s) !in st.cache
    requires Attempts(ctx.policy.reliability.retry, ctx.oracle, p, s, 0).result.Succeeded?
    ensures Consistent(ctx, Process(ctx, st, p, s))
  {
    var name := NameOf(ctx, p);
    var key := Key(ctx, p, s);
    var counted := st.(live := CountRequest(st.live, name));
    var calls := Attempts(ctx.policy.reliability.retry, ctx.oracle, p, s, 0);
    var r := calls.result;
    var stored := counted.(trace := st.trace + calls.events,
                           cache := st.cache[key := Payload(r.text, r.latencyMs, r.usage)]);
    assert Process(ctx, st, p, s) == Score(ctx, stored, p, s, key, r.text, r.latencyMs, r.usage);
    BooksSame(ctx, counted, stored, Some(name));
    ScoreConsistent(ctx, stored, p, s, key, r.text, r.latencyMs, r.usage);
  }

  lemma GaveUpConsistent(ctx: Ctx, st: RunState, p: nat, s: nat)
    requires ValidCtx(ctx) && p < |ctx.providers| && s < |ctx.samples|
    requires Counted(ctx, st, p, s) && Key(ctx, p, s) !in st.cache
    requires Attempts(ctx.policy.reliability.retry, ctx.oracle, p, s, 0).result.GaveUp?
    ensures Consistent(ctx, Process(ctx, st, p, s))
  {
    var name := NameOf(ctx, p);
    var key := Key(ctx, p, s);
    var calls := Attempts(ctx.policy.reliability.retry, ctx.oracle, p, s, 0);
    var pc := ctx.providers[p];
    var err := ErrorRow(ctx.runId, name, pc.model, ctx.samples[s].sampleId, key,
                        calls.result.errorType, calls.result.message, calls.attempts);
    var failed := st.(live := CountError(CountRequest(st.live, name), name), errors := st.errors + [err],
                      trace := st.trace + calls.events);
    assert Process(ctx, st, p, s) == Score(ctx, failed, p, s, key, "", 0, None);
    GaveUpBooks(ctx, st, name, err, st.trace + calls.events);
    ScoreConsistent(ctx, failed, p, s, key, "", 0, None);
  }

  /** Counting the error of a request that gave up keeps the books. */
  lemma GaveUpBooks(ctx: Ctx, st: RunState, name: string, err: ErrorRow, trace: seq<Event>)
    requires name in Names(ctx.providers) && err.provider == name
    requires Sane(CountersOf(st.live, name))
    requires Books(ctx, st.(live := CountRequest(st.live, name)), Some(name))
    ensures Books(ctx, st.(live := CountError(CountRequest(st.live, name), name), errors := st.errors + [err],
                           trace := trace), Some(name))
  {
    var counted := st.(live := CountRequest(st.live, name), trace := trace);
    BooksSame(ctx, st.(live := CountRequest(st.live, name)), counted, Some(name));
    var c := CountersOf(st.live, name);
    assert CountersOf(counted.live, name) == c.(requests := c.requests + 1, attempted := c.attempted + 1);
    CountErrorBooks(ctx, counted, name, err);
  }

  /** `Consistent` as a property of states. */
  ghost function ConsistentIn(ctx: Ctx): RunState -> bool {
    st => Consistent(ctx, st)
  }

  /** Every step of a run keeps its books consistent. */
  lemma ConsistentSteps(ctx: Ctx)
    requires ValidCtx(ctx)
    ensures ConsistentIn(ctx)(Init(ctx)) && StepsKeep(ctx, ConsistentIn(ctx))
  {
    InitConsistent(ctx);
    forall st, q | 0 <= q < |ctx.providers| && ConsistentIn(ctx)(st)
      ensures ConsistentIn(ctx)(StartProvider(ctx, st, q))
    {
      StartConsistent(ctx, st, q);
    }
    forall st, q, t | 0 <= q < |ctx.providers| && 0 <= t < |ctx.samples| && ConsistentIn(ctx)(st)
      ensures ConsistentIn(ctx)(Process(ctx, st, q, t))
    {
      ProcessConsistent(ctx, st, q, t);
    }
  }

  /** Starting a provider keeps the books: only the status may change. */
  lemma StartConsistent(ctx: Ctx, st: RunState, p: nat)
    requires p < |ctx.providers| && Consistent(ctx, st)
    ensures Consistent(ctx, StartProvider(ctx, st, p))
  {
    if st.status.Running? && ctx.providers[p].provider == Local {
      BooksSame(ctx, st, StartProvider(ctx, st, p), None);
    }
  }

  lemma BeforeConsistent(ctx: Ctx, p: nat)
    requires ValidCtx(ctx) && p <= |ctx.providers|
    ensures Consistent(ctx, Before(ctx, p))
  {
    ConsistentSteps(ctx);
    BeforeInduct(ctx, ConsistentIn(ctx), p);
  }

  /** At the end of a run the totals of the summary are the sums of the
      providers' counters, the error log has one record per counted error,
      and, unless the run crashed, the results log has one row per counted
      request; each provider's counters match its rows. */
  lemma RunTotals(ctx: Ctx)
    requires ValidCtx(ctx)
    ensures var st := RunAll(ctx);
      var e := ExecutionOf(ctx, st);
      && e.totalErrors == |st.errors|
      && e.totalRequests == SumOf(e.names, st.live.metrics, Requests)
      && e.totalErrors == SumOf(e.names, st.live.metrics, ErrorCount)
      && (!st.status.Crashed? ==> e.totalRequests == |st.rows|)
      && (st.status.Crashed? ==> |st.rows| <= e.totalRequests <= |st.rows| + 1)
      && (forall n :: n in e.providerMetrics <==> n in e.names)
      && (forall n :: n in e.providerMetrics ==>
            var m := e.providerMetrics[n];
            && m.requests == m.attempted && 0 <= m.errors <= m.requests && 0 <= m.correct <= m.attempted
            && 0.0 <= m.accuracy <= 1.0
            && m.errors == ErrorRowsFor(st.errors, n) && m.correct == CorrectRowsFor(st.rows, n)
            && (!st.status.Crashed? ==> m.attempted == RowsFor(st.rows, n)))
  {
    var st := RunAll(ctx);
    BeforeConsistent(ctx, |ctx.providers|);
    var pending: Option<string> := None;
    if st.status.Crashed? {
      pending :| Books(ctx, st, pending);
    }
    assert Books(ctx, st, pending);
    var names := Names(ctx.providers);
    forall n | n in names ensures Ledger(st, n, pending) {
    }
  }

  // ----- One step of the run -----

  /** A pair served from the cache makes no call, leaves the cache and the
      error log as they were; a pair not in the cache makes the calls of the
      retry loop, and stores the response only when there is one. */
  lemma PairCalls(ctx: Ctx, st: RunState, p: nat, s: nat)
    requires ValidCtx(ctx) && p < |ctx.providers| && s < |ctx.samples|
    requires st.status == Running && Key(ctx, p, s) !in ctx.completed
    ensures var n := Process(ctx, st, p, s);
      var key := Key(ctx, p, s);
      var calls := Attempts(ctx.policy.reliability.retry, ctx.oracle, p, s, 0);
      && n.live.totalRequests == st.live.totalRequests + 1
      && (key in st.cache ==> n.trace == st.trace && n.cache == st.cache && n.errors == st.errors)
      && (key !in st.cache ==> n.trace == st.trace + calls.events)
      && (key !in st.cache && calls.result.Succeeded? ==>
            n.cache == st.cache[key := Payload(calls.result.text, calls.result.latencyMs, calls.result.usage)])
      && (key !in st.cache && !calls.result.Succeeded? ==> n.cache == st.cache)
      && (key !in st.cache && calls.result.GaveUp? ==>
            n.errors == st.errors + [ErrorRow(ctx.runId, NameOf(ctx, p), ctx.providers[p].model,
                                              ctx.samples[s].sampleId, key, calls.result.errorType,
                                              calls.result.message, calls.attempts)])
      && (!(key !in st.cache && calls.result.GaveUp?) ==> n.errors == st.errors)
  {
    var key := Key(ctx, p, s);
    var name := NameOf(ctx, p);
    var counted := st.(live := CountRequest(st.live, name));
    if key in st.cache {
      var cached := st.cache[key];
      ScoreKeeps(ctx, counted, p, s, key, cached.text, cached.latencyMs, cached.usage);
    } else {
      var calls := Attempts(ctx.policy.reliability.retry, ctx.oracle, p, s, 0);
      var called := counted.(trace := st.trace + calls.events);
      match calls.result
      case Raised(_) =>
      case Succeeded(text, latency, usage) =>
        ScoreKeeps(ctx, called.(cache := st.cache[key := Payload(text, latency, usage)]), p, s, key,
                   text, latency, usage);
      case GaveUp(errorType, message) =>
        var pc := ctx.providers[p];
        var err := ErrorRow(ctx.runId, name, pc.model, ctx.samples[s].sampleId, key,
                            errorType, message, calls.attempts);
        ScoreKeeps(ctx, called.(live := CountError(counted.live, name), errors := st.errors + [err]),
                   p, s, key, "", 0, None);
    }
  }

  /** Scoring touches neither the request count, the trace, the cache nor
      the error log. */
  lemma ScoreKeeps(ctx: Ctx, st: RunState, p: nat, s: nat, key: string,
                   text: string, latency: int, usage: Option<Usage>)
    requires p < |ctx.providers| && s < |ctx.samples|
    ensures var n := Score(ctx, st, p, s, key, text, latency, usage);
      && n.live.totalRequests == st.live.totalRequests
      && n.trace == st.trace && n.cache == st.cache && n.errors == st.errors
  {
  }

  /** The result row written for pair (`p`, `s`). */
  predicate RowOfPair(ctx: Ctx, p: nat, s: nat, r: ResultRow)
    requires ValidCtx(ctx) && p < |ctx.providers| && s < |ctx.samples|
  {
    var sample := ctx.samples[s];
    && r.runId == Some(ctx.runId) && r.systemId == None
    && r.provider == Some(NameOf(ctx, p)) && r.model == Some(ctx.providers[p].model)
    && r.sampleId == Some(sample.sampleId) && r.category == Some(sample.category)
    && r.requestKey == Some(Key(ctx, p, s))
    && r.responseText.Some? && r.predicted == ExtractOptionLetter(r.responseText.value)
    && r.expected == Some(65 + sample.answerIndex)
    && r.isCorrect == Some(IsCorrect(r.predicted, 65 + sample.answerIndex))
  }

  lemma ScoreRow(ctx: Ctx, st: RunState, p: nat, s: nat, text: string, latency: int, usage: Option<Usage>)
    requires ValidCtx(ctx) && p < |ctx.providers| && s < |ctx.samples| && st.status == Running
    ensures var n := Score(ctx, st, p, s, Key(ctx, p, s), text, latency, usage);
      && (n.status.Crashed? <==> CorrectLetter(ctx.samples[s].answerIndex).Err?)
      && (n.status.Crashed? ==> n.rows == st.rows)
      && (!n.status.Crashed? ==>
            |n.rows| == |st.rows| + 1 && n.rows[..|st.rows|] == st.rows
            && RowOfPair(ctx, p, s, n.rows[|st.rows|]) && n.rows[|st.rows|].responseText == Some(text))
  {
    var n := Score(ctx, st, p, s, Key(ctx, p, s), text, latency, usage);
    if !n.status.Crashed? {
      assert n.rows[..|st.rows|] == st.rows;
    }
  }

  /** A pair that is processed writes exactly one result row unless the run
      crashes on it; a failed call is recorded with an empty response, which
      is never correct. The run crashes on a pair only when the retry loop
      raises (an empty backoff list, a negative backoff) or on an answer
      index outside what `chr` accepts. */
  lemma PairRow(ctx: Ctx, st: RunState, p: nat, s: nat)
    requires ValidCtx(ctx) && p < |ctx.providers| && s < |ctx.samples|
    requires st.status == Running && Key(ctx, p, s) !in ctx.completed
    ensures var n := Process(ctx, st, p, s);
      var key := Key(ctx, p, s);
      var calls := Attempts(ctx.policy.reliability.retry, ctx.oracle, p, s, 0);
      && (n.status.Crashed? <==> (key !in st.cache && calls.result.Raised?)
                                 || CorrectLetter(ctx.samples[s].answerIndex).Err?)
      && (key !in st.cache && calls.result.Raised? ==> n.status == Crashed(calls.result.crash))
      && (n.status.Crashed? ==> n.rows == st.rows)
      && (!n.status.Crashed? ==>
            |n.rows| == |st.rows| + 1 && n.rows[..|st.rows|] == st.rows && RowOfPair(ctx, p, s, n.rows[|st.rows|]))
      && (!n.status.Crashed? && key !in st.cache && calls.result.GaveUp? ==>
            n.rows[|st.rows|].responseText == Some("") && n.rows[|st.rows|].isCorrect == Some(false))
  {
    var key := Key(ctx, p, s);
    var name := NameOf(ctx, p);
    var counted := st.(live := CountRequest(st.live, name));
    if key in st.cache {
      var cached := st.cache[key];
      ScoreRow(ctx, counted, p, s, cached.text, cached.latencyMs, cached.usage);
    } else {
      var calls := Attempts(ctx.policy.reliability.retry, ctx.oracle, p, s, 0);
      var called := counted.(trace := st.trace + calls.events);
      match calls.result
      case Raised(_) =>
      case Succeeded(text, latency, usage) =>
        ScoreRow(ctx, called.(cache := st.cache[key := Payload(text, latency, usage)]), p, s, text, latency, usage);
      case GaveUp(errorType, message) =>
        var pc := ctx.providers[p];
        var err := ErrorRow(ctx.runId, name, pc.model, ctx.samples[s].sampleId, key,
                            errorType, message, calls.attempts);
        assert ExtractOptionLetter("") == None;
        ScoreRow(ctx, called.(live := CountError(counted.live, name), errors := st.errors + [err]),
                 p, s, "", 0, None);
    }
  }

  /** The circuit breaker: a processed pair stops the run exactly when it
      does not crash and the provider's counters then trip the breaker. */
  lemma PairBreaker(ctx: Ctx, st: RunState, p: nat, s: nat)
    requires ValidCtx(ctx) && p < |ctx.providers| && s < |ctx.samples|
    requires st.status == Running && Key(ctx, p, s) !in ctx.completed
    ensures var n := Process(ctx, st, p, s);
      n.status == StoppedOnErrorRate
      <==> !n.status.Crashed? && TripsBreaker(ctx.policy, CountersOf(n.live, NameOf(ctx, p)))
  {
  }

  /** With the default thresholds (and the hard stop on), 6 errors in the
      first 50 requests stop the run, 5 do not, and nothing stops it before
      the 50th request. */
  lemma DefaultBreaker(c: Counters)
    ensures TripsBreaker(DefaultPolicy, Counters(50, 6, 0, 50))
    ensures !TripsBreaker(DefaultPolicy, Counters(50, 5, 0, 50))
    ensures c.requests < 50 ==> !TripsBreaker(DefaultPolicy, c)
  {
  }

  // ----- Resuming a run -----

  lemma RowKeysSnoc(rows: seq<ResultRow>, r: ResultRow)
    ensures RowKeys(rows + [r]) == RowKeys(rows) + RowKey(r)
  {
    var ext := rows + [r];
    forall k | k in RowKeys(ext) ensures k in RowKeys(rows) + RowKey(r) {
      var j :| 0 <= j < |ext| && k in RowKey(ext[j]);
      if j < |rows| {
        assert ext[j] == rows[j];
      }
    }
    forall k | k in RowKeys(rows) ensures k in RowKeys(ext) {
      var j :| 0 <= j < |rows| && k in RowKey(rows[j]);
      assert ext[j] == rows[j];
    }
    forall k | k in RowKey(r) ensures k in RowKeys(ext) {
      assert ext[|rows|] == r;
    }
  }

  /** Every pair before (`p`, `s`) has its key in `keys`. */
  ghost predicate CoveredUpTo(ctx: Ctx, keys: set<string>, p: nat, s: nat)
    requires ValidCtx(ctx)
  {
    forall q, t :: 0 <= q < |ctx.providers| && 0 <= t < |ctx.samples| && (q < p || (q == p && t < s)) ==>
      Key(ctx, q, t) in keys
  }

  lemma ProcessCovers(ctx: Ctx, st: RunState, p: nat, s: nat)
    requires ValidCtx(ctx) && p < |ctx.providers| && s < |ctx.samples|
    requires Process(ctx, st, p, s).status == Running
    ensures st.status == Running
    ensures var n := Process(ctx, st, p, s);
      && RowKeys(st.rows) <= RowKeys(n.rows)
      && Key(ctx, p, s) in ctx.completed + RowKeys(n.rows)
  {
    var n := Process(ctx, st, p, s);
    if Key(ctx, p, s) !in ctx.completed {
      PairRow(ctx, st, p, s);
      var r := n.rows[|st.rows|];
      assert n.rows == st.rows + [r];
      RowKeysSnoc(st.rows, r);
    }
  }

  /** A run still going after provider `p`'s first `s` samples has the key
      of every pair before (`p`, `s`) among the completed keys or the keys
      of its rows. */
  lemma {:induction false} KeySeen(ctx: Ctx, q: nat, t: nat, p: nat, s: nat)
    requires ValidCtx(ctx) && q < |ctx.providers| && t < |ctx.samples|
    requires p < |ctx.providers| && s <= |ctx.samples| && (q < p || (q == p && t < s))
    requires RunSamples(ctx, p, s).status == Running
    ensures Key(ctx, q, t) in ctx.completed + RowKeys(RunSamples(ctx, p, s).rows)
    decreases p, s, 1
  {
    if s == 0 {
      KeySeenBefore(ctx, q, t, p);
    } else {
      KeySeenAfter(ctx, q, t, p, s);
    }
  }

  /** `KeySeen` when provider `p` has just started. */
  lemma {:induction false} KeySeenBefore(ctx: Ctx, q: nat, t: nat, p: nat)
    requires ValidCtx(ctx) && q < p < |ctx.providers| && t < |ctx.samples|
    requires RunSamples(ctx, p, 0).status == Running
    ensures Key(ctx, q, t) in ctx.completed + RowKeys(RunSamples(ctx, p, 0).rows)
    decreases p, 0, 0
  {
    StartRunning(ctx, p);
    KeySeen(ctx, q, t, p - 1, |ctx.samples|);
    KeyMoves(ctx, Key(ctx, q, t), RunSamples(ctx, p - 1, |ctx.samples|), RunSamples(ctx, p, 0));
  }

  /** `KeySeen` after sample `s - 1` of provider `p`. */
  lemma {:induction false} KeySeenAfter(ctx: Ctx, q: nat, t: nat, p: nat, s: nat)
    requires ValidCtx(ctx) && q < |ctx.providers| && t < |ctx.samples|
    requires p < |ctx.providers| && 0 < s <= |ctx.samples| && (q < p || (q == p && t < s))
    requires RunSamples(ctx, p, s).status == Running
    ensures Key(ctx, q, t) in ctx.completed + RowKeys(RunSamples(ctx, p, s).rows)
    decreases p, s, 0
  {
    SampleStep(ctx, p, s);
    StepCovers(ctx, RunSamples(ctx, p, s - 1), RunSamples(ctx, p, s), p, s - 1);
    if q != p || t != s - 1 {
      KeySeen(ctx, q, t, p, s - 1);
      KeyMoves(ctx, Key(ctx, q, t), RunSamples(ctx, p, s - 1), RunSamples(ctx, p, s));
    }
  }

  /** A key accounted for by `a` is accounted for by `b` when `b` has the
      row keys of `a`. */
  lemma KeyMoves(ctx: Ctx, k: string, a: RunState, b: RunState)
    requires RowKeys(a.rows) <= RowKeys(b.rows)
    requires k in ctx.completed + RowKeys(a.rows)
    ensures k in ctx.completed + RowKeys(b.rows)
  {
  }

  /** Starting a provider that leaves the run going changes no row; only the
      first provider starts from the initial state. */
  lemma StartRunning(ctx: Ctx, p: nat)
    requires ValidCtx(ctx) && p < |ctx.providers|
    requires RunSamples(ctx, p, 0).status == Running
    ensures p > 0 ==> RunSamples(ctx, p - 1, |ctx.samples|).status == Running
    ensures p > 0 ==> RunSamples(ctx, p, 0).rows == RunSamples(ctx, p - 1, |ctx.samples|).rows
  {
  }

  /** A step from `st` to `n` that leaves the run going started from a
      running state, keeps the keys of the rows before it and accounts for
      the key of its own pair. */
  lemma StepCovers(ctx: Ctx, st: RunState, n: RunState, p: nat, s: nat)
    requires ValidCtx(ctx) && p < |ctx.providers| && s < |ctx.samples|
    requires n == Process(ctx, st, p, s) && n.status == Running
    ensures st.status == Running
    ensures RowKeys(st.rows) <= RowKeys(n.rows)
    ensures Key(ctx, p, s) in ctx.completed + RowKeys(n.rows)
  {
    ProcessCovers(ctx, st, p, s);
  }

  /** A run that ends still going has every pair's key among the completed
      keys or the keys of its rows. */
  lemma RunAllCovers(ctx: Ctx)
    requires ValidCtx(ctx) && RunAll(ctx).status == Running
    ensures CoveredUpTo(ctx, ctx.completed + RowKeys(RunAll(ctx).rows), |ctx.providers|, 0)
  {
    forall q, t | 0 <= q < |ctx.providers| && 0 <= t < |ctx.samples|
      ensures Key(ctx, q, t) in ctx.completed + RowKeys(RunAll(ctx).rows)
    {
      KeySeen(ctx, q, t, |ctx.providers| - 1, |ctx.samples|);
    }
  }

  /** A run that ran to completion had no `local` provider: building its
      client would have crashed the run. */
  lemma CompletedRunHasNoLocalProvider(ctx: Ctx, p: nat)
    requires ValidCtx(ctx) && RunAll(ctx).status == Running && p < |ctx.providers|
    ensures ctx.providers[p].provider != Local
  {
    if ctx.providers[p].provider == Local {
      if Before(ctx, p).status.Running? {
        Stuck(ctx, p, 0);
      } else {
        StuckAfter(ctx, p, |ctx.providers|);
      }
    }
  }

  /** When every key is completed and there is no `local` provider, every
      pair is skipped. */
  lemma {:induction false} AllSkipped(ctx: Ctx, p: nat, s: nat)
    requires ValidCtx(ctx) && p < |ctx.providers| && s <= |ctx.samples|
    requires CoveredUpTo(ctx, ctx.completed, |ctx.providers|, 0)
    requires forall q :: 0 <= q < |ctx.providers| ==> ctx.providers[q].provider != Local
    ensures RunSamples(ctx, p, s) == Init(ctx)
    decreases p, s, 1
  {
    if s == 0 {
      AllSkippedBefore(ctx, p);
    } else {
      AllSkipped(ctx, p, s - 1);
    }
  }

  lemma {:induction false} AllSkippedBefore(ctx: Ctx, p: nat)
    requires ValidCtx(ctx) && p <= |ctx.providers|
    requires CoveredUpTo(ctx, ctx.completed, |ctx.providers|, 0)
    requires forall q :: 0 <= q < |ctx.providers| ==> ctx.providers[q].provider != Local
    ensures Before(ctx, p) == Init(ctx)
    decreases p, 0, 0
  {
    if p > 0 {
      AllSkipped(ctx, p - 1, |ctx.samples|);
    }
  }

  /** Resuming a run that completed: reading its results file back gives the
      completed keys plus the keys of its rows, and a second run over the same
      providers and samples from there calls no provider, writes no row and
      no error, and counts nothing. */
  lemma ResumeAfterCompletedRun(ctx: Ctx, file: Option<seq<LogLine>>)
    requires ValidCtx(ctx) && RunAll(ctx).status == Running
    requires CompletedKeysOf(file) == Ok(ctx.completed)
    ensures var st := RunAll(ctx);
      var reread := CompletedKeysOf(ResultsAfter(file, st.rows));
      && reread == Ok(ctx.completed + RowKeys(st.rows))
      && var again := ctx.(completed := reread.value, cache0 := st.cache);
         RunAll(again) == Init(again)
  {
    var st := RunAll(ctx);
    CompletedAfterRows(file, st.rows, ctx.completed);
    var again := ctx.(completed := ctx.completed + RowKeys(st.rows), cache0 := st.cache);
    RunAllCovers(ctx);
    forall q | 0 <= q < |ctx.providers| ensures ctx.providers[q].provider != Local {
      CompletedRunHasNoLocalProvider(ctx, q);
    }
    forall q, t | 0 <= q < |again.providers| && 0 <= t < |again.samples|
      ensures Key(again, q, t) in again.completed
    {
      assert Key(again, q, t) == Key(ctx, q, t);
    }
    if |ctx.providers| > 0 {
      AllSkipped(again, |ctx.providers| - 1, |ctx.samples|);
    }
  }
}
