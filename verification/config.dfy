/** Run configuration, runtime policy defaults, the `.env` loader, provider
    key resolution, the temperature validator and the run manifest
    (src/llm_eval/config.py). */
module Config {
  import opened Wrappers
  import opened Text

  // ----- Policy and its defaults -----

  datatype RetryPolicy = RetryPolicy(
    maxAttempts: int,
    backoffSeconds: seq<int>,
    retryableStatusCodes: seq<int>)

  datatype ReliabilityPolicy = ReliabilityPolicy(
    maxParallelRequests: int,
    requestTimeoutSeconds: int,
    retry: RetryPolicy,
    errorRateWindowSizeRequests: int,
    errorRateHardStopPercent: int)

  datatype BudgetPolicy = BudgetPolicy(
    maxUsdPerRun: real,
    warnAtPercent: int,
    enforceHardStop: bool)

  datatype SecurityPolicy = SecurityPolicy(
    byokOnly: bool,
    persistUserApiKeys: bool,
    redactSecretsInLogs: bool,
    allowedSecretEnvVars: seq<string>)

  datatype RuntimePolicy = RuntimePolicy(
    budget: BudgetPolicy,
    reliability: ReliabilityPolicy,
    security: SecurityPolicy)

  const DefaultRetry: RetryPolicy := RetryPolicy(3, [1, 2, 4], [408, 429, 500, 502, 503, 504])

  const DefaultReliability: ReliabilityPolicy := ReliabilityPolicy(3, 45, DefaultRetry, 50, 10)

  const DefaultBudget: BudgetPolicy := BudgetPolicy(5.0, 80, true)

  const DefaultSecurity: SecurityPolicy :=
    SecurityPolicy(true, false, true, ["ANTHROPIC_API_KEY", "OPENAI_API_KEY", "GEMINI_API_KEY"])

  const DefaultPolicy: RuntimePolicy := RuntimePolicy(DefaultBudget, DefaultReliability, DefaultSecurity)

  /** The default retry policy allows three attempts, backs off 1, 2 and 4
      seconds and retries exactly the statuses 408, 429, 500, 502, 503, 504. */
  lemma DefaultRetryPolicy()
    ensures DefaultPolicy.reliability.retry.maxAttempts == 3
    ensures DefaultPolicy.reliability.retry.backoffSeconds == [1, 2, 4]
    ensures forall c :: c in DefaultPolicy.reliability.retry.retryableStatusCodes
                     <==> c in {408, 429, 500, 502, 503, 504}
    ensures DefaultPolicy.reliability.errorRateWindowSizeRequests == 50
    ensures DefaultPolicy.reliability.errorRateHardStopPercent == 10
  {
  }

  // ----- Providers, benchmark, run -----

  datatype ProviderName = Anthropic | OpenAI | Gemini | Groq | Local

  /** The literal a provider is named by in configs, logs and metric keys. */
  function ProviderText(p: ProviderName): (s: string)
    ensures |s| > 0 && ':' !in s
  {
    match p
    case Anthropic => "anthropic"
    case OpenAI => "openai"
    case Gemini => "gemini"
    case Groq => "groq"
    case Local => "local"
  }

  lemma ProviderTextInjective(p: ProviderName, q: ProviderName)
    requires ProviderText(p) == ProviderText(q)
    ensures p == q
  {
  }

  datatype ProviderConfig = ProviderConfig(
    provider: ProviderName,
    model: string,
    apiKeyEnv: Option<string>,
    temperature: real,
    maxTokens: int)

  /** The `temperature` field validator: values outside `[0, 2]` are
      rejected with a `ValueError`, others are kept as they are. */
  function ValidateTemperature(value: real): (r: Result<real, string>)
    ensures r.Ok? <==> 0.0 <= value <= 2.0
    ensures r.Ok? ==> r.value == value
    ensures r.Err? ==> r.error == "temperature must be between 0 and 2"
  {
    if !(0.0 <= value <= 2.0) then Err("temperature must be between 0 and 2") else Ok(value)
  }

  datatype BenchmarkConfig = BenchmarkConfig(
    name: string,
    split: string,
    datasetPath: string,
    maxSamples: Option<int>)

  const DefaultBenchmark: BenchmarkConfig :=
    BenchmarkConfig("mmlu_subset", "dev", "data/benchmarks/mmlu_subset/dev.jsonl", Some(50))

  datatype RunConfig = RunConfig(
    runName: string,
    seed: int,
    providers: seq<ProviderConfig>,
    benchmark: BenchmarkConfig,
    policy: RuntimePolicy)

  // ----- Hashing -----

  /** A SHA-256 hex digest: 64 characters. The hash function itself is a
      parameter of the model. */
  type HexDigest = s: string | |s| == 64
    witness "0000000000000000000000000000000000000000000000000000000000000000"

  /** What the run fingerprint is computed from; the policy and the creation
      time are not part of it. */
  datatype Fingerprint = Fingerprint(
    runName: string,
    seed: int,
    benchmark: BenchmarkConfig,
    providers: seq<ProviderConfig>)

  datatype RunManifest = RunManifest(
    runId: string,
    runName: string,
    createdAt: string,
    seed: int,
    benchmark: BenchmarkConfig,
    providers: seq<ProviderConfig>,
    policySnapshot: RuntimePolicy)

  /** `build_run_manifest`: the run id is the first 16 hex characters of the
      digest of the fingerprint; `createdAt` is the clock reading. */
  function BuildRunManifest(config: RunConfig, createdAt: string, sha: Fingerprint -> HexDigest)
    : (m: RunManifest)
    ensures |m.runId| == 16
    ensures m.runId == sha(Fingerprint(config.runName, config.seed, config.benchmark, config.providers))[..16]
    ensures m.runName == config.runName && m.seed == config.seed && m.createdAt == createdAt
    ensures m.benchmark == config.benchmark && m.providers == config.providers
    ensures m.policySnapshot == config.policy
  {
    var digest := sha(Fingerprint(config.runName, config.seed, config.benchmark, config.providers));
    RunManifest(digest[..16], config.runName, createdAt, config.seed, config.benchmark,
                config.providers, config.policy)
  }

  /** The run id depends on the run name, seed, benchmark and providers only:
      two configurations that agree on those get the same id whatever their
      policies and whenever they are built. */
  lemma RunIdIgnoresPolicyAndTime(c1: RunConfig, c2: RunConfig, t1: string, t2: string,
                                  sha: Fingerprint -> HexDigest)
    requires c1.runName == c2.runName && c1.seed == c2.seed
    requires c1.benchmark == c2.benchmark && c1.providers == c2.providers
    ensures BuildRunManifest(c1, t1, sha).runId == BuildRunManifest(c2, t2, sha).runId
  {
  }

  // ----- The .env file -----

  /** One line of a `.env` file: `None` for a line that is blank after
      stripping, a comment, or without `=`; otherwise the stripped key before
      the first `=` and the value, stripped of white space, then of `"`, then
      of `'`. */
  function ParseEnvLine(raw: string): Option<(string, string)> {
    var line := Strip(raw);
    if line == "" || line[0] == '#' || '=' !in line then None
    else
      var (k, v) := SplitFirst(line, '=');
      Some((Strip(k), StripChar(StripChar(Strip(v), '"'), '\'')))
  }

  /** A line yields nothing exactly when it is blank, a comment or has no
      `=`; otherwise it splits at its first `=`. */
  lemma ParseEnvLineMeaning(raw: string)
    ensures var r := ParseEnvLine(raw);
      && (r.None? <==> (Strip(raw) == "" || Strip(raw)[0] == '#' || '=' !in Strip(raw)))
      && (r.Some? ==> exists k, v :: Strip(raw) == k + "=" + v && '=' !in k
                                     && r.value.0 == Strip(k)
                                     && r.value.1 == StripChar(StripChar(Strip(v), '"'), '\''))
  {
    var line := Strip(raw);
    if line != "" && line[0] != '#' && '=' in line {
      var (k, v) := SplitFirst(line, '=');
      assert line == k + "=" + v;
    }
  }

  /** The environment after `os.environ.setdefault` for each line in turn. */
  function EnvAfter(vars: map<string, string>, lines: seq<string>): map<string, string>
    decreases |lines|
  {
    if |lines| == 0 then vars
    else EnvAfter(SetDefault(vars, lines[0]), lines[1..])
  }

  /** `os.environ.setdefault(key, value)` for the pair a line yields, if any. */
  function SetDefault(vars: map<string, string>, line: string): map<string, string> {
    match ParseEnvLine(line)
    case None => vars
    case Some(kv) => if kv.0 in vars then vars else vars[kv.0 := kv.1]
  }

  /** `os.putenv` refuses the pair: an empty name, or a NUL character in the
      name or the value, raises `ValueError`. */
  predicate IllegalEnvPair(k: string, v: string) {
    k == "" || '\0' in k || '\0' in v
  }

  /** `os.environ.setdefault` raises on this line: it yields a pair whose
      variable is not yet set (so `putenv` is called) and `putenv` refuses. */
  predicate SetDefaultRaises(vars: map<string, string>, line: string) {
    && ParseEnvLine(line).Some?
    && ParseEnvLine(line).value.0 !in vars
    && IllegalEnvPair(ParseEnvLine(line).value.0, ParseEnvLine(line).value.1)
  }

  /** What loading a `.env` file does: every line is applied in turn, or
      the first line whose `setdefault` raises stops it, with the environment
      the lines before it left. */
  datatype EnvLoad = Loaded(vars: map<string, string>) | Rejected(line: nat, vars: map<string, string>)

  /** `load_env_file` on the lines of an existing file. */
  function LoadEnv(vars: map<string, string>, lines: seq<string>): EnvLoad
    decreases |lines|
  {
    if |lines| == 0 then Loaded(vars)
    else if SetDefaultRaises(vars, lines[0]) then Rejected(0, vars)
    else Later(LoadEnv(SetDefault(vars, lines[0]), lines[1..]), 1)
  }

  /** An outcome of loading the last lines, seen from `n` lines earlier. */
  function Later(r: EnvLoad, n: nat): EnvLoad {
    match r
    case Loaded(v) => Loaded(v)
    case Rejected(i, v) => Rejected(i + n, v)
  }

  /** Loading from line `i` on is applying line `i`, then the rest. */
  lemma LoadEnvStep(vars: map<string, string>, lines: seq<string>, i: nat)
    requires i < |lines|
    ensures LoadEnv(vars, lines[i..])
         == if SetDefaultRaises(vars, lines[i]) then Rejected(0, vars)
            else Later(LoadEnv(SetDefault(vars, lines[i]), lines[i + 1..]), 1)
  {
    assert lines[i..][0] == lines[i] && lines[i..][1..] == lines[i + 1..];
  }

  /** The whole `.env` file loads without an exception. */
  predicate EnvLoads(vars: map<string, string>, file: Option<seq<string>>) {
    file.None? || LoadEnv(vars, file.value).Loaded?
  }

  /** A file that loads applies every line; one that is rejected at line `i`
      applied exactly the lines before `i`, all of which load, and line `i`
      raises in the environment they left. */
  lemma LoadEnvMeaning(vars: map<string, string>, lines: seq<string>)
    ensures LoadEnv(vars, lines).Loaded? ==> LoadEnv(vars, lines).vars == EnvAfter(vars, lines)
    ensures LoadEnv(vars, lines).Rejected? ==>
      && LoadEnv(vars, lines).line < |lines|
      && LoadEnv(vars, lines[..LoadEnv(vars, lines).line]) == Loaded(LoadEnv(vars, lines).vars)
      && LoadEnv(vars, lines).vars == EnvAfter(vars, lines[..LoadEnv(vars, lines).line])
      && SetDefaultRaises(LoadEnv(vars, lines).vars, lines[LoadEnv(vars, lines).line])
  {
    LoadEnvLoaded(vars, lines);
    LoadEnvRejectedRaises(vars, lines);
    var r := LoadEnv(vars, lines);
    if r.Rejected? {
      LoadEnvRejectedPrefix(vars, lines);
      LoadEnvLoaded(vars, lines[..r.line]);
    }
  }

  /** A file that loads applies every line. */
  lemma {:induction false} LoadEnvLoaded(vars: map<string, string>, lines: seq<string>)
    ensures LoadEnv(vars, lines).Loaded? ==> LoadEnv(vars, lines).vars == EnvAfter(vars, lines)
    decreases |lines|
  {
    if |lines| > 0 && !SetDefaultRaises(vars, lines[0]) {
      LoadEnvLoaded(SetDefault(vars, lines[0]), lines[1..]);
    }
  }

  /** The lines before the one a file is rejected at load. */
  lemma {:induction false} LoadEnvRejectedPrefix(vars: map<string, string>, lines: seq<string>)
    ensures LoadEnv(vars, lines).Rejected? ==>
      && LoadEnv(vars, lines).line < |lines|
      && LoadEnv(vars, lines[..LoadEnv(vars, lines).line]) == Loaded(LoadEnv(vars, lines).vars)
    decreases |lines|
  {
    if |lines| > 0 && !SetDefaultRaises(vars, lines[0]) {
      var next := SetDefault(vars, lines[0]);
      LoadEnvRejectedPrefix(next, lines[1..]);
      var r := LoadEnv(next, lines[1..]);
      if r.Rejected? {
        LoadEnvPrefix(vars, lines, r.line);
      }
    } else if |lines| > 0 {
      assert lines[..0] == [];
    }
  }

  /** A file is rejected at a line whose `setdefault` raises, in the
      environment the lines before it left. */
  lemma {:induction false} LoadEnvRejectedRaises(vars: map<string, string>, lines: seq<string>)
    ensures LoadEnv(vars, lines).Rejected? ==>
      LoadEnv(vars, lines).line < |lines| && SetDefaultRaises(LoadEnv(vars, lines).vars, lines[LoadEnv(vars, lines).line])
    decreases |lines|
  {
    if |lines| > 0 && !SetDefaultRaises(vars, lines[0]) {
      var tail := lines[1..];
      LoadEnvRejectedRaises(SetDefault(vars, lines[0]), tail);
      var r := LoadEnv(SetDefault(vars, lines[0]), tail);
      if r.Rejected? {
        assert lines[r.line + 1] == tail[r.line];
      }
    }
  }

  /** The first `i + 1` lines of a file whose first line loads are that line,
      then the first `i` of the rest. */
  lemma LoadEnvPrefix(vars: map<string, string>, lines: seq<string>, i: nat)
    requires i < |lines| - 1 && !SetDefaultRaises(vars, lines[0])
    ensures LoadEnv(vars, lines[..i + 1]) == Later(LoadEnv(SetDefault(vars, lines[0]), lines[1..][..i]), 1)
  {
    var pre := lines[..i + 1];
    assert pre[0] == lines[0] && pre[1..] == lines[1..][..i];
  }

  /** A line whose first non-blank character is `=` names the empty
      variable, which `putenv` refuses. */
  lemma EmptyNameRaises(vars: map<string, string>, raw: string)
    requires Strip(raw) != "" && Strip(raw)[0] == '=' && "" !in vars
    ensures SetDefaultRaises(vars, raw)
  {
    var line := Strip(raw);
    assert SplitFirst(line, '=') == ("", line[1..]);
    assert Strip("") == "";
  }

  /** `setdefault` never overwrites: a variable set before loading keeps its
      value. */
  lemma {:induction false} EnvKeepsExisting(vars: map<string, string>, lines: seq<string>, k: string)
    requires k in vars
    ensures k in EnvAfter(vars, lines) && EnvAfter(vars, lines)[k] == vars[k]
    decreases |lines|
  {
    if |lines| > 0 {
      EnvKeepsExisting(SetDefault(vars, lines[0]), lines[1..], k);
    }
  }

  lemma SetDefaultAdds(vars: map<string, string>, line: string, k: string, v: string)
    requires k !in vars && ParseEnvLine(line) == Some((k, v))
    ensures k in SetDefault(vars, line) && SetDefault(vars, line)[k] == v
  {
  }

  lemma SetDefaultOther(vars: map<string, string>, line: string, k: string)
    requires k !in vars && (ParseEnvLine(line).None? || ParseEnvLine(line).value.0 != k)
    ensures k !in SetDefault(vars, line)
  {
  }

  /** The first line of the file that sets a variable not already present
      decides its value. */
  lemma {:induction false} EnvFirstOccurrenceWins(vars: map<string, string>, lines: seq<string>, i: nat,
                                                  k: string, v: string)
    requires i < |lines| && k !in vars
    requires ParseEnvLine(lines[i]) == Some((k, v))
    requires forall j :: 0 <= j < i ==> ParseEnvLine(lines[j]).None? || ParseEnvLine(lines[j]).value.0 != k
    ensures k in EnvAfter(vars, lines) && EnvAfter(vars, lines)[k] == v
    decreases i
  {
    if i == 0 {
      EnvFirstLine(vars, lines, k, v);
    } else {
      SetDefaultOther(vars, lines[0], k);
      EnvAfterCons(vars, lines);
      assert lines[1..][i - 1] == lines[i];
      UnsetShift(lines, i, k);
      EnvFirstOccurrenceWins(SetDefault(vars, lines[0]), lines[1..], i - 1, k, v);
    }
  }

  /** A first line that sets a variable not already present decides its
      value. */
  lemma EnvFirstLine(vars: map<string, string>, lines: seq<string>, k: string, v: string)
    requires 0 < |lines| && k !in vars
    requires ParseEnvLine(lines[0]) == Some((k, v))
    ensures k in EnvAfter(vars, lines) && EnvAfter(vars, lines)[k] == v
  {
    SetDefaultAdds(vars, lines[0], k, v);
    EnvKeepsExisting(SetDefault(vars, lines[0]), lines[1..], k);
  }

  /** Loading a file is loading its first line, then the rest. */
  lemma EnvAfterCons(vars: map<string, string>, lines: seq<string>)
    requires 0 < |lines|
    ensures EnvAfter(vars, lines) == EnvAfter(SetDefault(vars, lines[0]), lines[1..])
  {
  }

  /** No line before `i` sets `k`, seen from the second line on. */
  lemma UnsetShift(lines: seq<string>, i: nat, k: string)
    requires 0 < i <= |lines|
    requires forall j :: 0 <= j < i ==> ParseEnvLine(lines[j]).None? || ParseEnvLine(lines[j]).value.0 != k
    ensures forall j :: 0 <= j < i - 1 ==> ParseEnvLine(lines[1..][j]).None? || ParseEnvLine(lines[1..][j]).value.0 != k
  {
    forall j | 0 <= j < i - 1
      ensures ParseEnvLine(lines[1..][j]).None? || ParseEnvLine(lines[1..][j]).value.0 != k
    {
      assert lines[1..][j] == lines[j + 1];
    }
  }

  /** The process environment (`os.environ`). */
  class Environ {
    var vars: map<string, string>

    constructor (initial: map<string, string>)
      ensures vars == initial
    {
      vars := initial;
    }

    /** `load_env_file`; `None` is a path that does not exist. It fails with
        the index of the line whose `setdefault` raised, the lines before it
        applied. */
    method LoadEnvFile(file: Option<seq<string>>) returns (rejected: Option<nat>)
      modifies this
      ensures file.None? ==> vars == old(vars) && rejected == None
      ensures file.Some? ==> vars == LoadEnv(old(vars), file.value).vars
      ensures file.Some? ==>
        rejected == if LoadEnv(old(vars), file.value).Loaded? then None
                    else Some(LoadEnv(old(vars), file.value).line)
    {
      rejected := None;
      if file.None? {
        return;
      }
      var lines := file.value;
      var i := 0;
      while i < |lines|
        invariant 0 <= i <= |lines|
        invariant LoadEnv(old(vars), lines) == Later(LoadEnv(vars, lines[i..]), i)
      {
        LoadEnvStep(vars, lines, i);
        if SetDefaultRaises(vars, lines[i]) {
          return Some(i);
        }
        vars := SetDefault(vars, lines[i]);
        i := i + 1;
      }
    }
  }

  // ----- Provider keys -----

  /** Whether a provider's key is available: without `api_key_env` only the
      `local` provider counts as resolved; otherwise the variable must be set
      to a non-empty value. */
  predicate KeyAvailable(p: ProviderConfig, vars: map<string, string>) {
    if p.apiKeyEnv.None? || p.apiKeyEnv.value == "" then p.provider == Local
    else p.apiKeyEnv.value in vars && vars[p.apiKeyEnv.value] != ""
  }

  /** The loop of `resolve_provider_keys` (after the `.env` file is loaded):
      one entry per provider name, the last configuration of a name deciding
      its value. */
  method ResolveKeys(providers: seq<ProviderConfig>, vars: map<string, string>)
    returns (resolved: map<string, bool>)
    ensures resolved.Keys == set i | 0 <= i < |providers| :: ProviderText(providers[i].provider)
    ensures forall i :: 0 <= i < |providers|
              && (forall j :: i < j < |providers| ==> providers[j].provider != providers[i].provider)
              ==> resolved[ProviderText(providers[i].provider)] == KeyAvailable(providers[i], vars)
  {
    resolved := map[];
    var i := 0;
    while i < |providers|
      invariant 0 <= i <= |providers|
      invariant ResolvedUpTo(providers, vars, resolved, i)
    {
      var p := providers[i];
      var name := ProviderText(p.provider);
      var available;
      if p.apiKeyEnv.None? || p.apiKeyEnv.value == "" {
        available := p.provider == Local;
      } else {
        var envName := p.apiKeyEnv.value;
        available := envName in vars && vars[envName] != "";
      }
      ResolveStep(providers, vars, resolved, i);
      resolved := resolved[name := available];
      i := i + 1;
    }
  }

  /** The first `i` providers are resolved, the last configuration of a
      name deciding its value. */
  ghost predicate ResolvedUpTo(providers: seq<ProviderConfig>, vars: map<string, string>,
                               resolved: map<string, bool>, i: nat)
    requires i <= |providers|
  {
    && resolved.Keys == (set t | 0 <= t < i :: ProviderText(providers[t].provider))
    && forall t :: 0 <= t < i
         && (forall j :: t < j < i ==> providers[j].provider != providers[t].provider)
         ==> resolved[ProviderText(providers[t].provider)] == KeyAvailable(providers[t], vars)
  }

  /** Resolving one more provider overrides earlier ones of the same name. */
  lemma ResolveStep(providers: seq<ProviderConfig>, vars: map<string, string>,
                    resolved: map<string, bool>, i: nat)
    requires i < |providers| && ResolvedUpTo(providers, vars, resolved, i)
    ensures ResolvedUpTo(providers, vars,
              resolved[ProviderText(providers[i].provider) := KeyAvailable(providers[i], vars)], i + 1)
  {
    var p := providers[i];
    var name := ProviderText(p.provider);
    var next := resolved[name := KeyAvailable(p, vars)];
    ResolveKeysGrow(providers, resolved, i);
    forall t | 0 <= t < i + 1 && (forall j :: t < j < i + 1 ==> providers[j].provider != providers[t].provider)
      ensures next[ProviderText(providers[t].provider)] == KeyAvailable(providers[t], vars)
    {
      if t < i {
        assert providers[i].provider != providers[t].provider;
        if ProviderText(providers[t].provider) == name {
          ProviderTextInjective(providers[t].provider, p.provider);
        }
        assert forall j :: t < j < i ==> providers[j].provider != providers[t].provider;
      }
    }
  }

  lemma ResolveKeysGrow(providers: seq<ProviderConfig>, resolved: map<string, bool>, i: nat)
    requires i < |providers|
    requires resolved.Keys == (set t | 0 <= t < i :: ProviderText(providers[t].provider))
    ensures resolved[ProviderText(providers[i].provider) := true].Keys
         == (set t | 0 <= t < i + 1 :: ProviderText(providers[t].provider))
  {
    var name := ProviderText(providers[i].provider);
    var after := set t | 0 <= t < i + 1 :: ProviderText(providers[t].provider);
    assert after == resolved.Keys + {name} by {
      forall x | x in after ensures x in resolved.Keys + {name} {
        var t :| 0 <= t < i + 1 && ProviderText(providers[t].provider) == x;
      }
    }
  }

  /** `resolve_provider_keys`: loads the `.env` file, then resolves. */
  method ResolveProviderKeys(config: RunConfig, env: Environ, envFile: Option<seq<string>>)
    returns (rejected: Option<nat>, resolved: map<string, bool>)
    modifies env
    ensures envFile.None? ==> env.vars == old(env.vars) && rejected == None
    ensures envFile.Some? ==> env.vars == LoadEnv(old(env.vars), envFile.value).vars
    ensures envFile.Some? ==>
      rejected == if LoadEnv(old(env.vars), envFile.value).Loaded? then None
                  else Some(LoadEnv(old(env.vars), envFile.value).line)
    ensures rejected.Some? ==> resolved == map[]
    ensures rejected.None? ==> resolved.Keys == set i | 0 <= i < |config.providers| :: ProviderText(config.providers[i].provider)
    ensures rejected.None? ==>
      forall i :: 0 <= i < |config.providers|
        && (forall j :: i < j < |config.providers| ==> config.providers[j].provider != config.providers[i].provider)
        ==> resolved[ProviderText(config.providers[i].provider)] == KeyAvailable(config.providers[i], env.vars)
  {
    rejected := env.LoadEnvFile(envFile);
    if rejected.Some? {
      return rejected, map[];
    }
    resolved := ResolveKeys(config.providers, env.vars);
  }
}
