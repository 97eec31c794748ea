/** The policy file and its merge over the run configuration's policy
    (src/llm_eval/policy.py). The YAML document is given already parsed; a
    key that is absent is `None`. */
module Policy {
  import opened Wrappers
  import opened Config

  datatype BudgetOverrides = BudgetOverrides(
    maxUsdPerRun: Option<real>,
    warnAtPercent: Option<int>,
    enforceHardStop: Option<bool>)

  /** The nested `provider_error_rate` map of the `reliability` section. */
  datatype ErrorRateOverrides = ErrorRateOverrides(
    windowSizeRequests: Option<int>,
    hardStopPercent: Option<int>)

  datatype ReliabilityOverrides = ReliabilityOverrides(
    maxParallelRequests: Option<int>,
    requestTimeoutSeconds: Option<int>,
    providerErrorRate: ErrorRateOverrides)

  datatype SecurityOverrides = SecurityOverrides(
    byokOnly: Option<bool>,
    persistUserApiKeys: Option<bool>,
    redactSecretsInLogs: Option<bool>,
    allowedSecretEnvVars: Option<seq<string>>)

  /** A policy mapping; a missing section has every key absent. */
  datatype PolicyDoc = PolicyDoc(
    budget: BudgetOverrides,
    reliability: ReliabilityOverrides,
    security: SecurityOverrides)

  const EmptyDoc: PolicyDoc := PolicyDoc(
    BudgetOverrides(None, None, None),
    ReliabilityOverrides(None, None, ErrorRateOverrides(None, None)),
    SecurityOverrides(None, None, None, None))

  /** What `yaml.safe_load` returns: a falsy value (`None`, an empty document,
      `0`, `""`, `[]`), a mapping, or some other truthy value. */
  datatype YamlValue = Falsy | Mapping(doc: PolicyDoc) | OtherValue

  datatype PolicyError = PolicyFileNotFound | NotAMapping

  /** `load_policy_yaml`; `None` is a path that does not exist. */
  function LoadPolicyYaml(file: Option<YamlValue>): (r: Result<PolicyDoc, PolicyError>)
    ensures r.Err? <==> file.None? || file.value.OtherValue?
    ensures r.Err? ==> (r.error == NotAMapping <==> file.Some?)
    ensures r.Ok? && file.value.Falsy? ==> r.value == EmptyDoc
    ensures r.Ok? && file.value.Mapping? ==> r.value == file.value.doc
  {
    match file
    case None => Err(PolicyFileNotFound)
    case Some(Falsy) => Ok(EmptyDoc)
    case Some(Mapping(doc)) => Ok(doc)
    case Some(OtherValue) => Err(NotAMapping)
  }

  /** The scalars `merge_policy` takes from the document, each falling back
      to the run configuration's value; `retry` is never read from it. */
  function Merge(base: RuntimePolicy, doc: PolicyDoc): RuntimePolicy {
    var b := base.budget;
    var r := base.reliability;
    var s := base.security;
    RuntimePolicy(
      BudgetPolicy(
        doc.budget.maxUsdPerRun.GetOr(b.maxUsdPerRun),
        doc.budget.warnAtPercent.GetOr(b.warnAtPercent),
        doc.budget.enforceHardStop.GetOr(b.enforceHardStop)),
      ReliabilityPolicy(
        doc.reliability.maxParallelRequests.GetOr(r.maxParallelRequests),
        doc.reliability.requestTimeoutSeconds.GetOr(r.requestTimeoutSeconds),
        r.retry,
        doc.reliability.providerErrorRate.windowSizeRequests.GetOr(r.errorRateWindowSizeRequests),
        doc.reliability.providerErrorRate.hardStopPercent.GetOr(r.errorRateHardStopPercent)),
      SecurityPolicy(
        doc.security.byokOnly.GetOr(s.byokOnly),
        doc.security.persistUserApiKeys.GetOr(s.persistUserApiKeys),
        doc.security.redactSecretsInLogs.GetOr(s.redactSecretsInLogs),
        doc.security.allowedSecretEnvVars.GetOr(s.allowedSecretEnvVars)))
  }

  /** `merge_policy`: reads the policy file, then merges. */
  function MergePolicy(config: RunConfig, file: Option<YamlValue>): (r: Result<RuntimePolicy, PolicyError>)
    ensures r.Err? <==> LoadPolicyYaml(file).Err?
    ensures r.Ok? ==> r.value.reliability.retry == config.policy.reliability.retry
    ensures r.Ok? && file.value.Falsy? ==> r.value == config.policy
  {
    var doc :- LoadPolicyYaml(file);
    EmptyDocKeepsBase(config.policy);
    Ok(Merge(config.policy, doc))
  }

  /** An empty policy document changes nothing. */
  lemma EmptyDocKeepsBase(base: RuntimePolicy)
    ensures Merge(base, EmptyDoc) == base
  {
  }

  /** The merged value is the document's when the key is present, else the
      run configuration's. */
  predicate Decides<T(==)>(key: Option<T>, merged: T, base: T) {
    (key.Some? ==> merged == key.value) && (key.None? ==> merged == base)
  }

  /** Every key the document sets wins over the run configuration, and every
      key it leaves out keeps the configuration's value; the error-rate keys
      are read from the nested `provider_error_rate` map. */
  lemma MergeOverrideElseDefault(base: RuntimePolicy, doc: PolicyDoc)
    ensures var m := Merge(base, doc);
      && Decides(doc.budget.maxUsdPerRun, m.budget.maxUsdPerRun, base.budget.maxUsdPerRun)
      && Decides(doc.budget.warnAtPercent, m.budget.warnAtPercent, base.budget.warnAtPercent)
      && Decides(doc.budget.enforceHardStop, m.budget.enforceHardStop, base.budget.enforceHardStop)
      && Decides(doc.reliability.maxParallelRequests, m.reliability.maxParallelRequests,
                 base.reliability.maxParallelRequests)
      && Decides(doc.reliability.requestTimeoutSeconds, m.reliability.requestTimeoutSeconds,
                 base.reliability.requestTimeoutSeconds)
      && Decides(doc.reliability.providerErrorRate.windowSizeRequests, m.reliability.errorRateWindowSizeRequests,
                 base.reliability.errorRateWindowSizeRequests)
      && Decides(doc.reliability.providerErrorRate.hardStopPercent, m.reliability.errorRateHardStopPercent,
                 base.reliability.errorRateHardStopPercent)
      && Decides(doc.security.byokOnly, m.security.byokOnly, base.security.byokOnly)
      && Decides(doc.security.persistUserApiKeys, m.security.persistUserApiKeys, base.security.persistUserApiKeys)
      && Decides(doc.security.redactSecretsInLogs, m.security.redactSecretsInLogs, base.security.redactSecretsInLogs)
      && Decides(doc.security.allowedSecretEnvVars, m.security.allowedSecretEnvVars,
                 base.security.allowedSecretEnvVars)
      && m.reliability.retry == base.reliability.retry
  {
  }

  /** Merging the same document twice gives what merging it once gives. */
  lemma MergeIdempotent(base: RuntimePolicy, doc: PolicyDoc)
    ensures Merge(Merge(base, doc), doc) == Merge(base, doc)
  {
  }

  /** A document that sets every key determines the merged policy apart from
      `retry`: two run configurations with the same retry policy merge to the
      same result. */
  lemma FullDocDecides(base1: RuntimePolicy, base2: RuntimePolicy, doc: PolicyDoc)
    requires doc.budget.maxUsdPerRun.Some? && doc.budget.warnAtPercent.Some? && doc.budget.enforceHardStop.Some?
    requires doc.reliability.maxParallelRequests.Some? && doc.reliability.requestTimeoutSeconds.Some?
    requires doc.reliability.providerErrorRate.windowSizeRequests.Some?
    requires doc.reliability.providerErrorRate.hardStopPercent.Some?
    requires doc.security.byokOnly.Some? && doc.security.persistUserApiKeys.Some?
    requires doc.security.redactSecretsInLogs.Some? && doc.security.allowedSecretEnvVars.Some?
    requires base1.reliability.retry == base2.reliability.retry
    ensures Merge(base1, doc) == Merge(base2, doc)
  {
  }
}
