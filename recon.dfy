/** The orchestrator `run_all_checks` (src/recon/mod.rs). */
module Recon {
  import opened Wrappers
  import opened Probes
  import opened Errors
  import opened Tasks
  import opened Models
  import opened Config
  import opened Dns
  import opened M365
  import opened AzureSvc
  import opened Aad
  import opened Tenant

  /** Everything outside the program that a run depends on. */
  datatype Env = Env(
    http: Http,
    resolver: Resolver,
    urls: UrlOps,
    decode: OpenIdDecoder,
    failures: JoinFailures)

  /** A step of the run, as a trace of what happened in which order. */
  datatype Phase = DnsCompleted | Spawned(task: Task) | Awaited(task: Task)

  /** `match handle.await { Ok(Ok(v)) => Some(v), _ => None }`. */
  function Merge<T>(j: Join<Result<T, ReconError>>): (r: Option<T>)
    ensures r.Some? <==> j.Joined? && j.value.Ok?
    ensures r.Some? ==> r.value == j.value.value
  {
    match j
    case Joined(Ok(v)) => Some(v)
    case Joined(Err(_)) => None
    case JoinFailed(_) => None
  }

  /** The DNS group's result as the record holds it: absent when the group failed. */
  function DnsCategory(domain: string, env: Env): (r: Option<DnsResults>)
    ensures r.Some? <==> RunDnsChecks(env.resolver, env.failures, domain).Ok?
    ensures r.Some? ==> r.value == RunDnsChecks(env.resolver, env.failures, domain).value
  {
    match RunDnsChecks(env.resolver, env.failures, domain)
    case Ok(d) => Some(d)
    case Err(_) => None
  }

  /** The federation category: present exactly when its task was joined and the realm query succeeded. */
  function FederationCategory(domain: string, cfg: CloudConfig, env: Env): (r: Option<FederationInfo>)
    ensures r.Some? <==> FederationTask !in env.failures && GetFederationInfo(domain, cfg, env.http).Ok?
    ensures r.Some? ==> r.value == GetFederationInfo(domain, cfg, env.http).value
  {
    Merge(Await(FederationTask, env.failures, GetFederationInfo(domain, cfg, env.http)))
  }

  /** The OpenID configuration category: present exactly when its task was joined and the fetch succeeded. */
  function AadConfigCategory(cfg: CloudConfig, env: Env): (r: Option<AzureAdConfig>)
    ensures r.Some? <==> AadConfigTask !in env.failures && GetAzureAdConfig(cfg, env.urls, env.http, env.decode).Ok?
    ensures r.Some? ==> r.value == GetAzureAdConfig(cfg, env.urls, env.http, env.decode).value
  {
    Merge(Await(AadConfigTask, env.failures, GetAzureAdConfig(cfg, env.urls, env.http, env.decode)))
  }

  /** The AD Connect category: present exactly when its task was joined, since the probe never fails. */
  function AadConnectCategory(cfg: CloudConfig, env: Env): (r: Option<AadConnectStatus>)
    ensures r.Some? <==> AadConnectTask !in env.failures
    ensures r.Some? ==> r.value == CheckAadConnectStatus(cfg, env.http).value
  {
    Merge(Await(AadConnectTask, env.failures, CheckAadConnectStatus(cfg, env.http)))
  }

  /**
   * The M365 category, computed from the DNS category `dns` held in the record: present exactly when
   * its task and each of its four probe tasks were joined.
   */
  function M365Category(domain: string, cfg: CloudConfig, env: Env, dns: Option<DnsResults>): (r: Option<M365Results>)
    ensures r.Some? <==> M365Task !in env.failures && FirstFailed(M365Order, env.failures).None?
    ensures r.Some? ==> r.value.teamsDetected == Some(CheckTeamsDns(dns))
    ensures r.Some? ==> r.value == RunM365Checks(domain, cfg, env.http, env.failures, dns).value
  {
    Merge(Await(M365Task, env.failures, RunM365Checks(domain, cfg, env.http, env.failures, dns)))
  }

  /** The Azure service category: present exactly when its task and each of its three probe tasks were joined. */
  function AzureCategory(domain: string, cfg: CloudConfig, env: Env): (r: Option<AzureServiceResults>)
    ensures r.Some? <==> AzureServiceTask !in env.failures && FirstFailed(AzureOrder, env.failures).None?
    ensures r.Some? ==> r.value == AzureServiceOutcome(domain, cfg, env.http, env.failures).value
  {
    Merge(Await(AzureServiceTask, env.failures, AzureServiceOutcome(domain, cfg, env.http, env.failures)))
  }

  /**
   * The record a run produces: each category as its group left it, the M365 group given the DNS
   * category the record holds, and the tenant, app and security categories never filled in.
   */
  function ExpectedResults(domain: string, cfg: CloudConfig, env: Env): (r: ReconResults)
    ensures r.domain == domain
    ensures r.m365Results == M365Category(domain, cfg, env, r.dnsResults)
    ensures r.tenantInfo.None? && r.aadAppResults.None? && r.securityServiceResults.None?
  {
    var dns := DnsCategory(domain, env);
    ReconResults(
      domain := domain,
      dnsResults := dns,
      tenantInfo := None,
      federationInfo := FederationCategory(domain, cfg, env),
      azureAdConfig := AadConfigCategory(cfg, env),
      aadConnectStatus := AadConnectCategory(cfg, env),
      m365Results := M365Category(domain, cfg, env, dns),
      azureServiceResults := AzureCategory(domain, cfg, env),
      aadAppResults := None,
      securityServiceResults := None)
  }

  predicate IsIdentityTask(t: Task) {
    t == FederationTask || t == AadConfigTask || t == AadConnectTask
  }

  predicate IsServiceTask(t: Task) {
    t == M365Task || t == AzureServiceTask
  }

  /** Every identity task is awaited before any service task is spawned. */
  predicate IdentityBeforeServices(trace: seq<Phase>) {
    forall i, j ::
      (0 <= i < |trace| && 0 <= j < |trace| && trace[i].Awaited? && IsIdentityTask(trace[i].task) &&
       trace[j].Spawned? && IsServiceTask(trace[j].task)) ==> i < j
  }

  /** Every task is awaited only after it was spawned. */
  predicate SpawnedBeforeAwaited(trace: seq<Phase>) {
    forall j :: 0 <= j < |trace| && trace[j].Awaited? ==> Spawned(trace[j].task) in trace[..j]
  }

  /** Every identity and service task is awaited. */
  predicate AllAwaited(trace: seq<Phase>) {
    forall t :: IsIdentityTask(t) || IsServiceTask(t) ==> Awaited(t) in trace
  }

  /** The phases of a run: DNS first, then the identity tasks, then the service tasks. */
  predicate PhasesOrdered(trace: seq<Phase>) {
    && |trace| > 0 && trace[0] == DnsCompleted
    && IdentityBeforeServices(trace)
    && SpawnedBeforeAwaited(trace)
    && AllAwaited(trace)
  }

  /** The phase the DNS step records. */
  const DnsPhases: seq<Phase> := [DnsCompleted]

  /** The phases the identity step records: three spawns, then the three awaits one by one in the same order. */
  const IdentityPhases: seq<Phase> :=
    [Spawned(FederationTask), Spawned(AadConfigTask), Spawned(AadConnectTask)]
    + [Awaited(FederationTask)] + [Awaited(AadConfigTask)] + [Awaited(AadConnectTask)]

  /** The phases the service step records: two spawns, then the two awaits one by one in the same order. */
  const ServicePhases: seq<Phase> :=
    [Spawned(M365Task), Spawned(AzureServiceTask)] + [Awaited(M365Task)] + [Awaited(AzureServiceTask)]

  /** The phases of every run, in order. */
  const RunPhases: seq<Phase> := [
    DnsCompleted,
    Spawned(FederationTask), Spawned(AadConfigTask), Spawned(AadConnectTask),
    Awaited(FederationTask), Awaited(AadConfigTask), Awaited(AadConnectTask),
    Spawned(M365Task), Spawned(AzureServiceTask),
    Awaited(M365Task), Awaited(AzureServiceTask)]

  /** The run's phases are the three steps' phases, one step after the other. */
  lemma RunPhasesInGroups()
    ensures DnsPhases + IdentityPhases + ServicePhases == RunPhases
  {
  }

  /** In the run's phases, the identity tasks are all awaited before a service task is spawned. */
  lemma RunPhasesIdentityFirst()
    ensures IdentityBeforeServices(RunPhases)
  {
    var p := RunPhases;
    forall i | 0 <= i < |p| && p[i].Awaited? && IsIdentityTask(p[i].task)
      ensures i <= 6
    {
      assert p[7].task == M365Task && p[8].task == AzureServiceTask;
      assert p[9].task == M365Task && p[10].task == AzureServiceTask;
    }
    forall j | 0 <= j < |p| && p[j].Spawned? && IsServiceTask(p[j].task)
      ensures 7 <= j
    {
      assert p[1].task == FederationTask && p[2].task == AadConfigTask && p[3].task == AadConnectTask;
      assert p[4].Awaited? && p[5].Awaited? && p[6].Awaited?;
    }
  }

  /** In the run's phases, each task is spawned before it is awaited. */
  lemma RunPhasesSpawnFirst()
    ensures SpawnedBeforeAwaited(RunPhases)
  {
    var p := RunPhases;
    forall j | 0 <= j < |p| && p[j].Awaited?
      ensures Spawned(p[j].task) in p[..j]
    {
      assert !p[0].Awaited? && !p[1].Awaited? && !p[2].Awaited? && !p[3].Awaited?;
      assert !p[7].Awaited? && !p[8].Awaited?;
      if j <= 6 {
        assert p[j - 3] == Spawned(p[j].task);
      } else {
        assert p[j - 2] == Spawned(p[j].task);
      }
    }
  }

  /** In the run's phases, every identity and service task is awaited. */
  lemma RunPhasesAwaitAll()
    ensures AllAwaited(RunPhases)
  {
    var p := RunPhases;
    forall t | IsIdentityTask(t) || IsServiceTask(t)
      ensures Awaited(t) in p
    {
      if t == FederationTask {
        assert p[4] == Awaited(t);
      } else if t == AadConfigTask {
        assert p[5] == Awaited(t);
      } else if t == AadConnectTask {
        assert p[6] == Awaited(t);
      } else if t == M365Task {
        assert p[9] == Awaited(t);
      } else {
        assert p[10] == Awaited(t);
      }
    }
  }

  /** The run's phases are in the required order. */
  lemma RunPhasesOrdered()
    ensures PhasesOrdered(RunPhases)
  {
    RunPhasesIdentityFirst();
    RunPhasesSpawnFirst();
    RunPhasesAwaitAll();
  }

  /** The DNS step of `run_all_checks`: the group's results, or nothing when the group failed. */
  method DnsStep(domain: string, env: Env, results: ReconResults) returns (next: ReconResults, phases: seq<Phase>)
    ensures next == results.(dnsResults := DnsCategory(domain, env))
    ensures phases == DnsPhases
  {
    next := results;
    match RunDnsChecks(env.resolver, env.failures, domain) {
      case Ok(d) =>
        next := next.(dnsResults := Some(d));
      case Err(_) =>
        next := next.(dnsResults := None);
    }
    phases := [DnsCompleted];
  }

  /**
   * The identity step: the realm, OpenID configuration and AD Connect probes are spawned together,
   * awaited in that order, and each merged into its own category.
   */
  method IdentityStep(domain: string, cfg: CloudConfig, env: Env, results: ReconResults)
    returns (next: ReconResults, phases: seq<Phase>)
    ensures next == results.(
      federationInfo := FederationCategory(domain, cfg, env),
      azureAdConfig := AadConfigCategory(cfg, env),
      aadConnectStatus := AadConnectCategory(cfg, env))
    ensures phases == IdentityPhases
  {
    var federation := GetFederationInfo(domain, cfg, env.http);
    var aadConfig := GetAzureAdConfig(cfg, env.urls, env.http, env.decode);
    var aadConnect := CheckAadConnectStatus(cfg, env.http);
    phases := [Spawned(FederationTask), Spawned(AadConfigTask), Spawned(AadConnectTask)];
    var federationJoin := Await(FederationTask, env.failures, federation);
    phases := phases + [Awaited(FederationTask)];
    var aadConfigJoin := Await(AadConfigTask, env.failures, aadConfig);
    phases := phases + [Awaited(AadConfigTask)];
    var aadConnectJoin := Await(AadConnectTask, env.failures, aadConnect);
    phases := phases + [Awaited(AadConnectTask)];
    next := results.(federationInfo := Merge(federationJoin));
    next := next.(azureAdConfig := Merge(aadConfigJoin));
    next := next.(aadConnectStatus := Merge(aadConnectJoin));
  }

  /**
   * Awaiting the M365 handle: a result the group returned is stored; a group that returned an error
   * leaves the category as it was; a handle that failed to join clears it.
   */
  method AwaitM365Into(results: ReconResults, join: Join<Result<M365Results, ReconError>>) returns (next: ReconResults)
    ensures join.Joined? && join.value.Err? ==> next == results
    ensures !(join.Joined? && join.value.Err?) ==> next == results.(m365Results := Merge(join))
  {
    next := results;
    match join {
      case Joined(Ok(m)) =>
        next := next.(m365Results := Some(m));
      case Joined(Err(_)) =>
      case JoinFailed(_) =>
        next := next.(m365Results := None);
    }
  }

  /** Awaiting the Azure service handle: the group's result is stored, anything else clears the category. */
  method AwaitAzureInto(results: ReconResults, join: Join<Result<AzureServiceResults, ReconError>>)
    returns (next: ReconResults)
    ensures next == results.(azureServiceResults := Merge(join))
  {
    next := results;
    match join {
      case Joined(Ok(a)) =>
        next := next.(azureServiceResults := Some(a));
      case Joined(Err(_)) =>
        next := next.(azureServiceResults := None);
      case JoinFailed(_) =>
        next := next.(azureServiceResults := None);
    }
  }

  /**
   * The service step: the M365 group, given a clone `dns` of the DNS results, and the Azure service
   * group are spawned together and awaited in that order. An M365 group that fails leaves its
   * category as it was, which is empty in a fresh record.
   */
  method ServiceStep(domain: string, cfg: CloudConfig, env: Env, dns: Option<DnsResults>, results: ReconResults)
    returns (next: ReconResults, phases: seq<Phase>)
    requires results.m365Results.None?
    ensures next == results.(
      m365Results := M365Category(domain, cfg, env, dns),
      azureServiceResults := AzureCategory(domain, cfg, env))
    ensures phases == ServicePhases
  {
    var m365 := RunM365Checks(domain, cfg, env.http, env.failures, dns);
    var azure := RunAzureServiceChecks(domain, cfg, env.http, env.failures);
    phases := [Spawned(M365Task), Spawned(AzureServiceTask)];
    next := AwaitM365Into(results, Await(M365Task, env.failures, m365));
    phases := phases + [Awaited(M365Task)];
    next := AwaitAzureInto(next, Await(AzureServiceTask, env.failures, azure));
    phases := phases + [Awaited(AzureServiceTask)];
  }

  /**
   * `run_all_checks`: DNS first, then the three identity probes spawned together and awaited in turn,
   * then the two service groups spawned together and awaited in turn. Failures only leave their
   * category empty: the run itself always succeeds.
   */
  method RunAllChecks(domain: string, cfg: CloudConfig, env: Env) returns (r: Result<ReconResults, ReconError>, trace: seq<Phase>)
    ensures r == Ok(ExpectedResults(domain, cfg, env))
    ensures PhasesOrdered(trace)
  {
    var results := NewReconResults(domain);
    var phases;
    results, phases := DnsStep(domain, env, results);
    trace := phases;
    var dnsClone := results.dnsResults;
    results, phases := IdentityStep(domain, cfg, env, results);
    trace := trace + phases;
    results, phases := ServiceStep(domain, cfg, env, dnsClone, results);
    trace := trace + phases;
    ResultsFromCategories(results, domain, cfg, env);
    r := Ok(results);
    RunPhasesInGroups();
    RunPhasesOrdered();
  }

  /** A record holding every category as the run computes it is the expected record. */
  lemma ResultsFromCategories(r: ReconResults, domain: string, cfg: CloudConfig, env: Env)
    requires r.domain == domain && r.dnsResults == DnsCategory(domain, env)
    requires r.tenantInfo.None? && r.aadAppResults.None? && r.securityServiceResults.None?
    requires r.federationInfo == FederationCategory(domain, cfg, env)
    requires r.azureAdConfig == AadConfigCategory(cfg, env)
    requires r.aadConnectStatus == AadConnectCategory(cfg, env)
    requires r.m365Results == M365Category(domain, cfg, env, r.dnsResults)
    requires r.azureServiceResults == AzureCategory(domain, cfg, env)
    ensures r == ExpectedResults(domain, cfg, env)
  {
  }

  /** The record with the category of top-level task `t` emptied. */
  function Cleared(r: ReconResults, t: Task): ReconResults {
    match t
    case FederationTask => r.(federationInfo := None)
    case AadConfigTask => r.(azureAdConfig := None)
    case AadConnectTask => r.(aadConnectStatus := None)
    case M365Task => r.(m365Results := None)
    case AzureServiceTask => r.(azureServiceResults := None)
    case _ => r
  }

  /** Failing task `t` empties the category of `t` and no other. */
  lemma MergeAfterFailure<T>(k: Task, f: JoinFailures, t: Task, reason: string, v: Result<T, ReconError>)
    ensures Merge(Await(k, f[t := reason], v)) == if k == t then None else Merge(Await(k, f, v))
  {
  }

  /** A failed identity or service task leaves the DNS category as it was. */
  lemma DnsCategoryAfterFailure(domain: string, env: Env, t: Task, reason: string)
    requires IsIdentityTask(t) || IsServiceTask(t)
    ensures DnsCategory(domain, env.(failures := env.failures[t := reason])) == DnsCategory(domain, env)
  {
    AgreeWithoutTask(env.failures, t, reason, DnsOrder);
    DnsDependsOnOwnTasks(env.resolver, env.failures, env.failures[t := reason], domain);
  }

  /** A failed task empties its own identity category and leaves the other two as they were. */
  lemma IdentityCategoriesAfterFailure(domain: string, cfg: CloudConfig, env: Env, t: Task, reason: string)
    ensures var env2 := env.(failures := env.failures[t := reason]);
      && FederationCategory(domain, cfg, env2) == (if t == FederationTask then None else FederationCategory(domain, cfg, env))
      && AadConfigCategory(cfg, env2) == (if t == AadConfigTask then None else AadConfigCategory(cfg, env))
      && AadConnectCategory(cfg, env2) == (if t == AadConnectTask then None else AadConnectCategory(cfg, env))
  {
    var f := env.failures;
    MergeAfterFailure(FederationTask, f, t, reason, GetFederationInfo(domain, cfg, env.http));
    MergeAfterFailure(AadConfigTask, f, t, reason, GetAzureAdConfig(cfg, env.urls, env.http, env.decode));
    MergeAfterFailure(AadConnectTask, f, t, reason, CheckAadConnectStatus(cfg, env.http));
  }

  /** A failed identity or service task empties the M365 category when it is the M365 task, and else leaves it. */
  lemma M365CategoryAfterFailure(domain: string, cfg: CloudConfig, env: Env, t: Task, reason: string, dns: Option<DnsResults>)
    requires IsIdentityTask(t) || IsServiceTask(t)
    ensures M365Category(domain, cfg, env.(failures := env.failures[t := reason]), dns)
      == if t == M365Task then None else M365Category(domain, cfg, env, dns)
  {
    var f, f2 := env.failures, env.failures[t := reason];
    AgreeWithoutTask(f, t, reason, M365Order);
    M365DependsOnOwnTasks(domain, cfg, env.http, f, f2, dns);
    MergeAfterFailure(M365Task, f, t, reason, RunM365Checks(domain, cfg, env.http, f, dns));
  }

  /** A failed identity or service task empties the Azure category when it is the Azure task, and else leaves it. */
  lemma AzureCategoryAfterFailure(domain: string, cfg: CloudConfig, env: Env, t: Task, reason: string)
    requires IsIdentityTask(t) || IsServiceTask(t)
    ensures AzureCategory(domain, cfg, env.(failures := env.failures[t := reason]))
      == if t == AzureServiceTask then None else AzureCategory(domain, cfg, env)
  {
    var f, f2 := env.failures, env.failures[t := reason];
    AgreeWithoutTask(f, t, reason, AzureOrder);
    AzureDependsOnOwnTasks(domain, cfg, env.http, f, f2);
    MergeAfterFailure(AzureServiceTask, f, t, reason, AzureServiceOutcome(domain, cfg, env.http, f));
  }

  /**
   * Isolation: when one identity or service task cannot be joined, only its own category is lost;
   * every other category is what the run would have produced anyway.
   */
  lemma FailureIsIsolated(domain: string, cfg: CloudConfig, env: Env, t: Task, reason: string)
    requires IsIdentityTask(t) || IsServiceTask(t)
    ensures ExpectedResults(domain, cfg, env.(failures := env.failures[t := reason]))
      == Cleared(ExpectedResults(domain, cfg, env), t)
  {
    FixedFieldsAfterFailure(domain, cfg, env, t, reason);
    IdentityFieldsAfterFailure(domain, cfg, env, t, reason);
    M365FieldAfterFailure(domain, cfg, env, t, reason);
    AzureFieldAfterFailure(domain, cfg, env, t, reason);
    ClearedFields(ExpectedResults(domain, cfg, env), ExpectedResults(domain, cfg, env.(failures := env.failures[t := reason])), t);
  }

  /** A failed identity or service task changes neither the domain, the DNS category nor the categories a run never fills. */
  lemma FixedFieldsAfterFailure(domain: string, cfg: CloudConfig, env: Env, t: Task, reason: string)
    requires IsIdentityTask(t) || IsServiceTask(t)
    ensures var r1, r2 := ExpectedResults(domain, cfg, env), ExpectedResults(domain, cfg, env.(failures := env.failures[t := reason]));
      && r2.domain == r1.domain && r2.dnsResults == r1.dnsResults && r2.tenantInfo == r1.tenantInfo
      && r2.aadAppResults == r1.aadAppResults && r2.securityServiceResults == r1.securityServiceResults
  {
    DnsCategoryAfterFailure(domain, env, t, reason);
  }

  /** A failed task empties its own identity category of the run's record and leaves the other two. */
  lemma IdentityFieldsAfterFailure(domain: string, cfg: CloudConfig, env: Env, t: Task, reason: string)
    requires IsIdentityTask(t) || IsServiceTask(t)
    ensures var r1, r2 := ExpectedResults(domain, cfg, env), ExpectedResults(domain, cfg, env.(failures := env.failures[t := reason]));
      && r2.federationInfo == (if t == FederationTask then None else r1.federationInfo)
      && r2.azureAdConfig == (if t == AadConfigTask then None else r1.azureAdConfig)
      && r2.aadConnectStatus == (if t == AadConnectTask then None else r1.aadConnectStatus)
  {
    IdentityCategoriesAfterFailure(domain, cfg, env, t, reason);
  }

  /** A failed task empties the M365 category of the run's record exactly when it is the M365 task. */
  lemma M365FieldAfterFailure(domain: string, cfg: CloudConfig, env: Env, t: Task, reason: string)
    requires IsIdentityTask(t) || IsServiceTask(t)
    ensures var r1, r2 := ExpectedResults(domain, cfg, env), ExpectedResults(domain, cfg, env.(failures := env.failures[t := reason]));
      r2.m365Results == (if t == M365Task then None else r1.m365Results)
  {
    DnsCategoryAfterFailure(domain, env, t, reason);
    M365CategoryAfterFailure(domain, cfg, env, t, reason, DnsCategory(domain, env));
  }

  /** A failed task empties the Azure category of the run's record exactly when it is the Azure task. */
  lemma AzureFieldAfterFailure(domain: string, cfg: CloudConfig, env: Env, t: Task, reason: string)
    requires IsIdentityTask(t) || IsServiceTask(t)
    ensures var r1, r2 := ExpectedResults(domain, cfg, env), ExpectedResults(domain, cfg, env.(failures := env.failures[t := reason]));
      r2.azureServiceResults == (if t == AzureServiceTask then None else r1.azureServiceResults)
  {
    AzureCategoryAfterFailure(domain, cfg, env, t, reason);
  }

  /** Two records that differ only in the category of `t`, which the second has empty. */
  lemma ClearedFields(r1: ReconResults, r2: ReconResults, t: Task)
    requires IsIdentityTask(t) || IsServiceTask(t)
    requires r2.domain == r1.domain && r2.dnsResults == r1.dnsResults && r2.tenantInfo == r1.tenantInfo
    requires r2.aadAppResults == r1.aadAppResults && r2.securityServiceResults == r1.securityServiceResults
    requires r2.federationInfo == if t == FederationTask then None else r1.federationInfo
    requires r2.azureAdConfig == if t == AadConfigTask then None else r1.azureAdConfig
    requires r2.aadConnectStatus == if t == AadConnectTask then None else r1.aadConnectStatus
    requires r2.m365Results == if t == M365Task then None else r1.m365Results
    requires r2.azureServiceResults == if t == AzureServiceTask then None else r1.azureServiceResults
    ensures r2 == Cleared(r1, t)
  {
  }

  /**
   * A failed DNS group leaves its category empty and does not stop the run; the M365 group then
   * sees no DNS results and reports Teams as absent.
   */
  lemma DnsFailureStillReports(domain: string, cfg: CloudConfig, env: Env)
    requires env.resolver.mx(domain).Err?
    ensures ExpectedResults(domain, cfg, env).dnsResults.None?
    ensures ExpectedResults(domain, cfg, env).m365Results.Some? ==>
      ExpectedResults(domain, cfg, env).m365Results.value.teamsDetected == Some(false)
  {
  }

  /** A realm query answered with an error status loses the federation category only. */
  lemma RealmErrorLosesFederationOnly(domain: string, cfg: CloudConfig, env: Env, body: Result<string, Fault>)
    requires env.http(RealmUrl(domain, cfg)) == Response(500, body)
    ensures ExpectedResults(domain, cfg, env).federationInfo.None?
    ensures ExpectedResults(domain, cfg, env).aadConnectStatus.Some? <==> AadConnectTask !in env.failures
  {
  }
}
