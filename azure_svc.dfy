/** The Azure service probes (src/recon/azure_svc.rs). */
module AzureSvc {
  import opened Wrappers
  import opened Seqs
  import opened Probes
  import opened Errors
  import opened Tasks
  import opened Models
  import opened Config
  import M365

  /** The first label of the domain, used as the candidate resource name. */
  function DomainPrefix(domain: string): string {
    M365.GetTenantName(domain)
  }

  function AppServiceUrl(domain: string, cfg: CloudConfig): string {
    "https://" + DomainPrefix(domain) + cfg.appServiceHostSuffix
  }

  /**
   * `check_app_services`: any response at all (whatever its status) means the site exists.
   * A transport error means absence, whether it is conclusive (connect/request) or not.
   */
  function CheckAppServices(domain: string, cfg: CloudConfig, http: Http): (r: Result<Option<string>, ReconError>)
    ensures r.Ok?
    ensures r.value.Some? <==> http(AppServiceUrl(domain, cfg)).Response?
    ensures r.value.Some? ==> r.value.value == AppServiceUrl(domain, cfg)
  {
    var url := AppServiceUrl(domain, cfg);
    match http(url)
    case Response(_, _) => Ok(Some(url))
    case TransportError(fault) =>
      if fault.isConnect || fault.isRequest then Ok(None) else Ok(None)
  }

  /** The storage account names tried, in order: the prefix, then with `storage`, then with `data`. */
  function StorageCandidates(domain: string): (names: seq<string>)
    ensures |names| == 3
    ensures names[0] == DomainPrefix(domain)
    ensures names[1] == DomainPrefix(domain) + "storage"
    ensures names[2] == DomainPrefix(domain) + "data"
  {
    var p := DomainPrefix(domain);
    [p, p + "storage", p + "data"]
  }

  function StorageUrl(name: string, cfg: CloudConfig): string {
    "https://" + name + cfg.storageAccountHostSuffix
  }

  /** The blob endpoint of each candidate name, in the same order. */
  function StorageUrls(domain: string, cfg: CloudConfig): (urls: seq<string>)
    ensures |urls| == |StorageCandidates(domain)|
    ensures forall i :: 0 <= i < |urls| ==> urls[i] == StorageUrl(StorageCandidates(domain)[i], cfg)
  {
    var names := StorageCandidates(domain);
    seq(|names|, i requires 0 <= i < |names| => StorageUrl(names[i], cfg))
  }

  /** A storage probe is positive when the endpoint answers with a 2xx or 4xx status. */
  predicate StorageQualifies(o: HttpOutcome) {
    o.Response? && (IsClientError(o.status) || IsSuccess(o.status))
  }

  /** The search condition, as one value so that the loop and its specification share it. */
  function StorageHit(http: Http): string -> bool {
    u => StorageQualifies(http(u))
  }

  /** What the storage search reports: the first URL whose probe is positive. */
  function StorageSearch(urls: seq<string>, http: Http): (r: Option<string>)
    ensures r.None? <==> forall i :: 0 <= i < |urls| ==> !StorageQualifies(http(urls[i]))
    ensures r.Some? ==>
      exists k :: 0 <= k < |urls| && urls[k] == r.value && StorageQualifies(http(urls[k])) &&
        forall j :: 0 <= j < k ==> !StorageQualifies(http(urls[j]))
  {
    match FirstIndex(urls, StorageHit(http))
    case None => None
    case Some(k) => Some(urls[k])
  }

  /** The URLs the search requests: all of them up to and including the first positive one. */
  function StorageProbed(urls: seq<string>, http: Http): (probed: seq<string>)
    ensures probed <= urls
    ensures forall j :: 0 <= j < |probed| - 1 ==> !StorageQualifies(http(probed[j]))
    ensures |probed| < |urls| ==> |probed| > 0 && StorageQualifies(http(probed[|probed| - 1]))
  {
    match FirstIndex(urls, StorageHit(http))
    case None => urls
    case Some(k) => urls[..k + 1]
  }

  /** The search stops exactly at its result: the last URL requested is the one reported. */
  lemma StorageSearchStopsAtResult(urls: seq<string>, http: Http)
    ensures var r := StorageSearch(urls, http);
      var probed := StorageProbed(urls, http);
      r.Some? ==> |probed| > 0 && probed[|probed| - 1] == r.value
    ensures StorageSearch(urls, http).None? ==> StorageProbed(urls, http) == urls
  {
  }

  /**
   * `check_storage_account`: probes the candidate endpoints in order and returns the first positive
   * one; transport errors and other statuses move on to the next name. Also returns the URLs requested.
   */
  method CheckStorageAccount(domain: string, cfg: CloudConfig, http: Http)
    returns (r: Result<Option<string>, ReconError>, probed: seq<string>)
    ensures r == Ok(StorageSearch(StorageUrls(domain, cfg), http))
    ensures probed == StorageProbed(StorageUrls(domain, cfg), http)
  {
    var urls := StorageUrls(domain, cfg);
    probed := [];
    for i := 0 to |urls|
      invariant probed == urls[..i]
      invariant forall j :: 0 <= j < i ==> !StorageHit(http)(urls[j])
    {
      var url := urls[i];
      probed := probed + [url];
      match http(url)
      case Response(status, _) =>
        if IsClientError(status) || IsSuccess(status) {
          FirstIndexIs(urls, StorageHit(http), i);
          r := Ok(Some(url));
          return;
        }
      case TransportError(_) =>
    }
    assert urls[..|urls|] == urls;
    r := Ok(None);
  }

  /** When the bare name is unreachable and the `storage` name answers 400, that one is reported. */
  lemma StorageFallsThroughToSecond(domain: string, cfg: CloudConfig, http: Http, f: Fault, body: Result<string, Fault>)
    requires http(StorageUrls(domain, cfg)[0]) == TransportError(f)
    requires http(StorageUrls(domain, cfg)[1]) == Response(400, body)
    ensures StorageSearch(StorageUrls(domain, cfg), http) == Some(StorageUrl(DomainPrefix(domain) + "storage", cfg))
    ensures StorageProbed(StorageUrls(domain, cfg), http) == StorageUrls(domain, cfg)[..2]
  {
    var urls := StorageUrls(domain, cfg);
    FirstIndexIs(urls, StorageHit(http), 1);
  }

  function CdnUrl(domain: string, cfg: CloudConfig): string {
    "https://" + DomainPrefix(domain) + cfg.cdnHostSuffix
  }

  /** `check_cdn`: skipped when no CDN suffix is configured; otherwise any response means presence. */
  function CheckCdn(domain: string, cfg: CloudConfig, http: Http): (r: Result<Option<string>, ReconError>)
    ensures r.Ok?
    ensures r.value.Some? <==> |cfg.cdnHostSuffix| > 0 && http(CdnUrl(domain, cfg)).Response?
    ensures r.value.Some? ==> r.value.value == CdnUrl(domain, cfg)
  {
    if |cfg.cdnHostSuffix| == 0 then Ok(None)
    else
      var url := CdnUrl(domain, cfg);
      match http(url)
      case Response(_, _) => Ok(Some(url))
      case TransportError(fault) =>
        if fault.isConnect || fault.isRequest then Ok(None) else Ok(None)
  }

  /** `map_or_else(Vec::new, |url| vec![url])`: a list of at most one URL. */
  function Listed(o: Option<string>): (l: seq<string>)
    ensures |l| <= 1
    ensures |l| == 0 <==> o.None?
    ensures o.Some? ==> l[0] == o.value
  {
    match o
    case None => []
    case Some(url) => [url]
  }

  /** The three probe tasks, in the order they are awaited, and the check name each one reports. */
  const AzureOrder: seq<Task> := [AppServiceCheck, StorageCheck, CdnCheck]
  const AzureNames: seq<string> := ["App Service Check", "Storage Account Check", "CDN Check"]

  /** What `run_azure_service_checks` yields, stated on values. */
  function AzureServiceOutcome(domain: string, cfg: CloudConfig, http: Http, failures: JoinFailures): (r: Result<AzureServiceResults, ReconError>)
    ensures r.Err? <==> FirstFailed(AzureOrder, failures).Some?
    ensures r.Err? ==> var k := FirstFailed(AzureOrder, failures).value;
      r.error == CheckFailed(AzureNames[k], failures[AzureOrder[k]])
    ensures r.Ok? ==>
      && r.value.probableAppServices == Listed(CheckAppServices(domain, cfg, http).value)
      && r.value.probableStorageAccounts == Listed(StorageSearch(StorageUrls(domain, cfg), http))
      && r.value.probableCdnEndpoints == Listed(CheckCdn(domain, cfg, http).value)
  {
    var app :- JoinOrFail(Await(AppServiceCheck, failures, CheckAppServices(domain, cfg, http)), "App Service Check");
    var storage :- JoinOrFail(Await(StorageCheck, failures, Ok(StorageSearch(StorageUrls(domain, cfg), http))), "Storage Account Check");
    var cdn :- JoinOrFail(Await(CdnCheck, failures, CheckCdn(domain, cfg, http)), "CDN Check");
    Ok(AzureServiceResults(Listed(app), Listed(storage), Listed(cdn)))
  }

  /**
   * `run_azure_service_checks`: runs the three probes, awaits them in order with `?`, and turns each
   * finding into a list of at most one URL.
   */
  method RunAzureServiceChecks(domain: string, cfg: CloudConfig, http: Http, failures: JoinFailures)
    returns (r: Result<AzureServiceResults, ReconError>)
    ensures r == AzureServiceOutcome(domain, cfg, http, failures)
  {
    // The three spawned tasks compute their values; joining them may still fail.
    var appValue := CheckAppServices(domain, cfg, http);
    var storageValue, _ := CheckStorageAccount(domain, cfg, http);
    var cdnValue := CheckCdn(domain, cfg, http);
    var app := JoinOrFail(Await(AppServiceCheck, failures, appValue), "App Service Check");
    if app.Err? {
      return Err(app.error);
    }
    var storage := JoinOrFail(Await(StorageCheck, failures, storageValue), "Storage Account Check");
    if storage.Err? {
      return Err(storage.error);
    }
    var cdn := JoinOrFail(Await(CdnCheck, failures, cdnValue), "CDN Check");
    if cdn.Err? {
      return Err(cdn.error);
    }
    r := Ok(AzureServiceResults(Listed(app.value), Listed(storage.value), Listed(cdn.value)));
  }

  /** The Azure service group's outcome depends only on the joins of its own three tasks. */
  lemma AzureDependsOnOwnTasks(domain: string, cfg: CloudConfig, http: Http, f1: JoinFailures, f2: JoinFailures)
    requires AgreeOn(f1, f2, AzureOrder)
    ensures AzureServiceOutcome(domain, cfg, http, f1) == AzureServiceOutcome(domain, cfg, http, f2)
  {
    FirstFailedAgree(AzureOrder, f1, f2);
    var r1, r2 := AzureServiceOutcome(domain, cfg, http, f1), AzureServiceOutcome(domain, cfg, http, f2);
    if r1.Err? {
      var k := FirstFailed(AzureOrder, f1).value;
      assert f1[AzureOrder[k]] == f2[AzureOrder[k]];
    } else {
      assert r1.value == r2.value;
    }
  }
}
