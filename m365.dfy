/** The Microsoft 365 service probes (src/recon/m365.rs). */
module M365 {
  import opened Wrappers
  import opened Text
  import opened Probes
  import opened Errors
  import opened Tasks
  import opened Models
  import opened Config

  /** `get_tenant_name`: the text of the domain before its first dot (all of it when it has none). */
  function GetTenantName(domain: string): (r: string)
    ensures StartsWith(domain, r)
    ensures '.' !in r
    ensures |r| < |domain| ==> domain[|r|] == '.'
  {
    SplitFirstPiece(domain, '.');
    Split(domain, '.')[0]
  }

  /** The tenant name of a dotted domain is its first label. */
  lemma TenantNameOfDottedDomain(first: string, rest: string)
    requires '.' !in first
    ensures GetTenantName(first + "." + rest) == first
  {
    SplitAtSeparator(first, '.', rest);
    assert first + "." + rest == first + ['.'] + rest;
  }

  function SharePointUrl(domain: string, cfg: CloudConfig): string {
    "https://" + GetTenantName(domain) + cfg.sharepointHostSuffix
  }

  function BrandingUrl(domain: string, cfg: CloudConfig): string {
    "https://" + cfg.loginMicrosoftonlineHost + GetTenantName(domain) + "/common/branding/favicon.ico"
  }

  function EwsUrl(domain: string, cfg: CloudConfig): string {
    "https://" + domain + cfg.ewsEndpointHost + "/EWS/Exchange.asmx"
  }

  function ActiveSyncUrl(domain: string, cfg: CloudConfig): string {
    "https://" + domain + cfg.activesyncEndpointHost + "/Microsoft-Server-ActiveSync"
  }

  /** `check_sharepoint`: detected exactly when the site answers with a 2xx or 3xx status. */
  function CheckSharePoint(domain: string, cfg: CloudConfig, http: Http): (r: Result<bool, ReconError>)
    ensures r.Ok?
    ensures var o := http(SharePointUrl(domain, cfg));
      r.value <==> o.Response? && (IsSuccess(o.status) || IsRedirection(o.status))
  {
    match http(SharePointUrl(domain, cfg))
    case Response(status, _) => Ok(IsSuccess(status) || IsRedirection(status))
    case TransportError(_) => Ok(false)
  }

  /** `check_tenant_branding`: accessible exactly when the favicon answers with a 2xx status. */
  function CheckTenantBranding(domain: string, cfg: CloudConfig, http: Http): (r: Result<bool, ReconError>)
    ensures r.Ok?
    ensures var o := http(BrandingUrl(domain, cfg));
      r.value <==> o.Response? && IsSuccess(o.status)
  {
    match http(BrandingUrl(domain, cfg))
    case Response(status, _) => Ok(IsSuccess(status))
    case TransportError(_) => Ok(false)
  }

  /** `check_legacy_auth_ews`: enabled exactly when the endpoint answers with a 2xx or 4xx status. */
  function CheckLegacyAuthEws(domain: string, cfg: CloudConfig, http: Http): (r: Result<bool, ReconError>)
    ensures r.Ok?
    ensures var o := http(EwsUrl(domain, cfg));
      r.value <==> o.Response? && (IsClientError(o.status) || IsSuccess(o.status))
  {
    match http(EwsUrl(domain, cfg))
    case Response(status, _) => Ok(IsClientError(status) || IsSuccess(status))
    case TransportError(_) => Ok(false)
  }

  /** `check_legacy_auth_activesync`: the same test as for EWS, on the ActiveSync endpoint. */
  function CheckLegacyAuthActivesync(domain: string, cfg: CloudConfig, http: Http): (r: Result<bool, ReconError>)
    ensures r.Ok?
    ensures var o := http(ActiveSyncUrl(domain, cfg));
      r.value <==> o.Response? && (IsClientError(o.status) || IsSuccess(o.status))
  {
    match http(ActiveSyncUrl(domain, cfg))
    case Response(status, _) => Ok(IsClientError(status) || IsSuccess(status))
    case TransportError(_) => Ok(false)
  }

  /** `check_teams_dns`: Teams is present when DNS saw lyncdiscover or sip; an unknown flag counts as absent. */
  function CheckTeamsDns(dns: Option<DnsResults>): (r: bool)
    ensures r <==> dns.Some? && (dns.value.lyncdiscoverPresent == Some(true) || dns.value.sipCnameOrAPresent == Some(true))
  {
    match dns
    case None => false
    case Some(d) => d.lyncdiscoverPresent.UnwrapOr(false) || d.sipCnameOrAPresent.UnwrapOr(false)
  }

  /** The four probe tasks, in the order they are awaited, and the check name each one reports. */
  const M365Order: seq<Task> := [SharePointCheck, BrandingCheck, EwsCheck, ActiveSyncCheck]
  const M365Names: seq<string> := ["SharePoint Check", "Tenant Branding Check", "Legacy Auth (EWS) Check", "Legacy Auth (ActiveSync) Check"]

  /**
   * `run_m365_checks`: the four probes run as tasks and are awaited with `?`; Teams is read off the
   * DNS results. The group fails only when a task cannot be joined, and then with the first such task.
   */
  function RunM365Checks(domain: string, cfg: CloudConfig, http: Http, failures: JoinFailures, dns: Option<DnsResults>): (r: Result<M365Results, ReconError>)
    ensures r.Err? <==> FirstFailed(M365Order, failures).Some?
    ensures r.Err? ==> var k := FirstFailed(M365Order, failures).value;
      r.error == CheckFailed(M365Names[k], failures[M365Order[k]])
    ensures r.Ok? ==>
      && r.value.sharepointDetected == Some(CheckSharePoint(domain, cfg, http).value)
      && r.value.teamsDetected == Some(CheckTeamsDns(dns))
      && r.value.tenantBrandingAccessible == Some(CheckTenantBranding(domain, cfg, http).value)
      && r.value.legacyAuthEwsEnabled == Some(CheckLegacyAuthEws(domain, cfg, http).value)
      && r.value.legacyAuthActivesyncEnabled == Some(CheckLegacyAuthActivesync(domain, cfg, http).value)
  {
    var sharepoint :- JoinOrFail(Await(SharePointCheck, failures, CheckSharePoint(domain, cfg, http)), "SharePoint Check");
    var branding :- JoinOrFail(Await(BrandingCheck, failures, CheckTenantBranding(domain, cfg, http)), "Tenant Branding Check");
    var ews :- JoinOrFail(Await(EwsCheck, failures, CheckLegacyAuthEws(domain, cfg, http)), "Legacy Auth (EWS) Check");
    var activesync :- JoinOrFail(Await(ActiveSyncCheck, failures, CheckLegacyAuthActivesync(domain, cfg, http)), "Legacy Auth (ActiveSync) Check");
    Ok(M365Results(
      sharepointDetected := Some(sharepoint),
      teamsDetected := Some(CheckTeamsDns(dns)),
      tenantBrandingAccessible := Some(branding),
      legacyAuthEwsEnabled := Some(ews),
      legacyAuthActivesyncEnabled := Some(activesync)))
  }

  /** The M365 group's outcome depends only on the joins of its own four tasks. */
  lemma M365DependsOnOwnTasks(domain: string, cfg: CloudConfig, http: Http, f1: JoinFailures, f2: JoinFailures, dns: Option<DnsResults>)
    requires AgreeOn(f1, f2, M365Order)
    ensures RunM365Checks(domain, cfg, http, f1, dns) == RunM365Checks(domain, cfg, http, f2, dns)
  {
    FirstFailedAgree(M365Order, f1, f2);
    var r1, r2 := RunM365Checks(domain, cfg, http, f1, dns), RunM365Checks(domain, cfg, http, f2, dns);
    if r1.Err? {
      var k := FirstFailed(M365Order, f1).value;
      assert f1[M365Order[k]] == f2[M365Order[k]];
    } else {
      assert r1.value == r2.value;
    }
  }
}
