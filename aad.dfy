/** The Azure AD probes (src/recon/aad.rs). */
module Aad {
  import opened Wrappers
  import opened Probes
  import opened Errors
  import opened Models
  import opened Config

  /** The `url` crate, on URLs written out as text: parsing a base URL, and joining a reference onto it. */
  datatype UrlOps = UrlOps(
    parse: string -> Result<string, string>,
    join: (string, string) -> Result<string, string>)

  /** The fields read from the OpenID configuration document; every other field is ignored. */
  datatype OpenIdConfigResponse = OpenIdConfigResponse(
    issuer: Option<string>,
    authorizationEndpoint: Option<string>,
    tokenEndpoint: Option<string>,
    jwksUri: Option<string>,
    tenantRegionScope: Option<string>)

  /** The JSON decoder: the document a body holds, or nothing when it is not one. */
  type OpenIdDecoder = string -> Option<OpenIdConfigResponse>

  /** A reqwest decode error is none of a connect, request or timeout error. */
  const DecodeFault := Fault(false, false, false)

  /** The OpenID configuration URL: the configured endpoint joined onto the login base URL. */
  function OpenIdConfigUrl(cfg: CloudConfig, urls: UrlOps): (r: Result<string, ReconError>)
    ensures urls.parse(cfg.loginEndpoint).Err? ==> r == Err(UrlParse(urls.parse(cfg.loginEndpoint).error))
    ensures urls.parse(cfg.loginEndpoint).Ok? ==>
      var joined := urls.join(urls.parse(cfg.loginEndpoint).value, cfg.openidConfigEndpoint);
      if joined.Ok? then r == Ok(joined.value) else r == Err(UrlParse(joined.error))
  {
    var base :- ParseError(urls.parse(cfg.loginEndpoint));
    ParseError(urls.join(base, cfg.openidConfigEndpoint))
  }

  /** `?` on a `url::ParseError`. */
  function ParseError(u: Result<string, string>): Result<string, ReconError> {
    match u
    case Ok(url) => Ok(url)
    case Err(e) => Err(UrlParse(e))
  }

  /** The model record built from the decoded document, field for field. */
  function ToAzureAdConfig(doc: OpenIdConfigResponse): (c: AzureAdConfig)
    ensures c.issuer == doc.issuer && c.authorizationEndpoint == doc.authorizationEndpoint
    ensures c.tokenEndpoint == doc.tokenEndpoint && c.jwksUri == doc.jwksUri
    ensures c.tenantRegionScope == doc.tenantRegionScope
  {
    AzureAdConfig(doc.issuer, doc.authorizationEndpoint, doc.tokenEndpoint, doc.jwksUri, doc.tenantRegionScope)
  }

  /**
   * `get_azure_ad_config`: fetches the OpenID configuration document. A URL error, a transport
   * error, a non-2xx status, an unreadable body and an undecodable body are each an error.
   */
  function GetAzureAdConfig(cfg: CloudConfig, urls: UrlOps, http: Http, decode: OpenIdDecoder): (r: Result<AzureAdConfig, ReconError>)
    ensures OpenIdConfigUrl(cfg, urls).Err? ==> r == Err(OpenIdConfigUrl(cfg, urls).error)
    ensures OpenIdConfigUrl(cfg, urls).Ok? ==>
      var o := http(OpenIdConfigUrl(cfg, urls).value);
      && (o.TransportError? ==> r == Err(Network(o.fault)))
      && (o.Response? && !IsSuccess(o.status) ==>
            r == Err(UnexpectedApiResponse("OpenID Configuration", o.status, ErrorBody(o.body))))
      && (o.Response? && IsSuccess(o.status) && o.body.Err? ==> r == Err(Network(o.body.error)))
      && (o.Response? && IsSuccess(o.status) && o.body.Ok? && decode(o.body.value).None? ==> r == Err(Network(DecodeFault)))
    ensures r.Ok? <==>
      && OpenIdConfigUrl(cfg, urls).Ok?
      && var o := http(OpenIdConfigUrl(cfg, urls).value);
      && o.Response? && IsSuccess(o.status) && o.body.Ok? && decode(o.body.value).Some?
    ensures r.Ok? ==> r.value == ToAzureAdConfig(decode(http(OpenIdConfigUrl(cfg, urls).value).body.value).value)
  {
    var url :- OpenIdConfigUrl(cfg, urls);
    match http(url)
    case TransportError(fault) => Err(Network(fault))
    case Response(status, body) =>
      if !IsSuccess(status) then
        Err(UnexpectedApiResponse("OpenID Configuration", status, ErrorBody(body)))
      else
        match body
        case Err(fault) => Err(Network(fault))
        case Ok(text) =>
          match decode(text)
          case None => Err(Network(DecodeFault))
          case Some(doc) => Ok(ToAzureAdConfig(doc))
  }

  /** The SSO endpoint answered with a 2xx or 3xx status. */
  predicate SsoReachable(o: HttpOutcome) {
    o.Response? && (IsSuccess(o.status) || IsRedirection(o.status))
  }

  /** The SSO endpoint answered with another status, or failed to connect, to send or in time. */
  predicate SsoAbsent(o: HttpOutcome) {
    if o.Response? then !(IsSuccess(o.status) || IsRedirection(o.status))
    else o.fault.isTimeout || o.fault.isConnect || o.fault.isRequest
  }

  /**
   * `check_aad_connect_status`: probes the Seamless SSO endpoint. Never an error: a reachable endpoint
   * means Hybrid, an error status or a connect/request/timeout failure means cloud-only, and an empty
   * URL or any other failure leaves the status unknown.
   */
  function CheckAadConnectStatus(cfg: CloudConfig, http: Http): (r: Result<AadConnectStatus, ReconError>)
    ensures r.Ok?
    ensures var url := cfg.azureAdConnectCheckUrl;
      r.value == Hybrid <==> |url| > 0 && SsoReachable(http(url))
    ensures var url := cfg.azureAdConnectCheckUrl;
      r.value == CloudOnly <==> |url| > 0 && SsoAbsent(http(url))
    ensures var url := cfg.azureAdConnectCheckUrl;
      r.value == Unknown <==> |url| == 0 || (!SsoReachable(http(url)) && !SsoAbsent(http(url)))
  {
    var url := cfg.azureAdConnectCheckUrl;
    if |url| == 0 then Ok(Unknown)
    else
      match http(url)
      case Response(status, _) =>
        if IsSuccess(status) || IsRedirection(status) then Ok(Hybrid) else Ok(CloudOnly)
      case TransportError(fault) =>
        if fault.isTimeout || fault.isConnect || fault.isRequest then Ok(CloudOnly) else Ok(Unknown)
  }

  /** A cloud without an SSO check URL (the China cloud) never probes and reports Unknown. */
  lemma NoConnectUrlIsUnknown(cfg: CloudConfig, http: Http)
    requires cfg.azureAdConnectCheckUrl == ""
    ensures CheckAadConnectStatus(cfg, http) == Ok(Unknown)
  {
  }
}
