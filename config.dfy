/** Per-cloud endpoint tables and their selection (src/config.rs). Loading the file is not modelled. */
module Config {
  import opened Wrappers
  import opened Errors

  /** The `--cloud` selector. */
  datatype CloudTarget = Commercial | Gcc | GccHigh | Dod

  /** The endpoint templates of one cloud environment. */
  datatype CloudConfig = CloudConfig(
    loginEndpoint: string,
    loginMicrosoftonlineHost: string,
    userRealmEndpoint: string,
    openidConfigEndpoint: string,
    azureAdConnectCheckUrl: string,
    sharepointHostSuffix: string,
    cdnHostSuffix: string,
    ewsEndpointHost: string,
    activesyncEndpointHost: string,
    appServiceHostSuffix: string,
    storageAccountHostSuffix: string)

  datatype Clouds = Clouds(commercial: CloudConfig, gov: CloudConfig, cn: CloudConfig)

  type U64 = n: int | 0 <= n < 0x1_0000_0000_0000_0000

  datatype AppConfig = AppConfig(
    clouds: Clouds,
    requestTimeoutSeconds: Option<U64>,
    defaultUserAgent: string)

  /** `std::time::Duration`, at the whole-second resolution the program uses. */
  datatype Duration = Duration(secs: U64)

  /** `select_cloud_config`: the commercial table for Commercial, the government table otherwise. */
  function SelectCloudConfig(app: AppConfig, target: CloudTarget): (r: Result<CloudConfig, ReconError>)
    ensures r.Ok?
    ensures target == Commercial ==> r.value == app.clouds.commercial
    ensures target in {Gcc, GccHigh, Dod} ==> r.value == app.clouds.gov
    ensures r.value == app.clouds.commercial || r.value == app.clouds.gov
  {
    match target
    case Commercial => Ok(app.clouds.commercial)
    case Gcc | GccHigh => Ok(app.clouds.gov)
    case Dod => Ok(app.clouds.gov)
  }

  /** The China table is never chosen, whatever the selector, unless it equals one of the others. */
  lemma ChinaNeverSelected(app: AppConfig, target: CloudTarget)
    requires app.clouds.cn != app.clouds.commercial && app.clouds.cn != app.clouds.gov
    ensures SelectCloudConfig(app, target).value != app.clouds.cn
  {
  }

  /** `get_timeout_duration`: the configured seconds, or zero when none are configured. */
  function GetTimeoutDuration(app: AppConfig): (d: Duration)
    ensures app.requestTimeoutSeconds.Some? ==> d.secs == app.requestTimeoutSeconds.value
    ensures app.requestTimeoutSeconds.None? ==> d.secs == 0
  {
    match app.requestTimeoutSeconds
    case None => Duration(0)
    case Some(s) => Duration(s)
  }
}
