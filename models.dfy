/** The report the program produces, category by category (src/models.rs). */
module Models {
  import opened Wrappers

  datatype TenantInfo = TenantInfo(
    domain: string,
    tenantId: Option<string>,
    tenantName: Option<string>,
    cloudInstanceName: Option<string>,
    likelyM365Usage: Option<bool>)

  datatype FederationInfo = FederationInfo(
    isFederated: bool,
    nameSpaceType: Option<string>,
    federationBrandName: Option<string>,
    authUrl: Option<string>,
    cloudInstanceName: Option<string>)

  /** The fields taken from the OpenID Connect discovery document. */
  datatype AzureAdConfig = AzureAdConfig(
    issuer: Option<string>,
    authorizationEndpoint: Option<string>,
    tokenEndpoint: Option<string>,
    jwksUri: Option<string>,
    tenantRegionScope: Option<string>)

  /** The hybrid-identity verdict. */
  datatype AadConnectStatus = Hybrid | CloudOnly | Unknown

  datatype DnsResults = DnsResults(
    mxRecords: Option<seq<string>>,
    mxRecordsFound: Option<bool>,
    spfRecord: Option<string>,
    spfRecordFound: Option<bool>,
    dmarcRecord: Option<string>,
    dmarcRecordFound: Option<bool>,
    dmarcPolicy: Option<string>,
    msTxtRecord: Option<string>,
    msTxtFound: Option<bool>,
    msAdfsAuthTxtRecord: Option<string>,
    msAdfsAuthTxtFound: Option<bool>,
    enterpriseregistrationTxtRecord: Option<string>,
    enterpriseregistrationTxtFound: Option<bool>,
    enterpriseenrollmentTxtRecord: Option<string>,
    enterpriseenrollmentTxtFound: Option<bool>,
    autodiscoverCnameOrA: Option<string>,
    lyncdiscoverPresent: Option<bool>,
    sipCnameOrAPresent: Option<bool>,
    sipfederationtlsTcpPresent: Option<bool>,
    sipTlsPresent: Option<bool>)

  datatype M365Results = M365Results(
    sharepointDetected: Option<bool>,
    teamsDetected: Option<bool>,
    tenantBrandingAccessible: Option<bool>,
    legacyAuthEwsEnabled: Option<bool>,
    legacyAuthActivesyncEnabled: Option<bool>)

  datatype AzureServiceResults = AzureServiceResults(
    probableAppServices: seq<string>,
    probableStorageAccounts: seq<string>,
    probableCdnEndpoints: seq<string>)

  datatype AadAppResults = AadAppResults(aadAppsDetected: Option<seq<string>>)

  datatype SecurityServiceResults = SecurityServiceResults(
    mfaEnforced: Option<bool>,
    conditionalAccessPolicies: Option<seq<string>>)

  /**
   * The aggregated report. A category that is `None` means its probe group did not produce a
   * result at all; negative or unknown verdicts live inside a present category.
   */
  datatype ReconResults = ReconResults(
    domain: string,
    dnsResults: Option<DnsResults>,
    tenantInfo: Option<TenantInfo>,
    federationInfo: Option<FederationInfo>,
    azureAdConfig: Option<AzureAdConfig>,
    aadConnectStatus: Option<AadConnectStatus>,
    m365Results: Option<M365Results>,
    azureServiceResults: Option<AzureServiceResults>,
    aadAppResults: Option<AadAppResults>,
    securityServiceResults: Option<SecurityServiceResults>)

  /** `ReconResults::new`: the given domain and every category absent. */
  function NewReconResults(domain: string): (r: ReconResults)
    ensures r.domain == domain
    ensures r.dnsResults.None? && r.tenantInfo.None? && r.federationInfo.None?
    ensures r.azureAdConfig.None? && r.aadConnectStatus.None? && r.m365Results.None?
    ensures r.azureServiceResults.None? && r.aadAppResults.None? && r.securityServiceResults.None?
  {
    ReconResults(domain, None, None, None, None, None, None, None, None, None)
  }

  /** The hand-written `PartialEq for DnsResults`: a conjunction over all twenty fields. */
  predicate DnsResultsEq(a: DnsResults, b: DnsResults) {
    && a.mxRecords == b.mxRecords
    && a.mxRecordsFound == b.mxRecordsFound
    && a.spfRecord == b.spfRecord
    && a.spfRecordFound == b.spfRecordFound
    && a.dmarcRecord == b.dmarcRecord
    && a.dmarcRecordFound == b.dmarcRecordFound
    && a.dmarcPolicy == b.dmarcPolicy
    && a.msTxtRecord == b.msTxtRecord
    && a.msTxtFound == b.msTxtFound
    && a.msAdfsAuthTxtRecord == b.msAdfsAuthTxtRecord
    && a.msAdfsAuthTxtFound == b.msAdfsAuthTxtFound
    && a.enterpriseregistrationTxtRecord == b.enterpriseregistrationTxtRecord
    && a.enterpriseregistrationTxtFound == b.enterpriseregistrationTxtFound
    && a.enterpriseenrollmentTxtRecord == b.enterpriseenrollmentTxtRecord
    && a.enterpriseenrollmentTxtFound == b.enterpriseenrollmentTxtFound
    && a.autodiscoverCnameOrA == b.autodiscoverCnameOrA
    && a.lyncdiscoverPresent == b.lyncdiscoverPresent
    && a.sipCnameOrAPresent == b.sipCnameOrAPresent
    && a.sipfederationtlsTcpPresent == b.sipfederationtlsTcpPresent
    && a.sipTlsPresent == b.sipTlsPresent
  }

  /** The hand-written `PartialEq for M365Results`. */
  predicate M365ResultsEq(a: M365Results, b: M365Results) {
    && a.sharepointDetected == b.sharepointDetected
    && a.teamsDetected == b.teamsDetected
    && a.tenantBrandingAccessible == b.tenantBrandingAccessible
    && a.legacyAuthEwsEnabled == b.legacyAuthEwsEnabled
    && a.legacyAuthActivesyncEnabled == b.legacyAuthActivesyncEnabled
  }

  /** The hand-written `PartialEq for AzureServiceResults`; lists compare element by element, in order. */
  predicate AzureServiceResultsEq(a: AzureServiceResults, b: AzureServiceResults) {
    && a.probableAppServices == b.probableAppServices
    && a.probableStorageAccounts == b.probableStorageAccounts
    && a.probableCdnEndpoints == b.probableCdnEndpoints
  }

  /** Each hand-written equality leaves no field out: it is exactly structural equality. */
  lemma EqualitiesAreStructural(d1: DnsResults, d2: DnsResults, m1: M365Results, m2: M365Results,
                                z1: AzureServiceResults, z2: AzureServiceResults)
    ensures DnsResultsEq(d1, d2) <==> d1 == d2
    ensures M365ResultsEq(m1, m2) <==> m1 == m2
    ensures AzureServiceResultsEq(z1, z2) <==> z1 == z2
  {
  }

  /** Storage-list equality is order-sensitive: the same names in another order are unequal. */
  lemma AzureServiceEqIsOrderSensitive(x: string, y: string)
    requires x != y
    ensures !AzureServiceResultsEq(AzureServiceResults([], [x, y], []), AzureServiceResults([], [y, x], []))
  {
    assert [x, y][0] != [y, x][0];
  }

  /** The hybrid-identity verdict has exactly three values. */
  lemma AadConnectStatusCases(s: AadConnectStatus)
    ensures s == Hybrid || s == CloudOnly || s == Unknown
    ensures Hybrid != CloudOnly && CloudOnly != Unknown && Hybrid != Unknown
  {
  }

  /** In a DNS result, each found-flag agrees with the value it reports on. */
  predicate FoundFlagsConsistent(d: DnsResults) {
    && d.mxRecords.Some?
    && d.mxRecordsFound == Some(|d.mxRecords.value| > 0)
    && d.spfRecordFound == Some(d.spfRecord.Some?)
    && d.dmarcRecordFound == Some(d.dmarcRecord.Some?)
  }
}
