# msft-recon-rs, modelled in Dafny

msft-recon-rs is a reconnaissance tool for Microsoft 365 and Azure tenants. Given a domain and a
cloud environment (commercial, government or China), it runs groups of passive probes:

- DNS lookups: MX, TXT, autodiscover, lyncdiscover and sip;
- the GetUserRealm federation query;
- the OpenID Connect discovery document;
- a Seamless SSO probe for AD Connect;
- Microsoft 365 service probes: SharePoint, tenant branding, EWS and ActiveSync, and Teams read
  off DNS;
- Azure resource-name guesses: App Service, storage accounts and CDN.

It gathers everything into one `ReconResults` record. A probe group that fails leaves its category
empty (`None`). The run as a whole never fails.

This project models that core: the record types, the per-cloud configuration selection, every probe
and its verdict rules, the two string-search parsers (DMARC policy and XML tag value) and the
orchestration of `run_all_checks`. It proves properties of the model.

The world outside the program becomes inputs:
- `Http` maps a URL to the outcome of one request: a status and body, or a transport fault.
- `Resolver` maps a queried name to the resolver's answer.
- `UrlOps` is the `url` crate's parse and join.
- `OpenIdDecoder` is the JSON decoder.
- `JoinFailures` names the spawned tasks whose join handle fails (a panic or a cancellation), with
  the text of each `JoinError`.

Every probe is a pure function of these inputs. Code that loops or updates a record step by step is
written as a method:
- the storage-account search;
- the Azure service group's sequence of awaits;
- `run_all_checks`.

Each method is proved equal to a specification function.

Modules, one per source file, with shared helpers:

| module | file | models |
|---|---|---|
| `Wrappers` | `wrappers.dfy` | `Option`, `Result` |
| `Seqs` | `seqs.dfy` | `Iterator::position` and `find` |
| `Text` | `text.dfy` | the `str` methods used: lowercasing, trimming, splitting, searching |
| `Probes` | `probes.dfy` | HTTP and DNS inputs |
| `Errors` | `errors.dfy` | `ReconError` from `src/error.rs` |
| `Tasks` | `tasks.dfy` | `tokio::spawn` join results |
| `Models` | `models.dfy` | `src/models.rs` |
| `Config` | `config.dfy` | `src/config.rs` |
| `Dns` | `dns.dfy` | `src/recon/dns.rs` |
| `M365` | `m365.dfy` | `src/recon/m365.rs` |
| `AzureSvc` | `azure_svc.dfy` | `src/recon/azure_svc.rs` |
| `Aad` | `aad.dfy` | `src/recon/aad.rs` |
| `Tenant` | `tenant.dfy` | `src/recon/tenant.rs` |
| `Recon` | `recon.dfy` | `src/recon/mod.rs` |

The main results:
- **Failure isolation** (`Recon.FailureIsIsolated`): when one identity or service task cannot be
  joined, the run's record is the one it would otherwise produce, with only that task's category
  emptied.
- **The run is correct** (`Recon.RunAllChecks`): the run always succeeds, and it returns exactly its
  specification record `Recon.ExpectedResults`. Each step returns the phases it records as it
  spawns and awaits its tasks. Put together, they come in the required order: DNS, then identity,
  then services, each task spawned before it is awaited.
- **Group dependencies**: each group's outcome depends only on the joins of its own tasks
  (`Dns.DnsDependsOnOwnTasks`, `M365.M365DependsOnOwnTasks`, `AzureSvc.AzureDependsOnOwnTasks`).
  A group that fails reports the first of its tasks that failed, under that task's check name.
- **XML round trip** (`Tenant.ExtractWrittenValue`): a value written between `<tag>` and `</tag>` is
  read back, under stated conditions. The tag name must not hold `<`. Without that condition the
  round trip is false: with the tag `><`, the start tag `<><>` can overlap itself.
- **Storage search** (`AzureSvc.CheckStorageAccount`): the loop returns the first candidate
  endpoint that answers 2xx or 4xx. It requests no URL after that one.
- **DMARC policy** (`Dns.ExtractDmarcPolicy`): the policy is the text after `p=` in the first
  segment that starts with `p=`, ignoring case. Worked examples check this on concrete records:
  an `sp=` segment is not a policy.

Facts about the code that the model keeps as written:
- **Verdicts.** Most M365 verdicts are plain booleans; a transport error turns them into `false`.
- **Awaits.** The identity probes and the service groups are spawned together. Each set is then
  awaited in a fixed order.
- **Failing sub-task.** When a sub-task of a group cannot be joined, the whole group fails through
  `?`. The other results of that group are lost.
- **Federation.** `get_federation_info` always reports `is_federated = true`.
- **URLs.** The EWS, ActiveSync and branding URLs concatenate the host settings with no separator.
- **Timeout.** `get_timeout_duration` yields zero seconds when no timeout is configured. The 30-second
  default lives in `src/recon/client.rs` (line 12), which is not part of this model.

## Model

| member | source | states |
|---|---|---|
| Models.NewReconResults | src/models.rs:221-228 | a new record holds the given domain and has every category absent |
| Models.EqualitiesAreStructural | src/models.rs:107-131 | each hand-written `PartialEq` (DNS, M365, Azure services) holds exactly when the two records are equal field for field; no field is left out |
| Models.AzureServiceEqIsOrderSensitive | src/models.rs:169-175 | equality of Azure service results compares the lists in order: the same two names in swapped order are unequal |
| Models.AadConnectStatusCases | src/models.rs:49-54 | the hybrid-identity status has exactly three distinct values |
| Config.SelectCloudConfig | src/config.rs:63-69 | the selection never fails; Commercial gets the commercial table; Gcc, GccHigh and Dod get the government table |
| Config.ChinaNeverSelected | src/config.rs:63-69 | no selector ever yields the China table, unless it equals one of the other two |
| Config.GetTimeoutDuration | src/config.rs:73-75 | the configured seconds when present, otherwise zero |
| Seqs.FirstIndex | src/recon/dns.rs:39-45 | `iter().position`: absent exactly when no element qualifies; otherwise it points at a qualifying element, and no earlier element qualifies |
| Seqs.Find | src/recon/dns.rs:39-45 | `iter().find`: absent exactly when no element qualifies; otherwise it is the first qualifying element |
| Seqs.FirstIndexIs | src/recon/azure_svc.rs:123-150 | a qualifying index with no qualifying element before it is the one `position` finds |
| Text.TrimStart | src/recon/dns.rs:169 | the result is a suffix of the input that does not start with whitespace, and everything dropped is whitespace |
| Text.TrimEnd | src/recon/dns.rs:169 | the result is a prefix of the input that does not end with whitespace, and everything dropped is whitespace |
| Text.Split | src/recon/dns.rs:168 | `split` always yields at least one piece, even on empty text |
| Text.SplitJoin | src/recon/dns.rs:168 | joining the pieces of a split with the separator gives back the input, and no piece holds the separator |
| Text.SplitFirstPiece | src/recon/m365.rs:80-84 | the first piece of a split is the longest prefix without the separator |
| Text.SplitAtSeparator | src/recon/dns.rs:168 | splitting `a + sep + b`, where `a` has no separator, gives `a` and then the pieces of `b` |
| Text.SplitWithoutSeparator | src/recon/dns.rs:168 | text without the separator splits into itself alone |
| Text.IndexOf | src/recon/tenant.rs:60-66 | `str::find`: absent exactly when the pattern does not occur; otherwise it is the first occurrence |
| Text.IndexFrom | src/recon/tenant.rs:60-66 | the search from a position finds the first occurrence at or after it, or proves there is none |
| Text.FirstOccurrenceAfter | src/recon/tenant.rs:60-66 | a pattern whose first character occurs nowhere else in it, placed after text that lacks it, first occurs right there |
| Tasks.FirstFailed | src/recon/m365.rs:9-77 | among tasks awaited in order with `?`: absent exactly when none fails to join; otherwise the first task that does |
| Tasks.AwaitAgree | src/recon/mod.rs:72-74 | a task's join result depends only on whether that task fails, and why |
| Tasks.FirstFailedAgree | src/recon/azure_svc.rs:33-44 | two runs whose failures agree on the awaited tasks stop at the same task |
| Tasks.AgreeWithoutTask | src/recon/mod.rs:59-103 | failing one more task outside a group leaves that group's failures as they were |
| Dns.GetMxRecords | src/recon/dns.rs:88-97 | the exchange names in answer order, or the resolver error as a DNS error |
| Dns.FlattenAppend | src/recon/dns.rs:103-106 | flattening the TXT answers distributes over concatenation |
| Dns.FlattenLength | src/recon/dns.rs:103-106 | each string of each TXT record is its own entry: the strings of a record that has several are not joined |
| Dns.GetTxtRecords | src/recon/dns.rs:100-109 | succeeds exactly when the lookup does, and then returns every string of every record, in order |
| Dns.FirstWithPrefix | src/recon/dns.rs:39-45 | absent exactly when no record starts with the prefix, ignoring case; otherwise the first one that does |
| Dns.ExtractDmarcPolicy | src/recon/dns.rs:165-173 | absent exactly when there is no record or no trimmed `;`-segment starts with `p=`, ignoring case; otherwise the text after the first two characters of the first such segment |
| Dns.TrimUntouched | src/recon/dns.rs:169 | a segment with no whitespace at either end is its own trim |
| Dns.TrimAfterBlank | src/recon/dns.rs:169 | trimming removes the blank that follows a `;` |
| Dns.PolicySegment | src/recon/dns.rs:170 | a segment is a policy segment exactly when its first two characters, lowercased, are `p` and `=` |
| Dns.SegmentsOfThree | src/recon/dns.rs:167-169 | the trimmed segments of `a; b; c` are the trims of `a`, ` b` and ` c` |
| Dns.SegmentsOfTwo | src/recon/dns.rs:167-169 | the trimmed segments of `a; b` are the trims of `a` and ` b` |
| Dns.SecondIsFirstPolicy | src/recon/dns.rs:170 | the first policy segment is the second one when the first segment is not a policy segment |
| Dns.PolicyInSecondOfThree | src/recon/dns.rs:165-173 | in `a; b; c`, a policy segment `b` after a non-policy `a` yields the value of `b` |
| Dns.NeitherIsPolicy | src/recon/dns.rs:170 | two segments neither of which starts with `p=` contain no policy segment |
| Dns.NoPolicyInTwo | src/recon/dns.rs:165-173 | in `a; b`, with neither segment starting with `p=`, there is no policy |
| Dns.PolicyExampleShape | src/recon/dns.rs:165-173 | the two example records are made of the segments the lemmas below use |
| Dns.DmarcPolicyOfExample | src/recon/dns.rs:165-173 | `v=DMARC1; p=reject; rua=mailto:x` has policy `reject` |
| Dns.SubdomainPolicyIsNotPolicy | src/recon/dns.rs:170 | `v=DMARC1; sp=reject` has no policy: `sp=` is not `p=` |
| Dns.CheckAutodiscover | src/recon/dns.rs:112-139 | never fails; gives the CNAME target when the first CNAME answer is a CNAME, else the first address, else nothing |
| Dns.CheckRecordPresence | src/recon/dns.rs:142-162 | never fails; true exactly when the address lookup or the CNAME lookup has an answer |
| Dns.RunDnsChecks | src/recon/dns.rs:9-85 | succeeds exactly when all five tasks join and the MX and TXT lookups succeed. Then: the found-flags agree with their values; the MX list is the lookup's; SPF and DMARC are the first matching TXT strings; the policy comes from the DMARC record; the autodiscover, lyncdiscover and sip results come from their probes; the TODO fields are absent. A failed MX join gives `CheckFailed("MX Lookup", …)` |
| Dns.DnsDependsOnOwnTasks | src/recon/dns.rs:21-60 | the DNS group's outcome depends only on the joins of its five tasks |
| M365.GetTenantName | src/recon/m365.rs:80-84 | the tenant name is a prefix of the domain without a dot, and it ends where the domain's first dot is |
| M365.TenantNameOfDottedDomain | src/recon/m365.rs:80-84 | the tenant name of `first.rest` is `first`, when `first` has no dot |
| M365.CheckSharePoint | src/recon/m365.rs:87-109 | never fails; detected exactly when the site answers 2xx or 3xx |
| M365.CheckTenantBranding | src/recon/m365.rs:112-135 | never fails; accessible exactly when the favicon answers 2xx |
| M365.CheckLegacyAuthEws | src/recon/m365.rs:138-163 | never fails; enabled exactly when the endpoint answers 4xx or 2xx |
| M365.CheckLegacyAuthActivesync | src/recon/m365.rs:166-191 | never fails; enabled exactly when the endpoint answers 4xx or 2xx |
| M365.CheckTeamsDns | src/recon/m365.rs:194-198 | Teams is detected exactly when DNS results exist and lyncdiscover or sip was seen; an unknown flag counts as absent |
| M365.RunM365Checks | src/recon/m365.rs:9-77 | fails exactly when one of the four tasks cannot be joined, and then names the first such task; otherwise each verdict is its probe's, and Teams is read off the DNS results |
| M365.M365DependsOnOwnTasks | src/recon/m365.rs:9-77 | the M365 group's outcome depends only on the joins of its four tasks |
| AzureSvc.CheckAppServices | src/recon/azure_svc.rs:61-100 | never fails; finds the site URL exactly when the request gets any response at all |
| AzureSvc.StorageCandidates | src/recon/azure_svc.rs:116-121 | three names in order: the domain prefix, then with `storage`, then with `data` |
| AzureSvc.StorageUrls | src/recon/azure_svc.rs:123-130 | one endpoint per candidate name, in the same order |
| AzureSvc.StorageSearch | src/recon/azure_svc.rs:123-157 | absent exactly when no endpoint answers 2xx or 4xx; otherwise the first endpoint that does |
| AzureSvc.StorageProbed | src/recon/azure_svc.rs:123-157 | the URLs requested are a prefix of the candidates; all but the last are negative, and the search stops early only at a positive one |
| AzureSvc.StorageSearchStopsAtResult | src/recon/azure_svc.rs:123-157 | the last URL requested is the one reported; when nothing is found, every candidate was requested |
| AzureSvc.CheckStorageAccount | src/recon/azure_svc.rs:106-157 | the loop returns what the search specifies, and it requests exactly the URLs the specification says |
| AzureSvc.StorageFallsThroughToSecond | src/recon/azure_svc.rs:123-157 | an unreachable bare name followed by a 400 on the `storage` name reports the `storage` endpoint, after two requests |
| AzureSvc.CheckCdn | src/recon/azure_svc.rs:163-199 | never fails; skipped when no CDN suffix is configured; otherwise found exactly when the endpoint gives any response |
| AzureSvc.Listed | src/recon/azure_svc.rs:48-50 | `map_or_else(Vec::new, \|url\| vec![url])`: empty exactly when the value is absent, and otherwise that one URL |
| AzureSvc.AzureServiceOutcome | src/recon/azure_svc.rs:8-55 | fails exactly when one of the three tasks cannot be joined, and then names the first such task; otherwise each list holds its probe's finding |
| AzureSvc.RunAzureServiceChecks | src/recon/azure_svc.rs:8-55 | the awaits and early returns yield exactly what the group's specification says |
| AzureSvc.AzureDependsOnOwnTasks | src/recon/azure_svc.rs:15-44 | the Azure service group's outcome depends only on the joins of its three tasks |
| Aad.OpenIdConfigUrl | src/recon/aad.rs:27-28 | the discovery URL is the configured path joined onto the parsed login URL; a parse or join failure is a URL error |
| Aad.ToAzureAdConfig | src/recon/aad.rs:47-53 | each field comes from the decoded document's field of the same name |
| Aad.GetAzureAdConfig | src/recon/aad.rs:21-54 | every failure becomes its distinct error: a URL error, a transport error, a non-2xx status (with the body text), an unreadable body, an undecodable body. It succeeds exactly on a decoded 2xx response, and then returns that document's fields |
| Aad.CheckAadConnectStatus | src/recon/aad.rs:59-103 | never fails. Hybrid exactly when the URL is set and answers 2xx or 3xx. CloudOnly exactly when the URL is set and gets another status, or a connect, request or timeout error. Unknown otherwise |
| Aad.NoConnectUrlIsUnknown | src/recon/aad.rs:64-70 | a cloud without an SSO check URL is never probed and reports Unknown |
| Tenant.ValueBefore | src/recon/tenant.rs:63-65 | absent exactly when the end tag does not occur; otherwise the text before its first occurrence |
| Tenant.ExtractXmlTagValue | src/recon/tenant.rs:56-67 | absent when there is no start tag; a value found lies right after the first start tag and right before the first end tag after it |
| Tenant.ExtractPresentIffEnd | src/recon/tenant.rs:56-67 | after the first start tag, a value is found exactly when an end tag follows; the converse of the function's own contract |
| Tenant.FirstOccurrenceUnique | src/recon/tenant.rs:60 | only one index is the first occurrence of a pattern |
| Tenant.IndexOfFinds | src/recon/tenant.rs:60 | the first occurrence is what `find` returns |
| Tenant.TagsDoNotOverlap | src/recon/tenant.rs:57-58 | when the tag name has no `<`, neither tag can overlap itself |
| Tenant.NothingBeforeFirst | src/recon/tenant.rs:63-65 | the text before the first occurrence of a pattern does not contain it |
| Tenant.FoundAfter | src/recon/tenant.rs:60-64 | a non-overlapping tag written after text that lacks it is found exactly there |
| Tenant.ValueHasNoEndTag | src/recon/tenant.rs:56-67 | an extracted value never contains the end tag |
| Tenant.ValueBeforeWritten | src/recon/tenant.rs:63-65 | a value followed by the end tag is read back up to that tag, when the value lacks the tag |
| Tenant.ExtractWrittenValue | src/recon/tenant.rs:56-67 | round trip: `pre<tag>v</tag>post` yields `v`, when `pre` has no start tag, `v` has no end tag and the name has no `<` |
| Tenant.UnclosedTagIsAbsent | src/recon/tenant.rs:56-67 | a start tag with no end tag after it yields nothing |
| Tenant.GetFederationInfo | src/recon/tenant.rs:11-52 | a transport error, a non-2xx status (with the body text) and an unreadable body are errors, and it succeeds exactly otherwise. Then the result is always federated, a missing `NameSpaceType` reads as `Unknown`, and the URL fields stay empty |
| Tenant.RealmReplyNamespace | src/recon/tenant.rs:36-51 | a 2xx realm reply with a `NameSpaceType` element reports its value |
| Tenant.RealmReplyWithoutNamespace | src/recon/tenant.rs:36-51 | a 2xx realm reply without that element is federated, of type `Unknown` |
| Recon.Merge | src/recon/mod.rs:77-90 | a join counts as present exactly when both that task and its check succeeded, and then it is the check's value |
| Recon.DnsCategory | src/recon/mod.rs:39-50 | present exactly when the DNS group succeeds, and then its results |
| Recon.FederationCategory | src/recon/mod.rs:59-80 | present exactly when its task joins and the realm query succeeds |
| Recon.AadConfigCategory | src/recon/mod.rs:64-85 | present exactly when its task joins and the discovery fetch succeeds |
| Recon.AadConnectCategory | src/recon/mod.rs:69-90 | present exactly when its task joins: the probe never fails |
| Recon.M365Category | src/recon/mod.rs:98-122 | present exactly when its task and its four probe tasks join; then Teams is read off the DNS results given to it |
| Recon.AzureCategory | src/recon/mod.rs:103-138 | present exactly when its task and its three probe tasks join |
| Recon.ExpectedResults | src/recon/mod.rs:30-142 | the record holds the domain; the M365 category comes from the record's own DNS category; tenant, app and security categories are never filled in |
| Recon.RunPhasesInGroups | src/recon/mod.rs:39-138 | the DNS, identity and service steps' phases, one after the other, form the run's phase list |
| Recon.RunPhasesIdentityFirst | src/recon/mod.rs:72-103 | every identity task is awaited before any service task is spawned |
| Recon.RunPhasesSpawnFirst | src/recon/mod.rs:59-124 | every task is spawned before it is awaited |
| Recon.RunPhasesAwaitAll | src/recon/mod.rs:72-124 | every identity and service task is awaited |
| Recon.RunPhasesOrdered | src/recon/mod.rs:39-138 | DNS comes first, then identity, then services, each task spawned before it is awaited and every task awaited |
| Recon.DnsStep | src/recon/mod.rs:39-50 | the DNS step files the group's results under DNS, or files nothing when the group failed; it records the DNS phase |
| Recon.IdentityStep | src/recon/mod.rs:56-90 | the identity step files each of the three probes under its own category; it records the three spawns, then the three awaits in the same order |
| Recon.AwaitM365Into | src/recon/mod.rs:106-122 | a joined M365 result is stored; a group error leaves the category as it was; a failed join clears it |
| Recon.AwaitAzureInto | src/recon/mod.rs:124-138 | a joined Azure result is stored; a group error or a failed join clears the category |
| Recon.ServiceStep | src/recon/mod.rs:94-138 | the service step files both groups. An M365 failure leaves that category as it was, which is empty in a new record. It records the two spawns, then the two awaits in the same order |
| Recon.RunAllChecks | src/recon/mod.rs:30-142 | the run always succeeds with exactly the specified record; the phases its three steps record, put together, are in the required order |
| Recon.ResultsFromCategories | src/recon/mod.rs:36-141 | a record holding each category as its group leaves it is the expected record |
| Recon.MergeAfterFailure | src/recon/mod.rs:77-90 | failing task `t` empties the join of `t` and leaves every other join as it was |
| Recon.DnsCategoryAfterFailure | src/recon/mod.rs:39-59 | a failed identity or service task leaves the DNS category unchanged |
| Recon.IdentityCategoriesAfterFailure | src/recon/mod.rs:72-90 | a failed task empties only its own identity category |
| Recon.M365CategoryAfterFailure | src/recon/mod.rs:106-122 | only the M365 task's own failure empties the M365 category |
| Recon.AzureCategoryAfterFailure | src/recon/mod.rs:124-138 | only the Azure task's own failure empties the Azure category |
| Recon.FixedFieldsAfterFailure | src/recon/mod.rs:36-52 | a failed identity or service task changes neither the domain, nor the DNS category, nor the categories a run never fills |
| Recon.IdentityFieldsAfterFailure | src/recon/mod.rs:72-90 | in the run's record, a failed task empties only its own identity category |
| Recon.M365FieldAfterFailure | src/recon/mod.rs:94-122 | in the run's record, only the M365 task's own failure empties the M365 category |
| Recon.AzureFieldAfterFailure | src/recon/mod.rs:100-138 | in the run's record, only the Azure task's own failure empties the Azure category |
| Recon.FailureIsIsolated | src/recon/mod.rs:29-142 | one failed identity or service task empties its own category and leaves every other category as the run would produce it anyway |
| Recon.ClearedFields | src/recon/mod.rs:77-138 | two records that differ only in one category, which the second leaves empty, are related by clearing that category |
| Recon.DnsFailureStillReports | src/recon/mod.rs:45-52 | a failed MX lookup leaves DNS empty without stopping the run, and M365 then reports Teams as absent |
| Recon.RealmErrorLosesFederationOnly | src/recon/mod.rs:77-90 | a realm query answered with status 500 loses the federation category, while AD Connect is present exactly when its task joins |

## Left out

- Scheduling by tokio is not modelled: the order in which spawned tasks run, timing and cancellation. A task's join result is its computed value, unless that task is named in `JoinFailures`.
- Logging (`info!`, `warn!`, `debug!`, `error!`) is left out: it has no effect on results.
- The network is not modelled: HTTP requests and DNS queries are inputs. Each URL gets one attempt, with the same outcome every time.
- `load_config` is left out: reading and parsing `config/clouds.toml` is file I/O. A configuration is an input.
- `src/recon/client.rs` (HTTP client construction), `src/output.rs` (formatting), `src/main.rs` and `src/cli.rs` (argument parsing and process exit) are not part of this model.
- The `mdi` module and the tenant, app and security categories of the record are left out: the core never fills these categories in.
- Text.LowerChar: lowercasing is ASCII only, while Rust's `to_lowercase` is full Unicode. The prefixes compared (`v=spf1`, `v=dmarc1`, `p=`) are ASCII.
- Dns.GetTxtRecords: the answer's character-strings are taken as already-decoded text, so the lossy UTF-8 decoding of the bytes is not modelled.
- Aad.GetAzureAdConfig: a body that does not decode as the document is reported as `Network` with a fault that is neither a connect, request nor timeout error. reqwest reports its decode errors this way. The JSON decoder is an input.
- Dns.RunDnsChecks: the contract names the error only for a failed MX join. The other error paths (a resolver error, a later join failure) are fixed by the function's body, not stated one by one.
- Recon.RunAllChecks: the phase list it returns records the order of spawns and awaits as the code writes them, not the order tasks actually run in.
- Integer widths: the timeout is a 64-bit unsigned number, and status codes are 100 to 999. No arithmetic on them can overflow.
