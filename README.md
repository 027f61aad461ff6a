# stevedore-dyndns: a verified model of the DNS reconciliation core

stevedore-dyndns keeps a Cloudflare zone pointed at a home server. It finds
the public address from a manual setting, from the Fritz!Box router or from
public lookup services. It then writes the root and wildcard records (direct
mode), or one A record per active subdomain followed by the removal of stale
subdomain records (proxied mode). Before any change, a scope guard makes sure
the client only touches names inside the configured domain. Around this core
sit the configuration loader, the YAML subdomain mappings, the service
registry's label parser, the merge of routes handed to the reverse proxy, and
a retry combinator for provider calls.

The model has one Dafny module per source package:

| module | source | form |
|---|---|---|
| `Wrappers`, `Strings` | Go standard library | `Option`/`Result`; `strings`, `strconv` and `unicode` helpers over `seq<char>` |
| `Scope` | `internal/cloudflare/client.go` | the scope guard and the ownership test as functions, plus the two listing folds |
| `Cloudflare` | `internal/cloudflare/client.go` | a `Zone` class standing for the provider, and a `Client` class with the `recordCache` map field |
| `Retry` | `internal/cloudflare/retry.go` | error classification and backoff as functions, and `withRetry` as a loop proved against a recursive specification |
| `Config` | `internal/config/config.go` | the `Config` record with its derivations, and `Load` over an environment map |
| `Naming` | `config.go` with `client.go` | lemmas about how configured record names meet the scope guard and the ownership test |
| `Reconciler` | `cmd/dyndns/main.go` | `updateIPAndDNS` and `updateSubdomainRecords` as methods, stated through the client's call log |
| `Mapping` | `internal/mapping/manager.go` | validation and resolution as functions, and a `Manager` class for `Load`/`Get` |
| `Discovery` | `internal/discovery/client.go` | the label parser and the record-to-service loop |
| `Caddy` | `internal/caddy/generator.go` | the `Generator` class and the `collectMappings` merge |
| `IpDetect` | `internal/ipdetect/detector.go` | the `Detector` class and the detection fallback, with network answers as inputs |

The reconciler's methods run on the modelled client and zone, so each write
really goes through the scope guard and the ID cache. The client keeps a ghost
log of the calls made on it: `UpdateRecord` appends `Upsert`, `DeleteRecord`
appends `Remove` and `GetManagedSubdomainRecords` appends `Listed` with its
result. Only those methods write the log, so a reconciler method's contract
about what it appends states the calls it makes. The ordering and safety
properties of the reconciliation pass are stated about those call sequences.

## Model

| member | source | states |
|---|---|---|
| Scope.ValidateRecordName | internal/cloudflare/client.go:49-70 | every denial is tagged "SECURITY" |
| Scope.ValidateIffUnderZone | internal/cloudflare/client.go:49-70 | a name is allowed iff, lower-cased and without one trailing dot, it is the domain or lies below it at a label boundary, or the same holds for a non-empty base domain that differs from the domain |
| Scope.PrefixAttackDenied | internal/cloudflare/client.go:60-69 | for a lower-case domain not ending in a dot, and a base domain equal to the domain (direct mode), characters glued before the domain without a dot (`fakehome.example.com` for `home.example.com`) are refused; in prefix mode such a name can still pass through the base domain, as `ValidateIffUnderZone` states |
| Scope.EmptyNameDenied | internal/cloudflare/client.go:49-70 | the empty name is refused whenever the domain is non-empty |
| Scope.CaseInsensitive | internal/cloudflare/client.go:329-332 | the ownership test gives the same answer for a name and its lower-case form; so does the scope guard, up to the error text |
| Scope.ZoneLabel | internal/cloudflare/client.go:348-350 | the zone label is dot-free; for a dotted domain it is the text before the first dot, otherwise the whole domain |
| Scope.OneLabelBeforeIff | internal/cloudflare/client.go:353-358 | the trimmed-prefix test is the same as "the name is one non-empty, dot-free label followed by the suffix" |
| Scope.ManagedIffShape | internal/cloudflare/client.go:329-364 | a name is managed iff it is neither the domain nor the base domain, and it either lies below the domain or is one dot-free label followed by `-<zone label>.<base>` (that second form only when a distinct base domain is set) |
| Scope.ApexNotManaged | internal/cloudflare/client.go:334-337 | the domain and the base domain are never managed |
| Scope.CollectDistinct | internal/cloudflare/client.go:305-323 | the `seen`-map fold keeps no duplicates; an element is in the result iff it is in the input and accepted |
| Scope.ManagedFQDNsSound | internal/cloudflare/client.go:305-323 | the managed-name listing has no duplicates; every entry is lower-case, not a wildcard, managed, and the normalized form of a listed name; every listed name whose normalized form qualifies is present |
| Scope.SubdomainLabelsSound | internal/cloudflare/client.go:375-404 | the label listing is distinct and non-empty; each label is extracted from a managed name, and every non-empty extracted label is present |
| Cloudflare.Matching | internal/cloudflare/client.go:90-93 | a filtered list holds exactly the zone's records with that type and name (any name when the filter is empty), in zone order |
| Cloudflare.Client.constructor | internal/cloudflare/client.go:29-44 | the client takes the domain, base domain, proxy flag and TTL from the configuration, and starts with an empty cache and an empty call log |
| Cloudflare.Client.UpdateRecord | internal/cloudflare/client.go:73-145 | the call is logged as `Upsert(name, type, content)`; the guard runs first, and a refused name changes neither cache nor zone; a failed lookup changes nothing; a cached or first-listed ID is updated in place and nothing is created; with no ID one record is created and its new ID cached; the record written has TTL 1 (automatic) when proxied, else the configured TTL; after success the `name:type` key is cached |
| Cloudflare.Client.DeleteRecord | internal/cloudflare/client.go:148-187 | the call is logged as `Remove(name, type)`; the guard runs first; no cached and no listed record means success with the zone untouched; a successful delete removes that record and drops only that key from the cache; a failed one changes nothing |
| Cloudflare.Client.GetManagedRecordFQDNs | internal/cloudflare/client.go:286-324 | it fails iff either list call fails; otherwise it returns the managed-name listing of the A names followed by the AAAA names |
| Cloudflare.Client.KeepManaged | internal/cloudflare/client.go:305-323 | the filtering loop yields the managed-name listing of its input names |
| Cloudflare.Client.GetManagedSubdomainRecords | internal/cloudflare/client.go:369-407 | it fails iff the managed-name listing fails; otherwise it returns the label listing of the managed names; the call is logged as `Listed` with its result, and the cache is unchanged |
| Cloudflare.Client.KeepLabels | internal/cloudflare/client.go:379-404 | the extraction loop yields the label listing of its input names |
| Cloudflare.KeepDistinct | internal/cloudflare/client.go:306-321 | the `seen`-map loop returns the distinct fold of its input |
| Retry.RetryableIffTimeoutRoot | internal/cloudflare/retry.go:55-69 | an error is retryable iff the innermost error of its wrap chain is a network error reporting a timeout |
| Retry.NeverRetried | internal/cloudflare/retry.go:55-69 | nil, Canceled, DeadlineExceeded, plain errors and non-timeout network errors are not retried; a timeout is |
| Retry.BackoffIsProduct | internal/cloudflare/retry.go:75 | the backoff is the minimum delay times 2 to the power of the attempt |
| Retry.RetryDelay | internal/cloudflare/retry.go:71-80 | the delay never exceeds the maximum delay |
| Retry.BackoffMonotone | internal/cloudflare/retry.go:75 | with a non-negative base, the backoff never shrinks as the attempt grows |
| Retry.RetryDelayMonotone | internal/cloudflare/retry.go:71-80 | a later attempt never gets a shorter delay |
| Retry.RetryDelayDoubles | internal/cloudflare/retry.go:71-80 | each further attempt doubles the delay until the cap is reached |
| Retry.WithRetry | internal/cloudflare/retry.go:25-53 | the loop's outcome, number of calls and sleep delays are exactly the recursive specification's |
| Retry.RunFromShape | internal/cloudflare/retry.go:29-50 | from attempt `a` there are at most `maxRetries - a + 1` calls; the k-th sleep uses `retryDelay(a + k)`; a returned value is the last call's; a returned error is the last call's error or the sleep's error |
| Retry.RunShape | internal/cloudflare/retry.go:25-53 | at most `maxRetries + 1` calls; the k-th sleep (from 0) uses `retryDelay(k)`; sleeps come only between attempts; the error is returned unchanged |
| Retry.FirstSuccessReturned | internal/cloudflare/retry.go:32-34 | a first call that succeeds is returned at once, after one call and no sleep |
| Retry.PermanentErrorNotRetried | internal/cloudflare/retry.go:35-37 | a non-retryable error is returned after exactly one call and no sleep |
| Retry.TimeoutTwiceThenSuccess | internal/cloudflare/retry.go:29-50 | with two retries, two timeouts then a success give that value after three calls |
| Retry.CancelledDuringBackoff | internal/cloudflare/retry.go:47-49 | a cancelled sleep after a timeout returns the cancellation after one call |
| Config.Config.GetSubdomainFQDN | internal/config/config.go:163-175 | direct mode gives `sub.domain`; prefix mode gives `sub-<first label>.<rest>` for a dotted domain and `sub-domain` otherwise |
| Config.Config.GetBaseDomain | internal/config/config.go:180-188 | prefix mode with a dotted domain gives the text after the first dot; otherwise the domain |
| Config.Config.Validate | internal/config/config.go:134-148 | no error iff token, zone ID, domain and ACME e-mail are all set; otherwise the first missing one, in that order, with its message |
| Config.TrimLeftSpaceToLower | internal/config/config.go:204 | trimming leading white space commutes with lower-casing |
| Config.TrimRightSpaceToLower | internal/config/config.go:204 | trimming trailing white space commutes with lower-casing |
| Config.ParseBoolIgnoresCase | internal/config/config.go:203-206 | `parseBool` gives the same answer for a string and its lower-case form |
| Config.GetEnvDefault | internal/config/config.go:190-195 | a set, non-empty variable wins; an unset or empty one gives the default |
| Config.Load | internal/config/config.go:54-131 | it succeeds iff the interval parses, an explicit DNS_TTL is an integer, and token, zone ID, domain and ACME e-mail are set; a bad interval is reported before a bad DNS_TTL, whose message carries `strconv.Atoi`'s syntax-error text; a loaded configuration is valid and its TTL is at least 60; an integer DNS_TTL, or else the check interval, is raised to 60; token, zone ID, domain, e-mail, router credentials, manual addresses and registry token come from their variables; the router host, log level and directories from their variables or defaults; the mappings file is the explicit one, else an existing shared file, else an existing data file, else the shared path; the switches go through `parseBool` |
| Strings.AtoiOfIntToString | internal/config/config.go:89 | printing an integer and parsing it back gives the integer |
| Naming.MappedNameInScope | internal/cloudflare/client.go:49-70 | a mapped subdomain name passes the scope guard for any nameable configuration: a non-empty domain in direct mode, or in prefix mode a dotted domain whose base is non-empty once normalized; the domain may end in a dot |
| Naming.SingleLabelPrefixRefused | internal/config/config.go:171-174 | in prefix mode with a single-label domain, the guard refuses every mapped name `sub-domain` |
| Naming.MappedNameManaged | internal/cloudflare/client.go:329-364 | for a nameable configuration, the name mapped from any subdomain in direct mode, and from a non-empty, dot-free one in prefix mode, is a managed record |
| Naming.MappedLabelRoundTrip | internal/cloudflare/client.go:382-398 | for a nameable configuration, the label the listing extracts from a mapped name is the subdomain, lower-cased |
| Naming.DirectNameBelow | internal/config/config.go:163-175 | in direct mode with a non-empty domain, trailing dot or not, the normalized mapped name ends with `.<normalized domain>` |
| Naming.PrefixNameBelowBase | internal/config/config.go:163-188 | in prefix mode with a dotted domain whose base is non-empty once normalized, the normalized mapped name ends with `.<normalized base>`, and the base differs from the domain |
| Naming.DirectNameShape | internal/config/config.go:163-175 | in direct mode with a non-empty domain, the normalized mapped name is the lower-cased subdomain before `.<normalized domain>`, and the base is the domain |
| Naming.PrefixNameShape | internal/config/config.go:163-175 | in prefix mode with a dotted domain whose base is non-empty once normalized, the normalized mapped name is the lower-cased subdomain before `-<zone label>.<base>` |
| Naming.PrefixDomainShape | internal/config/config.go:180-188 | in prefix mode with a dotted domain whose base is non-empty once normalized, the normalized domain is `<zone label>.<normalized base>` |
| Naming.ManagedBelowDomain | internal/cloudflare/client.go:339-342 | a name one or more labels below the domain is managed |
| Naming.ManagedPrefixForm | internal/cloudflare/client.go:344-361 | a dot-free label followed by `-<zone label>.<base>` is managed |
| Naming.ExtractBelowDomain | internal/cloudflare/client.go:386-387 | the label extracted from `l.<domain>` is `l` |
| Naming.ExtractPrefixForm | internal/cloudflare/client.go:388-397 | the label extracted from `l-<zone label>.<base>` is `l` |
| Naming.PrefixNotBelow | internal/cloudflare/client.go:386-395 | a prefix-form name never passes the below-the-domain test, so the prefix branch decides it |
| Naming.SplitAtFirstDot | internal/config/config.go:165-167 | splitting `a.b` once at a dot, for a dot-free `a`, gives `a` and `b` |
| Naming.FirstLabelUnique | internal/config/config.go:165-167 | the text before the first dot, and the rest, are determined by the name |
| Reconciler.ActiveFQDNs | cmd/dyndns/main.go:299-303 | the active names list the configured record name of each active subdomain, position by position |
| Reconciler.UpsertsExact | cmd/dyndns/main.go:313-328 | in proxied mode every upsert is an A record of the IPv4 address at an active name; each active name gets one when there is an IPv4 address; there are none without one |
| Reconciler.RemovalsByExact | cmd/dyndns/main.go:337-352 | for any naming of labels, the cleanup removes the A and AAAA records of exactly the inactive names of the existing labels |
| Reconciler.RemovalsExact | cmd/dyndns/main.go:337-352 | as written, the cleanup removes the A and AAAA records at `<label>.<domain>` of exactly the labels whose such name is inactive, and never an active name |
| Reconciler.PhasesOrdered | cmd/dyndns/main.go:313-352 | upserts, then the listing, then removals: no removal comes before an upsert |
| Reconciler.UpsertsBeforeRemovals | cmd/dyndns/main.go:313-352 | in `updateSubdomainRecords` every upsert comes before every removal |
| Reconciler.PlanMembers | cmd/dyndns/main.go:313-352 | the calls of a proxied pass are its upserts, its listing and, after a successful listing, its removals |
| Reconciler.ActiveNames | cmd/dyndns/main.go:299-303 | each active subdomain's record name is active, and every active name is longer than the domain |
| Reconciler.SubdomainPlanSafety | cmd/dyndns/main.go:331-352 | a failed listing issues no removal; no removal's name is, as an exact string, an active subdomain's record name (a mixed-case subdomain's lower-cased name is not protected, see Findings); only A records are upserted, and never at the domain itself |
| Reconciler.DirectPlanExact | cmd/dyndns/main.go:239-278 | direct mode writes only the domain and `*.domain`, A exactly when there is an IPv4 address and AAAA exactly when there is an IPv6 address, and lists or removes nothing |
| Reconciler.ActiveLabelKept | cmd/dyndns/main.go:299-341 | in direct naming, an active subdomain that is itself a listed label, so one written in lower case, is not removed in the same pass |
| Reconciler.AsWrittenMissesPrefixRecord | cmd/dyndns/main.go:339 | in prefix mode, the label taken from a record `<label>-<first>.<rest>` is rebuilt as `<label>.<first>.<rest>`, which is not that record's name |
| Reconciler.CorrectedTargetsRecord | cmd/dyndns/main.go:339 | with the name rebuilt by the configured naming scheme, the cleanup name of an extracted label is the record's own name, in either mode |
| Reconciler.CorrectedRemovalsExact | cmd/dyndns/main.go:337-352 | with the configured naming scheme, the cleanup removes the A and AAAA records of exactly the labels' own record names that are not, as exact strings, active names |
| Reconciler.AsWrittenRemovesMixedCaseActive | cmd/dyndns/main.go:299-341 | in direct mode, with the active subdomain `App` and the listed label `app`, the pass upserts `App.<domain>` (given an IPv4 address) and then removes the A and AAAA records at `app.<domain>`, which is `App.<domain>` once lower-cased |
| Reconciler.CaseFoldedActiveExact | cmd/dyndns/main.go:299-303 | a name is in the case-folded active list iff it is some active subdomain's record name, lower-cased and without a trailing dot |
| Reconciler.CaseFoldedRemovalsExact | cmd/dyndns/main.go:337-352 | the cleanup corrected in both naming and comparison removes the A and AAAA records at the own record names of exactly the labels whose name, lower-cased and without a trailing dot, is no active subdomain's name so folded |
| Reconciler.CaseFoldedKeepsMixedCaseActive | cmd/dyndns/main.go:337-352 | in the same pass as above, the corrected cleanup removes nothing |
| Reconciler.ActiveSet | cmd/dyndns/main.go:299-303 | the active set holds exactly the active subdomains' record names |
| Reconciler.UpsertActive | cmd/dyndns/main.go:313-328 | the upsert loop makes exactly the proxied-mode upserts on the client, in subdomain order |
| Reconciler.RemoveStale | cmd/dyndns/main.go:337-352 | the cleanup loop makes exactly the as-written removals on the client, and keeps going after a failed delete |
| Reconciler.UpdateSubdomainRecords | cmd/dyndns/main.go:288-353 | the pass makes the upserts, then one listing that fails iff a list call fails, then (after success) the removals, and no other client call |
| Reconciler.UpdateIPAndDNS | cmd/dyndns/main.go:214-279 | a failed detection makes no client call, leaves the cache and the zone's records unchanged and keeps the detector's remembered pair; a successful one remembers the detected pair; direct mode makes the root-then-wildcard upserts of the detected addresses; proxied mode makes the subdomain pass for the detected IPv4 address |
| Reconciler.UpsertAddresses | cmd/dyndns/main.go:241-255 | one name is written with an A upsert when there is an IPv4 address, then an AAAA upsert when there is an IPv6 address, and nothing else is called |
| Mapping.Mapping.GetHealthPath | internal/mapping/manager.go:223-228 | the health path is the configured one, else "/health", and never empty |
| Mapping.PatternIsDnsLabel | internal/mapping/manager.go:18 | the subdomain pattern accepts exactly the 1 to 63 character strings of letters, digits and hyphens that start and end with a letter or digit |
| Mapping.PatternExamples | internal/mapping/manager.go:18 | `a--b` and a 63-character label match; `-a`, `a-` and a 64-character label do not |
| Mapping.ValidateMapping | internal/mapping/manager.go:158-183 | no error iff the subdomain matches the pattern, a target specification is present and the port is 0 or in 1..65535; otherwise the message of the first failed check, in the order subdomain present, pattern (quoting the subdomain), target, port (naming the port) |
| Mapping.EffectivePort | internal/mapping/manager.go:177-196 | for every port that validation accepts, the port written into a synthesized target is a TCP port in 1..65535, namely 80 when none is given |
| Mapping.ResolveMapping | internal/mapping/manager.go:185-215 | it fails iff there is no target specification; an existing target is kept; otherwise compose gives `project-service-1:port`, ahead of container `container:port`; nothing but the target changes |
| Mapping.ValidResolves | internal/mapping/manager.go:169-175 | a valid mapping always resolves, to a non-empty target and the same subdomain |
| Mapping.SynthesizedTargetPort | internal/mapping/manager.go:199-212 | the port in a synthesized target reads back as the effective port |
| Mapping.KeptOne | internal/mapping/manager.go:81-89 | a mapping contributes itself, resolved, when valid, and nothing otherwise |
| Mapping.ContributionsFrom | internal/mapping/manager.go:80-90 | everything the filter loop collects was contributed by some input mapping |
| Mapping.ContributionsCover | internal/mapping/manager.go:80-90 | everything any input mapping contributes is collected |
| Mapping.KeepValid | internal/mapping/manager.go:78-90 | the filter loop returns exactly the kept mappings: the valid ones, resolved, in file order |
| Mapping.KeptMappingsSound | internal/mapping/manager.go:78-90 | every kept mapping is a valid input mapping, resolved, with a label-shaped subdomain and a non-empty target; every valid input mapping is kept |
| Mapping.Manager.constructor | internal/mapping/manager.go:51-56 | a new manager holds its file path and no mappings |
| Mapping.Manager.Load | internal/mapping/manager.go:59-95 | a missing file empties the mappings without error; an unreadable or malformed file is an error and keeps them; a parsed file replaces them with its valid mappings, resolved, in file order |
| Mapping.Manager.Get | internal/mapping/manager.go:98-104 | the result equals the held mappings |
| Discovery.Service.GetHealthPath | internal/discovery/client.go:323-328 | the health path is the service's own, else "/health", and never empty |
| Discovery.TargetNamesPort | internal/discovery/client.go:318-320 | the target is `127.0.0.1:` followed by text that parses back to the port |
| Discovery.ParseServiceFromLabels | internal/discovery/client.go:256-291 | it succeeds iff enabled is exactly "true", the subdomain is non-empty and the port is a non-empty integer; each failure gives the message of the first failed check, in that order; on success it copies the fields, with websocket true iff its label is exactly "true" |
| Discovery.LabelsRoundTrip | internal/discovery/client.go:256-291 | a service with a subdomain, written as labels, parses back to itself |
| Discovery.ServicesOfAppend | internal/discovery/client.go:223-250 | each record contributes its service at its own position, so input order is kept |
| Discovery.EnabledIngressWins | internal/discovery/client.go:228-236 | an enabled ingress block yields its structured service, even when labels are present |
| Discovery.DisabledIngressUsesLabels | internal/discovery/client.go:237-243 | a disabled ingress block falls through to the labels, and a label failure is skipped |
| Discovery.ParseServices | internal/discovery/client.go:220-253 | the loop returns the services of the records that yield one, in record order, never more than the records |
| Caddy.ServiceRouteReadsBack | internal/caddy/generator.go:124-131 | a discovered service's route keeps its subdomain and websocket flag, has a loopback target whose port text parses back to the service port, and a non-empty health path that is the service's own when it has one |
| Caddy.HasSubdomainAppend | internal/caddy/generator.go:119-123 | a subdomain is taken after one more route iff it was taken before or is that route's |
| Caddy.FirstPerSubdomainFromInput | internal/caddy/generator.go:113-149 | the kept routes have distinct subdomains and are input routes |
| Caddy.FirstPerSubdomainCovers | internal/caddy/generator.go:113-149 | every input subdomain has a kept route |
| Caddy.FirstPerSubdomainKeepsFirst | internal/caddy/generator.go:118-123 | the first route of each subdomain is the one kept |
| Caddy.FirstPerSubdomainSound | internal/caddy/generator.go:113-149 | the four facts above together |
| Caddy.FirstPerSubdomainPrefix | internal/caddy/generator.go:116-149 | adding routes at the end only appends, so the discovered routes come first in input order |
| Caddy.MergedCoversInputs | internal/caddy/generator.go:112-152 | the merged list has distinct subdomains, and every subdomain of either input is routed |
| Caddy.MergedRoutesFromInputs | internal/caddy/generator.go:112-152 | every merged route comes from a discovered service or a YAML mapping |
| Caddy.DiscoveredWins | internal/caddy/generator.go:136-141 | a subdomain used by a discovered service is routed by the first such service and never by a YAML mapping |
| Caddy.Generator.constructor | internal/caddy/generator.go:43-48 | a new generator holds its mapping manager and no discovered services |
| Caddy.Generator.UpdateDiscoveredServices | internal/caddy/generator.go:51-55 | the discovered list is replaced wholesale |
| Caddy.Generator.CollectMappings | internal/caddy/generator.go:112-152 | the result is the merge of the discovered routes and then the YAML routes (none without a manager), with distinct subdomains |
| Caddy.Generator.CollectDiscovered | internal/caddy/generator.go:113-132 | the first loop keeps the first route per subdomain of the discovered services, and `seen` holds exactly their subdomains |
| Caddy.Generator.AddYamlMappings | internal/caddy/generator.go:136-149 | the second loop extends the kept list exactly as if the YAML routes were appended to the input |
| IpDetect.FritzboxAddress | internal/ipdetect/detector.go:109-170 | a failed request or an answer without an address is an error; otherwise the answer |
| IpDetect.FromFritzbox | internal/ipdetect/detector.go:87-107 | the router fails iff neither family gave an address; a success has at least one address |
| IpDetect.FirstValidIsFirst | internal/ipdetect/detector.go:211-226 | the external answer is that of an accepting service with no accepting service before it, or "" when none accepts |
| IpDetect.DetectionOrder | internal/ipdetect/detector.go:41-70 | manual addresses win outright; then a router answer with any address; then the lookup services; every success has a non-empty address |
| IpDetect.Detector.constructor | internal/ipdetect/detector.go:31-38 | a new detector remembers no addresses |
| IpDetect.Detector.GetLastKnown | internal/ipdetect/detector.go:73-77 | it returns the remembered pair |
| IpDetect.Detector.UpdateLast | internal/ipdetect/detector.go:79-84 | it remembers the given pair |
| IpDetect.Detector.FirstValidAnswer | internal/ipdetect/detector.go:211-226 | the loop returns the first valid answer in list order |
| IpDetect.Detector.DetectFromExternalServices | internal/ipdetect/detector.go:193-233 | the result is the first valid answer per family, or an error when both are empty |
| IpDetect.Detector.Detect | internal/ipdetect/detector.go:41-70 | a success returns the detection's pair and remembers it; a failure returns empty addresses with the error and leaves the memory alone |

## Left out

- The provider SDK is replaced by the `Zone` class. It holds a record list, a counter for new IDs and the set of API calls that currently fail. Pagination, rate limits and response fields other than id, name, type, content, TTL and proxied are not modelled.
- Cloudflare.Matching: the provider's name filter is modelled as exact, case-sensitive equality. Any case folding the provider does on names is not modelled.
- The zone-setting wrappers (`GetZoneInfo`, `IsProxied`, `Domain`, `SetSSLMode`, `GetSSLMode`, `SetAuthenticatedOriginPull`, `IsAuthenticatedOriginPullEnabled`, `ConfigureForProxyMode`) are left out. They are single foreign calls or field reads.
- Error texts are modelled only where a caller can tell them apart. These are the "SECURITY" tag, the configuration and mapping messages, and the label-parser messages. Provider error text is free.
- Mapping.ValidateMapping: Go's `%q` is modelled as plain double quotes. Its escaping of quotes, backslashes and non-printable characters is not modelled.
- Discovery.ParseServiceFromLabels: the wrapped `strconv.Atoi` error is always its syntax-error text, because the range error is not modelled (see Strings.Atoi).
- Locking (`sync.Mutex`, `sync.RWMutex`), goroutines, the control and discovery loops, `main`, the status server and signal handling are left out. Each method is modelled as running alone.
- Logging (`slog`) is left out because it does not affect state.
- `sleepWithContext` and timers are an oracle `sleep(attempt)` that returns nothing or the context's error.
- `withRetry` reads the package-level `cfRetryConfig` and `cfRetrySleep`. Here they are parameters, with `DefaultRetryConfig` giving the shipped values.
- No client operation is wrapped in the retry loop, because the client code does not call it.
- Retry.RetryDelay: durations are unbounded integers. The int64 overflow of `minDelay * (1 << attempt)` for large attempts is not modelled.
- Config.Load: `time.ParseDuration` and the float `interval.Seconds()` are replaced by an input that turns the interval text into whole seconds, or None.
- Config.Load: the `invalid IP_CHECK_INTERVAL` message leaves out the wrapped `time.ParseDuration` error text, which is not modelled.
- Config.Load: `os.Getenv` is a map, and `os.Stat` is a file-exists predicate.
- Strings.Atoi: the number is unbounded. `strconv.Atoi`'s 64-bit range error is not modelled.
- Strings.ToLower: `strings.ToLower` and `unicode.IsSpace` are modelled on ASCII letters and the Unicode white-space list. There is no Unicode case mapping.
- `Config.UseManualIP` and `Config.UseDiscovery` are predicates whose bodies are their definition, so they have no row of their own. `IpDetect.DetectionOrder` states what the manual switch does.
- `GetActiveSubdomains` is not part of the shown generator source. The reconciler takes the active subdomains as an input list.
- Reconciler: a client call's own effect is that of `Cloudflare.Client.UpdateRecord` and `DeleteRecord`. The reconciler's contracts state the calls it makes (the client's call log), not the final zone.
- Reconciler.UpdateSubdomainRecords: the listing's result is tied to the zone as it stands at the listing call, by `GetManagedSubdomainRecords`'s contract. Its contract only states when that listing fails; it does not relate the listed labels back to the zone before the upserts.
- Reconciler.SubdomainPlanSafety: "no removal hits an active name" holds only up to exact string equality. The listing lower-cases names, so a mixed-case active subdomain's own record can be removed (see Findings).
- Reconciler.ActiveLabelKept: holds only for an active subdomain written in lower case, for the same reason.
- Reconciler.CorrectedRemovalsExact: corrects the naming only and still compares exact strings; `CaseFoldedRemovalsExact` corrects both.
- Naming: the lemmas cover every nameable configuration. Left out are a domain that is empty in direct mode, and in prefix mode a domain without a dot or whose base is empty once normalized (`home.` or `home..`). For those, `SingleLabelPrefixRefused` shows that the guard refuses the mapped names of a dot-free domain.
- The YAML file, `os.ReadFile` and fsnotify `Watch` are left out. `Mapping.Manager.Load` takes what reading the file produced: missing, unreadable, malformed, or a parsed list.
- Mapping.ResolveMapping: it returns the resolved mapping instead of writing `Target` into its `*Mapping` argument. `Load` stores that returned value, so the stored list is the same.
- Discovery over HTTP and JSON (`GetIngressServices`, `Poll`, `PollWithEvents`, `HealthCheck`) is left out. `ParseServices` takes the decoded records.
- `Generate` (template parsing, file writing) and `reloadCaddy` are left out because they are I/O only.
- TR-064 SOAP requests, XML parsing (`parseSOAPIPResponse`) and the HTTP lookups are left out. Their answers are inputs: the router's address per family, and each URL's trimmed body.
- `isValidIPv4` and `isValidIPv6` (`net.ParseIP`) are opaque predicate parameters.

## Findings

| source | as written | input that shows it | evidently intended | confidence | as-written member | corrected member |
|---|---|---|---|---|---|---|
| cmd/dyndns/main.go:339 | stale cleanup rebuilds a label's record name as `label + "." + domain` in every mode | prefix mode, domain `home.example.com`: the record `old-home.example.com` yields the label `old`, and the cleanup deletes `old.home.example.com` instead, so the stale prefix-form record is never removed | rebuild the name with the configured naming scheme (`GetSubdomainFQDN`), as the active set does at main.go:301 | not executed | Reconciler.AsWrittenMissesPrefixRecord | Reconciler.CorrectedTargetsRecord, Reconciler.CorrectedRemovalsExact |
| cmd/dyndns/main.go:341 | the cleanup looks up `<label>.<domain>` in a set of active names kept as configured, while the listing returns lower-cased names | direct mode, domain `home.example.com`, active subdomain `App`, listed label `app`: given an IPv4 address, the pass upserts `App.home.example.com` and then removes `app.home.example.com`, the same DNS name | compare names lower-cased and without a trailing dot on both sides | not executed | Reconciler.AsWrittenRemovesMixedCaseActive | Reconciler.CaseFoldedRemovalsExact, Reconciler.CaseFoldedKeepsMixedCaseActive |

`Reconciler.RemoveStale` and `Reconciler.UpdateSubdomainRecords` model the
cleanup as written. The corrected naming is `Reconciler.CorrectedStaleName`,
and the cleanup corrected in both naming and name comparison is
`Reconciler.CaseFoldedRemovals`.
