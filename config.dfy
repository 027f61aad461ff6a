/**
 * Configuration of the dyndns service: the record-name mapping for a
 * subdomain (direct or prefix form), the base domain, boolean parsing,
 * required-field validation and the environment loader.
 */
module Config {
  import opened Wrappers
  import opened Strings

  /** `Config` with the IP check interval held as whole seconds. */
  datatype Config = Config(
    cloudflareAPIToken: string,
    cloudflareZoneID: string,
    cloudflareProxy: bool,
    dnsTTL: int,
    domain: string,
    acmeEmail: string,
    subdomainPrefix: bool,
    fritzboxHost: string,
    fritzboxUser: string,
    fritzboxPassword: string,
    manualIPv4: string,
    manualIPv6: string,
    ipCheckIntervalSeconds: int,
    logLevel: string,
    dataDir: string,
    logsDir: string,
    sharedDir: string,
    mappingsFile: string,
    caddyFile: string,
    stevedoreSocket: string,
    stevedoreToken: string)
  {
    /**
     * The record name of a subdomain: `sub.domain` directly; in prefix mode
     * `sub-<first label>.<rest>`, or `sub-domain` for a domain without a dot.
     */
    function GetSubdomainFQDN(sub: string): (r: string)
      ensures !subdomainPrefix ==> r == sub + "." + domain
      ensures subdomainPrefix && '.' !in domain ==> r == sub + "-" + domain
      ensures subdomainPrefix && '.' in domain ==>
        exists first, rest :: '.' !in first && domain == first + "." + rest
                              && r == sub + "-" + first + "." + rest
    {
      if subdomainPrefix then
        var parts := SplitN2(domain, '.');
        if |parts| == 2 then sub + "-" + parts[0] + "." + parts[1]
        else sub + "-" + domain
      else sub + "." + domain
    }

    /** The parent under which records live: the text after the first dot in prefix mode, else the domain. */
    function GetBaseDomain(): (r: string)
      ensures !subdomainPrefix || '.' !in domain ==> r == domain
      ensures subdomainPrefix && '.' in domain ==>
        exists first :: '.' !in first && domain == first + "." + r
    {
      if subdomainPrefix then
        var parts := SplitN2(domain, '.');
        if |parts| == 2 then parts[1] else domain
      else domain
    }

    /** The first missing required setting, in the order token, zone ID, domain, ACME e-mail. */
    function Validate(): (err: Option<string>)
      ensures err == None <==>
        cloudflareAPIToken != "" && cloudflareZoneID != "" && domain != "" && acmeEmail != ""
      ensures cloudflareAPIToken == "" ==> err == Some("CLOUDFLARE_API_TOKEN is required")
      ensures cloudflareAPIToken != "" && cloudflareZoneID == "" ==> err == Some("CLOUDFLARE_ZONE_ID is required")
      ensures cloudflareAPIToken != "" && cloudflareZoneID != "" && domain == ""
              ==> err == Some("DOMAIN is required")
      ensures cloudflareAPIToken != "" && cloudflareZoneID != "" && domain != "" && acmeEmail == ""
              ==> err == Some("ACME_EMAIL is required")
    {
      if cloudflareAPIToken == "" then Some("CLOUDFLARE_API_TOKEN is required")
      else if cloudflareZoneID == "" then Some("CLOUDFLARE_ZONE_ID is required")
      else if domain == "" then Some("DOMAIN is required")
      else if acmeEmail == "" then Some("ACME_EMAIL is required")
      else None
    }

    /** Whether a manual address overrides detection. */
    predicate UseManualIP()
    {
      manualIPv4 != "" || manualIPv6 != ""
    }

    /** Whether stevedore discovery is configured. */
    predicate UseDiscovery()
    {
      stevedoreToken != ""
    }
  }

  /** `parseBool`: "true", "1", "yes" or "on", ignoring case and surrounding white space. */
  predicate ParseBool(s: string)
  {
    var t := ToLower(TrimSpace(s));
    t == "true" || t == "1" || t == "yes" || t == "on"
  }

  lemma {:induction false} TrimLeftSpaceToLower(s: string)
    ensures TrimLeftSpace(ToLower(s)) == ToLower(TrimLeftSpace(s))
  {
    if |s| > 0 && IsSpace(s[0]) {
      assert ToLower(s)[1..] == ToLower(s[1..]);
      TrimLeftSpaceToLower(s[1..]);
    }
  }

  lemma {:induction false} TrimRightSpaceToLower(s: string)
    ensures TrimRightSpace(ToLower(s)) == ToLower(TrimRightSpace(s))
  {
    if |s| > 0 {
      var init, c := s[..|s| - 1], s[|s| - 1];
      assert s == init + [c];
      ToLowerAppend(init, [c]);
      var t := ToLower(init) + [LowerChar(c)];
      assert ToLower(s) == t;
      assert t[..|t| - 1] == ToLower(init);
      if IsSpace(c) {
        TrimRightSpaceToLower(init);
      }
    }
  }

  /** `parseBool` ignores letter case: "TRUE", "Yes" and "ON" are accepted like their lower-case forms. */
  lemma ParseBoolIgnoresCase(s: string)
    ensures ParseBool(ToLower(s)) == ParseBool(s)
  {
    TrimLeftSpaceToLower(s);
    TrimRightSpaceToLower(TrimLeftSpace(s));
    ToLowerIsLower(TrimSpace(s));
    ToLowerOfLower(ToLower(TrimSpace(s)));
  }

  /** The value of an environment variable, "" when unset (`os.Getenv`). */
  function Getenv(env: map<string, string>, key: string): string
  {
    if key in env then env[key] else ""
  }

  /** `getEnvDefault`: the variable when set and non-empty, else the default. */
  function GetEnvDefault(env: map<string, string>, key: string, default: string): (r: string)
    ensures r == default || (r == Getenv(env, key) && r != "")
    // a set, non-empty variable wins over the default
    ensures Getenv(env, key) != "" ==> r == Getenv(env, key)
    ensures Getenv(env, key) == "" ==> r == default
  {
    if Getenv(env, key) != "" then Getenv(env, key) else default
  }

  /**
   * `Load` over an environment map, a file-existence test, and a parser that
   * turns `IP_CHECK_INTERVAL` into whole seconds (None for a malformed duration).
   */
  function Load(env: map<string, string>, fileExists: string -> bool,
                parseIntervalSeconds: string -> Option<int>): (r: Result<Config>)
    // Load succeeds exactly when the interval parses, an explicit DNS_TTL is an
    // integer, and the four required variables are set
    ensures r.Ok? <==>
      && parseIntervalSeconds(GetEnvDefault(env, "IP_CHECK_INTERVAL", "5m")).Some?
      && (Getenv(env, "DNS_TTL") == "" || Atoi(Getenv(env, "DNS_TTL")).Some?)
      && Getenv(env, "CLOUDFLARE_API_TOKEN") != "" && Getenv(env, "CLOUDFLARE_ZONE_ID") != ""
      && Getenv(env, "DOMAIN") != "" && Getenv(env, "ACME_EMAIL") != ""
    // the interval is checked first, then DNS_TTL, then the required variables
    ensures parseIntervalSeconds(GetEnvDefault(env, "IP_CHECK_INTERVAL", "5m")).None? ==>
      r == Err("invalid IP_CHECK_INTERVAL")
    ensures (parseIntervalSeconds(GetEnvDefault(env, "IP_CHECK_INTERVAL", "5m")).Some?
             && Getenv(env, "DNS_TTL") != "" && Atoi(Getenv(env, "DNS_TTL")).None?) ==>
      r == Err("invalid DNS_TTL: " + AtoiSyntaxError(Getenv(env, "DNS_TTL")))
    // the fields read straight from the environment
    ensures r.Ok? ==>
      && r.value.cloudflareAPIToken == Getenv(env, "CLOUDFLARE_API_TOKEN")
      && r.value.cloudflareZoneID == Getenv(env, "CLOUDFLARE_ZONE_ID")
      && r.value.domain == Getenv(env, "DOMAIN") && r.value.acmeEmail == Getenv(env, "ACME_EMAIL")
      && r.value.manualIPv4 == Getenv(env, "MANUAL_IPV4") && r.value.manualIPv6 == Getenv(env, "MANUAL_IPV6")
      && r.value.fritzboxUser == Getenv(env, "FRITZBOX_USER")
      && r.value.fritzboxPassword == Getenv(env, "FRITZBOX_PASSWORD")
      && r.value.stevedoreToken == Getenv(env, "STEVEDORE_TOKEN")
      && r.value.ipCheckIntervalSeconds == parseIntervalSeconds(GetEnvDefault(env, "IP_CHECK_INTERVAL", "5m")).value
    // the fields with defaults, on which the mappings-file precedence below depends
    ensures r.Ok? ==>
      && r.value.sharedDir == GetEnvDefault(env, "STEVEDORE_SHARED", "/shared")
      && r.value.dataDir == GetEnvDefault(env, "DYNDNS_DATA", "/data")
      && r.value.fritzboxHost == GetEnvDefault(env, "FRITZBOX_HOST", "192.168.178.1")
      && r.value.logLevel == GetEnvDefault(env, "LOG_LEVEL", "info")
      && r.value.logsDir == GetEnvDefault(env, "DYNDNS_LOGS", "/var/log/dyndns")
      && r.value.stevedoreSocket == GetEnvDefault(env, "STEVEDORE_SOCKET", "/var/run/stevedore/query.sock")
      && r.value.caddyFile == "/etc/caddy/Caddyfile"
    // the loaded configuration is valid and its TTL is never under 60 seconds
    ensures r.Ok? ==> r.value.Validate() == None && r.value.dnsTTL >= 60
    // an explicit DNS_TTL that is not an integer is an error
    ensures Getenv(env, "DNS_TTL") != "" && Atoi(Getenv(env, "DNS_TTL")).None? ==> r.Err?
    // an explicit integer DNS_TTL is used, raised to 60
    ensures r.Ok? && Getenv(env, "DNS_TTL") != "" ==>
      Atoi(Getenv(env, "DNS_TTL")).Some? &&
      r.value.dnsTTL == (if Atoi(Getenv(env, "DNS_TTL")).value < 60 then 60 else Atoi(Getenv(env, "DNS_TTL")).value)
    // otherwise the TTL is the check interval in seconds, raised to 60
    ensures r.Ok? && Getenv(env, "DNS_TTL") == "" ==>
      r.value.dnsTTL == (if r.value.ipCheckIntervalSeconds < 60 then 60 else r.value.ipCheckIntervalSeconds)
    // mappings-file precedence: explicit, existing shared file, existing data file, shared by default
    ensures r.Ok? ==>
      var shared := r.value.sharedDir + "/dyndns-mappings.yaml";
      var data := r.value.dataDir + "/mappings.yaml";
      var explicit := Getenv(env, "MAPPINGS_FILE");
      && (explicit != "" ==> r.value.mappingsFile == explicit)
      && (explicit == "" && fileExists(shared) ==> r.value.mappingsFile == shared)
      && (explicit == "" && !fileExists(shared) && fileExists(data) ==> r.value.mappingsFile == data)
      && (explicit == "" && !fileExists(shared) && !fileExists(data) ==> r.value.mappingsFile == shared)
    // the boolean switches go through parseBool
    ensures r.Ok? ==> r.value.cloudflareProxy == ParseBool(Getenv(env, "CLOUDFLARE_PROXY"))
                      && r.value.subdomainPrefix == ParseBool(Getenv(env, "SUBDOMAIN_PREFIX"))
  {
    var base := Config(
      cloudflareAPIToken := Getenv(env, "CLOUDFLARE_API_TOKEN"),
      cloudflareZoneID := Getenv(env, "CLOUDFLARE_ZONE_ID"),
      cloudflareProxy := false,
      dnsTTL := 0,
      domain := Getenv(env, "DOMAIN"),
      acmeEmail := Getenv(env, "ACME_EMAIL"),
      subdomainPrefix := false,
      fritzboxHost := GetEnvDefault(env, "FRITZBOX_HOST", "192.168.178.1"),
      fritzboxUser := Getenv(env, "FRITZBOX_USER"),
      fritzboxPassword := Getenv(env, "FRITZBOX_PASSWORD"),
      manualIPv4 := Getenv(env, "MANUAL_IPV4"),
      manualIPv6 := Getenv(env, "MANUAL_IPV6"),
      ipCheckIntervalSeconds := 0,
      logLevel := GetEnvDefault(env, "LOG_LEVEL", "info"),
      dataDir := GetEnvDefault(env, "DYNDNS_DATA", "/data"),
      logsDir := GetEnvDefault(env, "DYNDNS_LOGS", "/var/log/dyndns"),
      sharedDir := GetEnvDefault(env, "STEVEDORE_SHARED", "/shared"),
      mappingsFile := "",
      caddyFile := "",
      stevedoreSocket := GetEnvDefault(env, "STEVEDORE_SOCKET", "/var/run/stevedore/query.sock"),
      stevedoreToken := Getenv(env, "STEVEDORE_TOKEN"));
    var interval := parseIntervalSeconds(GetEnvDefault(env, "IP_CHECK_INTERVAL", "5m"));
    if interval.None? then Err("invalid IP_CHECK_INTERVAL")
    else
      var ttlStr := Getenv(env, "DNS_TTL");
      var ttl := if ttlStr != "" then Atoi(ttlStr) else Some(interval.value);
      if ttl.None? then Err("invalid DNS_TTL: " + AtoiSyntaxError(ttlStr))
      else
        var shared := base.sharedDir + "/dyndns-mappings.yaml";
        var data := base.dataDir + "/mappings.yaml";
        var mappingsFile :=
          if Getenv(env, "MAPPINGS_FILE") != "" then Getenv(env, "MAPPINGS_FILE")
          else if fileExists(shared) then shared
          else if fileExists(data) then data
          else shared;
        var cfg := base.(
          ipCheckIntervalSeconds := interval.value,
          cloudflareProxy := ParseBool(Getenv(env, "CLOUDFLARE_PROXY")),
          subdomainPrefix := ParseBool(Getenv(env, "SUBDOMAIN_PREFIX")),
          dnsTTL := if ttl.value < 60 then 60 else ttl.value,
          mappingsFile := mappingsFile,
          caddyFile := "/etc/caddy/Caddyfile");
        if cfg.Validate().Some? then Err(cfg.Validate().value) else Ok(cfg)
  }
}
