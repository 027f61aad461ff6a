/**
 * Public-address detection: the manual override, then the router (TR-064),
 * then public lookup services, with the last successful answer remembered.
 * Network answers and address validity are inputs.
 */
module IpDetect {
  import opened Wrappers
  import Config

  /**
   * What the network answers during one detection: the router's parsed answer
   * per family (`None` when the request failed), and each lookup URL's
   * trimmed response body (`None` when the request failed).
   */
  datatype Network = Network(
    fritzIPv4: Option<string>,
    fritzIPv6: Option<string>,
    fetch: string -> Option<string>)

  const IPv4Services: seq<string> := ["https://api.ipify.org", "https://ipv4.icanhazip.com", "https://v4.ident.me"]
  const IPv6Services: seq<string> := ["https://api6.ipify.org", "https://ipv6.icanhazip.com", "https://v6.ident.me"]

  /** `fritzboxGetExternalIP`: a failed request or an answer without an address is an error. */
  function FritzboxAddress(answer: Option<string>): (r: Result<string>)
    ensures r.Ok? <==> answer.Some? && answer.value != ""
    ensures r.Ok? ==> r.value == answer.value
  {
    match answer
      case None => Err("request failed")
      case Some(ip) => if ip == "" then Err("no IP found in response") else Ok(ip)
  }

  /** `detectFromFritzbox`: both families asked; an error only when neither gave an address. */
  function FromFritzbox(net: Network): (r: Result<(string, string)>)
    ensures r.Err? <==> FritzboxAddress(net.fritzIPv4).Err? && FritzboxAddress(net.fritzIPv6).Err?
    ensures r.Ok? ==> r.value.0 != "" || r.value.1 != ""
  {
    var ipv4 := match FritzboxAddress(net.fritzIPv4) case Ok(ip) => ip case Err(_) => "";
    var ipv6 := match FritzboxAddress(net.fritzIPv6) case Ok(ip) => ip case Err(_) => "";
    if ipv4 == "" && ipv6 == "" then Err("no IP addresses retrieved from Fritzbox") else Ok((ipv4, ipv6))
  }

  /** Whether a lookup URL answered with an address the validity test accepts. */
  predicate Accepts(fetch: string -> Option<string>, valid: string -> bool, url: string)
  {
    fetch(url).Some? && valid(fetch(url).value)
  }

  /** The answer of the first URL, in list order, whose answer is valid; "" when none is. */
  function FirstValid(urls: seq<string>, fetch: string -> Option<string>, valid: string -> bool): string
  {
    if urls == [] then ""
    else if Accepts(fetch, valid, urls[0]) then fetch(urls[0]).value
    else FirstValid(urls[1..], fetch, valid)
  }

  /**
   * The first valid answer is the answer of some accepting URL with no
   * accepting URL before it; no accepting URL means "".
   */
  lemma {:induction false} FirstValidIsFirst(urls: seq<string>, fetch: string -> Option<string>, valid: string -> bool)
    ensures (forall k :: 0 <= k < |urls| ==> !Accepts(fetch, valid, urls[k])) ==> FirstValid(urls, fetch, valid) == ""
    ensures (exists k :: 0 <= k < |urls| && Accepts(fetch, valid, urls[k])) ==>
      exists k :: 0 <= k < |urls| && Accepts(fetch, valid, urls[k])
        && FirstValid(urls, fetch, valid) == fetch(urls[k]).value
        && forall j :: 0 <= j < k ==> !Accepts(fetch, valid, urls[j])
  {
    if urls != [] && !Accepts(fetch, valid, urls[0]) {
      FirstValidIsFirst(urls[1..], fetch, valid);
      if exists k :: 0 <= k < |urls| && Accepts(fetch, valid, urls[k]) {
        var k :| 0 <= k < |urls| && Accepts(fetch, valid, urls[k]);
        assert urls[1..][k - 1] == urls[k];
        var k' :| 0 <= k' < |urls[1..]| && Accepts(fetch, valid, urls[1..][k'])
          && FirstValid(urls[1..], fetch, valid) == fetch(urls[1..][k']).value
          && forall j :: 0 <= j < k' ==> !Accepts(fetch, valid, urls[1..][j]);
        forall j | 0 <= j < k' + 1
          ensures !Accepts(fetch, valid, urls[j])
        {
          if j > 0 {
            assert urls[j] == urls[1..][j - 1];
          }
        }
        assert urls[k' + 1] == urls[1..][k'];
      }
    }
  }

  /** `detectFromExternalServices`: first valid answer per family; an error when both are empty. */
  function FromExternal(net: Network, valid4: string -> bool, valid6: string -> bool): (r: Result<(string, string)>)
  {
    var ipv4 := FirstValid(IPv4Services, net.fetch, valid4);
    var ipv6 := FirstValid(IPv6Services, net.fetch, valid6);
    if ipv4 == "" && ipv6 == "" then Err("could not detect any IP address") else Ok((ipv4, ipv6))
  }

  /** `Detect`: the manual addresses when configured, else the router's, else the lookup services'. */
  function Detection(cfg: Config.Config, net: Network, valid4: string -> bool, valid6: string -> bool)
    : Result<(string, string)>
  {
    if cfg.UseManualIP() then Ok((cfg.manualIPv4, cfg.manualIPv6))
    else match FromFritzbox(net)
      case Ok(pair) => Ok(pair)
      case Err(_) =>
        match FromExternal(net, valid4, valid6)
          case Ok(pair) => Ok(pair)
          case Err(msg) => Err("all IP detection methods failed: " + msg)
  }

  /**
   * The fallback order: manual addresses win outright; otherwise a router
   * answer with any address is used; otherwise the lookup services decide.
   * Every successful detection has at least one non-empty address.
   */
  lemma DetectionOrder(cfg: Config.Config, net: Network, valid4: string -> bool, valid6: string -> bool)
    ensures cfg.UseManualIP() ==> Detection(cfg, net, valid4, valid6) == Ok((cfg.manualIPv4, cfg.manualIPv6))
    ensures !cfg.UseManualIP() && FromFritzbox(net).Ok? ==> Detection(cfg, net, valid4, valid6) == FromFritzbox(net)
    ensures !cfg.UseManualIP() && FromFritzbox(net).Err? ==>
      Detection(cfg, net, valid4, valid6).Ok? == FromExternal(net, valid4, valid6).Ok?
      && (FromExternal(net, valid4, valid6).Ok? ==> Detection(cfg, net, valid4, valid6) == FromExternal(net, valid4, valid6))
    ensures Detection(cfg, net, valid4, valid6).Ok? ==>
      Detection(cfg, net, valid4, valid6).value.0 != "" || Detection(cfg, net, valid4, valid6).value.1 != ""
  {
  }

  /** The detector and its last successful detection. */
  class Detector {
    const cfg: Config.Config
    var lastIPv4: string
    var lastIPv6: string

    constructor (cfg: Config.Config)
      ensures this.cfg == cfg && lastIPv4 == "" && lastIPv6 == ""
    {
      this.cfg := cfg;
      lastIPv4 := "";
      lastIPv6 := "";
    }

    /** `GetLastKnown`: the remembered pair ("" and "" before any success). */
    method GetLastKnown() returns (ipv4: string, ipv6: string)
      ensures ipv4 == lastIPv4 && ipv6 == lastIPv6
    {
      return lastIPv4, lastIPv6;
    }

    method UpdateLast(ipv4: string, ipv6: string)
      modifies this
      ensures lastIPv4 == ipv4 && lastIPv6 == ipv6
    {
      lastIPv4 := ipv4;
      lastIPv6 := ipv6;
    }

    /** The first-valid loop of `detectFromExternalServices` for one family. */
    method FirstValidAnswer(urls: seq<string>, fetch: string -> Option<string>, valid: string -> bool)
      returns (ip: string)
      ensures ip == FirstValid(urls, fetch, valid)
    {
      ip := "";
      var i := 0;
      while i < |urls|
        invariant 0 <= i <= |urls|
        invariant FirstValid(urls, fetch, valid) == FirstValid(urls[i..], fetch, valid)
      {
        assert urls[i..][1..] == urls[i + 1..];
        var answer := fetch(urls[i]);
        if answer.Some? && valid(answer.value) {
          ip := answer.value;
          break;
        }
        i := i + 1;
      }
    }

    /** `detectFromExternalServices`. */
    method DetectFromExternalServices(net: Network, valid4: string -> bool, valid6: string -> bool)
      returns (r: Result<(string, string)>)
      ensures r == FromExternal(net, valid4, valid6)
    {
      var ipv4 := FirstValidAnswer(IPv4Services, net.fetch, valid4);
      var ipv6 := FirstValidAnswer(IPv6Services, net.fetch, valid6);
      if ipv4 == "" && ipv6 == "" {
        return Err("could not detect any IP address");
      }
      return Ok((ipv4, ipv6));
    }

    /**
     * `Detect`: returns the detection's addresses and remembers them on
     * success; a failure returns empty addresses and leaves the memory alone.
     */
    method Detect(net: Network, valid4: string -> bool, valid6: string -> bool)
      returns (ipv4: string, ipv6: string, err: Option<string>)
      modifies this
      ensures var d := Detection(cfg, net, valid4, valid6);
        && (d.Ok? ==> err == None && (ipv4, ipv6) == d.value && lastIPv4 == ipv4 && lastIPv6 == ipv6)
        && (d.Err? ==> err == Some(d.msg) && ipv4 == "" && ipv6 == ""
                       && lastIPv4 == old(lastIPv4) && lastIPv6 == old(lastIPv6))
    {
      if cfg.UseManualIP() {
        ipv4, ipv6 := cfg.manualIPv4, cfg.manualIPv6;
        UpdateLast(ipv4, ipv6);
        return ipv4, ipv6, None;
      }
      var fritz := FromFritzbox(net);
      if fritz.Ok? {
        ipv4, ipv6 := fritz.value.0, fritz.value.1;
        UpdateLast(ipv4, ipv6);
        return ipv4, ipv6, None;
      }
      var external := DetectFromExternalServices(net, valid4, valid6);
      if external.Err? {
        return "", "", Some("all IP detection methods failed: " + external.msg);
      }
      ipv4, ipv6 := external.value.0, external.value.1;
      UpdateLast(ipv4, ipv6);
      return ipv4, ipv6, None;
    }
  }
}
