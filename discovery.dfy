/**
 * The discovery side of the service registry: turning the registry's service
 * records (structured ingress block or legacy labels) into routable services.
 */
module Discovery {
  import opened Wrappers
  import opened Strings

  /** A service discovered through the registry. */
  datatype Service = Service(
    deployment: string,
    container: string,
    subdomain: string,
    port: int,
    websocket: bool,
    healthCheck: string)
  {
    /** `GetTarget`: the loopback address with the service port, `127.0.0.1:<port>`. */
    function GetTarget(): string
    {
      "127.0.0.1:" + IntToString(port)
    }

    /** `GetHealthPath`: the service's health check path, else "/health". */
    function GetHealthPath(): (p: string)
      ensures p != ""
      ensures healthCheck != "" ==> p == healthCheck
      ensures healthCheck == "" ==> p == "/health"
    {
      if healthCheck == "" then "/health" else healthCheck
    }
  }

  /** The target is the loopback address followed by text that parses back to the port. */
  lemma TargetNamesPort(svc: Service)
    ensures HasPrefix(svc.GetTarget(), "127.0.0.1:")
    ensures Atoi(svc.GetTarget()[|"127.0.0.1:"|..]) == Some(svc.port)
  {
    AtoiOfIntToString(svc.port);
    assert svc.GetTarget()[|"127.0.0.1:"|..] == IntToString(svc.port);
  }

  /** The structured ingress block of a registry record. */
  datatype IngressConfig = IngressConfig(enabled: bool, subdomain: string, port: int, websocket: bool, healthcheck: string)

  /** A registry record; an absent ingress block or label map is `None`. */
  datatype ServiceResponse = ServiceResponse(
    deployment: string,
    containerName: string,
    ingress: Option<IngressConfig>,
    labels: Option<map<string, string>>)

  /** A label's value, "" when absent (Go's zero value for a missing map key). */
  function Label(labels: map<string, string>, key: string): (v: string)
    ensures key in labels ==> v == labels[key]
    ensures key !in labels ==> v == ""
  {
    if key in labels then labels[key] else ""
  }

  const EnabledLabel := "stevedore.ingress.enabled"
  const SubdomainLabel := "stevedore.ingress.subdomain"
  const PortLabel := "stevedore.ingress.port"
  const WebsocketLabel := "stevedore.ingress.websocket"
  const HealthcheckLabel := "stevedore.ingress.healthcheck"

  /**
   * `parseServiceFromLabels`: requires the enabled label to be exactly "true",
   * then a non-empty subdomain, then a non-empty integer port, checked in that
   * order; the optional websocket label counts only when exactly "true".
   */
  function ParseServiceFromLabels(deployment: string, container: string, labels: map<string, string>)
    : (r: Result<Service>)
    ensures r.Ok? <==>
      && Label(labels, EnabledLabel) == "true"
      && Label(labels, SubdomainLabel) != ""
      && Label(labels, PortLabel) != ""
      && Atoi(Label(labels, PortLabel)).Some?
    ensures Label(labels, EnabledLabel) != "true" ==> r == Err("ingress not enabled")
    ensures Label(labels, EnabledLabel) == "true" && Label(labels, SubdomainLabel) == "" ==>
      r == Err("missing subdomain label")
    ensures (Label(labels, EnabledLabel) == "true" && Label(labels, SubdomainLabel) != ""
             && Label(labels, PortLabel) == "") ==> r == Err("missing port label")
    ensures (Label(labels, EnabledLabel) == "true" && Label(labels, SubdomainLabel) != ""
             && Label(labels, PortLabel) != "" && Atoi(Label(labels, PortLabel)).None?) ==>
      r == Err("invalid port: " + AtoiSyntaxError(Label(labels, PortLabel)))
    ensures r.Ok? ==>
      && r.value.deployment == deployment && r.value.container == container
      && r.value.subdomain == labels[SubdomainLabel]
      && Some(r.value.port) == Atoi(labels[PortLabel])
      && (r.value.websocket <==> Label(labels, WebsocketLabel) == "true")
      && r.value.healthCheck == Label(labels, HealthcheckLabel)
  {
    if Label(labels, EnabledLabel) != "true" then Err("ingress not enabled")
    else
      var subdomain := Label(labels, SubdomainLabel);
      if subdomain == "" then Err("missing subdomain label")
      else
        var portStr := Label(labels, PortLabel);
        if portStr == "" then Err("missing port label")
        else match Atoi(portStr)
          case None => Err("invalid port: " + AtoiSyntaxError(portStr))
          case Some(port) =>
            Ok(Service(deployment, container, subdomain, port,
                       Label(labels, WebsocketLabel) == "true", Label(labels, HealthcheckLabel)))
  }

  /** The labels that describe a service. */
  function LabelsOf(svc: Service): map<string, string>
  {
    map[EnabledLabel := "true",
        SubdomainLabel := svc.subdomain,
        PortLabel := IntToString(svc.port),
        WebsocketLabel := if svc.websocket then "true" else "false",
        HealthcheckLabel := svc.healthCheck]
  }

  /** A service with a subdomain survives being written as labels and parsed back. */
  lemma LabelsRoundTrip(svc: Service)
    requires svc.subdomain != ""
    ensures ParseServiceFromLabels(svc.deployment, svc.container, LabelsOf(svc)) == Ok(svc)
  {
    AtoiOfIntToString(svc.port);
    var labels := LabelsOf(svc);
    assert Label(labels, EnabledLabel) == "true";
    assert Label(labels, SubdomainLabel) == svc.subdomain;
    assert Label(labels, PortLabel) == IntToString(svc.port);
    assert Label(labels, WebsocketLabel) == if svc.websocket then "true" else "false";
    assert Label(labels, HealthcheckLabel) == svc.healthCheck;
  }

  /** The service a record yields, if any: an enabled ingress block wins, then parsable labels. */
  function ServiceOf(r: ServiceResponse): Option<Service>
  {
    if r.ingress.Some? && r.ingress.value.enabled then
      var ing := r.ingress.value;
      Some(Service(r.deployment, r.containerName, ing.subdomain, ing.port, ing.websocket, ing.healthcheck))
    else if r.labels.Some? then
      match ParseServiceFromLabels(r.deployment, r.containerName, r.labels.value)
        case Ok(svc) => Some(svc)
        case Err(_) => None
    else None
  }

  /** The services of a list of records, in record order. */
  function ServicesOf(rs: seq<ServiceResponse>): seq<Service>
  {
    if rs == [] then []
    else
      var prev := ServicesOf(rs[..|rs| - 1]);
      match ServiceOf(rs[|rs| - 1])
        case Some(svc) => prev + [svc]
        case None => prev
  }

  /**
   * Each record contributes its service, if it has one, at its own position:
   * the services of a concatenation are the concatenation of the services.
   */
  lemma {:induction false} ServicesOfAppend(a: seq<ServiceResponse>, b: seq<ServiceResponse>)
    ensures ServicesOf(a + b) == ServicesOf(a) + ServicesOf(b)
    decreases |b|
  {
    if b != [] {
      var init := b[..|b| - 1];
      assert (a + b)[..|a + b| - 1] == a + init;
      assert (a + b)[|a + b| - 1] == b[|b| - 1];
      ServicesOfAppend(a, init);
    } else {
      assert a + b == a;
    }
  }

  /** A record with an enabled ingress block always yields its structured service, even with labels. */
  lemma EnabledIngressWins(r: ServiceResponse)
    requires r.ingress.Some? && r.ingress.value.enabled
    ensures ServicesOf([r]) == [Service(r.deployment, r.containerName, r.ingress.value.subdomain,
                                        r.ingress.value.port, r.ingress.value.websocket, r.ingress.value.healthcheck)]
  {
    assert [r][..0] == [];
  }

  /** A record with a disabled ingress block falls through to its labels. */
  lemma DisabledIngressUsesLabels(r: ServiceResponse)
    requires r.ingress.Some? && !r.ingress.value.enabled && r.labels.Some?
    ensures ServicesOf([r]) == match ParseServiceFromLabels(r.deployment, r.containerName, r.labels.value)
      case Ok(svc) => [svc]
      case Err(_) => []
  {
    assert [r][..0] == [];
  }

  /** `parseServices`: the services of the records that yield one, in record order. */
  method ParseServices(responses: seq<ServiceResponse>) returns (services: seq<Service>)
    ensures services == ServicesOf(responses)
    ensures |services| <= |responses|
  {
    services := [];
    var i := 0;
    while i < |responses|
      invariant 0 <= i <= |responses|
      invariant services == ServicesOf(responses[..i])
      invariant |services| <= i
    {
      var r := responses[i];
      assert responses[..i + 1][..i] == responses[..i];
      if r.ingress.Some? && r.ingress.value.enabled {
        var ing := r.ingress.value;
        services := services + [Service(r.deployment, r.containerName, ing.subdomain, ing.port, ing.websocket, ing.healthcheck)];
      } else if r.labels.Some? {
        var parsed := ParseServiceFromLabels(r.deployment, r.containerName, r.labels.value);
        if parsed.Ok? {
          services := services + [parsed.value];
        }
      }
      i := i + 1;
    }
    assert responses[..|responses|] == responses;
  }
}
