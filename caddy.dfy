/**
 * The reverse-proxy route list: discovered services and YAML mappings merged
 * into one list with one route per subdomain, discovered services first.
 */
module Caddy {
  import Wrappers
  import Strings
  import Discovery
  import Mapping

  /** One route handed to the proxy configuration template. */
  datatype MappingData = MappingData(subdomain: string, target: string, options: Mapping.Options)

  /** A discovered service as a route: its loopback target, websocket flag and health path. */
  function FromService(svc: Discovery.Service): MappingData
  {
    MappingData(svc.subdomain, svc.GetTarget(),
                Mapping.Options(websocket := svc.websocket, bufferRequests := false, healthPath := svc.GetHealthPath()))
  }

  /** A YAML mapping as a route: its target and options unchanged. */
  function FromMapping(m: Mapping.Mapping): MappingData
  {
    MappingData(m.subdomain, m.target, m.options)
  }

  function ServiceRoutes(services: seq<Discovery.Service>): (r: seq<MappingData>)
    ensures |r| == |services| && forall i :: 0 <= i < |services| ==> r[i] == FromService(services[i])
  {
    seq(|services|, i requires 0 <= i < |services| => FromService(services[i]))
  }

  function MappingRoutes(ms: seq<Mapping.Mapping>): (r: seq<MappingData>)
    ensures |r| == |ms| && forall i :: 0 <= i < |ms| ==> r[i] == FromMapping(ms[i])
  {
    seq(|ms|, i requires 0 <= i < |ms| => FromMapping(ms[i]))
  }

  /**
   * A discovered service's route reads back as the service: same subdomain and
   * websocket flag, a loopback target whose port text parses to the service
   * port, and a non-empty health path that is the service's own when it has one.
   */
  lemma ServiceRouteReadsBack(services: seq<Discovery.Service>, i: nat)
    requires i < |services|
    ensures var r, svc := ServiceRoutes(services)[i], services[i];
      && r.subdomain == svc.subdomain && r.options.websocket == svc.websocket
      && !r.options.bufferRequests
      && Strings.HasPrefix(r.target, "127.0.0.1:") && Strings.Atoi(r.target[|"127.0.0.1:"|..]) == Wrappers.Some(svc.port)
      && r.options.healthPath != ""
      && (svc.healthCheck != "" ==> r.options.healthPath == svc.healthCheck)
  {
    Discovery.TargetNamesPort(services[i]);
  }

  /** One step of a `seen`-set loop over `a`: the route is appended exactly when its subdomain is new. */
  lemma SeenStep(a: seq<MappingData>, i: nat, result: seq<MappingData>, seen: set<string>)
    requires i < |a| && result == FirstPerSubdomain(a[..i])
    requires forall s :: s in seen <==> HasSubdomain(result, s)
    ensures a[i].subdomain in seen ==> result == FirstPerSubdomain(a[..i + 1])
    ensures a[i].subdomain !in seen ==>
      && result + [a[i]] == FirstPerSubdomain(a[..i + 1])
      && forall s :: s in seen + {a[i].subdomain} <==> HasSubdomain(result + [a[i]], s)
  {
    SliceNext(a, i);
    FirstPerSubdomainStep(a[..i], a[i]);
    HasSubdomainAppend(result, a[i]);
  }

  predicate HasSubdomain(routes: seq<MappingData>, s: string)
  {
    exists k :: 0 <= k < |routes| && routes[k].subdomain == s
  }

  /** The routes with, for each subdomain, only its first route kept. */
  function FirstPerSubdomain(routes: seq<MappingData>): seq<MappingData>
  {
    if routes == [] then []
    else
      var prev := FirstPerSubdomain(routes[..|routes| - 1]);
      var e := routes[|routes| - 1];
      if HasSubdomain(prev, e.subdomain) then prev else prev + [e]
  }

  lemma HasSubdomainAppend(routes: seq<MappingData>, e: MappingData)
    ensures forall s :: HasSubdomain(routes + [e], s) <==> HasSubdomain(routes, s) || e.subdomain == s
  {
    forall s | HasSubdomain(routes, s)
      ensures HasSubdomain(routes + [e], s)
    {
      var k :| 0 <= k < |routes| && routes[k].subdomain == s;
      assert (routes + [e])[k] == routes[k];
    }
    assert (routes + [e])[|routes|] == e;
  }

  lemma FirstPerSubdomainStep(routes: seq<MappingData>, e: MappingData)
    ensures FirstPerSubdomain(routes + [e]) ==
      var prev := FirstPerSubdomain(routes);
      if HasSubdomain(prev, e.subdomain) then prev else prev + [e]
  {
    assert (routes + [e])[..|routes|] == routes;
  }

  lemma AppendNext(a: seq<MappingData>, b: seq<MappingData>, j: nat)
    requires j < |b|
    ensures a + b[..j + 1] == (a + b[..j]) + [b[j]]
  {
    assert b[..j + 1] == b[..j] + [b[j]];
  }

  lemma SliceNext(a: seq<MappingData>, i: nat)
    requires i < |a|
    ensures a[..i + 1] == a[..i] + [a[i]]
  {
  }

  /** What `collectMappings` returns: discovered routes, then YAML routes, first route per subdomain. */
  function Merged(services: seq<Discovery.Service>, ms: seq<Mapping.Mapping>): seq<MappingData>
  {
    FirstPerSubdomain(ServiceRoutes(services) + MappingRoutes(ms))
  }

  predicate DistinctSubdomains(routes: seq<MappingData>)
  {
    forall i, j :: 0 <= i < j < |routes| ==> routes[i].subdomain != routes[j].subdomain
  }

  /** The kept routes have distinct subdomains and are input routes. */
  lemma {:induction false} FirstPerSubdomainFromInput(routes: seq<MappingData>)
    ensures DistinctSubdomains(FirstPerSubdomain(routes))
    ensures forall e :: e in FirstPerSubdomain(routes) ==> e in routes
  {
    if routes != [] {
      var init := routes[..|routes| - 1];
      FirstPerSubdomainFromInput(init);
      assert routes == init + [routes[|routes| - 1]];
    }
  }

  /** Every input subdomain has a kept route. */
  lemma {:induction false} FirstPerSubdomainCovers(routes: seq<MappingData>)
    ensures forall i :: 0 <= i < |routes| ==> HasSubdomain(FirstPerSubdomain(routes), routes[i].subdomain)
  {
    if routes != [] {
      var init := routes[..|routes| - 1];
      var e := routes[|routes| - 1];
      FirstPerSubdomainCovers(init);
      var prev := FirstPerSubdomain(init);
      HasSubdomainAppend(prev, e);
      forall i | 0 <= i < |init|
        ensures HasSubdomain(FirstPerSubdomain(routes), routes[i].subdomain)
      {
        assert routes[i] == init[i];
      }
    }
  }

  /** The first route of each subdomain is kept. */
  lemma {:induction false} FirstPerSubdomainKeepsFirst(routes: seq<MappingData>)
    ensures forall i :: 0 <= i < |routes| && (forall j :: 0 <= j < i ==> routes[j].subdomain != routes[i].subdomain)
                    ==> routes[i] in FirstPerSubdomain(routes)
  {
    if routes != [] {
      var init := routes[..|routes| - 1];
      var e := routes[|routes| - 1];
      FirstPerSubdomainKeepsFirst(init);
      FirstPerSubdomainFromInput(init);
      var prev := FirstPerSubdomain(init);
      forall i | 0 <= i < |routes| && (forall j :: 0 <= j < i ==> routes[j].subdomain != routes[i].subdomain)
        ensures routes[i] in FirstPerSubdomain(routes)
      {
        if i < |init| {
          assert routes[i] == init[i];
          assert forall j :: 0 <= j < i ==> init[j] == routes[j];
        } else {
          forall k | 0 <= k < |prev|
            ensures prev[k].subdomain != e.subdomain
          {
            assert prev[k] in init;
            var j :| 0 <= j < |init| && init[j] == prev[k];
            assert routes[j] == init[j];
          }
        }
      }
    }
  }

  /**
   * The kept routes: distinct subdomains, each an input route, each input
   * subdomain present, and every first occurrence of a subdomain kept.
   */
  lemma FirstPerSubdomainSound(routes: seq<MappingData>)
    ensures var r := FirstPerSubdomain(routes);
      && DistinctSubdomains(r)
      && (forall e :: e in r ==> e in routes)
      && (forall i :: 0 <= i < |routes| ==> HasSubdomain(r, routes[i].subdomain))
      && (forall i :: 0 <= i < |routes| && (forall j :: 0 <= j < i ==> routes[j].subdomain != routes[i].subdomain)
            ==> routes[i] in r)
  {
    FirstPerSubdomainFromInput(routes);
    FirstPerSubdomainCovers(routes);
    FirstPerSubdomainKeepsFirst(routes);
  }

  /** Adding routes at the end only appends to the kept list: earlier sources keep their place. */
  lemma {:induction false} FirstPerSubdomainPrefix(a: seq<MappingData>, b: seq<MappingData>)
    ensures FirstPerSubdomain(a) <= FirstPerSubdomain(a + b)
    decreases |b|
  {
    if b == [] {
      assert a + b == a;
    } else {
      var init := b[..|b| - 1];
      assert (a + b)[..|a + b| - 1] == a + init;
      FirstPerSubdomainPrefix(a, init);
    }
  }

  /**
   * Every subdomain of either input is routed, and no subdomain is routed twice.
   */
  lemma MergedCoversInputs(services: seq<Discovery.Service>, ms: seq<Mapping.Mapping>)
    ensures DistinctSubdomains(Merged(services, ms))
    ensures forall i :: 0 <= i < |services| ==> HasSubdomain(Merged(services, ms), services[i].subdomain)
    ensures forall i :: 0 <= i < |ms| ==> HasSubdomain(Merged(services, ms), ms[i].subdomain)
  {
    var a, b := ServiceRoutes(services), MappingRoutes(ms);
    FirstPerSubdomainFromInput(a + b);
    FirstPerSubdomainCovers(a + b);
    forall i | 0 <= i < |services|
      ensures HasSubdomain(Merged(services, ms), services[i].subdomain)
    {
      assert (a + b)[i] == a[i];
    }
    forall i | 0 <= i < |ms|
      ensures HasSubdomain(Merged(services, ms), ms[i].subdomain)
    {
      assert (a + b)[|a| + i] == b[i];
    }
  }

  /** Every route is a discovered service's or a YAML mapping's. */
  lemma MergedRoutesFromInputs(services: seq<Discovery.Service>, ms: seq<Mapping.Mapping>)
    ensures forall e :: e in Merged(services, ms) ==>
      (exists i :: 0 <= i < |services| && e == FromService(services[i]))
      || (exists i :: 0 <= i < |ms| && e == FromMapping(ms[i]))
  {
    var a, b := ServiceRoutes(services), MappingRoutes(ms);
    FirstPerSubdomainFromInput(a + b);
    forall e | e in Merged(services, ms)
      ensures (exists i :: 0 <= i < |services| && e == FromService(services[i]))
           || (exists i :: 0 <= i < |ms| && e == FromMapping(ms[i]))
    {
      assert e in a + b;
      if e in a {
        var i :| 0 <= i < |a| && a[i] == e;
        assert e == FromService(services[i]);
      } else {
        var i :| 0 <= i < |b| && b[i] == e;
        assert e == FromMapping(ms[i]);
      }
    }
  }

  /**
   * Discovered services take priority: a subdomain that some discovered
   * service uses is routed by the first such service, never by a YAML mapping.
   */
  lemma DiscoveredWins(services: seq<Discovery.Service>, ms: seq<Mapping.Mapping>, s: string)
    requires exists i :: 0 <= i < |services| && services[i].subdomain == s
    ensures forall e :: e in Merged(services, ms) && e.subdomain == s ==> e in FirstPerSubdomain(ServiceRoutes(services))
  {
    var a, b := ServiceRoutes(services), MappingRoutes(ms);
    var pa, r := FirstPerSubdomain(a), Merged(services, ms);
    FirstPerSubdomainCovers(a);
    FirstPerSubdomainFromInput(a + b);
    FirstPerSubdomainPrefix(a, b);
    var i :| 0 <= i < |services| && services[i].subdomain == s;
    assert a[i].subdomain == s;
    var k :| 0 <= k < |pa| && pa[k].subdomain == s;
    forall e | e in r && e.subdomain == s
      ensures e in pa
    {
      var m :| 0 <= m < |r| && r[m] == e;
      assert r[k] == pa[k];
      assert m == k;
    }
  }

  /** The generator: its mapping manager (possibly none) and the last discovered services. */
  class Generator {
    const mappingMgr: Mapping.Manager?
    var discoveredServices: seq<Discovery.Service>

    constructor (mappingMgr: Mapping.Manager?)
      ensures this.mappingMgr == mappingMgr && discoveredServices == []
    {
      this.mappingMgr := mappingMgr;
      discoveredServices := [];
    }

    /** `UpdateDiscoveredServices`: replaces the discovered list wholesale. */
    method UpdateDiscoveredServices(services: seq<Discovery.Service>)
      modifies this
      ensures discoveredServices == services
    {
      discoveredServices := services;
    }

    /** The YAML mappings in play: the manager's, or none without a manager. */
    function YamlMappings(): seq<Mapping.Mapping>
      reads this, mappingMgr
    {
      if mappingMgr == null then [] else mappingMgr.mappings
    }

    /**
     * `collectMappings`: discovered services first, skipping repeated
     * subdomains, then YAML mappings whose subdomain is still free.
     */
    method CollectMappings() returns (result: seq<MappingData>)
      ensures result == Merged(discoveredServices, YamlMappings())
      ensures DistinctSubdomains(result)
    {
      var seen;
      result, seen := CollectDiscovered();
      var ms: seq<Mapping.Mapping> := [];
      if mappingMgr != null {
        ms := mappingMgr.Get();
      }
      result := AddYamlMappings(ServiceRoutes(discoveredServices), result, seen, ms);
      FirstPerSubdomainSound(ServiceRoutes(discoveredServices) + MappingRoutes(ms));
    }

    /** The first loop of `collectMappings`: one route per subdomain from the discovered services. */
    method CollectDiscovered() returns (result: seq<MappingData>, seen: set<string>)
      ensures result == FirstPerSubdomain(ServiceRoutes(discoveredServices))
      ensures forall s :: s in seen <==> HasSubdomain(result, s)
    {
      ghost var a := ServiceRoutes(discoveredServices);
      seen := {};
      result := [];
      var i := 0;
      assert a[..0] == [];
      while i < |discoveredServices|
        invariant 0 <= i <= |discoveredServices|
        invariant result == FirstPerSubdomain(a[..i])
        invariant forall s :: s in seen <==> HasSubdomain(result, s)
      {
        var svc := discoveredServices[i];
        assert a[i] == FromService(svc);
        SeenStep(a, i, result, seen);
        if svc.subdomain !in seen {
          seen := seen + {svc.subdomain};
          result := result + [FromService(svc)];
        }
        i := i + 1;
      }
      assert a[..|discoveredServices|] == a;
    }

    /** The second loop of `collectMappings`: YAML routes for subdomains not yet taken. */
    method AddYamlMappings(ghost earlier: seq<MappingData>, routes: seq<MappingData>, seen: set<string>,
                           ms: seq<Mapping.Mapping>)
      returns (result: seq<MappingData>)
      requires routes == FirstPerSubdomain(earlier)
      requires forall s :: s in seen <==> HasSubdomain(routes, s)
      ensures result == FirstPerSubdomain(earlier + MappingRoutes(ms))
    {
      ghost var b := MappingRoutes(ms);
      var taken := seen;
      result := routes;
      var j := 0;
      assert earlier + b[..0] == earlier;
      while j < |ms|
        invariant 0 <= j <= |ms|
        invariant result == FirstPerSubdomain(earlier + b[..j])
        invariant forall s :: s in taken <==> HasSubdomain(result, s)
      {
        var m := ms[j];
        AppendNext(earlier, b, j);
        FirstPerSubdomainStep(earlier + b[..j], b[j]);
        HasSubdomainAppend(result, b[j]);
        if m.subdomain !in taken {
          taken := taken + {m.subdomain};
          result := result + [FromMapping(m)];
        }
        j := j + 1;
      }
      assert b[..|ms|] == b;
    }
  }
}
