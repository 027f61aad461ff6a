/**
 * The Cloudflare record-store client. The DNS provider is an abstract zone
 * (a list of records plus the set of API operations that currently fail);
 * the client owns the record-ID cache and guards every mutation with the
 * domain-scope check before it touches the cache or the provider.
 */
module Cloudflare {
  import opened Wrappers
  import opened Strings
  import Scope
  import Config

  /** A DNS record as the provider stores it. */
  datatype DnsRecord = DnsRecord(id: string, name: string, rtype: string, content: string, ttl: int, proxied: bool)

  /** The provider API calls the client makes; a list call is told apart by the record type it asks for. */
  datatype ApiOp = ListOp(rtype: string) | CreateOp | UpdateOp | DeleteOp

  /** The records a list call returns: `name` (any name when "") and type `rtype`, in zone order. */
  function Matching(records: seq<DnsRecord>, name: string, rtype: string): (r: seq<DnsRecord>)
    ensures forall x :: x in r ==> x in records && (name == "" || x.name == name) && x.rtype == rtype
    ensures forall x :: x in records && (name == "" || x.name == name) && x.rtype == rtype ==> x in r
  {
    if records == [] then []
    else
      var rest := Matching(records[1..], name, rtype);
      if (name == "" || records[0].name == name) && records[0].rtype == rtype then [records[0]] + rest else rest
  }

  function Names(records: seq<DnsRecord>): (r: seq<string>)
    ensures |r| == |records| && forall i :: 0 <= i < |records| ==> r[i] == records[i].name
  {
    seq(|records|, i requires 0 <= i < |records| => records[i].name)
  }

  lemma NamesAppend(a: seq<DnsRecord>, b: seq<DnsRecord>)
    ensures Names(a + b) == Names(a) + Names(b)
  {
  }

  predicate HasId(records: seq<DnsRecord>, id: string)
  {
    exists x :: x in records && x.id == id
  }

  /** The zone with every record carrying `id` replaced by `rec`. */
  function Replaced(records: seq<DnsRecord>, id: string, rec: DnsRecord): (r: seq<DnsRecord>)
    ensures |r| == |records|
    ensures forall i :: 0 <= i < |records| ==> r[i] == if records[i].id == id then rec else records[i]
  {
    seq(|records|, i requires 0 <= i < |records| => if records[i].id == id then rec else records[i])
  }

  /** The zone without the records carrying `id`. */
  function Without(records: seq<DnsRecord>, id: string): (r: seq<DnsRecord>)
    ensures forall x :: x in r <==> x in records && x.id != id
  {
    if records == [] then []
    else if records[0].id == id then Without(records[1..], id)
    else [records[0]] + Without(records[1..], id)
  }

  /** The ID the provider assigns to its n-th created record. */
  function NewId(n: nat): (id: string)
    ensures id != ""
  {
    "rec-" + NatToString(n)
  }

  /** The DNS provider's zone, with `failing` the API calls that currently return an error. */
  class Zone {
    var records: seq<DnsRecord>
    var nextId: nat
    var failing: set<ApiOp>

    constructor (records: seq<DnsRecord>, nextId: nat, failing: set<ApiOp>)
      ensures this.records == records && this.nextId == nextId && this.failing == failing
    {
      this.records := records;
      this.nextId := nextId;
      this.failing := failing;
    }

    /** `ListDNSRecords` filtered by name (any when "") and type. */
    method ListDNSRecords(name: string, rtype: string) returns (r: Result<seq<DnsRecord>>)
      ensures r == if ListOp(rtype) in failing then Err("list failed") else Ok(Matching(records, name, rtype))
    {
      if ListOp(rtype) in failing {
        return Err("list failed");
      }
      return Ok(Matching(records, name, rtype));
    }

    /** `CreateDNSRecord`: appends a record under a fresh ID and returns the ID. */
    method CreateDNSRecord(name: string, rtype: string, content: string, ttl: int, proxied: bool)
      returns (r: Result<string>)
      modifies this
      ensures failing == old(failing)
      ensures CreateOp in failing ==> r.Err? && records == old(records) && nextId == old(nextId)
      ensures CreateOp !in failing ==>
        && r == Ok(NewId(old(nextId)))
        && records == old(records) + [DnsRecord(NewId(old(nextId)), name, rtype, content, ttl, proxied)]
        && nextId == old(nextId) + 1
    {
      if CreateOp in failing {
        return Err("create failed");
      }
      var id := NewId(nextId);
      records := records + [DnsRecord(id, name, rtype, content, ttl, proxied)];
      nextId := nextId + 1;
      return Ok(id);
    }

    /** `UpdateDNSRecord`: rewrites the record with the given ID; an unknown ID is an error. */
    method UpdateDNSRecord(id: string, rtype: string, name: string, content: string, ttl: int, proxied: bool)
      returns (err: Option<string>)
      modifies this
      ensures failing == old(failing) && nextId == old(nextId)
      ensures err.None? <==> UpdateOp !in failing && HasId(old(records), id)
      ensures err.Some? ==> records == old(records)
      ensures err.None? ==> records == Replaced(old(records), id, DnsRecord(id, name, rtype, content, ttl, proxied))
    {
      if UpdateOp in failing || !HasId(records, id) {
        return Some("update failed");
      }
      records := Replaced(records, id, DnsRecord(id, name, rtype, content, ttl, proxied));
      return None;
    }

    /** `DeleteDNSRecord`: removes the record with the given ID; an unknown ID is an error. */
    method DeleteDNSRecord(id: string) returns (err: Option<string>)
      modifies this
      ensures failing == old(failing) && nextId == old(nextId)
      ensures err.None? <==> DeleteOp !in failing && HasId(old(records), id)
      ensures err.Some? ==> records == old(records)
      ensures err.None? ==> records == Without(old(records), id)
    {
      if DeleteOp in failing || !HasId(records, id) {
        return Some("delete failed");
      }
      records := Without(records, id);
      return None;
    }
  }

  /** A call made on the record-store client, as its call log records it. */
  datatype Call =
    | Upsert(name: string, rtype: string, content: string)
    | Listed(result: Result<seq<string>>)
    | Remove(name: string, rtype: string)

  /** The cache key `name:type`. */
  function CacheKey(name: string, rtype: string): string
  {
    name + ":" + rtype
  }

  /**
   * The record-store client: its zone configuration and the name:type -> record-ID
   * cache. `log` is the ghost record of the upsert, delete and subdomain-listing
   * calls made on it, in order, whatever their outcome.
   */
  class Client {
    const zoneID: string
    const domain: string
    const baseDomain: string
    const proxied: bool
    const ttl: int
    var recordCache: map<string, string>
    ghost var log: seq<Call>

    /** `New`: the configuration's domain, base domain, proxy flag and TTL, with an empty cache. */
    constructor (cfg: Config.Config)
      ensures zoneID == cfg.cloudflareZoneID && domain == cfg.domain && baseDomain == cfg.GetBaseDomain()
      ensures proxied == cfg.cloudflareProxy && ttl == cfg.dnsTTL && recordCache == map[]
      ensures log == []
    {
      zoneID := cfg.cloudflareZoneID;
      domain := cfg.domain;
      baseDomain := cfg.GetBaseDomain();
      proxied := cfg.cloudflareProxy;
      ttl := cfg.dnsTTL;
      recordCache := map[];
      log := [];
    }

    /** The TTL sent to the provider: 1 ("automatic") when proxied, else the configured TTL. */
    function RecordTTL(): (t: int)
      ensures proxied ==> t == 1
      ensures !proxied ==> t == ttl
    {
      if proxied then 1 else ttl
    }

    /** Whether the scope guard lets `name` be mutated. */
    predicate InScope(name: string)
    {
      Scope.ValidateRecordName(domain, baseDomain, name).Allowed?
    }

    /**
     * `UpdateRecord`: after the scope guard, find the record ID (cache, else the
     * first listed match, caching it), then update that record, or create one
     * and cache its new ID.
     */
    method UpdateRecord(zone: Zone, name: string, rtype: string, content: string) returns (err: Option<string>)
      modifies this, zone
      ensures zone.failing == old(zone.failing)
      ensures log == old(log) + [Upsert(name, rtype, content)]
      // the guard runs first: a refused name changes neither the cache nor the zone
      ensures !InScope(name) ==>
        && err == Some(Scope.ValidateRecordName(domain, baseDomain, name).msg)
        && recordCache == old(recordCache) && zone.records == old(zone.records) && zone.nextId == old(zone.nextId)
      ensures InScope(name) ==>
        var key := CacheKey(name, rtype);
        var cached := key in old(recordCache);
        var listed := Matching(old(zone.records), name, rtype);
        var id := if cached then old(recordCache)[key] else if |listed| > 0 then listed[0].id else "";
        var cache1 := if !cached && |listed| > 0 then old(recordCache)[key := id] else old(recordCache);
        var rec := DnsRecord(id, name, rtype, content, RecordTTL(), proxied);
        if !cached && ListOp(rtype) in zone.failing then
          // a failed lookup stops before any change
          err.Some? && recordCache == old(recordCache) && zone.records == old(zone.records) && zone.nextId == old(zone.nextId)
        else if id != "" then
          // an existing ID is updated in place; nothing is created
          && zone.nextId == old(zone.nextId) && recordCache == cache1
          && (err.None? <==> UpdateOp !in zone.failing && HasId(old(zone.records), id))
          && zone.records == (if err.None? then Replaced(old(zone.records), id, rec) else old(zone.records))
        else
          // no ID: a record is created and its new ID cached
          && (err.None? <==> CreateOp !in zone.failing)
          && (err.Some? ==> recordCache == cache1 && zone.records == old(zone.records) && zone.nextId == old(zone.nextId))
          && (err.None? ==>
                && zone.records == old(zone.records) + [rec.(id := NewId(old(zone.nextId)))]
                && recordCache == cache1[key := NewId(old(zone.nextId))]
                && zone.nextId == old(zone.nextId) + 1)
      // a successful upsert leaves the key cached
      ensures err.None? ==> CacheKey(name, rtype) in recordCache
    {
      log := log + [Upsert(name, rtype, content)];
      var verdict := Scope.ValidateRecordName(domain, baseDomain, name);
      if verdict.Denied? {
        return Some(verdict.msg);
      }
      var cacheKey := CacheKey(name, rtype);
      var cached := cacheKey in recordCache;
      var recordID := if cached then recordCache[cacheKey] else "";
      if !cached {
        var records := zone.ListDNSRecords(name, rtype);
        if records.Err? {
          return Some("failed to list DNS records: " + records.msg);
        }
        if |records.value| > 0 {
          recordID := records.value[0].id;
          recordCache := recordCache[cacheKey := recordID];
        }
      }
      var ttl := RecordTTL();
      if recordID != "" {
        var e := zone.UpdateDNSRecord(recordID, rtype, name, content, ttl, proxied);
        if e.Some? {
          return Some("failed to update DNS record: " + e.value);
        }
      } else {
        var created := zone.CreateDNSRecord(name, rtype, content, ttl, proxied);
        if created.Err? {
          return Some("failed to create DNS record: " + created.msg);
        }
        recordCache := recordCache[cacheKey := created.value];
      }
      return None;
    }

    /**
     * `DeleteRecord`: after the scope guard, find the record ID (cache, else the
     * first listed match); no match is success without a delete call; a
     * successful delete purges the cache entry.
     */
    method DeleteRecord(zone: Zone, name: string, rtype: string) returns (err: Option<string>)
      modifies this, zone
      ensures zone.failing == old(zone.failing) && zone.nextId == old(zone.nextId)
      ensures log == old(log) + [Remove(name, rtype)]
      // the guard runs first: a refused name changes neither the cache nor the zone
      ensures !InScope(name) ==>
        && err == Some(Scope.ValidateRecordName(domain, baseDomain, name).msg)
        && recordCache == old(recordCache) && zone.records == old(zone.records)
      ensures InScope(name) ==>
        var key := CacheKey(name, rtype);
        var cached := key in old(recordCache);
        var listed := Matching(old(zone.records), name, rtype);
        if !cached && ListOp(rtype) in zone.failing then
          err.Some? && recordCache == old(recordCache) && zone.records == old(zone.records)
        else if !cached && |listed| == 0 then
          // nothing to delete: success, no delete call
          err == None && recordCache == old(recordCache) && zone.records == old(zone.records)
        else
          var id := if cached then old(recordCache)[key] else listed[0].id;
          && (err.None? <==> DeleteOp !in zone.failing && HasId(old(zone.records), id))
          && (err.Some? ==> recordCache == old(recordCache) && zone.records == old(zone.records))
          // a successful delete drops this key and keeps every other cache entry
          && (err.None? ==> zone.records == Without(old(zone.records), id) && recordCache == old(recordCache) - {key})
    {
      log := log + [Remove(name, rtype)];
      var verdict := Scope.ValidateRecordName(domain, baseDomain, name);
      if verdict.Denied? {
        return Some(verdict.msg);
      }
      var cacheKey := CacheKey(name, rtype);
      var cached := cacheKey in recordCache;
      var recordID := if cached then recordCache[cacheKey] else "";
      if !cached {
        var records := zone.ListDNSRecords(name, rtype);
        if records.Err? {
          return Some("failed to list DNS records: " + records.msg);
        }
        if |records.value| == 0 {
          return None;
        }
        recordID := records.value[0].id;
      }
      var e := zone.DeleteDNSRecord(recordID);
      if e.Some? {
        return Some("failed to delete DNS record: " + e.value);
      }
      recordCache := recordCache - {cacheKey};
      return None;
    }

    /**
     * `GetManagedRecordFQDNs`: lists the zone's A and AAAA records and keeps
     * the normalized, non-wildcard, managed names, each once, in listing order.
     */
    method GetManagedRecordFQDNs(zone: Zone) returns (r: Result<seq<string>>)
      ensures ListOp("A") in zone.failing || ListOp("AAAA") in zone.failing <==> r.Err?
      ensures r.Ok? ==> r.value == Scope.ManagedFQDNs(domain, baseDomain,
        Names(Matching(zone.records, "", "A")) + Names(Matching(zone.records, "", "AAAA")))
    {
      var aRecords := zone.ListDNSRecords("", "A");
      if aRecords.Err? {
        return Err("failed to list A records: " + aRecords.msg);
      }
      var aaaaRecords := zone.ListDNSRecords("", "AAAA");
      if aaaaRecords.Err? {
        return Err("failed to list AAAA records: " + aaaaRecords.msg);
      }
      NamesAppend(aRecords.value, aaaaRecords.value);
      var fqdns := KeepManaged(aRecords.value + aaaaRecords.value);
      return Ok(fqdns);
    }

    /** The filtering loop of `GetManagedRecordFQDNs` over the listed records. */
    method KeepManaged(all: seq<DnsRecord>) returns (fqdns: seq<string>)
      ensures fqdns == Scope.ManagedFQDNs(domain, baseDomain, Names(all))
    {
      var names := Scope.NormalizeAll(Names(all));
      fqdns := KeepDistinct(names, Scope.Keeper(domain, baseDomain));
    }

    /**
     * `GetManagedSubdomainRecords`: the managed names reduced to their labels
     * (before `.<domain>`, or before `-<zone label>.<base>`), non-empty and each once.
     */
    method GetManagedSubdomainRecords(zone: Zone) returns (r: Result<seq<string>>)
      modifies this
      ensures recordCache == old(recordCache) && log == old(log) + [Listed(r)]
      ensures ListOp("A") in zone.failing || ListOp("AAAA") in zone.failing <==> r.Err?
      ensures r.Ok? ==> r.value == Scope.SubdomainLabels(domain, baseDomain,
        Scope.ManagedFQDNs(domain, baseDomain,
          Names(Matching(zone.records, "", "A")) + Names(Matching(zone.records, "", "AAAA"))))
    {
      var listed := GetManagedRecordFQDNs(zone);
      if listed.Err? {
        r := Err(listed.msg);
      } else {
        var subdomains := KeepLabels(listed.value);
        r := Ok(subdomains);
      }
      log := log + [Listed(r)];
    }

    /** The extraction loop of `GetManagedSubdomainRecords` over the managed names. */
    method KeepLabels(fqdns: seq<string>) returns (subdomains: seq<string>)
      ensures subdomains == Scope.SubdomainLabels(domain, baseDomain, fqdns)
    {
      var labels := Scope.ExtractAll(domain, baseDomain, fqdns);
      subdomains := KeepDistinct(labels, Scope.NonEmptyLabel);
    }
  }

  /**
   * The `seen`-map loop both listings run: each element `keep` accepts is
   * appended the first time it occurs.
   */
  method KeepDistinct(xs: seq<string>, keep: string -> bool) returns (r: seq<string>)
    ensures r == Scope.CollectDistinct(xs, keep)
  {
    var seen: set<string> := {};
    r := [];
    var i := 0;
    while i < |xs|
      invariant 0 <= i <= |xs|
      invariant r == Scope.CollectDistinct(xs[..i], keep)
      invariant forall x :: x in seen <==> x in r
    {
      assert xs[..i + 1] == xs[..i] + [xs[i]];
      Scope.CollectDistinctStep(xs[..i], xs[i], keep);
      if keep(xs[i]) && xs[i] !in seen {
        seen := seen + {xs[i]};
        r := r + [xs[i]];
      }
      i := i + 1;
    }
    assert xs[..|xs|] == xs;
  }
}
