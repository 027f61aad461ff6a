/**
 * The DNS reconciliation pass of the daemon (`updateIPAndDNS` and
 * `updateSubdomainRecords`): after a successful detection, direct mode writes
 * the root and wildcard records, proxied mode writes one A record per active
 * subdomain and then removes stale subdomain records. The methods are stated
 * through the record-store client's call log: the calls they make, in order.
 */
module Reconciler {
  import opened Wrappers
  import opened Strings
  import Config
  import Scope
  import opened Cloudflare
  import IpDetect
  import Naming

  /** The active FQDN set: each active subdomain's record name. */
  function ActiveFQDNs(cfg: Config.Config, subs: seq<string>): (r: seq<string>)
    ensures |r| == |subs|
    ensures forall i :: 0 <= i < |subs| ==> r[i] == cfg.GetSubdomainFQDN(subs[i])
  {
    if subs == [] then [] else ActiveFQDNs(cfg, subs[..|subs| - 1]) + [cfg.GetSubdomainFQDN(subs[|subs| - 1])]
  }

  /** Proxied mode's upserts: one A record per active FQDN, none at all without an IPv4 address. */
  function Upserts(fqdns: seq<string>, ipv4: string): seq<Call>
  {
    if fqdns == [] then []
    else
      var up := if ipv4 != "" then [Upsert(fqdns[|fqdns| - 1], "A", ipv4)] else [];
      Upserts(fqdns[..|fqdns| - 1], ipv4) + up
  }

  /** The name the stale cleanup deletes for an existing label, as written: the label under the domain. */
  function StaleName(domain: string, existing: string): string
  {
    existing + "." + domain
  }

  /**
   * Stale cleanup under a naming of labels: an A then an AAAA removal for
   * each existing label whose name is not active.
   */
  function RemovalsBy(namer: string -> string, active: seq<string>, labels: seq<string>): seq<Call>
  {
    if labels == [] then []
    else
      var name := namer(labels[|labels| - 1]);
      RemovalsBy(namer, active, labels[..|labels| - 1])
        + (if name !in active then [Remove(name, "A"), Remove(name, "AAAA")] else [])
  }

  /** The cleanup naming as written. */
  function StaleNamer(domain: string): string -> string
  {
    e => StaleName(domain, e)
  }

  /** Stale cleanup as written: removals at `<label>.<domain>`. */
  function Removals(domain: string, active: seq<string>, labels: seq<string>): seq<Call>
  {
    RemovalsBy(StaleNamer(domain), active, labels)
  }

  /** `updateSubdomainRecords`: upserts, then the listing, then (if it succeeded) the removals. */
  function SubdomainPlan(cfg: Config.Config, domain: string, subs: seq<string>, ipv4: string,
                         listing: Result<seq<string>>): seq<Call>
  {
    Upserts(ActiveFQDNs(cfg, subs), ipv4) + [Listed(listing)]
      + (if listing.Ok? then Removals(domain, ActiveFQDNs(cfg, subs), listing.value) else [])
  }

  /** Direct mode: the root, then the wildcard, each with A when there is an IPv4 and AAAA when there is an IPv6. */
  function DirectPlan(domain: string, ipv4: string, ipv6: string): seq<Call>
  {
    AddressUpserts(domain, ipv4, ipv6) + AddressUpserts("*." + domain, ipv4, ipv6)
  }

  /** The A upsert when there is an IPv4 address, then the AAAA upsert when there is an IPv6 address. */
  function AddressUpserts(name: string, ipv4: string, ipv6: string): seq<Call>
  {
    (if ipv4 != "" then [Upsert(name, "A", ipv4)] else [])
    + (if ipv6 != "" then [Upsert(name, "AAAA", ipv6)] else [])
  }

  /** Every upsert of proxied mode is an A record of the IPv4 address at an active name, and each active name gets one. */
  lemma {:induction false} UpsertsExact(fqdns: seq<string>, ipv4: string)
    ensures forall c :: c in Upserts(fqdns, ipv4) ==>
      c.Upsert? && c.rtype == "A" && c.content == ipv4 && ipv4 != "" && c.name in fqdns
    ensures ipv4 != "" ==> forall n :: n in fqdns ==> Upsert(n, "A", ipv4) in Upserts(fqdns, ipv4)
    ensures |Upserts(fqdns, ipv4)| == if ipv4 == "" then 0 else |fqdns|
  {
    UpsertsSound(fqdns, ipv4);
    UpsertsCover(fqdns, ipv4);
    UpsertsLength(fqdns, ipv4);
  }

  lemma {:induction false} UpsertsSound(fqdns: seq<string>, ipv4: string)
    ensures forall c :: c in Upserts(fqdns, ipv4) ==>
      c.Upsert? && c.rtype == "A" && c.content == ipv4 && ipv4 != "" && c.name in fqdns
  {
    if fqdns != [] {
      var init, last := fqdns[..|fqdns| - 1], fqdns[|fqdns| - 1];
      UpsertsSound(init, ipv4);
      assert fqdns == init + [last];
      forall c | c in Upserts(fqdns, ipv4)
        ensures c.Upsert? && c.rtype == "A" && c.content == ipv4 && ipv4 != "" && c.name in fqdns
      {
        if c !in Upserts(init, ipv4) {
          assert c == Upsert(last, "A", ipv4) && ipv4 != "";
        }
      }
    }
  }

  lemma {:induction false} UpsertsCover(fqdns: seq<string>, ipv4: string)
    ensures ipv4 != "" ==> forall n :: n in fqdns ==> Upsert(n, "A", ipv4) in Upserts(fqdns, ipv4)
  {
    if fqdns != [] && ipv4 != "" {
      var init, last := fqdns[..|fqdns| - 1], fqdns[|fqdns| - 1];
      UpsertsCover(init, ipv4);
      assert Upserts(fqdns, ipv4) == Upserts(init, ipv4) + [Upsert(last, "A", ipv4)];
      forall n | n in fqdns
        ensures Upsert(n, "A", ipv4) in Upserts(fqdns, ipv4)
      {
        if n != last {
          var k :| 0 <= k < |fqdns| && fqdns[k] == n;
          assert init[k] == n;
        }
      }
    }
  }

  lemma {:induction false} UpsertsLength(fqdns: seq<string>, ipv4: string)
    ensures |Upserts(fqdns, ipv4)| == if ipv4 == "" then 0 else |fqdns|
  {
    if fqdns != [] {
      UpsertsLength(fqdns[..|fqdns| - 1], ipv4);
    }
  }

  /**
   * The stale cleanup removes exactly the A and AAAA records at the inactive
   * names given to the existing labels.
   */
  lemma {:induction false} RemovalsByExact(namer: string -> string, active: seq<string>, labels: seq<string>)
    ensures forall c :: c in RemovalsBy(namer, active, labels) ==>
      c.Remove? && (c.rtype == "A" || c.rtype == "AAAA") && c.name !in active
      && exists e :: e in labels && c.name == namer(e)
    ensures forall e, t :: e in labels && namer(e) !in active && (t == "A" || t == "AAAA") ==>
      Remove(namer(e), t) in RemovalsBy(namer, active, labels)
  {
    if labels != [] {
      var init, last := labels[..|labels| - 1], labels[|labels| - 1];
      RemovalsByExact(namer, active, init);
      assert labels == init + [last];
    }
  }

  /** As written, the cleanup removes exactly the A and AAAA records at `<label>.<domain>` of the inactive labels. */
  lemma RemovalsExact(domain: string, active: seq<string>, labels: seq<string>)
    ensures forall c :: c in Removals(domain, active, labels) ==>
      c.Remove? && (c.rtype == "A" || c.rtype == "AAAA") && c.name !in active
      && exists e :: e in labels && c.name == StaleName(domain, e)
    ensures forall e, t :: e in labels && StaleName(domain, e) !in active && (t == "A" || t == "AAAA") ==>
      Remove(StaleName(domain, e), t) in Removals(domain, active, labels)
  {
    RemovalsByExact(StaleNamer(domain), active, labels);
    forall c | c in Removals(domain, active, labels)
      ensures exists e :: e in labels && c.name == StaleName(domain, e)
    {
      var e :| e in labels && c.name == StaleNamer(domain)(e);
      assert c.name == StaleName(domain, e);
    }
    forall e, t | e in labels && StaleName(domain, e) !in active && (t == "A" || t == "AAAA")
      ensures Remove(StaleName(domain, e), t) in Removals(domain, active, labels)
    {
      assert StaleNamer(domain)(e) == StaleName(domain, e);
    }
  }

  /** Within `updateSubdomainRecords` every upsert comes before every removal. */
  lemma UpsertsBeforeRemovals(cfg: Config.Config, domain: string, subs: seq<string>, ipv4: string,
                              listing: Result<seq<string>>)
    ensures var plan := SubdomainPlan(cfg, domain, subs, ipv4, listing);
      forall i, j :: 0 <= i < j < |plan| && plan[i].Remove? ==> !plan[j].Upsert?
  {
    var active := ActiveFQDNs(cfg, subs);
    UpsertsExact(active, ipv4);
    if listing.Ok? {
      RemovalsExact(domain, active, listing.value);
      PhasesOrdered(Upserts(active, ipv4), Listed(listing), Removals(domain, active, listing.value));
    } else {
      PhasesOrdered(Upserts(active, ipv4), Listed(listing), []);
    }
  }

  /** Upserts, then one call that is neither, then removals: no removal precedes an upsert. */
  lemma PhasesOrdered(ups: seq<Call>, mid: Call, rems: seq<Call>)
    requires forall c :: c in ups ==> c.Upsert?
    requires mid.Listed?
    requires forall c :: c in rems ==> c.Remove?
    ensures var plan := ups + [mid] + rems;
      forall i, j :: 0 <= i < j < |plan| && plan[i].Remove? ==> !plan[j].Upsert?
  {
    var plan := ups + [mid] + rems;
    assert forall k :: 0 <= k < |ups| ==> plan[k] == ups[k];
    assert plan[|ups|] == mid;
    assert forall k :: |ups| < k < |plan| ==> plan[k] == rems[k - |ups| - 1];
    forall k | 0 <= k < |ups|
      ensures plan[k].Upsert?
    {
      assert ups[k] in ups;
    }
    forall k | |ups| < k < |plan|
      ensures plan[k].Remove?
    {
      assert rems[k - |ups| - 1] in rems;
    }
  }

  /**
   * Proxied mode: a failed listing issues no removal; no removal ever hits an
   * active subdomain's name; the root and wildcard names are never upserted.
   */
  lemma SubdomainPlanSafety(cfg: Config.Config, domain: string, subs: seq<string>, ipv4: string,
                            listing: Result<seq<string>>)
    ensures listing.Err? ==> forall c :: c in SubdomainPlan(cfg, domain, subs, ipv4, listing) ==> !c.Remove?
    ensures forall s, t :: s in subs ==> Remove(cfg.GetSubdomainFQDN(s), t) !in SubdomainPlan(cfg, domain, subs, ipv4, listing)
    ensures forall c :: c in SubdomainPlan(cfg, domain, subs, ipv4, listing) && c.Upsert? ==>
      c.rtype == "A" && c.name != cfg.domain
  {
    var active := ActiveFQDNs(cfg, subs);
    PlanMembers(cfg, domain, subs, ipv4, listing);
    ActiveNames(cfg, subs);
    UpsertsExact(active, ipv4);
    if listing.Ok? {
      RemovalsExact(domain, active, listing.value);
    }
  }

  /** The calls of a proxied-mode plan: its upserts, its listing and, after a successful listing, its removals. */
  lemma PlanMembers(cfg: Config.Config, domain: string, subs: seq<string>, ipv4: string,
                    listing: Result<seq<string>>)
    ensures forall c :: c in SubdomainPlan(cfg, domain, subs, ipv4, listing) <==>
      c in Upserts(ActiveFQDNs(cfg, subs), ipv4) || c == Listed(listing)
      || (listing.Ok? && c in Removals(domain, ActiveFQDNs(cfg, subs), listing.value))
  {
  }

  /** Every active subdomain's name is in the active list, and every active name is longer than the domain. */
  lemma ActiveNames(cfg: Config.Config, subs: seq<string>)
    ensures forall s :: s in subs ==> cfg.GetSubdomainFQDN(s) in ActiveFQDNs(cfg, subs)
    ensures forall x :: x in ActiveFQDNs(cfg, subs) ==> |x| > |cfg.domain|
  {
    var active := ActiveFQDNs(cfg, subs);
    forall s | s in subs
      ensures cfg.GetSubdomainFQDN(s) in active
    {
      var k :| 0 <= k < |subs| && subs[k] == s;
      assert active[k] == cfg.GetSubdomainFQDN(s);
    }
    forall x | x in active
      ensures |x| > |cfg.domain|
    {
      var k :| 0 <= k < |active| && active[k] == x;
      var s := subs[k];
      if cfg.subdomainPrefix && '.' in cfg.domain {
        var first, rest :| '.' !in first && cfg.domain == first + "." + rest
          && cfg.GetSubdomainFQDN(s) == s + "-" + first + "." + rest;
      }
    }
  }

  /**
   * In direct mode only the root and the wildcard are written, A exactly when
   * there is an IPv4 address and AAAA exactly when there is an IPv6 address,
   * and nothing is listed or removed.
   */
  lemma DirectPlanExact(domain: string, ipv4: string, ipv6: string)
    ensures forall c :: c in DirectPlan(domain, ipv4, ipv6) ==>
      c.Upsert? && (c.name == domain || c.name == "*." + domain)
      && (c.rtype == "A" ==> c.content == ipv4) && (c.rtype == "AAAA" ==> c.content == ipv6)
      && (c.rtype == "A" || c.rtype == "AAAA")
    ensures Upsert(domain, "A", ipv4) in DirectPlan(domain, ipv4, ipv6) <==> ipv4 != ""
    ensures Upsert("*." + domain, "A", ipv4) in DirectPlan(domain, ipv4, ipv6) <==> ipv4 != ""
    ensures Upsert(domain, "AAAA", ipv6) in DirectPlan(domain, ipv4, ipv6) <==> ipv6 != ""
    ensures Upsert("*." + domain, "AAAA", ipv6) in DirectPlan(domain, ipv4, ipv6) <==> ipv6 != ""
  {
    assert |"*." + domain| != |domain|;
  }

  /**
   * In direct (sub-domain) mode an existing lower-case label of an active
   * subdomain is never removed in the same pass.
   */
  lemma ActiveLabelKept(cfg: Config.Config, subs: seq<string>, ipv4: string, labels: seq<string>, s: string)
    requires !cfg.subdomainPrefix && s in subs && s in labels
    ensures forall t :: Remove(StaleName(cfg.domain, s), t) !in SubdomainPlan(cfg, cfg.domain, subs, ipv4, Ok(labels))
  {
    SubdomainPlanSafety(cfg, cfg.domain, subs, ipv4, Ok(labels));
  }

  /**
   * Finding, as written: in prefix mode the cleanup name of the label taken
   * from an existing record `<label>-<first>.<rest>` is `<label>.<first>.<rest>`,
   * which is never that record's name.
   */
  lemma AsWrittenMissesPrefixRecord(cfg: Config.Config, sub: string)
    requires cfg.subdomainPrefix && Naming.Nameable(cfg)
    requires IsLower(sub)
    ensures var lbl := Scope.ExtractLabel(cfg.domain, cfg.GetBaseDomain(), Scope.Normalize(cfg.GetSubdomainFQDN(sub)));
      lbl == sub && StaleName(cfg.domain, lbl) != cfg.GetSubdomainFQDN(sub)
  {
    Naming.MappedLabelRoundTrip(cfg, sub);
    ToLowerOfLower(sub);
    var first, rest :| '.' !in first && cfg.domain == first + "." + rest
      && cfg.GetSubdomainFQDN(sub) == sub + "-" + first + "." + rest;
    assert StaleName(cfg.domain, sub)[|sub|] == '.';
    assert cfg.GetSubdomainFQDN(sub)[|sub|] == '-';
  }

  /** The corrected cleanup name: the label's own record name under the configured naming scheme. */
  function CorrectedStaleName(cfg: Config.Config, existing: string): string
  {
    cfg.GetSubdomainFQDN(existing)
  }

  /**
   * Corrected: in either naming mode, the cleanup name rebuilt from the label
   * of a lower-case record name is that record's name.
   */
  lemma CorrectedTargetsRecord(cfg: Config.Config, sub: string)
    requires Naming.Nameable(cfg)
    requires IsLower(sub)
    ensures var lbl := Scope.ExtractLabel(cfg.domain, cfg.GetBaseDomain(), Scope.Normalize(cfg.GetSubdomainFQDN(sub)));
      CorrectedStaleName(cfg, lbl) == cfg.GetSubdomainFQDN(sub)
  {
    Naming.MappedLabelRoundTrip(cfg, sub);
    ToLowerOfLower(sub);
  }

  /** The corrected cleanup naming. */
  function CorrectedNamer(cfg: Config.Config): string -> string
  {
    e => CorrectedStaleName(cfg, e)
  }

  /** The corrected stale cleanup: removals at each inactive label's own record name. */
  function CorrectedRemovals(cfg: Config.Config, active: seq<string>, labels: seq<string>): seq<Call>
  {
    RemovalsBy(CorrectedNamer(cfg), active, labels)
  }

  /** Corrected cleanup: every inactive label's own record name gets its A and AAAA removals, and no active name is touched. */
  lemma CorrectedRemovalsExact(cfg: Config.Config, active: seq<string>, labels: seq<string>)
    ensures forall c :: c in CorrectedRemovals(cfg, active, labels) ==>
      c.Remove? && c.name !in active && exists e :: e in labels && c.name == cfg.GetSubdomainFQDN(e)
    ensures forall e, t :: e in labels && cfg.GetSubdomainFQDN(e) !in active && (t == "A" || t == "AAAA") ==>
      Remove(cfg.GetSubdomainFQDN(e), t) in CorrectedRemovals(cfg, active, labels)
  {
    RemovalsByExact(CorrectedNamer(cfg), active, labels);
    forall c | c in CorrectedRemovals(cfg, active, labels)
      ensures exists e :: e in labels && c.name == cfg.GetSubdomainFQDN(e)
    {
      var e :| e in labels && c.name == CorrectedNamer(cfg)(e);
      assert c.name == cfg.GetSubdomainFQDN(e);
    }
    forall e, t | e in labels && cfg.GetSubdomainFQDN(e) !in active && (t == "A" || t == "AAAA")
      ensures Remove(cfg.GetSubdomainFQDN(e), t) in CorrectedRemovals(cfg, active, labels)
    {
      assert CorrectedNamer(cfg)(e) == cfg.GetSubdomainFQDN(e);
    }
  }

  /**
   * Finding, as written: the active set keeps each subdomain's record name as
   * configured, while the listing lower-cases the names it returns, and the
   * cleanup compares the two exactly. In direct mode the listed label `app`
   * of the active subdomain `App` is taken for stale, and the pass removes
   * `app.<domain>`, which is `App.<domain>` once lower-cased.
   */
  lemma AsWrittenRemovesMixedCaseActive(cfg: Config.Config, ipv4: string)
    requires !cfg.subdomainPrefix && cfg.domain != ""
    ensures ipv4 != "" ==> Upsert(cfg.GetSubdomainFQDN("App"), "A", ipv4) in SubdomainPlan(cfg, cfg.domain, ["App"], ipv4, Ok(["app"]))
    ensures Remove(cfg.GetSubdomainFQDN("app"), "A") in SubdomainPlan(cfg, cfg.domain, ["App"], ipv4, Ok(["app"]))
    ensures Remove(cfg.GetSubdomainFQDN("app"), "AAAA") in SubdomainPlan(cfg, cfg.domain, ["App"], ipv4, Ok(["app"]))
    ensures Scope.Normalize(cfg.GetSubdomainFQDN("app")) == Scope.Normalize(cfg.GetSubdomainFQDN("App"))
  {
    var n, m := cfg.GetSubdomainFQDN("App"), cfg.GetSubdomainFQDN("app");
    var active := ActiveFQDNs(cfg, ["App"]);
    assert Removals(cfg.domain, active, ["app"]) == [Remove(m, "A"), Remove(m, "AAAA")] by {
      assert active == [n];
      assert m[0] != n[0];
      assert StaleNamer(cfg.domain)("app") == m;
      assert RemovalsBy(StaleNamer(cfg.domain), active, ["app"][..0]) == [];
    }
    var plan := SubdomainPlan(cfg, cfg.domain, ["App"], ipv4, Ok(["app"]));
    assert (ipv4 != "" ==> Upsert(n, "A", ipv4) in plan) && Remove(m, "A") in plan && Remove(m, "AAAA") in plan by {
      PlanMembers(cfg, cfg.domain, ["App"], ipv4, Ok(["app"]));
      ActiveNames(cfg, ["App"]);
      UpsertsExact(active, ipv4);
      assert Remove(m, "A") in Removals(cfg.domain, active, ["app"]);
      assert Remove(m, "AAAA") in Removals(cfg.domain, active, ["app"]);
    }
    SameNameFolded(cfg);
  }

  /** In direct mode `App.<domain>` and `app.<domain>` are one name once lower-cased. */
  lemma SameNameFolded(cfg: Config.Config)
    requires !cfg.subdomainPrefix && cfg.domain != ""
    ensures Scope.Normalize(cfg.GetSubdomainFQDN("app")) == Scope.Normalize(cfg.GetSubdomainFQDN("App"))
  {
    var upper, lower := ToLower("App"), ToLower("app");
    assert upper == "app" by {
      assert |upper| == 3 && upper[0] == 'a' && upper[1] == 'p' && upper[2] == 'p';
    }
    assert lower == "app" by {
      assert |lower| == 3 && lower[0] == 'a' && lower[1] == 'p' && lower[2] == 'p';
    }
    Naming.NormalizeDotJoin("App", cfg.domain);
    Naming.NormalizeDotJoin("app", cfg.domain);
  }

  /** The active names compared as the provider compares names: lower-cased, without a trailing dot. */
  function CaseFoldedActive(cfg: Config.Config, subs: seq<string>): seq<string>
  {
    Scope.NormalizeAll(ActiveFQDNs(cfg, subs))
  }

  /** A name's folded form is in the folded active list iff it is some active subdomain's folded record name. */
  lemma CaseFoldedActiveExact(cfg: Config.Config, subs: seq<string>, x: string)
    ensures x in CaseFoldedActive(cfg, subs) <==>
      exists s :: s in subs && x == Scope.Normalize(cfg.GetSubdomainFQDN(s))
  {
    var active := ActiveFQDNs(cfg, subs);
    if x in CaseFoldedActive(cfg, subs) {
      var k :| 0 <= k < |subs| && CaseFoldedActive(cfg, subs)[k] == x;
      assert subs[k] in subs && x == Scope.Normalize(cfg.GetSubdomainFQDN(subs[k]));
    }
    if exists s :: s in subs && x == Scope.Normalize(cfg.GetSubdomainFQDN(s)) {
      var s :| s in subs && x == Scope.Normalize(cfg.GetSubdomainFQDN(s));
      var k :| 0 <= k < |subs| && subs[k] == s;
      assert CaseFoldedActive(cfg, subs)[k] == x;
    }
  }

  /**
   * Corrected cleanup: each existing label's own record name (the configured
   * naming scheme) is removed unless, folded, it is an active name folded.
   */
  function CaseFoldedRemovals(cfg: Config.Config, subs: seq<string>, labels: seq<string>): seq<Call>
  {
    if labels == [] then []
    else
      var name := CorrectedStaleName(cfg, labels[|labels| - 1]);
      CaseFoldedRemovals(cfg, subs, labels[..|labels| - 1])
        + (if Scope.Normalize(name) !in CaseFoldedActive(cfg, subs) then [Remove(name, "A"), Remove(name, "AAAA")] else [])
  }

  /**
   * The corrected cleanup removes A and AAAA at the record names of exactly
   * the labels whose name differs, up to case and a trailing dot, from every
   * active subdomain's record name; so it never removes an active name in
   * another spelling.
   */
  lemma CaseFoldedRemovalsExact(cfg: Config.Config, subs: seq<string>, labels: seq<string>)
    ensures forall c :: c in CaseFoldedRemovals(cfg, subs, labels) ==>
      && c.Remove? && (c.rtype == "A" || c.rtype == "AAAA")
      && (exists e :: e in labels && c.name == cfg.GetSubdomainFQDN(e))
      && forall s :: s in subs ==> Scope.Normalize(c.name) != Scope.Normalize(cfg.GetSubdomainFQDN(s))
    ensures forall e, t ::
      (e in labels && (t == "A" || t == "AAAA")
       && forall s :: s in subs ==> Scope.Normalize(cfg.GetSubdomainFQDN(e)) != Scope.Normalize(cfg.GetSubdomainFQDN(s)))
      ==> Remove(cfg.GetSubdomainFQDN(e), t) in CaseFoldedRemovals(cfg, subs, labels)
  {
    CaseFoldedSound(cfg, subs, labels);
    CaseFoldedCover(cfg, subs, labels);
    forall c | c in CaseFoldedRemovals(cfg, subs, labels)
      ensures forall s :: s in subs ==> Scope.Normalize(c.name) != Scope.Normalize(cfg.GetSubdomainFQDN(s))
    {
      CaseFoldedActiveExact(cfg, subs, Scope.Normalize(c.name));
    }
    forall e, t | (e in labels && (t == "A" || t == "AAAA")
                   && forall s :: s in subs ==> Scope.Normalize(cfg.GetSubdomainFQDN(e)) != Scope.Normalize(cfg.GetSubdomainFQDN(s)))
      ensures Remove(cfg.GetSubdomainFQDN(e), t) in CaseFoldedRemovals(cfg, subs, labels)
    {
      CaseFoldedActiveExact(cfg, subs, Scope.Normalize(cfg.GetSubdomainFQDN(e)));
    }
  }

  lemma {:induction false} CaseFoldedSound(cfg: Config.Config, subs: seq<string>, labels: seq<string>)
    ensures forall c :: c in CaseFoldedRemovals(cfg, subs, labels) ==>
      && c.Remove? && (c.rtype == "A" || c.rtype == "AAAA")
      && (exists e :: e in labels && c.name == cfg.GetSubdomainFQDN(e))
      && Scope.Normalize(c.name) !in CaseFoldedActive(cfg, subs)
  {
    if labels != [] {
      var init, last := labels[..|labels| - 1], labels[|labels| - 1];
      CaseFoldedSound(cfg, subs, init);
      var name := cfg.GetSubdomainFQDN(last);
      var step := if Scope.Normalize(name) !in CaseFoldedActive(cfg, subs) then [Remove(name, "A"), Remove(name, "AAAA")] else [];
      assert CaseFoldedRemovals(cfg, subs, labels) == CaseFoldedRemovals(cfg, subs, init) + step;
      forall c | c in CaseFoldedRemovals(cfg, subs, labels)
        ensures exists e :: e in labels && c.name == cfg.GetSubdomainFQDN(e)
      {
        if c in CaseFoldedRemovals(cfg, subs, init) {
          var e :| e in init && c.name == cfg.GetSubdomainFQDN(e);
          assert e in labels;
        } else {
          assert c in step && c.name == name && last in labels;
        }
      }
    }
  }

  lemma {:induction false} CaseFoldedCover(cfg: Config.Config, subs: seq<string>, labels: seq<string>)
    ensures forall e, t ::
      (e in labels && (t == "A" || t == "AAAA") && Scope.Normalize(cfg.GetSubdomainFQDN(e)) !in CaseFoldedActive(cfg, subs))
      ==> Remove(cfg.GetSubdomainFQDN(e), t) in CaseFoldedRemovals(cfg, subs, labels)
  {
    if labels != [] {
      var init, last := labels[..|labels| - 1], labels[|labels| - 1];
      CaseFoldedCover(cfg, subs, init);
      var name := cfg.GetSubdomainFQDN(last);
      var step := if Scope.Normalize(name) !in CaseFoldedActive(cfg, subs) then [Remove(name, "A"), Remove(name, "AAAA")] else [];
      assert CaseFoldedRemovals(cfg, subs, labels) == CaseFoldedRemovals(cfg, subs, init) + step;
      forall e | e in labels && e != last
        ensures e in init
      {
        var k :| 0 <= k < |labels| && labels[k] == e;
        assert init[k] == e;
      }
    }
  }

  /** Corrected: for the same pass, the active subdomain `App` keeps its record. */
  lemma CaseFoldedKeepsMixedCaseActive(cfg: Config.Config)
    requires !cfg.subdomainPrefix && cfg.domain != ""
    ensures CaseFoldedRemovals(cfg, ["App"], ["app"]) == []
  {
    SameNameFolded(cfg);
    assert CaseFoldedActive(cfg, ["App"])[0] == Scope.Normalize(cfg.GetSubdomainFQDN("app"));
    assert CaseFoldedRemovals(cfg, ["App"], ["app"][..0]) == [];
  }

  /** The loop of `updateSubdomainRecords` that fills the active FQDN set. */
  method ActiveSet(cfg: Config.Config, activeSubdomains: seq<string>) returns (activeFQDNs: set<string>)
    ensures forall x :: x in activeFQDNs <==> x in ActiveFQDNs(cfg, activeSubdomains)
  {
    ghost var active := ActiveFQDNs(cfg, activeSubdomains);
    activeFQDNs := {};
    var i := 0;
    while i < |activeSubdomains|
      invariant 0 <= i <= |activeSubdomains|
      invariant forall x :: x in activeFQDNs <==> x in active[..i]
    {
      var fqdn := cfg.GetSubdomainFQDN(activeSubdomains[i]);
      assert fqdn == active[i];
      assert active[..i + 1] == active[..i] + [fqdn];
      activeFQDNs := activeFQDNs + {fqdn};
      i := i + 1;
    }
    assert active[..i] == active;
  }

  /** The upsert loop of `updateSubdomainRecords`: an A record per active subdomain when there is an IPv4 address. */
  method UpsertActive(cfg: Config.Config, client: Client, zone: Zone, activeSubdomains: seq<string>, ipv4: string)
    modifies client, zone
    ensures zone.failing == old(zone.failing)
    ensures client.log == old(client.log) + Upserts(ActiveFQDNs(cfg, activeSubdomains), ipv4)
  {
    ghost var active := ActiveFQDNs(cfg, activeSubdomains);
    ghost var log0 := client.log;
    var i := 0;
    while i < |activeSubdomains|
      invariant 0 <= i <= |activeSubdomains|
      invariant client.log == log0 + Upserts(active[..i], ipv4)
      invariant zone.failing == old(zone.failing)
    {
      var fqdn := cfg.GetSubdomainFQDN(activeSubdomains[i]);
      UpsertsNext(active, i, ipv4);
      if ipv4 != "" {
        var _ := client.UpdateRecord(zone, fqdn, "A", ipv4);
        LogAssoc(log0, Upserts(active[..i], ipv4), [Upsert(fqdn, "A", ipv4)]);
      }
      i := i + 1;
    }
    assert active[..i] == active;
  }

  /** One more active name adds its upsert, when there is an IPv4 address. */
  lemma UpsertsNext(active: seq<string>, i: nat, ipv4: string)
    requires i < |active|
    ensures Upserts(active[..i + 1], ipv4)
      == Upserts(active[..i], ipv4) + (if ipv4 != "" then [Upsert(active[i], "A", ipv4)] else [])
  {
    assert active[..i + 1][..i] == active[..i];
  }

  /** One more existing label adds its removals, when its name is inactive. */
  lemma RemovalsNext(domain: string, active: seq<string>, labels: seq<string>, i: nat)
    requires i < |labels|
    ensures var name := StaleName(domain, labels[i]);
      Removals(domain, active, labels[..i + 1])
      == Removals(domain, active, labels[..i]) + (if name !in active then [Remove(name, "A"), Remove(name, "AAAA")] else [])
  {
    assert labels[..i + 1][..i] == labels[..i];
    assert StaleNamer(domain)(labels[i]) == StaleName(domain, labels[i]);
  }

  lemma LogAssoc(a: seq<Call>, b: seq<Call>, c: seq<Call>)
    ensures a + b + c == a + (b + c)
  {
  }

  /** The cleanup loop of `updateSubdomainRecords`: a failed delete does not stop it. */
  method RemoveStale(client: Client, zone: Zone, labels: seq<string>, activeFQDNs: set<string>,
                     ghost active: seq<string>)
    requires forall x :: x in activeFQDNs <==> x in active
    modifies client, zone
    ensures zone.failing == old(zone.failing)
    ensures client.log == old(client.log) + Removals(client.domain, active, labels)
  {
    ghost var log0 := client.log;
    var i := 0;
    assert labels[..0] == [];
    while i < |labels|
      invariant 0 <= i <= |labels|
      invariant client.log == log0 + Removals(client.domain, active, labels[..i])
      invariant zone.failing == old(zone.failing)
    {
      var existingFQDN := labels[i] + "." + client.domain;
      RemovalsNext(client.domain, active, labels, i);
      if existingFQDN !in activeFQDNs {
        var _ := client.DeleteRecord(zone, existingFQDN, "A");
        var _ := client.DeleteRecord(zone, existingFQDN, "AAAA");
        LogAssoc(log0, Removals(client.domain, active, labels[..i]), [Remove(existingFQDN, "A"), Remove(existingFQDN, "AAAA")]);
      }
      i := i + 1;
    }
    assert labels[..i] == labels;
  }

  /**
   * `updateSubdomainRecords`: the upserts, then the listing of existing
   * subdomains, then -- only if the listing succeeded -- the removals.
   */
  method UpdateSubdomainRecords(cfg: Config.Config, client: Client, zone: Zone,
                                activeSubdomains: seq<string>, ipv4: string, ipv6: string)
    modifies client, zone
    ensures zone.failing == old(zone.failing)
    ensures exists listing: Result<seq<string>> ::
      && (listing.Err? <==> ListOp("A") in zone.failing || ListOp("AAAA") in zone.failing)
      && client.log == old(client.log) + SubdomainPlan(cfg, client.domain, activeSubdomains, ipv4, listing)
  {
    var activeFQDNs := ActiveSet(cfg, activeSubdomains);
    ghost var active := ActiveFQDNs(cfg, activeSubdomains);
    UpsertActive(cfg, client, zone, activeSubdomains, ipv4);
    ghost var upserted := client.log;
    var existing := client.GetManagedSubdomainRecords(zone);
    ghost var failed := existing.Err?;
    assert failed <==> ListOp("A") in old(zone.failing) || ListOp("AAAA") in old(zone.failing);
    ghost var rems := if existing.Ok? then Removals(client.domain, active, existing.value) else [];
    if existing.Ok? {
      RemoveStale(client, zone, existing.value, activeFQDNs, active);
    }
    assert client.log == upserted + [Listed(existing)] + rems;
    PlanSplit(cfg, client.domain, activeSubdomains, ipv4, existing);
    JoinAssoc(old(client.log), Upserts(active, ipv4), [Listed(existing)], rems);
  }

  lemma JoinAssoc(a: seq<Call>, b: seq<Call>, c: seq<Call>, d: seq<Call>)
    ensures a + b + c + d == a + (b + c + d)
  {
  }

  lemma PlanSplit(cfg: Config.Config, domain: string, subs: seq<string>, ipv4: string, listing: Result<seq<string>>)
    ensures SubdomainPlan(cfg, domain, subs, ipv4, listing) == Upserts(ActiveFQDNs(cfg, subs), ipv4) + [Listed(listing)]
      + (if listing.Ok? then Removals(domain, ActiveFQDNs(cfg, subs), listing.value) else [])
  {
  }

  /**
   * `updateIPAndDNS`: detect; on failure touch neither the client nor the
   * zone; in direct mode write the root and wildcard records; in proxied mode
   * reconcile the subdomains.
   */
  method UpdateIPAndDNS(cfg: Config.Config, detector: IpDetect.Detector, client: Client, zone: Zone,
                        net: IpDetect.Network, valid4: string -> bool, valid6: string -> bool,
                        activeSubdomains: seq<string>)
    modifies detector, client, zone
    ensures zone.failing == old(zone.failing)
    ensures var d := IpDetect.Detection(detector.cfg, net, valid4, valid6);
      && (d.Ok? ==> (detector.lastIPv4, detector.lastIPv6) == d.value)
      && (d.Err? ==> detector.lastIPv4 == old(detector.lastIPv4) && detector.lastIPv6 == old(detector.lastIPv6))
      && (d.Err? ==>
            && client.log == old(client.log) && client.recordCache == old(client.recordCache)
            && zone.records == old(zone.records) && zone.nextId == old(zone.nextId))
      && (d.Ok? && !client.proxied ==> client.log == old(client.log) + DirectPlan(cfg.domain, d.value.0, d.value.1))
      && (d.Ok? && client.proxied ==>
            exists listing: Result<seq<string>> ::
              && (listing.Err? <==> ListOp("A") in zone.failing || ListOp("AAAA") in zone.failing)
              && client.log == old(client.log) + SubdomainPlan(cfg, client.domain, activeSubdomains, d.value.0, listing))
  {
    var ipv4, ipv6, err := detector.Detect(net, valid4, valid6);
    if err.Some? {
      return;
    }
    if !client.proxied {
      UpsertAddresses(client, zone, cfg.domain, ipv4, ipv6);
    }
    if client.proxied {
      UpdateSubdomainRecords(cfg, client, zone, activeSubdomains, ipv4, ipv6);
    } else {
      UpsertAddresses(client, zone, "*." + cfg.domain, ipv4, ipv6);
    }
  }

  /** Direct mode's writes of one name: A when there is an IPv4 address, then AAAA when there is an IPv6 address. */
  method UpsertAddresses(client: Client, zone: Zone, name: string, ipv4: string, ipv6: string)
    modifies client, zone
    ensures zone.failing == old(zone.failing)
    ensures client.log == old(client.log) + AddressUpserts(name, ipv4, ipv6)
  {
    if ipv4 != "" {
      var _ := client.UpdateRecord(zone, name, "A", ipv4);
    }
    if ipv6 != "" {
      var _ := client.UpdateRecord(zone, name, "AAAA", ipv6);
    }
  }
}
