/**
 * How the configuration's record names meet the record-store client: a
 * mapped subdomain name passes the scope guard, is recognised as managed, and
 * yields its label back -- except for a single-label domain in prefix mode,
 * where the guard refuses every mapped name. The domain may carry the trailing
 * dot of a fully qualified name: every check normalizes it away.
 */
module Naming {
  import opened Strings
  import Scope
  import Config

  /**
   * The configurations whose mapped names the guard accepts: a non-empty
   * domain in direct mode; in prefix mode a dotted domain whose base, after
   * the first dot, is non-empty once normalized.
   */
  predicate Nameable(cfg: Config.Config)
  {
    if cfg.subdomainPrefix then '.' in cfg.domain && Scope.Normalize(cfg.GetBaseDomain()) != ""
    else cfg.domain != ""
  }

  /** Dropping the trailing dot of `x + y` for a non-empty `y` touches only `y`. */
  lemma TrimJoin(x: string, y: string)
    requires y != ""
    ensures TrimSuffix(x + y, ".") == x + TrimSuffix(y, ".")
  {
    assert (x + y)[|x + y| - 1..] == y[|y| - 1..];
    if HasSuffix(y, ".") {
      assert (x + y)[..|x + y| - 1] == x + y[..|y| - 1];
    }
  }

  /** A name not ending in a dot is normalized by lower-casing alone. */
  lemma NormalizeUndotted(s: string)
    requires s != "" && s[|s| - 1] != '.'
    ensures Scope.Normalize(s) == ToLower(s)
  {
    assert s[|s| - 1..] == [s[|s| - 1]];
  }

  lemma EndsWith(a: string, b: string)
    ensures HasSuffix(a + b, b)
    ensures TrimSuffix(a + b, b) == a
  {
    assert (a + b)[|a + b| - |b|..] == b;
    assert (a + b)[..|a + b| - |b|] == a;
  }

  lemma LowerDotFree(s: string)
    requires '.' !in s
    ensures '.' !in ToLower(s)
  {
    forall i | 0 <= i < |s|
      ensures ToLower(s)[i] != '.'
    {
      assert s[i] in s;
    }
  }

  /** Joining at a separator that is not an upper-case letter commutes with normalization. */
  lemma NormalizeJoin(x: string, c: char, y: string)
    requires y != "" && !('A' <= c <= 'Z')
    ensures Scope.Normalize(x + [c] + y) == ToLower(x) + [c] + Scope.Normalize(y)
  {
    TrimJoin(x + [c], y);
    ToLowerAppend(x + [c], TrimSuffix(y, "."));
    ToLowerAppend(x, [c]);
  }

  /** The first dot of `a.b`, for a dot-free `a`, is at `|a|`. */
  lemma FirstDotAt(a: string, b: string)
    requires '.' !in a
    ensures IndexOf(a + "." + b, '.') == |a|
  {
    if a != [] {
      assert a[0] in a;
      assert (a + "." + b)[1..] == a[1..] + "." + b;
      FirstDotAt(a[1..], b);
    }
  }

  /** The text before the first dot is determined by the string. */
  lemma FirstLabelUnique(a: string, b: string, c: string, d: string)
    requires '.' !in a && '.' !in c && a + "." + b == c + "." + d
    ensures a == c && b == d
  {
    FirstDotAt(a, b);
    FirstDotAt(c, d);
    var s := a + "." + b;
    assert a == s[..|a|] && c == s[..|c|];
    assert b == s[|a| + 1..] && d == s[|c| + 1..];
  }

  /** `SplitN2` splits `a.b` into `a` and `b` when `a` is dot-free. */
  lemma SplitAtFirstDot(a: string, b: string)
    requires '.' !in a
    ensures SplitN2(a + "." + b, '.') == [a, b]
  {
    var parts := SplitN2(a + "." + b, '.');
    assert (a + "." + b)[|a|] == '.' && (a + "." + b)[|a|] in a + "." + b;
    FirstLabelUnique(parts[0], parts[1], a, b);
  }

  /** The pieces of a prefix-mode configuration whose domain has a dot. */
  lemma PrefixPieces(cfg: Config.Config)
    requires cfg.subdomainPrefix && '.' in cfg.domain && Scope.Normalize(cfg.GetBaseDomain()) != ""
    ensures var parts := SplitN2(cfg.domain, '.');
      && |parts| == 2 && parts[1] != "" && '.' !in parts[0] && '.' !in ToLower(parts[0])
      && cfg.domain == parts[0] + "." + parts[1]
      && cfg.GetBaseDomain() == parts[1]
  {
    var parts := SplitN2(cfg.domain, '.');
    LowerDotFree(parts[0]);
  }

  /** A prefix-mode mapped name is `<sub>-<first label>.<rest>`. */
  lemma PrefixFQDN(cfg: Config.Config, sub: string)
    requires cfg.subdomainPrefix && '.' in cfg.domain && Scope.Normalize(cfg.GetBaseDomain()) != ""
    ensures var parts := SplitN2(cfg.domain, '.');
      |parts| == 2 && cfg.GetSubdomainFQDN(sub) == (sub + "-" + parts[0]) + "." + parts[1]
  {
    PrefixPieces(cfg);
  }

  /** Normalizing `x.y`, for a non-empty `y`, lower-cases `x` and normalizes `y`. */
  lemma NormalizeDotJoin(x: string, y: string)
    requires y != ""
    ensures Scope.Normalize(x + "." + y) == ToLower(x) + ("." + Scope.Normalize(y))
  {
    NormalizeJoin(x, '.', y);
    assert ToLower(x) + "." + Scope.Normalize(y) == ToLower(x) + ("." + Scope.Normalize(y));
  }

  /** In direct mode the normalized mapped name ends with `.<normalized domain>`. */
  lemma DirectNameBelow(cfg: Config.Config, sub: string)
    requires !cfg.subdomainPrefix && cfg.domain != ""
    ensures HasSuffix(Scope.Normalize(cfg.GetSubdomainFQDN(sub)), "." + Scope.Normalize(cfg.domain))
  {
    NormalizeDotJoin(sub, cfg.domain);
    EndsWith(ToLower(sub), "." + Scope.Normalize(cfg.domain));
  }

  /**
   * In prefix mode with a dotted domain the normalized mapped name ends with
   * `.<normalized base>`, a non-empty base distinct from the domain.
   */
  lemma PrefixNameBelowBase(cfg: Config.Config, sub: string)
    requires cfg.subdomainPrefix && '.' in cfg.domain && Scope.Normalize(cfg.GetBaseDomain()) != ""
    ensures var b := Scope.Normalize(cfg.GetBaseDomain());
      && HasSuffix(Scope.Normalize(cfg.GetSubdomainFQDN(sub)), "." + b)
      && b != "" && b != Scope.Normalize(cfg.domain)
  {
    PrefixPieces(cfg);
    PrefixFQDN(cfg, sub);
    PrefixDomainShape(cfg);
    var parts := SplitN2(cfg.domain, '.');
    var head := ToLower(sub + "-" + parts[0]);
    NormalizeDotJoin(sub + "-" + parts[0], parts[1]);
    EndsWith(head, "." + Scope.Normalize(parts[1]));
  }

  /** A mapped subdomain name passes the scope guard of a nameable configuration. */
  lemma MappedNameInScope(cfg: Config.Config, sub: string)
    requires Nameable(cfg)
    ensures Scope.ValidateRecordName(cfg.domain, cfg.GetBaseDomain(), cfg.GetSubdomainFQDN(sub)).Allowed?
  {
    if !cfg.subdomainPrefix {
      DirectNameBelow(cfg, sub);
    } else {
      PrefixNameBelowBase(cfg, sub);
    }
  }

  /**
   * With a single-label domain in prefix mode the mapped name `sub-<domain>`
   * is refused by the scope guard, whatever the subdomain.
   */
  lemma SingleLabelPrefixRefused(cfg: Config.Config, sub: string)
    requires cfg.subdomainPrefix && cfg.domain != "" && '.' !in cfg.domain
    ensures Scope.ValidateRecordName(cfg.domain, cfg.GetBaseDomain(), cfg.GetSubdomainFQDN(sub)).Denied?
  {
    assert cfg.domain[|cfg.domain| - 1] in cfg.domain;
    NormalizeJoin(sub, '-', cfg.domain);
    NormalizeUndotted(cfg.domain);
    assert Scope.Normalize(cfg.domain) == ToLower(cfg.domain);
    var n, d := Scope.Normalize(cfg.GetSubdomainFQDN(sub)), ToLower(cfg.domain);
    assert n == ToLower(sub) + "-" + d;
    assert n[|n| - |d| - 1] == '-';
  }

  /** The normalized domain of a prefix-mode configuration is `<zone label>.<normalized base>`. */
  lemma PrefixDomainShape(cfg: Config.Config)
    requires cfg.subdomainPrefix && '.' in cfg.domain && Scope.Normalize(cfg.GetBaseDomain()) != ""
    ensures var d, b := Scope.Normalize(cfg.domain), Scope.Normalize(cfg.GetBaseDomain());
      && d == Scope.ZoneLabel(d) + "." + b
      && Scope.ZoneLabel(d) == ToLower(SplitN2(cfg.domain, '.')[0])
      && |b| < |d|
  {
    PrefixPieces(cfg);
    var parts := SplitN2(cfg.domain, '.');
    NormalizeJoin(parts[0], '.', parts[1]);
    SplitAtFirstDot(ToLower(parts[0]), Scope.Normalize(parts[1]));
  }

  /** A prefix-mode mapped name, normalized, is the lower-cased subdomain before `-<zone label>.<base>`. */
  lemma PrefixNameShape(cfg: Config.Config, sub: string)
    requires cfg.subdomainPrefix && '.' in cfg.domain && Scope.Normalize(cfg.GetBaseDomain()) != ""
    ensures var d, b := Scope.Normalize(cfg.domain), Scope.Normalize(cfg.GetBaseDomain());
      Scope.Normalize(cfg.GetSubdomainFQDN(sub)) == ToLower(sub) + Scope.PrefixSuffix(d, b)
  {
    var parts := SplitN2(cfg.domain, '.');
    PrefixFQDN(cfg, sub);
    NormalizeDotJoin(sub + "-" + parts[0], parts[1]);
    ToLowerAround(sub, '-', parts[0]);
    JoinAssoc(ToLower(sub), ToLower(parts[0]), Scope.Normalize(parts[1]));
    PrefixSuffixShape(cfg);
  }

  /** Lower-casing `x<c>y` for a separator that is not an upper-case letter. */
  lemma ToLowerAround(x: string, c: char, y: string)
    requires !('A' <= c <= 'Z')
    ensures ToLower(x + [c] + y) == ToLower(x) + [c] + ToLower(y)
  {
    ToLowerAppend(x + [c], y);
    ToLowerAppend(x, [c]);
  }

  /** The prefix-form ending of a prefix-mode configuration, from the pieces of its domain. */
  lemma PrefixSuffixShape(cfg: Config.Config)
    requires cfg.subdomainPrefix && '.' in cfg.domain && Scope.Normalize(cfg.GetBaseDomain()) != ""
    ensures var parts := SplitN2(cfg.domain, '.');
      |parts| == 2
      && Scope.PrefixSuffix(Scope.Normalize(cfg.domain), Scope.Normalize(cfg.GetBaseDomain()))
         == "-" + ToLower(parts[0]) + "." + Scope.Normalize(parts[1])
  {
    PrefixPieces(cfg);
    PrefixDomainShape(cfg);
  }

  lemma JoinAssoc(x: string, y: string, z: string)
    ensures (x + "-" + y) + ("." + z) == x + ("-" + y + "." + z)
  {
  }

  /** A name one or more labels below the domain is managed. */
  lemma ManagedBelowDomain(domain: string, baseDomain: string, fqdn: string, l: string)
    requires |Scope.Normalize(baseDomain)| <= |Scope.Normalize(domain)|
    requires Scope.Normalize(fqdn) == l + ("." + Scope.Normalize(domain))
    ensures Scope.IsManagedRecord(domain, baseDomain, fqdn)
  {
    EndsWith(l, "." + Scope.Normalize(domain));
  }

  /** A name that is one dot-free label before `-<zone label>.<base>` is managed. */
  lemma ManagedPrefixForm(domain: string, baseDomain: string, fqdn: string, l: string)
    requires var d, b := Scope.Normalize(domain), Scope.Normalize(baseDomain);
      b != "" && |b| < |d| && Scope.Normalize(fqdn) == l + Scope.PrefixSuffix(d, b)
    requires l != "" && '.' !in l
    ensures Scope.IsManagedRecord(domain, baseDomain, fqdn)
  {
    var d, b := Scope.Normalize(domain), Scope.Normalize(baseDomain);
    EndsWith(l, Scope.PrefixSuffix(d, b));
  }

  /** The label extracted from `l.<domain>` is `l`. */
  lemma ExtractBelowDomain(domain: string, baseDomain: string, l: string)
    ensures Scope.ExtractLabel(domain, baseDomain, l + ("." + Scope.Normalize(domain))) == l
  {
    EndsWith(l, "." + Scope.Normalize(domain));
  }

  /** The label extracted from `l-<zone label>.<base>` is `l`. */
  lemma ExtractPrefixForm(domain: string, baseDomain: string, l: string)
    requires var d, b := Scope.Normalize(domain), Scope.Normalize(baseDomain);
      b != "" && d == Scope.ZoneLabel(d) + "." + b
    ensures var d, b := Scope.Normalize(domain), Scope.Normalize(baseDomain);
      Scope.ExtractLabel(domain, baseDomain, l + Scope.PrefixSuffix(d, b)) == l
  {
    var d, b := Scope.Normalize(domain), Scope.Normalize(baseDomain);
    PrefixNotBelow(l, Scope.ZoneLabel(d), b);
    EndsWith(l, Scope.PrefixSuffix(d, b));
  }

  /** `l-<z>.<b>` does not end with `.<z>.<b>`: the character before `<z>` is the hyphen. */
  lemma PrefixNotBelow(l: string, z: string, b: string)
    ensures !HasSuffix(l + ("-" + z + "." + b), "." + (z + "." + b))
  {
    var f, d := l + ("-" + z + "." + b), z + "." + b;
    assert f == (l + "-") + d;
    assert f[|l|] == '-';
  }

  /** A direct-mode mapped name, normalized, is the lower-cased subdomain before `.<domain>`. */
  lemma DirectNameShape(cfg: Config.Config, sub: string)
    requires !cfg.subdomainPrefix && cfg.domain != ""
    ensures Scope.Normalize(cfg.GetSubdomainFQDN(sub)) == ToLower(sub) + ("." + Scope.Normalize(cfg.domain))
    ensures cfg.GetBaseDomain() == cfg.domain
  {
    NormalizeDotJoin(sub, cfg.domain);
  }

  /**
   * A mapped name is a managed record (in prefix mode, for a non-empty,
   * dot-free subdomain), so the stale-record listing sees what the reconciler
   * writes.
   */
  lemma MappedNameManaged(cfg: Config.Config, sub: string)
    requires Nameable(cfg)
    requires cfg.subdomainPrefix ==> sub != "" && '.' !in sub
    ensures Scope.IsManagedRecord(cfg.domain, cfg.GetBaseDomain(), cfg.GetSubdomainFQDN(sub))
  {
    if !cfg.subdomainPrefix {
      DirectNameShape(cfg, sub);
      ManagedBelowDomain(cfg.domain, cfg.GetBaseDomain(), cfg.GetSubdomainFQDN(sub), ToLower(sub));
    } else {
      PrefixNameShape(cfg, sub);
      PrefixDomainShape(cfg);
      LowerDotFree(sub);
      ManagedPrefixForm(cfg.domain, cfg.GetBaseDomain(), cfg.GetSubdomainFQDN(sub), ToLower(sub));
    }
  }

  /**
   * The label the stale-record listing extracts from a mapped name is the
   * subdomain, lower-cased.
   */
  lemma MappedLabelRoundTrip(cfg: Config.Config, sub: string)
    requires Nameable(cfg)
    ensures Scope.ExtractLabel(cfg.domain, cfg.GetBaseDomain(), Scope.Normalize(cfg.GetSubdomainFQDN(sub))) == ToLower(sub)
  {
    if !cfg.subdomainPrefix {
      DirectNameShape(cfg, sub);
      ExtractBelowDomain(cfg.domain, cfg.GetBaseDomain(), ToLower(sub));
    } else {
      PrefixNameShape(cfg, sub);
      PrefixDomainShape(cfg);
      ExtractPrefixForm(cfg.domain, cfg.GetBaseDomain(), ToLower(sub));
    }
  }
}
