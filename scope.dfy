/**
 * The pure string logic of the Cloudflare record-store client: the
 * domain-scope guard run before every mutation, the ownership test used for
 * stale-record cleanup, and the two listing folds built on the ownership test.
 */
module Scope {
  import opened Strings

  /** Lower-case `s` after dropping one trailing dot, as every check in the client does. */
  function Normalize(s: string): string
  {
    ToLower(TrimSuffix(s, "."))
  }

  /** The label-boundary reading of "`n` is `zone` or a name below it". */
  ghost predicate UnderZone(n: string, zone: string)
  {
    n == zone || exists p :: n == p + "." + zone
  }

  /** The first label of a (normalized) domain: `SplitN(domain, ".", 2)[0]`. */
  function ZoneLabel(domain: string): (l: string)
    ensures '.' !in l
    ensures '.' in domain ==> |l| < |domain| && domain == l + "." + domain[|l| + 1..]
    ensures '.' !in domain ==> l == domain
  {
    SplitN2(domain, '.')[0]
  }

  /** Outcome of the scope guard. A denial is tagged "SECURITY" so callers can tell it apart. */
  datatype Verdict = Allowed | Denied(msg: string)

  /**
   * `validateRecordName`: a name may be mutated when, normalized, it is the
   * domain or a dot-suffix of it, or -- when a distinct, non-empty base domain
   * is configured -- the base domain or a dot-suffix of it.
   */
  function ValidateRecordName(domain: string, baseDomain: string, name: string): (v: Verdict)
    ensures v.Denied? ==> HasPrefix(v.msg, "SECURITY")
  {
    var n := Normalize(name);
    var d := Normalize(domain);
    var b := Normalize(baseDomain);
    if n == d || HasSuffix(n, "." + d) then Allowed
    else if b != "" && b != d && (n == b || HasSuffix(n, "." + b)) then Allowed
    else Denied("SECURITY" + (": record name " + name + " is outside configured domain " + domain
                + " (baseDomain: " + baseDomain + ") - refusing to modify"))
  }

  /**
   * `IsManagedRecord`: the domain and base domain themselves are not managed;
   * any dot-suffix of the domain is; and when a distinct, non-empty base domain
   * is configured, so is `<label>-<zone label>.<base>` for a non-empty dot-free label.
   */
  predicate IsManagedRecord(domain: string, baseDomain: string, fqdn: string)
  {
    var f := Normalize(fqdn);
    var d := Normalize(domain);
    var b := Normalize(baseDomain);
    if f == d || f == b then false
    else if HasSuffix(f, "." + d) then true
    else if b != "" && b != d then OneLabelBefore(f, PrefixSuffix(d, b))
    else false
  }

  /** The prefix-form ending `-<zone label>.<base>` of a (normalized) domain and base. */
  function PrefixSuffix(d: string, b: string): string
  {
    "-" + ZoneLabel(d) + "." + b
  }

  /** `f` ends with `suffix` and what precedes it is one non-empty, dot-free label. */
  predicate OneLabelBefore(f: string, suffix: string)
  {
    HasSuffix(f, suffix) && TrimSuffix(f, suffix) != "" && '.' !in TrimSuffix(f, suffix)
  }

  lemma OneLabelBeforeIff(f: string, suffix: string)
    ensures OneLabelBefore(f, suffix) <==> exists l :: l != "" && '.' !in l && f == l + suffix
  {
    if exists l :: l != "" && '.' !in l && f == l + suffix {
      var l :| l != "" && '.' !in l && f == l + suffix;
      assert f[|f| - |suffix|..] == suffix;
      assert TrimSuffix(f, suffix) == l;
    }
    if OneLabelBefore(f, suffix) {
      assert f == TrimSuffix(f, suffix) + suffix;
    }
  }

  /** A suffix test at a dot boundary is the existence of a prefix label sequence. */
  lemma DotSuffixIffBelow(n: string, zone: string)
    ensures HasSuffix(n, "." + zone) <==> exists p :: n == p + "." + zone
  {
    if HasSuffix(n, "." + zone) {
      var p := n[..|n| - |zone| - 1];
      assert n == p + "." + zone;
    }
    if exists p :: n == p + "." + zone {
      var p :| n == p + "." + zone;
      assert n[|n| - |zone| - 1..] == "." + zone;
    }
  }

  lemma SuffixIffEnds(n: string, suffix: string)
    ensures HasSuffix(n, suffix) <==> exists p :: n == p + suffix
  {
    if HasSuffix(n, suffix) {
      assert n == n[..|n| - |suffix|] + suffix;
    }
    if exists p :: n == p + suffix {
      var p :| n == p + suffix;
      assert n[|n| - |suffix|..] == suffix;
    }
  }

  /**
   * The guard accepts exactly the names that lie, at a label boundary, under
   * the domain or under a distinct non-empty base domain.
   */
  lemma ValidateIffUnderZone(domain: string, baseDomain: string, name: string)
    ensures ValidateRecordName(domain, baseDomain, name).Allowed? <==>
      (UnderZone(Normalize(name), Normalize(domain))
       || (Normalize(baseDomain) != "" && Normalize(baseDomain) != Normalize(domain)
           && UnderZone(Normalize(name), Normalize(baseDomain))))
  {
    DotSuffixIffBelow(Normalize(name), Normalize(domain));
    DotSuffixIffBelow(Normalize(name), Normalize(baseDomain));
  }

  /**
   * Ownership in label terms: not the domain or base itself, and either below
   * the domain or exactly one dot-free label followed by `-<zone label>.<base>`.
   */
  lemma ManagedIffShape(domain: string, baseDomain: string, fqdn: string)
    ensures IsManagedRecord(domain, baseDomain, fqdn) <==>
      (var f, d, b := Normalize(fqdn), Normalize(domain), Normalize(baseDomain);
       f != d && f != b &&
       ((exists p :: f == p + "." + d)
        || (b != "" && b != d &&
            exists l :: l != "" && '.' !in l && f == l + PrefixSuffix(d, b))))
  {
    var f, d, b := Normalize(fqdn), Normalize(domain), Normalize(baseDomain);
    DotSuffixIffBelow(f, d);
    OneLabelBeforeIff(f, PrefixSuffix(d, b));
  }

  lemma NormalizeAppend(a: string, b: string)
    requires b != [] && b[|b| - 1] != '.'
    ensures Normalize(a + b) == ToLower(a) + ToLower(b)
  {
    assert (a + b)[|a + b| - 1] == b[|b| - 1];
    assert !HasSuffix(a + b, ".");
    ToLowerAppend(a, b);
  }

  lemma NormalizeToLower(s: string)
    ensures Normalize(ToLower(s)) == Normalize(s)
  {
    if HasSuffix(s, ".") {
      assert ToLower(s) == ToLower(s[..|s| - 1]) + ".";
      assert HasSuffix(ToLower(s), ".");
      assert ToLower(s)[..|s| - 1] == ToLower(s[..|s| - 1]);
    } else {
      assert !HasSuffix(ToLower(s), ".");
    }
    ToLowerIsLower(TrimSuffix(s, "."));
    ToLowerOfLower(ToLower(TrimSuffix(s, ".")));
  }

  /** Both predicates ignore letter case. */
  lemma CaseInsensitive(domain: string, baseDomain: string, name: string)
    ensures IsManagedRecord(domain, baseDomain, ToLower(name)) == IsManagedRecord(domain, baseDomain, name)
    ensures ValidateRecordName(domain, baseDomain, ToLower(name)) == ValidateRecordName(domain, baseDomain, name)
            || (ValidateRecordName(domain, baseDomain, ToLower(name)).Denied?
                && ValidateRecordName(domain, baseDomain, name).Denied?)
  {
    NormalizeToLower(name);
  }

  /**
   * No prefix attack: a lower-case, dot-free-ended domain preceded by extra
   * characters that do not end in a dot (`fakehome.example.com` against
   * `home.example.com`) is refused when no separate base domain is configured.
   */
  lemma {:induction false} PrefixAttackDenied(domain: string, x: string)
    requires domain != [] && IsLower(domain) && domain[|domain| - 1] != '.'
    requires x != [] && LowerChar(x[|x| - 1]) != '.'
    ensures ValidateRecordName(domain, domain, x + domain).Denied?
  {
    NormalizeAppend(x, domain);
    ToLowerOfLower(domain);
    assert !HasSuffix(domain, ".");
    var n := Normalize(x + domain);
    assert n == ToLower(x) + domain;
    assert n[|n| - |domain| - 1] == LowerChar(x[|x| - 1]);
  }

  /** The empty name is refused whenever the domain is non-empty after normalization. */
  lemma EmptyNameDenied(domain: string, baseDomain: string)
    requires Normalize(domain) != ""
    ensures ValidateRecordName(domain, baseDomain, "").Denied?
  {
    assert Normalize("") == "";
  }

  /** The domain and the base domain are never themselves managed records. */
  lemma ApexNotManaged(domain: string, baseDomain: string)
    ensures !IsManagedRecord(domain, baseDomain, domain)
    ensures !IsManagedRecord(domain, baseDomain, baseDomain)
  {
  }

  predicate NoDuplicates(s: seq<string>)
  {
    forall i, j :: 0 <= i < j < |s| ==> s[i] != s[j]
  }

  /**
   * The `seen`-map fold both listings use: the elements of `xs` that `keep`
   * accepts, each once, in order of first occurrence.
   */
  function CollectDistinct(xs: seq<string>, keep: string -> bool): (r: seq<string>)
    ensures NoDuplicates(r)
    ensures forall x :: x in r ==> x in xs && keep(x)
    ensures forall x :: x in xs && keep(x) ==> x in r
  {
    if xs == [] then []
    else
      var prev := CollectDistinct(xs[..|xs| - 1], keep);
      var x := xs[|xs| - 1];
      assert xs == xs[..|xs| - 1] + [x];
      if keep(x) && x !in prev then prev + [x] else prev
  }

  lemma CollectDistinctStep(xs: seq<string>, x: string, keep: string -> bool)
    ensures CollectDistinct(xs + [x], keep) ==
      var prev := CollectDistinct(xs, keep);
      if keep(x) && x !in prev then prev + [x] else prev
  {
    assert (xs + [x])[..|xs|] == xs;
  }

  /** Whether a listed record name, once normalized, is kept by `GetManagedRecordFQDNs`. */
  predicate KeptName(domain: string, baseDomain: string, n: string)
  {
    !HasPrefix(n, "*.") && IsManagedRecord(domain, baseDomain, n)
  }

  function NormalizeAll(names: seq<string>): (r: seq<string>)
    ensures |r| == |names| && forall i :: 0 <= i < |names| ==> r[i] == Normalize(names[i])
  {
    seq(|names|, i requires 0 <= i < |names| => Normalize(names[i]))
  }

  /** The ownership filter of `GetManagedRecordFQDNs`, as a value the fold can take. */
  function Keeper(domain: string, baseDomain: string): string -> bool
  {
    n => KeptName(domain, baseDomain, n)
  }

  /**
   * The list `GetManagedRecordFQDNs` builds from the listed A and AAAA record
   * names: normalized, wildcards skipped, managed only, first occurrence kept.
   */
  function ManagedFQDNs(domain: string, baseDomain: string, names: seq<string>): seq<string>
  {
    CollectDistinct(NormalizeAll(names), Keeper(domain, baseDomain))
  }

  /**
   * What the listing promises: no duplicates; every entry is lower-case, not a
   * wildcard, managed, and the normalized form of some listed name; and every
   * listed name that normalizes to a kept name is present.
   */
  lemma ManagedFQDNsSound(domain: string, baseDomain: string, names: seq<string>)
    ensures var r := ManagedFQDNs(domain, baseDomain, names);
      && NoDuplicates(r)
      && (forall x :: x in r ==> KeptName(domain, baseDomain, x) && IsLower(x))
      && (forall x :: x in r ==> exists i :: 0 <= i < |names| && x == Normalize(names[i]))
      && (forall i :: 0 <= i < |names| && KeptName(domain, baseDomain, Normalize(names[i]))
            ==> Normalize(names[i]) in r)
  {
    var r := ManagedFQDNs(domain, baseDomain, names);
    var all := NormalizeAll(names);
    forall x | x in r
      ensures IsLower(x) && exists i :: 0 <= i < |names| && x == Normalize(names[i])
    {
      var i :| 0 <= i < |all| && all[i] == x;
      ToLowerIsLower(TrimSuffix(names[i], "."));
    }
    forall i | 0 <= i < |names| && KeptName(domain, baseDomain, Normalize(names[i]))
      ensures Normalize(names[i]) in r
    {
      assert all[i] in all;
    }
  }

  /**
   * The label `GetManagedSubdomainRecords` extracts from a managed name: the
   * text before `.<domain>`, or in prefix form before `-<zone label>.<base>`;
   * empty when neither suffix is present.
   */
  function ExtractLabel(domain: string, baseDomain: string, fqdn: string): string
  {
    var d := Normalize(domain);
    var b := Normalize(baseDomain);
    if HasSuffix(fqdn, "." + d) then TrimSuffix(fqdn, "." + d)
    else if b != "" && b != d && HasSuffix(fqdn, PrefixSuffix(d, b)) then
      TrimSuffix(fqdn, PrefixSuffix(d, b))
    else ""
  }

  function ExtractAll(domain: string, baseDomain: string, fqdns: seq<string>): (r: seq<string>)
    ensures |r| == |fqdns| && forall i :: 0 <= i < |fqdns| ==> r[i] == ExtractLabel(domain, baseDomain, fqdns[i])
  {
    seq(|fqdns|, i requires 0 <= i < |fqdns| => ExtractLabel(domain, baseDomain, fqdns[i]))
  }

  /** Whether an extracted label is kept: the empty label means "neither suffix matched". */
  predicate NonEmptyLabel(l: string)
  {
    l != ""
  }

  /** The label list of `GetManagedSubdomainRecords`: non-empty extracted labels, first occurrence kept. */
  function SubdomainLabels(domain: string, baseDomain: string, fqdns: seq<string>): seq<string>
  {
    CollectDistinct(ExtractAll(domain, baseDomain, fqdns), NonEmptyLabel)
  }

  /**
   * What the label list promises: distinct, non-empty labels, each extracted
   * from some listed name, and every non-empty extracted label present.
   */
  lemma SubdomainLabelsSound(domain: string, baseDomain: string, fqdns: seq<string>)
    ensures var r := SubdomainLabels(domain, baseDomain, fqdns);
      && NoDuplicates(r)
      && (forall x :: x in r ==> x != "" && exists i :: 0 <= i < |fqdns| && x == ExtractLabel(domain, baseDomain, fqdns[i]))
      && (forall i :: 0 <= i < |fqdns| && ExtractLabel(domain, baseDomain, fqdns[i]) != ""
            ==> ExtractLabel(domain, baseDomain, fqdns[i]) in r)
  {
    var all := ExtractAll(domain, baseDomain, fqdns);
    forall i | 0 <= i < |fqdns| && ExtractLabel(domain, baseDomain, fqdns[i]) != ""
      ensures ExtractLabel(domain, baseDomain, fqdns[i]) in SubdomainLabels(domain, baseDomain, fqdns)
    {
      assert all[i] in all;
    }
  }
}
