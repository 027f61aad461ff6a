/**
 * The YAML subdomain mappings: the DNS-label rule for a subdomain, the
 * validation of a mapping, the synthesis of its target, and the manager that
 * keeps the valid mappings of the last successfully read file.
 */
module Mapping {
  import opened Wrappers
  import opened Strings

  datatype Options = Options(websocket: bool, bufferRequests: bool, healthPath: string)

  /** One subdomain-to-service mapping; `port` 0 means "not given". */
  datatype Mapping = Mapping(
    subdomain: string,
    target: string,
    composeProject: string,
    composeService: string,
    container: string,
    port: int,
    options: Options)
  {
    /** `GetHealthPath`: the configured health path, else "/health". */
    function GetHealthPath(): (p: string)
      ensures p != ""
      ensures options.healthPath != "" ==> p == options.healthPath
      ensures options.healthPath == "" ==> p == "/health"
    {
      if options.healthPath != "" then options.healthPath else "/health"
    }
  }

  predicate IsAlnum(c: char)
  {
    'a' <= c <= 'z' || 'A' <= c <= 'Z' || '0' <= c <= '9'
  }

  /** A character of `[a-zA-Z0-9-]`. */
  predicate IsLabelChar(c: char)
  {
    IsAlnum(c) || c == '-'
  }

  /**
   * The subdomain pattern `^[a-zA-Z0-9]([a-zA-Z0-9-]{0,61}[a-zA-Z0-9])?$`, read
   * as its parts: one alphanumeric, then optionally up to 61 label characters
   * and a closing alphanumeric.
   */
  predicate MatchesSubdomainPattern(s: string)
  {
    && |s| >= 1 && IsAlnum(s[0])
    && (|s| == 1 ||
         var middle := s[1..|s| - 1];
         && |middle| <= 61
         && (forall c :: c in middle ==> IsLabelChar(c))
         && IsAlnum(s[|s| - 1]))
  }

  /**
   * The pattern accepts exactly the 1 to 63 character strings of letters,
   * digits and hyphens that start and end with a letter or digit.
   */
  lemma PatternIsDnsLabel(s: string)
    ensures MatchesSubdomainPattern(s) <==>
      && 1 <= |s| <= 63
      && (forall i :: 0 <= i < |s| ==> IsLabelChar(s[i]))
      && IsAlnum(s[0]) && IsAlnum(s[|s| - 1])
  {
    if |s| >= 2 {
      var middle := s[1..|s| - 1];
      if forall i :: 0 <= i < |s| ==> IsLabelChar(s[i]) {
        forall c | c in middle
          ensures IsLabelChar(c)
        {
          var k :| 0 <= k < |middle| && middle[k] == c;
          assert s[k + 1] == c;
        }
      }
      if MatchesSubdomainPattern(s) {
        forall i | 0 <= i < |s|
          ensures IsLabelChar(s[i])
        {
          if 0 < i < |s| - 1 {
            assert middle[i - 1] == s[i];
            assert s[i] in middle;
          }
        }
      }
    }
  }

  /** Consecutive hyphens are allowed; a leading hyphen and a 64-character label are not. */
  lemma PatternExamples()
    ensures MatchesSubdomainPattern("a--b")
    ensures !MatchesSubdomainPattern("-a")
    ensures !MatchesSubdomainPattern("a-")
    ensures !MatchesSubdomainPattern(seq(64, i => 'a'))
    ensures MatchesSubdomainPattern(seq(63, i => 'a'))
  {
    var long := seq(63, i => 'a');
    assert forall c :: c in long[1..62] ==> c == 'a';
    PatternIsDnsLabel(seq(64, i => 'a'));
    PatternIsDnsLabel("a--b");
  }

  /** The three ways of naming a target: direct, compose project and service, or container. */
  predicate HasTargetSpec(m: Mapping)
  {
    m.target != "" || (m.composeProject != "" && m.composeService != "") || m.container != ""
  }

  predicate PortOk(port: int)
  {
    port == 0 || 1 <= port <= 65535
  }

  /** `validateMapping`: the first failed rule, in the order subdomain, pattern, target, port. */
  function ValidateMapping(m: Mapping): (err: Option<string>)
    ensures err == None <==>
      MatchesSubdomainPattern(m.subdomain) && HasTargetSpec(m) && PortOk(m.port)
    ensures m.subdomain == "" ==> err == Some("subdomain is required")
    ensures m.subdomain != "" && !MatchesSubdomainPattern(m.subdomain) ==>
      err == Some("subdomain " + Quote(m.subdomain) + " is invalid: must be alphanumeric with optional hyphens, 1-63 chars")
    ensures MatchesSubdomainPattern(m.subdomain) && !HasTargetSpec(m) ==>
      err == Some("must specify target, compose_project+compose_service, or container")
    ensures MatchesSubdomainPattern(m.subdomain) && HasTargetSpec(m) && !PortOk(m.port) ==>
      err == Some("port must be between 1 and 65535, got " + IntToString(m.port))
  {
    if m.subdomain == "" then Some("subdomain is required")
    else if !MatchesSubdomainPattern(m.subdomain) then
      Some("subdomain " + Quote(m.subdomain) + " is invalid: must be alphanumeric with optional hyphens, 1-63 chars")
    else if !HasTargetSpec(m) then
      Some("must specify target, compose_project+compose_service, or container")
    else if m.port != 0 && (m.port < 1 || m.port > 65535) then
      Some("port must be between 1 and 65535, got " + IntToString(m.port))
    else None
  }

  /**
   * The port written into a synthesized target: the given one, else 80. For
   * every port validation accepts it is a TCP port.
   */
  function EffectivePort(port: int): (p: int)
    ensures port != 0 ==> p == port
    ensures port == 0 ==> p == 80
    ensures PortOk(port) ==> 1 <= p <= 65535
  {
    if port == 0 then 80 else port
  }

  /**
   * `resolveMapping`: fills in `target` when it is empty -- from the compose
   * project and service (container `<project>-<service>-1`), else from the
   * container -- and leaves every other field alone.
   */
  function ResolveMapping(m: Mapping): (r: Result<Mapping>)
    ensures r.Err? <==> !HasTargetSpec(m)
    ensures r.Ok? ==> r.value == m.(target := r.value.target) && r.value.target != ""
    ensures m.target != "" ==> r == Ok(m)
    ensures m.target == "" && m.composeProject != "" && m.composeService != "" ==>
      r == Ok(m.(target := m.composeProject + "-" + m.composeService + "-1" + ":" + IntToString(EffectivePort(m.port))))
    ensures m.target == "" && !(m.composeProject != "" && m.composeService != "") && m.container != "" ==>
      r == Ok(m.(target := m.container + ":" + IntToString(EffectivePort(m.port))))
  {
    if m.target != "" then Ok(m)
    else if m.composeProject != "" && m.composeService != "" then
      var containerName := m.composeProject + "-" + m.composeService + "-1";
      Ok(m.(target := containerName + ":" + IntToString(EffectivePort(m.port))))
    else if m.container != "" then
      Ok(m.(target := m.container + ":" + IntToString(EffectivePort(m.port))))
    else Err("could not resolve target")
  }

  /** A valid mapping always resolves, to a mapping with a non-empty target. */
  lemma ValidResolves(m: Mapping)
    requires ValidateMapping(m) == None
    ensures ResolveMapping(m).Ok? && ResolveMapping(m).value.target != ""
    ensures ResolveMapping(m).value.subdomain == m.subdomain
  {
  }

  /** The port in a synthesized target reads back as the effective port. */
  lemma SynthesizedTargetPort(m: Mapping)
    requires m.target == "" && HasTargetSpec(m)
    ensures exists host :: ResolveMapping(m).value.target == host + ":" + IntToString(EffectivePort(m.port))
    ensures Atoi(IntToString(EffectivePort(m.port))) == Some(EffectivePort(m.port))
  {
    AtoiOfIntToString(EffectivePort(m.port));
    if m.composeProject != "" && m.composeService != "" {
      var host := m.composeProject + "-" + m.composeService + "-1";
      assert ResolveMapping(m).value.target == host + ":" + IntToString(EffectivePort(m.port));
    } else {
      assert ResolveMapping(m).value.target == m.container + ":" + IntToString(EffectivePort(m.port));
    }
  }

  /** What one parsed mapping contributes to the kept list: itself resolved when valid, else nothing. */
  function KeptOne(m: Mapping): (r: seq<Mapping>)
    ensures ValidateMapping(m) == None ==> r == [ResolveMapping(m).value]
    ensures ValidateMapping(m) != None ==> r == []
  {
    if ValidateMapping(m).Some? then []
    else match ResolveMapping(m)
      case Err(_) => []
      case Ok(resolved) => [resolved]
  }

  /** What each mapping of `ms` contributes under `f`, concatenated in order. */
  function Contributions(ms: seq<Mapping>, f: Mapping -> seq<Mapping>): seq<Mapping>
  {
    if ms == [] then [] else Contributions(ms[..|ms| - 1], f) + f(ms[|ms| - 1])
  }

  lemma ContributionsStep(ms: seq<Mapping>, m: Mapping, f: Mapping -> seq<Mapping>)
    ensures Contributions(ms + [m], f) == Contributions(ms, f) + f(m)
  {
    assert (ms + [m])[..|ms|] == ms;
  }

  /** Everything in the concatenation was contributed by some element. */
  lemma {:induction false} ContributionsFrom(ms: seq<Mapping>, f: Mapping -> seq<Mapping>)
    ensures forall x :: x in Contributions(ms, f) ==> exists j :: 0 <= j < |ms| && x in f(ms[j])
  {
    if ms != [] {
      var init := ms[..|ms| - 1];
      ContributionsFrom(init, f);
      forall x | x in Contributions(ms, f)
        ensures exists j :: 0 <= j < |ms| && x in f(ms[j])
      {
        if x in Contributions(init, f) {
          var j :| 0 <= j < |init| && x in f(init[j]);
          assert ms[j] == init[j];
        }
      }
    }
  }

  /** Everything any element contributes is in the concatenation. */
  lemma {:induction false} ContributionsCover(ms: seq<Mapping>, f: Mapping -> seq<Mapping>)
    ensures forall j, x :: 0 <= j < |ms| && x in f(ms[j]) ==> x in Contributions(ms, f)
  {
    if ms != [] {
      var init := ms[..|ms| - 1];
      ContributionsCover(init, f);
      forall j, x | 0 <= j < |ms| && x in f(ms[j])
        ensures x in Contributions(ms, f)
      {
        if j < |init| {
          assert ms[j] == init[j];
        }
      }
    }
  }

  /** Contributions of at most one element each add up to at most one per input. */
  lemma {:induction false} ContributionsLength(ms: seq<Mapping>, f: Mapping -> seq<Mapping>)
    requires forall j :: 0 <= j < |ms| ==> |f(ms[j])| <= 1
    ensures |Contributions(ms, f)| <= |ms|
  {
    if ms != [] {
      var init := ms[..|ms| - 1];
      assert forall j :: 0 <= j < |init| ==> init[j] == ms[j];
      ContributionsLength(init, f);
    }
  }

  /** The mappings `Load` keeps from a parsed file: the valid ones, resolved, in file order. */
  function KeptMappings(ms: seq<Mapping>): seq<Mapping>
  {
    Contributions(ms, KeptOne)
  }

  /**
   * Every kept mapping is a valid input mapping, resolved, with a label-shaped
   * subdomain and a non-empty target; every valid input mapping is kept.
   */
  lemma KeptMappingsSound(ms: seq<Mapping>)
    ensures |KeptMappings(ms)| <= |ms|
    ensures forall x :: x in KeptMappings(ms) ==>
      && MatchesSubdomainPattern(x.subdomain) && x.target != "" && PortOk(x.port)
      && exists j :: 0 <= j < |ms| && ValidateMapping(ms[j]) == None && Ok(x) == ResolveMapping(ms[j])
    ensures forall j :: 0 <= j < |ms| && ValidateMapping(ms[j]) == None ==>
      ResolveMapping(ms[j]).value in KeptMappings(ms)
  {
    ContributionsFrom(ms, KeptOne);
    ContributionsCover(ms, KeptOne);
    ContributionsLength(ms, KeptOne);
    forall x | x in KeptMappings(ms)
      ensures && MatchesSubdomainPattern(x.subdomain) && x.target != "" && PortOk(x.port)
              && exists j :: 0 <= j < |ms| && ValidateMapping(ms[j]) == None && Ok(x) == ResolveMapping(ms[j])
    {
      var j :| 0 <= j < |ms| && x in KeptOne(ms[j]);
      ValidResolves(ms[j]);
    }
    forall j | 0 <= j < |ms| && ValidateMapping(ms[j]) == None
      ensures ResolveMapping(ms[j]).value in KeptMappings(ms)
    {
      assert ResolveMapping(ms[j]).value in KeptOne(ms[j]);
    }
  }

  lemma KeptMappingsNext(ms: seq<Mapping>, i: nat)
    requires i < |ms|
    ensures KeptMappings(ms[..i + 1]) == KeptMappings(ms[..i]) + KeptOne(ms[i])
  {
    assert ms[..i + 1] == ms[..i] + [ms[i]];
    ContributionsStep(ms[..i], ms[i], KeptOne);
  }

  /** The filtering loop of `Load`: each valid mapping, resolved, in file order. */
  method KeepValid(ms: seq<Mapping>) returns (validMappings: seq<Mapping>)
    ensures validMappings == KeptMappings(ms)
  {
    validMappings := [];
    var i := 0;
    while i < |ms|
      invariant 0 <= i <= |ms|
      invariant validMappings == KeptMappings(ms[..i])
    {
      var m := ms[i];
      KeptMappingsNext(ms, i);
      if ValidateMapping(m).None? {
        var resolved := ResolveMapping(m);
        if resolved.Ok? {
          validMappings := validMappings + [resolved.value];
        }
      }
      i := i + 1;
    }
    assert ms[..|ms|] == ms;
  }

  /** What reading the mappings file produced. */
  datatype FileRead = Missing | Unreadable(msg: string) | Malformed(msg: string) | Parsed(mappings: seq<Mapping>)

  /** The mapping manager: the file it reads and the mappings it currently holds. */
  class Manager {
    const filePath: string
    var mappings: seq<Mapping>

    constructor (filePath: string)
      ensures this.filePath == filePath && mappings == []
    {
      this.filePath := filePath;
      mappings := [];
    }

    /**
     * `Load`: a missing file empties the mappings; an unreadable or malformed
     * file is an error that keeps the current mappings; a parsed file replaces
     * them with its valid mappings, resolved, in file order.
     */
    method Load(file: FileRead) returns (err: Option<string>)
      modifies this
      ensures file.Missing? ==> err == None && mappings == []
      ensures file.Unreadable? || file.Malformed? ==> err.Some? && mappings == old(mappings)
      ensures file.Parsed? ==> err == None && mappings == KeptMappings(file.mappings)
    {
      match file {
        case Missing =>
          mappings := [];
          return None;
        case Unreadable(msg) =>
          return Some("failed to read mappings file: " + msg);
        case Malformed(msg) =>
          return Some("failed to parse mappings file: " + msg);
        case Parsed(ms) =>
          var validMappings := KeepValid(ms);
          mappings := validMappings;
          return None;
      }
    }

    /** `Get`: a copy of the held mappings. */
    method Get() returns (r: seq<Mapping>)
      ensures r == mappings
    {
      r := mappings;
    }
  }
}
