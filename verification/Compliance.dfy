/** The block list: which addresses a validated feed refuses. */
module Compliance {
  import opened Options

  datatype Result = Ok(blocked: bool) | Failed

  type Time = int
  type Ip = nat

  const MINUTE: int := 60 * 1_000_000

  /** Text and address primitives of the runtime, taken as given. A failed number parse
      reads as zero. */
  datatype Lib = Lib(
    lower: char -> char,
    space: char -> bool,
    splitHostPort: string -> Option<(string, string)>,
    parseIp: string -> Option<Ip>,
    isCidr: string -> bool,
    contains: (string, Ip) -> bool,
    atoi: string -> int)

  datatype Rules = Rules(domains: seq<string>, cidrs: seq<string>, ports: seq<int>)

  datatype Feed = Feed(version: string, updated: Time, expires: Time, rules: Rules, signatureOk: bool)

  // ---- Text ---------------------------------------------------------------

  function TrimLeft(lib: Lib, s: string): string
  {
    if s != [] && lib.space(s[0]) then TrimLeft(lib, s[1..]) else s
  }

  function TrimRight(lib: Lib, s: string): string
  {
    if s != [] && lib.space(s[|s| - 1]) then TrimRight(lib, s[..|s| - 1]) else s
  }

  function TrimSpace(lib: Lib, s: string): string
  {
    TrimRight(lib, TrimLeft(lib, s))
  }

  function Lower(lib: Lib, s: string): string
  {
    seq(|s|, i requires 0 <= i < |s| => lib.lower(s[i]))
  }

  function TrimDotPrefix(s: string): string
  {
    if s != [] && s[0] == '.' then s[1..] else s
  }

  function TrimDotSuffix(s: string): string
  {
    if s != [] && s[|s| - 1] == '.' then s[..|s| - 1] else s
  }

  predicate HasSuffix(s: string, t: string)
  {
    |t| <= |s| && s[|s| - |t|..] == t
  }

  function Domain(lib: Lib, raw: string): string
  {
    Lower(lib, TrimDotPrefix(TrimSpace(lib, raw)))
  }

  function Host(lib: Lib, raw: string): string
  {
    Lower(lib, TrimDotSuffix(raw))
  }

  /** The comparison in the code: on text. */
  predicate Matches(host: string, domain: string)
  {
    domain != "" && (host == domain || HasSuffix(host, "." + domain))
  }

  // ---- Labels -------------------------------------------------------------

  function Labels(s: string): (r: seq<string>)
    ensures |r| > 0
  {
    if s == [] then [""]
    else
      var rest := Labels(s[1..]);
      if s[0] == '.' then [""] + rest else [[s[0]] + rest[0]] + rest[1..]
  }

  function Join(labels: seq<string>): string
    requires |labels| > 0
  {
    if |labels| == 1 then labels[0] else labels[0] + "." + Join(labels[1..])
  }

  ghost predicate LabelSuffix(d: seq<string>, h: seq<string>)
  {
    |d| <= |h| && h[|h| - |d|..] == d
  }

  lemma {:induction false} LabelsConcat(x: string, y: string)
    ensures Labels(x + "." + y) == Labels(x) + Labels(y)
  {
    if x == [] {
      assert x + "." + y == ['.'] + y;
    } else {
      assert (x + "." + y)[1..] == x[1..] + "." + y;
      LabelsConcat(x[1..], y);
    }
  }

  lemma {:induction false} JoinLabels(s: string)
    ensures Join(Labels(s)) == s
  {
    if s != [] {
      JoinLabels(s[1..]);
      var rest := Labels(s[1..]);
      if s[0] == '.' {
        assert ([""] + rest)[1..] == rest;
        assert "" + "." + s[1..] == s;
      } else {
        var all := [[s[0]] + rest[0]] + rest[1..];
        assert all[1..] == rest[1..];
        assert [s[0]] + s[1..] == s;
        if |rest| > 1 {
          assert [s[0]] + (rest[0] + "." + Join(rest[1..])) == [s[0]] + rest[0] + "." + Join(rest[1..]);
        }
      }
    }
  }

  lemma {:induction false} JoinConcat(a: seq<string>, b: seq<string>)
    requires |a| > 0 && |b| > 0
    ensures Join(a + b) == Join(a) + "." + Join(b)
    decreases |a|
  {
    assert (a + b)[1..] == a[1..] + b;
    if |a| == 1 {
      assert a[1..] + b == b;
    } else {
      JoinConcat(a[1..], b);
      assert a[0] + "." + (Join(a[1..]) + "." + Join(b)) == a[0] + "." + Join(a[1..]) + "." + Join(b);
    }
  }

  /** The comparison on text is the one on labels: a rule matches its own domain and the
      names below it, never a name that merely ends in the same letters. */
  lemma MatchesLabels(host: string, domain: string)
    ensures Matches(host, domain) <==> domain != "" && LabelSuffix(Labels(domain), Labels(host))
  {
    var d, h := Labels(domain), Labels(host);
    if host == domain {
      assert h[|h| - |d|..] == d;
    } else if HasSuffix(host, "." + domain) {
      var x := host[..|host| - |domain| - 1];
      assert host == x + "." + domain;
      LabelsConcat(x, domain);
      assert (Labels(x) + d)[|Labels(x)|..] == d;
    } else if LabelSuffix(d, h) {
      SuffixText(host, domain);
    }
  }

  lemma JoinSuffix(a: seq<string>, d: seq<string>)
    requires |a| > 0 && |d| > 0
    ensures HasSuffix(Join(a + d), "." + Join(d))
  {
    JoinConcat(a, d);
    assert Join(a) + "." + Join(d) == Join(a) + ("." + Join(d));
    SuffixOfConcat(Join(a), "." + Join(d));
  }

  lemma SuffixOfConcat(x: string, y: string)
    ensures HasSuffix(x + y, y)
  {
    assert (x + y)[|x|..] == y;
  }

  lemma SuffixText(host: string, domain: string)
    requires LabelSuffix(Labels(domain), Labels(host))
    ensures host == domain || HasSuffix(host, "." + domain)
  {
    JoinLabels(host);
    JoinLabels(domain);
    SuffixJoin(Labels(domain), Labels(host));
  }

  lemma SuffixJoin(d: seq<string>, h: seq<string>)
    requires |d| > 0 && LabelSuffix(d, h)
    ensures |h| > 0 && (Join(h) == Join(d) || HasSuffix(Join(h), "." + Join(d)))
  {
    var a := h[..|h| - |d|];
    assert h == a + d;
    if a != [] {
      JoinSuffix(a, d);
    }
  }

  // ---- Rules --------------------------------------------------------------

  predicate Plain(s: string)
  {
    ' ' !in s && '/' !in s && ':' !in s && '@' !in s
  }

  predicate DomainValid(lib: Lib, raw: string)
  {
    TrimSpace(lib, raw) != "" && Plain(TrimSpace(lib, raw))
  }

  predicate Valid(lib: Lib, rules: Rules)
  {
    && (forall i :: 0 <= i < |rules.domains| ==> DomainValid(lib, rules.domains[i]))
    && (forall i :: 0 <= i < |rules.cidrs| ==> lib.isCidr(rules.cidrs[i]))
    && (forall i :: 0 <= i < |rules.ports| ==> 1 <= rules.ports[i] <= 65535)
  }

  /** Some listed domain is the host or above it. */
  ghost predicate DomainHit(lib: Lib, domains: seq<string>, host: string)
  {
    AnyOf(ListedFor(lib, host), domains)
  }

  ghost predicate AnyOf<T>(p: T -> bool, xs: seq<T>)
  {
    exists i :: 0 <= i < |xs| && p(xs[i])
  }

  ghost function ListedFor(lib: Lib, host: string): string -> bool
  {
    raw => Listed(lib, raw, host)
  }

  ghost predicate Listed(lib: Lib, raw: string, host: string)
  {
    Domain(lib, raw) != "" && LabelSuffix(Labels(Domain(lib, raw)), Labels(host))
  }

  ghost predicate CidrHit(lib: Lib, cidrs: seq<string>, ip: Ip)
  {
    exists i :: 0 <= i < |cidrs| && FirstHit(lib, cidrs, ip, i)
  }

  /** The range at `i` is the first that is malformed or contains the address. */
  ghost predicate Clear(lib: Lib, cidrs: seq<string>, ip: Ip, i: nat)
    requires i <= |cidrs|
  {
    forall j :: 0 <= j < i ==> lib.isCidr(cidrs[j]) && !lib.contains(cidrs[j], ip)
  }

  ghost predicate FirstHit(lib: Lib, cidrs: seq<string>, ip: Ip, i: nat)
    requires i < |cidrs|
  {
    Clear(lib, cidrs, ip, i) && lib.isCidr(cidrs[i]) && lib.contains(cidrs[i], ip)
  }

  ghost predicate FirstBad(lib: Lib, cidrs: seq<string>, ip: Ip, i: nat)
    requires i < |cidrs|
  {
    Clear(lib, cidrs, ip, i) && !lib.isCidr(cidrs[i])
  }

  ghost predicate CidrBad(lib: Lib, cidrs: seq<string>, ip: Ip)
  {
    exists i :: 0 <= i < |cidrs| && FirstBad(lib, cidrs, ip, i)
  }

  function HostOf(lib: Lib, address: string): string
  {
    var parts := lib.splitHostPort(address);
    Host(lib, if parts.Some? then parts.value.0 else address)
  }

  function PortOf(lib: Lib, address: string): int
  {
    var parts := lib.splitHostPort(address);
    lib.atoi(if parts.Some? then parts.value.1 else "")
  }

  /** What `Blocked` answers for any rules, valid or not. */
  ghost function Verdict(lib: Lib, rules: Rules, address: string): Result
  {
    var host := HostOf(lib, address);
    var ip := lib.parseIp(host);
    if DomainHit(lib, rules.domains, host) then Ok(true)
    else if ip.Some? && CidrHit(lib, rules.cidrs, ip.value) then Ok(true)
    else if ip.Some? && CidrBad(lib, rules.cidrs, ip.value) then Failed
    else Ok(PortOf(lib, address) in rules.ports)
  }

  method ValidateRules(lib: Lib, rules: Rules) returns (ok: bool)
    ensures ok <==> Valid(lib, rules)
  {
    for i := 0 to |rules.domains|
      invariant forall j :: 0 <= j < i ==> DomainValid(lib, rules.domains[j])
    {
      var domain := TrimSpace(lib, rules.domains[i]);
      if domain == "" || ' ' in domain || '/' in domain || ':' in domain || '@' in domain {
        assert !DomainValid(lib, rules.domains[i]);
        return false;
      }
    }
    for i := 0 to |rules.cidrs|
      invariant forall j :: 0 <= j < i ==> lib.isCidr(rules.cidrs[j])
    {
      if !lib.isCidr(rules.cidrs[i]) {
        return false;
      }
    }
    for i := 0 to |rules.ports|
      invariant forall j :: 0 <= j < i ==> 1 <= rules.ports[j] <= 65535
    {
      if rules.ports[i] < 1 || rules.ports[i] > 65535 {
        return false;
      }
    }
    return true;
  }

  lemma ListedMatches(lib: Lib, raw: string, host: string)
    ensures Listed(lib, raw, host) <==> Matches(host, Domain(lib, raw))
  {
    MatchesLabels(host, Domain(lib, raw));
  }

  lemma AnyStep<T>(p: T -> bool, xs: seq<T>, i: nat)
    requires i < |xs|
    ensures AnyOf(p, xs[..i + 1]) <==> AnyOf(p, xs[..i]) || p(xs[i])
    ensures p(xs[i]) ==> AnyOf(p, xs)
  {
    var more := xs[..i + 1];
    assert more[i] == xs[i];
    if AnyOf(p, xs[..i]) {
      var j :| 0 <= j < i && p(xs[..i][j]);
      assert p(more[j]);
    }
    if AnyOf(p, more) && !p(xs[i]) {
      var j :| 0 <= j < |more| && p(more[j]);
      assert xs[..i][j] == more[j];
    }
  }

  method ScanDomains(lib: Lib, domains: seq<string>, host: string) returns (hit: bool)
    ensures hit <==> DomainHit(lib, domains, host)
  {
    ghost var p := ListedFor(lib, host);
    for i := 0 to |domains|
      invariant !AnyOf(p, domains[..i])
    {
      AnyStep(p, domains, i);
      ListedMatches(lib, domains[i], host);
      if Matches(host, Domain(lib, domains[i])) {
        return true;
      }
    }
    assert domains[..|domains|] == domains;
    return false;
  }

  method ScanRanges(lib: Lib, cidrs: seq<string>, ip: Ip) returns (r: Result)
    ensures r == Ok(true) <==> CidrHit(lib, cidrs, ip)
    ensures r == Failed <==> CidrBad(lib, cidrs, ip)
  {
    for i := 0 to |cidrs|
      invariant Clear(lib, cidrs, ip, i)
    {
      if !lib.isCidr(cidrs[i]) {
        assert FirstBad(lib, cidrs, ip, i);
        return Failed;
      }
      if lib.contains(cidrs[i], ip) {
        assert FirstHit(lib, cidrs, ip, i);
        return Ok(true);
      }
    }
    return Ok(false);
  }

  method ScanRules(lib: Lib, rules: Rules, address: string) returns (r: Result)
    ensures r == Verdict(lib, rules, address)
  {
    var parts := lib.splitHostPort(address);
    var host, portText := address, "";
    if parts.Some? {
      host, portText := parts.value.0, parts.value.1;
    }
    host := Host(lib, host);
    var hit := ScanDomains(lib, rules.domains, host);
    if hit {
      return Ok(true);
    }
    var ip := lib.parseIp(host);
    if ip.Some? {
      r := ScanRanges(lib, rules.cidrs, ip.value);
      if r != Ok(false) {
        return;
      }
    }
    var port := lib.atoi(portText);
    for i := 0 to |rules.ports|
      invariant port !in rules.ports[..i]
    {
      assert rules.ports[..i + 1] == rules.ports[..i] + [rules.ports[i]];
      if port == rules.ports[i] {
        return Ok(true);
      }
    }
    assert rules.ports[..|rules.ports|] == rules.ports;
    return Ok(false);
  }

  // ---- The service --------------------------------------------------------

  /** Only feeds that validate are ever stored, so the check never fails on them. */
  class Service {
    const lib: Lib
    var rules: Option<Rules>

    ghost predicate Sound()
      reads this
    {
      rules.Some? ==> Valid(lib, rules.value)
    }

    constructor (lib: Lib)
      ensures Sound() && this.lib == lib && rules == None
    {
      this.lib := lib;
      rules := None;
    }

    method Apply(feed: Feed, now: Time) returns (ok: bool)
      requires Sound()
      modifies this
      ensures Sound()
      ensures ok <==> feed.version != "" && feed.updated < feed.expires && now < feed.expires
                      && feed.updated <= now + 300_000_000 && Valid(lib, feed.rules) && feed.signatureOk
      ensures rules == if ok then Some(feed.rules) else old(rules)
    {
      if feed.version == "" || feed.expires <= feed.updated {
        return false;
      }
      if feed.expires <= now || feed.updated > now + 5 * MINUTE {
        return false;
      }
      ok := ValidateRules(lib, feed.rules);
      if !ok || !feed.signatureOk {
        return false;
      }
      rules := Some(feed.rules);
    }

    method Blocked(address: string) returns (r: Result)
      requires Sound()
      ensures r.Ok?
      ensures r.blocked <==> rules.Some? && Refused(lib, rules.value, address)
    {
      if rules.None? {
        return Ok(false);
      }
      ValidVerdict(lib, rules.value, address);
      r := ScanRules(lib, rules.value, address);
    }
  }

  /** What a validated feed refuses, without order or errors. */
  ghost predicate Refused(lib: Lib, rules: Rules, address: string)
  {
    var host := HostOf(lib, address);
    || DomainHit(lib, rules.domains, host)
    || InRange(lib, rules.cidrs, lib.parseIp(host))
    || PortOf(lib, address) in rules.ports
  }

  ghost predicate InRange(lib: Lib, cidrs: seq<string>, ip: Option<Ip>)
  {
    ip.Some? && exists i :: 0 <= i < |cidrs| && lib.contains(cidrs[i], ip.value)
  }

  lemma FirstContaining(lib: Lib, cidrs: seq<string>, ip: Ip, i: nat)
    requires i < |cidrs| && lib.contains(cidrs[i], ip)
    requires forall j :: 0 <= j < |cidrs| ==> lib.isCidr(cidrs[j])
    ensures CidrHit(lib, cidrs, ip)
  {
    if exists j :: 0 <= j < i && lib.contains(cidrs[j], ip) {
      var j :| 0 <= j < i && lib.contains(cidrs[j], ip);
      FirstContaining(lib, cidrs, ip, j);
    } else {
      assert FirstHit(lib, cidrs, ip, i);
    }
  }

  /** A validated feed never fails, and its answer does not depend on the order of its entries. */
  lemma ValidVerdict(lib: Lib, rules: Rules, address: string)
    requires Valid(lib, rules)
    ensures Verdict(lib, rules, address) == Ok(Refused(lib, rules, address))
  {
    var ip := lib.parseIp(HostOf(lib, address));
    if InRange(lib, rules.cidrs, ip) {
      var i :| 0 <= i < |rules.cidrs| && lib.contains(rules.cidrs[i], ip.value);
      FirstContaining(lib, rules.cidrs, ip.value, i);
    }
  }

  lemma SuffixTrans(d: seq<string>, h: seq<string>, x: seq<string>)
    requires LabelSuffix(d, h)
    ensures LabelSuffix(d, x + h)
  {
    assert (x + h)[|x| + |h| - |d|..] == h[|h| - |d|..];
  }

  lemma HostBelow(lib: Lib, sub: string, host: string)
    requires lib.lower('.') == '.' && host != ""
    ensures Host(lib, sub + "." + host) == Lower(lib, sub) + "." + Host(lib, host)
  {
    var all := sub + "." + host;
    assert TrimDotSuffix(all) == sub + "." + TrimDotSuffix(host);
  }

  /** Refusing a name refuses every name below it. */
  lemma SubdomainsRefused(lib: Lib, domains: seq<string>, host: string, sub: string)
    requires lib.lower('.') == '.'
    requires DomainHit(lib, domains, Host(lib, host))
    ensures DomainHit(lib, domains, Host(lib, sub + "." + host))
  {
    var i :| 0 <= i < |domains| && ListedFor(lib, Host(lib, host))(domains[i]);
    ListedBelow(lib, domains[i], host, sub);
    assert ListedFor(lib, Host(lib, sub + "." + host))(domains[i]);
  }

  lemma ListedBelow(lib: Lib, raw: string, host: string, sub: string)
    requires lib.lower('.') == '.' && Listed(lib, raw, Host(lib, host))
    ensures Listed(lib, raw, Host(lib, sub + "." + host))
  {
    var d := Domain(lib, raw);
    if host == "" {
      MatchesLabels("", d);
      assert false;
    }
    HostBelow(lib, sub, host);
    LabelsConcat(Lower(lib, sub), Host(lib, host));
    SuffixTrans(Labels(d), Labels(Host(lib, host)), Labels(Lower(lib, sub)));
  }

  // ---- Normal forms, written out ------------------------------------------

  ghost predicate Blank(lib: Lib, s: string)
  {
    forall i :: 0 <= i < |s| ==> lib.space(s[i])
  }

  /** No space at either end. */
  ghost predicate Tight(lib: Lib, s: string)
  {
    s != [] ==> !lib.space(s[0]) && !lib.space(s[|s| - 1])
  }

  lemma {:induction false} TrimLeftExact(lib: Lib, pre: string, x: string)
    requires Blank(lib, pre) && (x == [] || !lib.space(x[0]))
    ensures TrimLeft(lib, pre + x) == x
    decreases |pre|
  {
    if pre == [] {
      assert pre + x == x;
    } else {
      assert (pre + x)[0] == pre[0] && (pre + x)[1..] == pre[1..] + x;
      TrimLeftExact(lib, pre[1..], x);
    }
  }

  lemma {:induction false} TrimRightExact(lib: Lib, x: string, post: string)
    requires Blank(lib, post) && (x == [] || !lib.space(x[|x| - 1]))
    ensures TrimRight(lib, x + post) == x
    decreases |post|
  {
    if post == [] {
      assert x + post == x;
    } else {
      var n := |post| - 1;
      assert (x + post)[|x| + n] == post[n] && (x + post)[..|x| + n] == x + post[..n];
      TrimRightExact(lib, x, post[..n]);
    }
  }

  /** Trimming takes off exactly the spaces at both ends. */
  lemma TrimExact(lib: Lib, pre: string, core: string, post: string)
    requires Blank(lib, pre) && Blank(lib, post) && Tight(lib, core)
    ensures TrimSpace(lib, pre + core + post) == core
  {
    if core == [] {
      assert pre + core + post == (pre + post) + [];
      TrimLeftExact(lib, pre + post, []);
    } else {
      assert pre + core + post == pre + (core + post);
      TrimLeftExact(lib, pre, core + post);
      TrimRightExact(lib, core, post);
    }
  }

  /** The lower-case form, character by character. */
  ghost predicate LowerOf(lib: Lib, s: string, t: string)
  {
    |t| == |s| && forall i :: 0 <= i < |s| ==> t[i] == lib.lower(s[i])
  }

  /** A rule stands for its text without the spaces around it and without one leading dot, in
      lower case. */
  lemma DomainExact(lib: Lib, pre: string, core: string, post: string)
    requires Blank(lib, pre) && Blank(lib, post) && Tight(lib, core)
    ensures core == [] || core[0] != '.' ==> LowerOf(lib, core, Domain(lib, pre + core + post))
    ensures core != [] && core[0] == '.' ==> LowerOf(lib, core[1..], Domain(lib, pre + core + post))
  {
    TrimExact(lib, pre, core, post);
  }

  /** A host is taken without one final dot, in lower case. */
  lemma HostExact(lib: Lib, host: string)
    ensures LowerOf(lib, host, Host(lib, host + "."))
    ensures host == [] || host[|host| - 1] != '.' ==> LowerOf(lib, host, Host(lib, host))
  {
    assert TrimDotSuffix(host + ".") == host;
  }

  /** An address is split into host and port if it can be, else it is all host and no port. */
  lemma AddressExact(lib: Lib, address: string)
    ensures match lib.splitHostPort(address)
            case None => HostOf(lib, address) == Host(lib, address) && PortOf(lib, address) == lib.atoi("")
            case Some(parts) => HostOf(lib, address) == Host(lib, parts.0) && PortOf(lib, address) == lib.atoi(parts.1)
  {
  }

  /** Which rules are accepted. */
  lemma ValidExact(lib: Lib, rules: Rules)
    ensures Valid(lib, rules) <==>
            && (forall i :: 0 <= i < |rules.domains| ==>
                  var d := TrimSpace(lib, rules.domains[i]);
                  d != "" && forall k :: 0 <= k < |d| ==> d[k] != ' ' && d[k] != '/' && d[k] != ':' && d[k] != '@')
            && (forall i :: 0 <= i < |rules.cidrs| ==> lib.isCidr(rules.cidrs[i]))
            && (forall i :: 0 <= i < |rules.ports| ==> 0 < rules.ports[i] < 65536)
  {
    forall i | 0 <= i < |rules.domains|
      ensures DomainValid(lib, rules.domains[i]) <==>
              var d := TrimSpace(lib, rules.domains[i]);
              d != "" && forall k :: 0 <= k < |d| ==> d[k] != ' ' && d[k] != '/' && d[k] != ':' && d[k] != '@'
    {
      PlainExact(TrimSpace(lib, rules.domains[i]));
    }
  }

  lemma PlainExact(s: string)
    ensures Plain(s) <==> forall k :: 0 <= k < |s| ==> s[k] != ' ' && s[k] != '/' && s[k] != ':' && s[k] != '@'
  {
  }
}
