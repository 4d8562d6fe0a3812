/**
 The PAC compiler and its Go reference matcher.

 A generated script is modelled as the list of statements of FindProxyForURL after
 the host has been lowered; an object literal of domains is a set of keys. `Eval` is the
 JavaScript reading of such a script, the `Matches…` members are the Go reading
 of the same rules, and the theorems say that the two route every host alike.
 */
module Pac {
  import opened Wrappers
  import opened Text
  import opened Rules

  datatype Verdict = UseProxy | Direct

  datatype Stmt =
    | NetGuard(nets: seq<Cidr>, ret: Verdict)   // dotted-number test around the isInNet checks
    | GlobCheck(glob: string, ret: Verdict)     // shExpMatch, with the bare "ru" shortcut
    | Table(keys: set<string>, ret: Verdict)    // object literal, own lookup and suffix walk
    | PlainHost(ret: Verdict)                   // isPlainHostName
    | Return(ret: Verdict)

  type Program = seq<Stmt>

  // ---------------------------------------------------------------- the JavaScript side

  /** /^\d+(\.\d+){3}$/ */
  predicate LooksDotted(host: string) {
    var f := Split(host, '.');
    |f| == 4 && AllDigits(f[0]) && AllDigits(f[1]) && AllDigits(f[2]) && AllDigits(f[3])
  }

  /** The address isInNet reads from a dotted host: leading zeros are fine, octets over 255 are not. */
  function DottedAddress(host: string): Option<Address> {
    var f := Split(host, '.');
    if |f| == 4 && OctetText(f[0]) && OctetText(f[1]) && OctetText(f[2]) && OctetText(f[3]) then
      Some(Word(Decimal(f[0]), Decimal(f[1]), Decimal(f[2]), Decimal(f[3])))
    else None
  }

  predicate IsInNet(host: string, n: Cidr) {
    n.bits <= 32 && DottedAddress(host).Some? && Contains(n, DottedAddress(host).value)
  }

  /** shExpMatch: as a glob, with no special treatment of '/'. */
  predicate ShExpMatch(host: string, pat: string)
    decreases |pat| + |host|
  {
    if pat == "" then host == ""
    else if pat[0] == '*' then ShExpMatch(host, pat[1..]) || (host != "" && ShExpMatch(host[1..], pat))
    else host != "" && (pat[0] == '?' || pat[0] == host[0]) && ShExpMatch(host[1..], pat[1..])
  }

  /** The while loop of a domain block, entered with `i` the position of a dot or -1. */
  predicate SuffixWalk(keys: set<string>, host: string, i: int)
    requires -1 <= i < |host|
    decreases if i < 0 then 0 else |host| - i
  {
    i >= 0 && (host[i + 1..] in keys || SuffixWalk(keys, host, IndexFrom(host, '.', i + 1)))
  }

  function EvalStmt(st: Stmt, host: string): Option<Verdict> {
    var hit :=
      match st
      case NetGuard(nets, _) => LooksDotted(host) && exists i :: 0 <= i < |nets| && IsInNet(host, nets[i])
      case GlobCheck(glob, _) => ShExpMatch(host, glob) || (glob == "*.ru" && host == "ru")
      case Table(keys, _) => host in keys || SuffixWalk(keys, host, Index(host, '.'))
      case PlainHost(_) => '.' !in host
      case Return(_) => true;
    if hit then Some(st.ret) else None
  }

  /** The first statement that returns; a script that falls off its end counts as DIRECT. */
  function Eval(p: Program, host: string): Verdict {
    if p == [] then Direct
    else
      var v := EvalStmt(p[0], host);
      if v.Some? then v.value else Eval(p[1..], host)
  }

  // ---------------------------------------------------------------- the generators

  function GlobChecks(globs: seq<string>, ret: Verdict): Program {
    if globs == [] then [] else GlobChecks(globs[..|globs| - 1], ret) + [GlobCheck(globs[|globs| - 1], ret)]
  }

  function NetBlock(nets: seq<Cidr>, ret: Verdict): Program {
    if nets == [] then [] else [NetGuard(nets, ret)]
  }

  function KeySet(domains: seq<string>): set<string> {
    set d | d in domains
  }

  function TableBlock(domains: seq<string>, ret: Verdict): Program {
    if domains == [] then [] else [Table(KeySet(domains), ret)]
  }

  /** One rule list: literal addresses, then wildcards, then domains. */
  function RuleBlock(cl: Classes, ret: Verdict): Program {
    NetBlock(cl.nets, ret) + GlobChecks(cl.globs, ret) + TableBlock(cl.domains, ret)
  }

  function PlainBlock(bypassPlain: bool): Program {
    if bypassPlain then [PlainHost(Direct)] else []
  }

  function IncludeProgram(proxy: seq<string>): Program {
    RuleBlock(Classify(proxy), UseProxy) + [Return(Direct)]
  }

  function ExcludeProgram(proxy: seq<string>, direct: seq<string>, bypassPlain: bool): Program {
    RuleBlock(Classify(proxy), UseProxy)
    + PlainBlock(bypassPlain)
    + RuleBlock(Classify(direct), Direct)
    + [Return(UseProxy)]
  }

  /** writeGlobChecks: one statement per wildcard, in order. */
  method WriteGlobChecks(b: Program, globs: seq<string>, ret: Verdict) returns (b': Program)
    ensures b' == b + GlobChecks(globs, ret)
  {
    b' := b;
    for i := 0 to |globs|
      invariant b' == b + GlobChecks(globs[..i], ret)
    {
      assert globs[..i + 1][..i] == globs[..i];
      b' := b' + [GlobCheck(globs[i], ret)];
    }
    assert globs[..|globs|] == globs;
  }

  /** The three parts of one rule list, each left out when it has no entry. */
  method WriteRules(b: Program, cl: Classes, ret: Verdict) returns (b': Program)
    ensures b' == b + RuleBlock(cl, ret)
  {
    b' := b;
    if |cl.nets| > 0 {
      b' := b' + [NetGuard(cl.nets, ret)];
    }
    b' := WriteGlobChecks(b', cl.globs, ret);
    if |cl.domains| > 0 {
      b' := b' + [Table(KeySet(cl.domains), ret)];
    }
  }

  /** GenerateIncludePAC. */
  method GenerateInclude(proxy: seq<string>) returns (p: Program)
    ensures p == IncludeProgram(proxy)
  {
    var cl := ClassifyRules(proxy);
    p := WriteRules([], cl, UseProxy);
    p := p + [Return(Direct)];
  }

  /** GenerateExcludePAC. */
  method GenerateExclude(proxy: seq<string>, direct: seq<string>, bypassPlain: bool) returns (p: Program)
    ensures p == ExcludeProgram(proxy, direct, bypassPlain)
  {
    var pc := ClassifyRules(proxy);
    var dc := ClassifyRules(direct);
    p := WriteRules([], pc, UseProxy);
    assert p == RuleBlock(pc, UseProxy);
    if bypassPlain {
      p := p + [PlainHost(Direct)];
    }
    assert p == RuleBlock(pc, UseProxy) + PlainBlock(bypassPlain);
    p := WriteRules(p, dc, Direct);
    p := p + [Return(UseProxy)];
  }

  // ---------------------------------------------------------------- the Go side

  /** matchesDomainSuffix: the host, then every ever-shorter parent domain, looked up in a set. */
  method MatchesDomainSuffix(domains: seq<string>, host: string) returns (b: bool)
    requires forall d :: d in domains ==> d != ""
    ensures b <==> AnyDomain(domains, host)
  {
    var names := KeySet(domains);
    if host in names {
      var k :| 0 <= k < |domains| && domains[k] == host;
      assert DomainHit(domains[k], host);
      return true;
    }
    var i := Index(host, '.');
    while i >= 0
      invariant -1 <= i < |host|
      invariant i >= 0 ==> host[i] == '.'
      invariant NoParentBefore(names, host, if i < 0 then |host| else i)
      decreases if i < 0 then 0 else |host| - i
    {
      if host[i + 1..] in names {
        ParentHits(domains, host, i);
        return true;
      }
      var j := Index(host[i + 1..], '.');
      NextDot(names, host, i, j);
      if j < 0 {
        i := -1;
        break;
      }
      i := i + 1 + j;
    }
    NoParentHits(domains, host);
    b := false;
  }

  /** No parent domain that starts after a dot before `n` is a key. */
  predicate NoParentBefore(names: set<string>, host: string, n: nat)
    requires n <= |host|
  {
    forall j :: 0 <= j < n && host[j] == '.' ==> host[j + 1..] !in names
  }

  lemma NextDot(names: set<string>, host: string, i: nat, j: int)
    requires i < |host| && j == Index(host[i + 1..], '.')
    requires NoParentBefore(names, host, i) && host[i + 1..] !in names
    ensures NoParentBefore(names, host, if j < 0 then |host| else i + 1 + j)
  {
    var rest := host[i + 1..];
    assert forall q :: i < q < |host| ==> host[q] == rest[q - i - 1] && rest[q - i - 1] in rest;
    if j >= 0 {
      assert forall q :: i < q < i + 1 + j ==> host[q] == rest[..j][q - i - 1] && rest[..j][q - i - 1] in rest[..j];
    }
  }

  lemma ParentHits(domains: seq<string>, host: string, i: nat)
    requires i < |host| && host[i] == '.' && host[i + 1..] in domains
    ensures AnyDomain(domains, host)
  {
    var k :| 0 <= k < |domains| && domains[k] == host[i + 1..];
    SuffixDot(host, domains[k]);
    assert DomainHit(domains[k], host);
  }

  lemma NoParentHits(domains: seq<string>, host: string)
    requires host !in domains && NoParentBefore(KeySet(domains), host, |host|)
    ensures !AnyDomain(domains, host)
  {
    forall k | 0 <= k < |domains|
      ensures !DomainHit(domains[k], host)
    {
      SuffixDot(host, domains[k]);
    }
  }

  lemma SuffixDot(host: string, d: string)
    ensures HasSuffix(host, "." + d) <==>
      |d| < |host| && host[|host| - |d| - 1] == '.' && host[|host| - |d|..] == d
  {
    var j := |host| - |d| - 1;
    if j >= 0 {
      assert host[j..] == [host[j]] + host[j + 1..];
    }
  }

  /** The wildcard loop of matchesRuleSet. */
  method MatchesAnyGlob(globs: seq<string>, host: string) returns (b: bool)
    ensures b <==> AnyGlob(globs, host)
  {
    for i := 0 to |globs|
      invariant forall k :: 0 <= k < i ==> !GlobHit(globs[k], host)
    {
      if PathMatch(globs[i], host) {
        assert GlobHit(globs[i], host);
        return true;
      }
      if globs[i] == "*.ru" && host == "ru" {
        assert GlobHit(globs[i], host);
        return true;
      }
    }
    b := false;
  }

  /** The literal-address loop of matchesRuleSet. */
  method MatchesAnyNet(nets: seq<Cidr>, host: string) returns (b: bool)
    requires forall n :: n in nets ==> n.bits <= 32
    ensures b <==> AnyNet(nets, host)
  {
    var ip := ParseIPv4(host);
    if ip.None? {
      return false;
    }
    for i := 0 to |nets|
      invariant forall k :: 0 <= k < i ==> !NetHit(nets[k], host)
    {
      if Contains(nets[i], ip.value) {
        assert NetHit(nets[i], host);
        return true;
      }
    }
    b := false;
  }

  /** matchesRuleSet. */
  method MatchesRuleSet(rules: seq<string>, host: string) returns (b: bool)
    ensures b <==> ListMatches(rules, host)
  {
    ClassifyMeans(rules, host);
    var cl := ClassifyRules(rules);
    b := MatchesDomainSuffix(cl.domains, host);
    if !b {
      b := MatchesAnyGlob(cl.globs, host);
    }
    if !b {
      b := MatchesAnyNet(cl.nets, host);
    }
  }

  /** What exclude mode means: [proxy] first, then bare names, then [direct]. */
  ghost predicate GoesDirect(proxy: seq<string>, direct: seq<string>, bypassPlain: bool, host: string) {
    !ListMatches(proxy, host) && ((bypassPlain && '.' !in host) || ListMatches(direct, host))
  }

  method MatchesExcludeDirect(proxy: seq<string>, direct: seq<string>, bypassPlain: bool, raw: string) returns (b: bool)
    ensures b <==> GoesDirect(proxy, direct, bypassPlain, Norm(raw))
  {
    var host := Norm(raw);
    b := MatchesRuleSet(proxy, host);
    if b {
      return false;
    }
    if bypassPlain && '.' !in host {
      return true;
    }
    b := MatchesRuleSet(direct, host);
  }

  method MatchesIncludeProxy(proxy: seq<string>, raw: string) returns (b: bool)
    ensures b <==> ListMatches(proxy, Norm(raw))
  {
    b := MatchesRuleSet(proxy, Norm(raw));
  }

  // ---------------------------------------------------------------- the compiler preserves meaning

  lemma {:induction false} SuffixWalkMeans(keys: set<string>, host: string, i: int)
    requires -1 <= i < |host| && (i >= 0 ==> host[i] == '.')
    ensures SuffixWalk(keys, host, i) <==>
      i >= 0 && exists j :: i <= j < |host| && host[j] == '.' && host[j + 1..] in keys
    decreases if i < 0 then 0 else |host| - i
  {
    if i >= 0 {
      var n := IndexFrom(host, '.', i + 1);
      SuffixWalkMeans(keys, host, n);
      forall j | i < j < |host| && host[j] == '.'
        ensures 0 <= n <= j
      {
        IndexFromFirst(host, '.', i + 1, j);
      }
    }
  }

  lemma KeyIsDomain(domains: seq<string>, d: string)
    ensures d in KeySet(domains) <==> exists k :: 0 <= k < |domains| && domains[k] == d
  {
  }

  lemma TableHits(domains: seq<string>, host: string)
    requires EvalStmt(Table(KeySet(domains), Direct), host).Some?
    ensures AnyDomain(domains, host)
  {
    var keys := KeySet(domains);
    var i := Index(host, '.');
    SuffixWalkMeans(keys, host, i);
    var d := host;
    if host !in keys {
      var j :| i <= j < |host| && host[j] == '.' && host[j + 1..] in keys;
      d := host[j + 1..];
    }
    KeyIsDomain(domains, d);
    var k :| 0 <= k < |domains| && domains[k] == d;
    SuffixDot(host, d);
    assert DomainHit(domains[k], host);
  }

  lemma TableCovers(domains: seq<string>, host: string)
    requires AnyDomain(domains, host)
    ensures EvalStmt(Table(KeySet(domains), Direct), host).Some?
  {
    var keys := KeySet(domains);
    var k :| 0 <= k < |domains| && DomainHit(domains[k], host);
    assert domains[k] in keys;
    SuffixDot(host, domains[k]);
    if host != domains[k] {
      var i, j := Index(host, '.'), |host| - |domains[k]| - 1;
      IndexFromFirst(host, '.', 0, j);
      SuffixWalkMeans(keys, host, i);
      assert host[j + 1..] in keys;
    }
  }

  lemma TableMeans(domains: seq<string>, host: string)
    ensures EvalStmt(Table(KeySet(domains), Direct), host).Some? <==> AnyDomain(domains, host)
  {
    if EvalStmt(Table(KeySet(domains), Direct), host).Some? {
      TableHits(domains, host);
    }
    if AnyDomain(domains, host) {
      TableCovers(domains, host);
    }
  }

  /** On a host without '/', the two glob readings agree. */
  lemma {:induction false} GlobsAgree(pat: string, host: string)
    requires '/' !in host
    ensures PathMatch(pat, host) <==> ShExpMatch(host, pat)
    decreases |pat| + |host|
  {
    if pat != "" {
      if host != "" {
        assert '/' !in host[1..];
        GlobsAgree(pat, host[1..]);
        GlobsAgree(pat[1..], host[1..]);
      }
      GlobsAgree(pat[1..], host);
    }
  }

  lemma {:induction false} GlobChecksMean(globs: seq<string>, ret: Verdict, rest: Program, host: string)
    requires '/' !in host
    ensures Eval(GlobChecks(globs, ret) + rest, host) == if AnyGlob(globs, host) then ret else Eval(rest, host)
  {
    if globs == [] {
      assert GlobChecks(globs, ret) + rest == rest;
    } else {
      var n := |globs| - 1;
      var last := [GlobCheck(globs[n], ret)];
      assert GlobChecks(globs, ret) + rest == GlobChecks(globs[..n], ret) + (last + rest);
      GlobChecksMean(globs[..n], ret, last + rest, host);
      GlobsAgree(globs[n], host);
      assert (last + rest)[1..] == rest;
      AnyGlobAppend(globs[..n], globs[n], host);
      assert globs[..n] + [globs[n]] == globs;
    }
  }

  /** The two readings of the host as an address agree. */
  predicate AddressAgrees(host: string) {
    DottedAddress(host) == ParseIPv4(host)
  }

  lemma NetBlockMeans(nets: seq<Cidr>, ret: Verdict, rest: Program, host: string)
    requires AddressAgrees(host)
    ensures Eval(NetBlock(nets, ret) + rest, host) == if AnyNet(nets, host) then ret else Eval(rest, host)
  {
    if nets == [] {
      assert NetBlock(nets, ret) + rest == rest;
    } else {
      var p := NetBlock(nets, ret) + rest;
      assert p[1..] == rest;
      assert forall i :: 0 <= i < |nets| ==> (IsInNet(host, nets[i]) <==> NetHit(nets[i], host));
    }
  }

  lemma TableBlockMeans(domains: seq<string>, ret: Verdict, rest: Program, host: string)
    ensures Eval(TableBlock(domains, ret) + rest, host) == if AnyDomain(domains, host) then ret else Eval(rest, host)
  {
    if domains == [] {
      assert TableBlock(domains, ret) + rest == rest;
    } else {
      TableMeans(domains, host);
      var p := TableBlock(domains, ret) + rest;
      assert p[1..] == rest;
    }
  }

  lemma Regroup(a: Program, b: Program, c: Program, rest: Program)
    ensures a + b + c + rest == a + (b + (c + rest))
  {
  }

  lemma BlockMeans(cl: Classes, ret: Verdict, rest: Program, host: string)
    requires '/' !in host && AddressAgrees(host)
    ensures Eval(RuleBlock(cl, ret) + rest, host) == if ClassesMatch(cl, host) then ret else Eval(rest, host)
  {
    var tail := TableBlock(cl.domains, ret) + rest;
    var mid := GlobChecks(cl.globs, ret) + tail;
    Regroup(NetBlock(cl.nets, ret), GlobChecks(cl.globs, ret), TableBlock(cl.domains, ret), rest);
    NetBlockMeans(cl.nets, ret, mid, host);
    GlobChecksMean(cl.globs, ret, tail, host);
    TableBlockMeans(cl.domains, ret, rest, host);
  }

  lemma RuleBlockMeans(rules: seq<string>, ret: Verdict, rest: Program, host: string)
    requires '/' !in host && AddressAgrees(host)
    ensures Eval(RuleBlock(Classify(rules), ret) + rest, host)
         == if ListMatches(rules, host) then ret else Eval(rest, host)
  {
    ClassifyMeans(rules, host);
    BlockMeans(Classify(rules), ret, rest, host);
  }

  /** The include script proxies exactly the hosts a [proxy] entry matches. */
  lemma IncludePreservesMeaning(proxy: seq<string>, host: string)
    requires '/' !in host && AddressAgrees(host)
    ensures Eval(IncludeProgram(proxy), host) == UseProxy <==> ListMatches(proxy, host)
  {
    RuleBlockMeans(proxy, UseProxy, [Return(Direct)], host);
  }

  lemma PlainBlockMeans(bypassPlain: bool, rest: Program, host: string)
    ensures Eval(PlainBlock(bypassPlain) + rest, host) == if bypassPlain && '.' !in host then Direct else Eval(rest, host)
  {
    var p := PlainBlock(bypassPlain) + rest;
    assert if bypassPlain then p[1..] == rest else p == rest;
  }

  /** The exclude script decides as the Go matcher does, for all rule lists; [proxy] wins over
      [direct] and over the bare-name rule. */
  lemma ExcludePreservesMeaning(proxy: seq<string>, direct: seq<string>, bypassPlain: bool, host: string)
    requires '/' !in host && AddressAgrees(host)
    ensures Eval(ExcludeProgram(proxy, direct, bypassPlain), host) == Direct
        <==> GoesDirect(proxy, direct, bypassPlain, host)
    ensures ListMatches(proxy, host) ==> Eval(ExcludeProgram(proxy, direct, bypassPlain), host) == UseProxy
  {
    var block, last := RuleBlock(Classify(direct), Direct), [Return(UseProxy)];
    Regroup(RuleBlock(Classify(proxy), UseProxy), PlainBlock(bypassPlain), block, last);
    RuleBlockMeans(proxy, UseProxy, PlainBlock(bypassPlain) + (block + last), host);
    PlainBlockMeans(bypassPlain, block + last, host);
    RuleBlockMeans(direct, Direct, last, host);
  }

  /** A canonical dotted quad is read alike by both sides, and so is a host that no address
      reader accepts. */
  lemma CanonicalAgrees(host: string)
    requires ParseIPv4(host).Some? || !LooksDotted(host)
    ensures AddressAgrees(host)
  {
  }

  predicate LeadingZero(f: string) {
    |f| > 1 && f[0] == '0'
  }

  /** The two sides read a host differently exactly when it is four octets of which some has a
      leading zero. */
  lemma DisagreeingHosts(host: string)
    ensures !AddressAgrees(host)
       <==> && DottedAddress(host).Some?
            && var f := Split(host, '.');
               LeadingZero(f[0]) || LeadingZero(f[1]) || LeadingZero(f[2]) || LeadingZero(f[3])
  {
  }

  /** No wildcard of the list uses the bracket classes and escapes only the Go matcher knows. */
  ghost predicate PlainGlobs(rules: seq<string>) {
    forall i :: 0 <= i < |rules| ==> '[' !in Norm(rules[i]) && '\\' !in Norm(rules[i])
  }

  /** The address condition is exact: every other host is routed differently by the two sides
      under the one-entry list 0.0.0.0/0. */
  lemma AddressConditionIsExact(host: string)
    requires '/' !in host
    ensures AddressAgrees(host) <==>
      forall proxy :: PlainGlobs(proxy) ==> (Eval(IncludeProgram(proxy), host) == UseProxy <==> ListMatches(proxy, host))
  {
    if AddressAgrees(host) {
      forall proxy
        ensures Eval(IncludeProgram(proxy), host) == UseProxy <==> ListMatches(proxy, host)
      {
        IncludePreservesMeaning(proxy, host);
      }
    } else {
      DecimalOfDigits(0);
      EverythingRule(host, Digits(0));
    }
  }

  /** The entry 0.0.0.0/0, with `z` the text of zero. */
  lemma EverythingEntry(f: seq<string>, z: string, e: string)
    requires |f| == 4 && f[0] == z && f[1] == z && f[2] == z && f[3] == z
    requires CanonicalOctet(z) && Decimal(z) == 0 && e == Join(f, '.') + ['/'] + z
    ensures ParseCidr(e).Some? && ParseCidr(e).value.bits == 0
  {
    CidrParses(f, z);
  }

  /** A list whose only entry is the network of all addresses. */
  lemma OneNetRule(host: string, e: string)
    requires !AddressAgrees(host)
    requires Norm(e) == e && '/' in e && ParseCidr(e).Some? && ParseCidr(e).value.bits == 0
    ensures Eval(IncludeProgram([e]), host) == UseProxy && !ListMatches([e], host)
  {
    var rules := [e];
    var n := ParseCidr(e).value;
    assert rules[..0] == [];
    assert Classify(rules) == Classify1(NO_RULES, e) == NO_RULES.(cidrs := [] + [e], nets := [] + [n]);
    var nets := [n];
    assert Classify(rules).nets == nets;
    assert IncludeProgram(rules)[0] == NetGuard(nets, UseProxy);
    NoBits(DottedAddress(host).value, n.bits);
    NoBits(n.net, n.bits);
    assert IsInNet(host, nets[0]);
  }

  lemma EverythingRule(host: string, z: string)
    requires !AddressAgrees(host) && CanonicalOctet(z) && Decimal(z) == 0
    ensures exists rules :: PlainGlobs(rules) && Eval(IncludeProgram(rules), host) == UseProxy && !ListMatches(rules, host)
  {
    var f := [z, z, z, z];
    var e := Join(f, '.') + ['/'] + z;
    EverythingEntry(f, z, e);
    EverythingNorm(f, z, e);
    OneNetRule(host, e);
    assert PlainGlobs([e]);
  }

  lemma EverythingNorm(f: seq<string>, z: string, e: string)
    requires |f| == 4 && f[0] == z && f[1] == z && f[2] == z && f[3] == z && AllDigits(z) && e == Join(f, '.') + ['/'] + z
    ensures Norm(e) == e && '/' in e && '[' !in e && '\\' !in e
  {
    var q := Join(f, '.');
    forall c | c in e
      ensures IsDigit(c) || c == '.' || c == '/'
    {
      if c in q {
        JoinChars(f, '.', c);
      }
    }
    assert e[0] == z[0] && e[|e| - 1] == z[|z| - 1] && e[|q|] == '/';
    assert IsDigit(z[0]) && IsDigit(z[|z| - 1]);
    assert forall i :: 0 <= i < |e| ==> e[i] in e;
    TrimOfTrimmed(e);
    assert Lower(e) == e;
  }
}
