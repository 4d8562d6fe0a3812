/**
 The proxy and forwarder configurations generated from a set of profiles. Rendering one
 profile, parsing IP literals and parsing probe URLs are foreign: their outcomes are part
 of `Profile` and `World`.
 */
module Singbox {
  import opened Wrappers
  import opened Text
  import opened Distinct

  const PROXY := "proxy"
  const AUTO := "auto"
  const DIRECT := "direct"
  const BLOCK := "block"
  const SOCKS_OUT := "socks-out"
  const PROXY_DNS := "proxy-dns"
  const FWD_DNS := "fwd-dns"
  const BOOT_DNS := "boot-dns"
  const LOCAL := "local"

  datatype Ip = NotIp | V4 | V6
  datatype World = World(ip: string -> Ip, hostOfUrl: string -> string)

  datatype Kind = AsOutbound | AsEndpoint

  /** A profile as its protocol module renders it: where the node goes and what it dials. */
  datatype Profile = Profile(renders: bool, kind: Kind, hosts: seq<string>)

  datatype FirewallRule = FirewallRule(domain: string, cidr: string, process: string, block: bool)

  datatype Outbound =
    | Server(tag: string, hosts: seq<string>)
    | UrlTest(tag: string, members: seq<string>, url: string)
    | Selector(tag: string, members: seq<string>, default: string)
    | Direct(tag: string, bind: string)
    | Block(tag: string)
    | Socks(tag: string, port: int)

  datatype Cond =
    | Any | DnsOnTun | PrivateIp | Russian
    | DomainSuffix(domain: string) | IpCidr(cidr: string) | Process(name: string)
  datatype Action = Sniff | HijackDns | To(tag: string)
  datatype RouteRule = RouteRule(cond: Cond, action: Action)

  datatype DnsServer = DnsServer(tag: string, detour: string)    // detour "" is none
  datatype DnsRule = DnsRule(domains: seq<string>, server: string)

  datatype Config = Config(
    dnsServers: seq<DnsServer>, dnsRules: seq<DnsRule>, dnsFinal: string,
    outbounds: seq<Outbound>, endpoints: seq<Outbound>,
    rules: seq<RouteRule>, final: string, resolver: string)

  datatype Options = Options(physIface: string, testUrl: string, firewall: seq<FirewallRule>)

  // ---------------------------------------------------------------- the proxy configuration

  function ServerTag(multi: bool, i: nat): string {
    if multi then "proxy-" + Digits(i) else PROXY
  }

  function Tags(multi: bool, n: nat): (r: seq<string>)
    ensures |r| == n && forall i :: 0 <= i < n ==> r[i] == ServerTag(multi, i)
  {
    seq(n, i requires 0 <= i => ServerTag(multi, i))
  }

  /** The servers of one kind among the first `n` profiles. */
  function Nodes(profiles: seq<Profile>, n: nat, kind: Kind): seq<Outbound>
    requires n <= |profiles|
  {
    if n == 0 then []
    else
      Nodes(profiles, n - 1, kind)
      + if kind == profiles[n - 1].kind then [Server(ServerTag(|profiles| > 1, n - 1), profiles[n - 1].hosts)] else []
  }

  predicate NeedsDns(w: World, host: string) {
    host != "" && w.ip(host) == NotIp
  }

  function NonLiteral(w: World, hosts: seq<string>): seq<string> {
    if hosts == [] then []
    else NonLiteral(w, hosts[..|hosts| - 1])
         + if NeedsDns(w, hosts[|hosts| - 1]) then [hosts[|hosts| - 1]] else []
  }

  function DialHosts(w: World, profiles: seq<Profile>, n: nat): seq<string>
    requires n <= |profiles|
  {
    if n == 0 then [] else DialHosts(w, profiles, n - 1) + NonLiteral(w, profiles[n - 1].hosts)
  }

  function ProbeHost(w: World, url: string): string {
    var h := w.hostOfUrl(url);
    if NeedsDns(w, h) then h else ""
  }

  const DEFAULT_TEST_URL := "https://www.gstatic.com/generate_204"

  function TestUrl(o: Options): string {
    if o.testUrl == "" then DEFAULT_TEST_URL else o.testUrl
  }

  function BootHosts(w: World, profiles: seq<Profile>, o: Options): seq<string> {
    Dedupe(DialHosts(w, profiles, |profiles|) + if |profiles| > 1 then [ProbeHost(w, TestUrl(o))] else [])
  }

  function Groups(n: nat, o: Options): seq<Outbound> {
    if n > 1 then
      [UrlTest(AUTO, Tags(true, n), TestUrl(o)), Selector(PROXY, [AUTO] + Tags(true, n), AUTO)]
    else []
  }

  function Matcher(r: FirewallRule): Option<Cond> {
    if r.domain != "" then Some(DomainSuffix(r.domain))
    else if r.cidr != "" then Some(IpCidr(r.cidr))
    else if r.process != "" then Some(Process(r.process))
    else None
  }

  function FirewallRoutes(rules: seq<FirewallRule>): seq<RouteRule> {
    if rules == [] then []
    else
      var r := rules[|rules| - 1];
      FirewallRoutes(rules[..|rules| - 1])
      + if Matcher(r).None? then [] else [RouteRule(Matcher(r).value, To(if r.block then BLOCK else DIRECT))]
  }

  predicate Blocks(rules: seq<FirewallRule>) {
    exists i :: 0 <= i < |rules| && Matcher(rules[i]).Some? && rules[i].block
  }

  predicate AllRender(profiles: seq<Profile>) {
    forall i :: 0 <= i < |profiles| ==> profiles[i].renders
  }

  function ProxyOutbounds(profiles: seq<Profile>, o: Options): seq<Outbound> {
    Nodes(profiles, |profiles|, AsOutbound) + OwnOutbounds(|profiles|, o)
  }

  function OwnOutbounds(n: nat, o: Options): seq<Outbound> {
    Groups(n, o) + [Direct(DIRECT, o.physIface)] + if Blocks(o.firewall) then [Block(BLOCK)] else []
  }

  function ProxyDns(boot: seq<string>): seq<DnsServer> {
    [DnsServer(PROXY_DNS, PROXY), DnsServer(LOCAL, "")] + if boot == [] then [] else [DnsServer(BOOT_DNS, "")]
  }

  function ProxyRules(firewall: seq<FirewallRule>): seq<RouteRule> {
    [RouteRule(Any, Sniff)] + FirewallRoutes(firewall)
    + [RouteRule(PrivateIp, To(DIRECT)), RouteRule(Russian, To(DIRECT))]
  }

  function ProxyConfig(w: World, profiles: seq<Profile>, o: Options): Option<Config> {
    if profiles == [] || !AllRender(profiles) then None
    else
      var boot := BootHosts(w, profiles, o);
      Some(Config(
        ProxyDns(boot),
        if boot == [] then [] else [DnsRule(boot, BOOT_DNS)],
        PROXY_DNS,
        ProxyOutbounds(profiles, o), Nodes(profiles, |profiles|, AsEndpoint), ProxyRules(o.firewall),
        PROXY, LOCAL))
  }

  method NonLiteralHosts(w: World, hosts: seq<string>) returns (out: seq<string>)
    ensures out == NonLiteral(w, hosts)
  {
    out := [];
    for i := 0 to |hosts|
      invariant out == NonLiteral(w, hosts[..i])
    {
      assert hosts[..i + 1][..i] == hosts[..i];
      if hosts[i] != "" && w.ip(hosts[i]) == NotIp {
        out := out + [hosts[i]];
      }
    }
    assert hosts[..|hosts|] == hosts;
  }

  method FirewallRouteRules(rules: seq<FirewallRule>) returns (extra: seq<Outbound>, routes: seq<RouteRule>)
    ensures routes == FirewallRoutes(rules)
    ensures extra == if Blocks(rules) then [Block(BLOCK)] else []
  {
    var needsBlock := false;
    routes := [];
    for i := 0 to |rules|
      invariant routes == FirewallRoutes(rules[..i])
      invariant needsBlock <==> exists k :: 0 <= k < i && Matcher(rules[k]).Some? && rules[k].block
    {
      assert rules[..i + 1][..i] == rules[..i];
      var cond := Matcher(rules[i]);
      if cond.None? {
        continue;
      }
      var tag := DIRECT;
      if rules[i].block {
        tag := BLOCK;
        needsBlock := true;
      }
      routes := routes + [RouteRule(cond.value, To(tag))];
    }
    assert rules[..|rules|] == rules;
    extra := [];
    if needsBlock {
      extra := extra + [Block(BLOCK)];
    }
  }

  lemma TagsSnoc(n: nat)
    ensures Tags(true, n + 1) == Tags(true, n) + [ServerTag(true, n)]
  {
  }

  method PlaceNode(outbounds: seq<Outbound>, endpoints: seq<Outbound>, kind: Kind, node: Outbound)
    returns (outs: seq<Outbound>, ends: seq<Outbound>)
    ensures outs == outbounds + if kind == AsOutbound then [node] else []
    ensures ends == endpoints + if kind == AsEndpoint then [node] else []
  {
    if kind == AsEndpoint {
      return outbounds, endpoints + [node];
    }
    return outbounds + [node], endpoints;
  }

  method PlaceServers(w: World, profiles: seq<Profile>)
    returns (ok: bool, outbounds: seq<Outbound>, endpoints: seq<Outbound>, tags: seq<string>, hosts: seq<string>)
    ensures ok <==> AllRender(profiles)
    ensures ok ==>
      && outbounds == Nodes(profiles, |profiles|, AsOutbound)
      && endpoints == Nodes(profiles, |profiles|, AsEndpoint)
      && tags == (if |profiles| > 1 then Tags(true, |profiles|) else [])
      && hosts == DialHosts(w, profiles, |profiles|)
  {
    outbounds, endpoints, tags, hosts := [], [], [], [];
    var multi := |profiles| > 1;
    for i := 0 to |profiles|
      invariant forall k :: 0 <= k < i ==> profiles[k].renders
      invariant outbounds == Nodes(profiles, i, AsOutbound)
      invariant endpoints == Nodes(profiles, i, AsEndpoint)
      invariant tags == if multi then Tags(true, i) else []
      invariant hosts == DialHosts(w, profiles, i)
    {
      var tag := PROXY;
      if multi {
        tag := ServerTag(true, i);
        TagsSnoc(i);
        tags := tags + [tag];
      }
      if !profiles[i].renders {
        ok := false;
        return;
      }
      assert tag == ServerTag(multi, i);
      var node := Server(tag, profiles[i].hosts);
      outbounds, endpoints := PlaceNode(outbounds, endpoints, profiles[i].kind, node);
      var dial := NonLiteralHosts(w, profiles[i].hosts);
      hosts := hosts + dial;
    }
    ok := true;
  }

  method AddOwn(nodes: seq<Outbound>, n: nat, tags: seq<string>, o: Options)
    returns (outbounds: seq<Outbound>, rules: seq<RouteRule>)
    requires n > 1 ==> tags == Tags(true, n)
    ensures outbounds == nodes + OwnOutbounds(n, o)
    ensures rules == ProxyRules(o.firewall)
  {
    outbounds := nodes;
    if n > 1 {
      outbounds := outbounds + [UrlTest(AUTO, tags, TestUrl(o))];
      outbounds := outbounds + [Selector(PROXY, [AUTO] + tags, AUTO)];
    }
    assert outbounds == nodes + Groups(n, o);
    outbounds := outbounds + [Direct(DIRECT, o.physIface)];
    var extra, routes := FirewallRouteRules(o.firewall);
    outbounds := outbounds + extra;
    rules := [RouteRule(Any, Sniff)] + routes;
    rules := rules + [RouteRule(PrivateIp, To(DIRECT)), RouteRule(Russian, To(DIRECT))];
  }

  method GenerateProxyConfig(w: World, profiles: seq<Profile>, o: Options) returns (r: Option<Config>)
    ensures r == ProxyConfig(w, profiles, o)
  {
    if |profiles| == 0 {
      return None;
    }
    var ok, nodes, endpoints, tags, hosts := PlaceServers(w, profiles);
    if !ok {
      return None;
    }
    var outbounds, rules := AddOwn(nodes, |profiles|, tags, o);
    if |profiles| > 1 {
      hosts := hosts + [ProbeHost(w, TestUrl(o))];
    }
    assert hosts == DialHosts(w, profiles, |profiles|) + if |profiles| > 1 then [ProbeHost(w, TestUrl(o))] else [];
    var servers, dnsRules := [DnsServer(PROXY_DNS, PROXY), DnsServer(LOCAL, "")], [];
    var boot := DedupeLoop(hosts);
    assert boot == BootHosts(w, profiles, o);
    if |boot| > 0 {
      servers := servers + [DnsServer(BOOT_DNS, "")];
      dnsRules := dnsRules + [DnsRule(boot, BOOT_DNS)];
    }
    assert servers == ProxyDns(boot) && dnsRules == if boot == [] then [] else [DnsRule(boot, BOOT_DNS)];
    r := Some(Config(servers, dnsRules, PROXY_DNS, outbounds, endpoints, rules, PROXY, LOCAL));
  }

  // ---------------------------------------------------------------- tags

  function TagsOf(s: seq<Outbound>): (r: seq<string>)
    ensures |r| == |s| && forall i :: 0 <= i < |s| ==> r[i] == s[i].tag
  {
    seq(|s|, i requires 0 <= i < |s| => s[i].tag)
  }

  lemma ServerTagsDiffer(i: nat, j: nat)
    requires i != j
    ensures ServerTag(true, i) != ServerTag(true, j)
  {
    var prefix := "proxy-";
    if prefix + Digits(i) == prefix + Digits(j) {
      assert (prefix + Digits(i))[6..] == Digits(i) && (prefix + Digits(j))[6..] == Digits(j);
      DigitsInjective(i, j);
    }
  }

  lemma ServerTagIsOwn(i: nat)
    ensures ServerTag(true, i) !in [PROXY, AUTO, DIRECT, BLOCK]
  {
    var t := ServerTag(true, i);
    assert |t| > 5 && t[0] == 'p';
  }

  predicate IsNode(profiles: seq<Profile>, n: nat, kind: Kind, i: int, node: Outbound)
    requires n <= |profiles|
  {
    0 <= i < n && profiles[i].kind == kind && node == Server(ServerTag(|profiles| > 1, i), profiles[i].hosts)
  }

  /** Every node is the server of some profile of its kind, */
  lemma {:induction false} NodeAt(profiles: seq<Profile>, n: nat, kind: Kind, k: nat) returns (i: nat)
    requires n <= |profiles| && k < |Nodes(profiles, n, kind)|
    ensures IsNode(profiles, n, kind, i, Nodes(profiles, n, kind)[k])
  {
    if k < |Nodes(profiles, n - 1, kind)| {
      i := NodeAt(profiles, n - 1, kind, k);
    } else {
      i := n - 1;
    }
  }

  /** and every profile has its node. */
  lemma {:induction false} NodeOf(profiles: seq<Profile>, n: nat, i: nat)
    requires i < n <= |profiles|
    ensures Server(ServerTag(|profiles| > 1, i), profiles[i].hosts) in Nodes(profiles, n, profiles[i].kind)
  {
    if i < n - 1 {
      NodeOf(profiles, n - 1, i);
    } else {
      var s := Nodes(profiles, n, profiles[i].kind);
      assert s[|s| - 1] == Server(ServerTag(|profiles| > 1, i), profiles[i].hosts);
    }
  }

  /** Tags of outbounds and endpoints together. */
  function AllTags(c: Config): seq<string> {
    TagsOf(c.outbounds) + TagsOf(c.endpoints)
  }

  lemma {:induction false} NodeTagsDiffer(profiles: seq<Profile>, n: nat, kind: Kind)
    requires n <= |profiles| && |profiles| > 1
    ensures NoDup(TagsOf(Nodes(profiles, n, kind)))
  {
    if n > 0 {
      var m := n - 1;
      NodeTagsDiffer(profiles, m, kind);
      var p, s := Nodes(profiles, m, kind), Nodes(profiles, n, kind);
      forall k | 0 <= k < |p|
        ensures p[k].tag != ServerTag(true, m)
      {
        var i := NodeAt(profiles, m, kind, k);
        ServerTagsDiffer(i, m);
      }
      assert TagsOf(s) == TagsOf(p) + if |s| > |p| then [ServerTag(true, m)] else [];
      NoDupSnoc(TagsOf(p), ServerTag(true, m));
    }
  }

  lemma KindsDiffer(profiles: seq<Profile>)
    requires |profiles| > 1
    ensures NoDup(TagsOf(Nodes(profiles, |profiles|, AsOutbound)) + TagsOf(Nodes(profiles, |profiles|, AsEndpoint)))
  {
    var n := |profiles|;
    var a, b := Nodes(profiles, n, AsOutbound), Nodes(profiles, n, AsEndpoint);
    NodeTagsDiffer(profiles, n, AsOutbound);
    NodeTagsDiffer(profiles, n, AsEndpoint);
    forall k, l | 0 <= k < |a| && 0 <= l < |b|
      ensures TagsOf(a)[k] != TagsOf(b)[l]
    {
      var i := NodeAt(profiles, n, AsOutbound, k);
      var j := NodeAt(profiles, n, AsEndpoint, l);
      ServerTagsDiffer(i, j);
    }
    NoDupAppend(TagsOf(a), TagsOf(b));
  }

  /** The tags the generator adds itself. */
  function OwnTags(multi: bool, block: bool): seq<string> {
    (if multi then [AUTO, PROXY] else []) + [DIRECT] + if block then [BLOCK] else []
  }

  lemma OwnTagsDiffer(multi: bool, block: bool)
    ensures NoDup(OwnTags(multi, block))
    ensures !multi ==> PROXY !in OwnTags(multi, block)
  {
    assert AUTO[0] == 'a' && PROXY[0] == 'p' && DIRECT[0] == 'd' && BLOCK[0] == 'b';
  }

  lemma TagsAppend(s: seq<Outbound>, t: seq<Outbound>)
    ensures TagsOf(s + t) == TagsOf(s) + TagsOf(t)
  {
  }

  lemma OwnTagsAre(n: nat, o: Options)
    ensures TagsOf(OwnOutbounds(n, o)) == OwnTags(n > 1, Blocks(o.firewall))
  {
  }

  lemma NoDupInsert<T>(a: seq<T>, own: seq<T>, b: seq<T>)
    requires NoDup(a + b) && NoDup(own)
    requires forall x :: x in a || x in b ==> x !in own
    ensures NoDup(a + own + b)
  {
    assert forall x :: x in a + b <==> x in a || x in b;
    assert NoDup(a) by {
      assert forall i :: 0 <= i < |a| ==> a[i] == (a + b)[i];
    }
    assert NoDup(b) by {
      assert forall i :: 0 <= i < |b| ==> b[i] == (a + b)[|a| + i];
    }
    assert forall i, j :: 0 <= i < |a| && 0 <= j < |b| ==> a[i] != b[j] by {
      assert forall i :: 0 <= i < |a| ==> a[i] == (a + b)[i];
      assert forall j :: 0 <= j < |b| ==> b[j] == (a + b)[|a| + j];
    }
    NoDupAppend(a, own);
    NoDupAppend(a + own, b);
  }

  lemma SingleNode(profiles: seq<Profile>)
    requires |profiles| == 1
    ensures
      TagsOf(Nodes(profiles, 1, AsOutbound)) + TagsOf(Nodes(profiles, 1, AsEndpoint)) == [PROXY]
  {
    assert Nodes(profiles, 0, AsOutbound) == [] && Nodes(profiles, 0, AsEndpoint) == [];
  }

  /** Outbound and endpoint tags are unique. */
  lemma TagsUnique(w: World, profiles: seq<Profile>, o: Options)
    requires ProxyConfig(w, profiles, o).Some?
    ensures NoDup(AllTags(ProxyConfig(w, profiles, o).value))
  {
    var n := |profiles|;
    var a, b := TagsOf(Nodes(profiles, n, AsOutbound)), TagsOf(Nodes(profiles, n, AsEndpoint));
    var own := OwnTags(n > 1, Blocks(o.firewall));
    OwnTagsDiffer(n > 1, Blocks(o.firewall));
    OwnTagsAre(n, o);
    TagsAppend(Nodes(profiles, n, AsOutbound), OwnOutbounds(n, o));
    if n > 1 {
      KindsDiffer(profiles);
      NodeTagsForeign(profiles, AsOutbound, own);
      NodeTagsForeign(profiles, AsEndpoint, own);
    } else {
      SingleNode(profiles);
      assert forall x :: x in a || x in b ==> x in a + b;
    }
    NoDupInsert(a, own, b);
  }

  lemma NodeTagsForeign(profiles: seq<Profile>, kind: Kind, own: seq<string>)
    requires |profiles| > 1 && exists block :: own == OwnTags(true, block)
    ensures
      var s := TagsOf(Nodes(profiles, |profiles|, kind));
      forall x :: x in s ==> x !in own
  {
    var nodes := Nodes(profiles, |profiles|, kind);
    forall k | 0 <= k < |nodes|
      ensures TagsOf(nodes)[k] !in own
    {
      var i := NodeAt(profiles, |profiles|, kind, k);
      ServerTagIsOwn(i);
    }
  }

  // ---------------------------------------------------------------- references

  function DnsTags(c: Config): set<string> {
    set s | s in c.dnsServers :: s.tag
  }

  /** Everything an outbound names is a tag of the configuration. */
  predicate Resolves(o: Outbound, tags: seq<string>) {
    match o
    case UrlTest(_, members, _) => members != [] && forall m :: m in members ==> m in tags
    case Selector(_, members, default) => default in members && forall m :: m in members ==> m in tags
    case _ => true
  }

  predicate Closed(c: Config) {
    var tags := AllTags(c);
    && c.final in tags && c.dnsFinal in DnsTags(c) && (c.resolver != "" ==> c.resolver in DnsTags(c))
    && AllResolve(c.outbounds + c.endpoints, tags)
    && (forall r :: r in c.rules && r.action.To? ==> r.action.tag in tags)
    && (forall s :: s in c.dnsServers && s.detour != "" ==> s.detour in tags)
    && (forall r :: r in c.dnsRules ==> r.server in DnsTags(c))
  }

  lemma {:induction false} FirewallTargets(rules: seq<FirewallRule>)
    ensures forall r :: r in FirewallRoutes(rules) ==>
      r.action == To(DIRECT) || (r.action == To(BLOCK) && Blocks(rules))
  {
    if rules != [] {
      var p := rules[..|rules| - 1];
      FirewallTargets(p);
      assert Blocks(p) ==> Blocks(rules) by {
        assert forall i :: 0 <= i < |p| ==> p[i] == rules[i];
      }
    }
  }

  lemma TagsContain(s: seq<Outbound>, o: Outbound)
    requires o in s
    ensures o.tag in TagsOf(s)
  {
    var i :| 0 <= i < |s| && s[i] == o;
    assert TagsOf(s)[i] == o.tag;
  }

  lemma ServersTagged(profiles: seq<Profile>, i: nat)
    requires i < |profiles|
    ensures ServerTag(|profiles| > 1, i)
         in TagsOf(Nodes(profiles, |profiles|, AsOutbound)) + TagsOf(Nodes(profiles, |profiles|, AsEndpoint))
  {
    NodeOf(profiles, |profiles|, i);
    TagsContain(Nodes(profiles, |profiles|, profiles[i].kind), Server(ServerTag(|profiles| > 1, i), profiles[i].hosts));
  }

  /** Which tags there are: one per profile, and the generator's own. */
  lemma AllTagsAre(w: World, profiles: seq<Profile>, o: Options)
    requires ProxyConfig(w, profiles, o).Some?
    ensures
      var tags := AllTags(ProxyConfig(w, profiles, o).value);
      && (forall t :: t in Tags(|profiles| > 1, |profiles|) ==> t in tags)
      && (forall t :: t in OwnTags(|profiles| > 1, Blocks(o.firewall)) ==> t in tags)
      && PROXY in tags
  {
    var n := |profiles|;
    OwnTagsAre(n, o);
    TagsAppend(Nodes(profiles, n, AsOutbound), OwnOutbounds(n, o));
    var tags := Tags(n > 1, n);
    forall t | t in tags
      ensures t in AllTags(ProxyConfig(w, profiles, o).value)
    {
      var i :| 0 <= i < n && tags[i] == t;
      ServersTagged(profiles, i);
    }
    if n > 1 {
      assert OwnTags(true, Blocks(o.firewall))[1] == PROXY;
    } else {
      assert tags[0] == PROXY;
    }
  }

  predicate AllResolve(s: seq<Outbound>, tags: seq<string>) {
    forall x :: x in s ==> Resolves(x, tags)
  }

  lemma ResolveAppend(s: seq<Outbound>, t: seq<Outbound>, tags: seq<string>)
    requires AllResolve(s, tags) && AllResolve(t, tags)
    ensures AllResolve(s + t, tags)
  {
  }

  lemma GroupsResolve(n: nat, o: Options, tags: seq<string>)
    requires n > 1 && AUTO in tags && forall t :: t in Tags(true, n) ==> t in tags
    ensures AllResolve(Groups(n, o), tags)
  {
    var test, choice := Groups(n, o)[0], Groups(n, o)[1];
    assert Resolves(test, tags);
    assert choice.members == [AUTO] + Tags(true, n) && choice.members[0] == AUTO;
    assert Resolves(choice, tags);
    assert Groups(n, o) == [test, choice];
  }

  lemma OwnResolve(n: nat, o: Options, tags: seq<string>)
    requires n > 1 ==> AUTO in tags && forall t :: t in Tags(true, n) ==> t in tags
    ensures AllResolve(OwnOutbounds(n, o), tags)
  {
    if n > 1 {
      GroupsResolve(n, o, tags);
    }
    assert AllResolve(Groups(n, o), tags);
    var direct, block := [Direct(DIRECT, o.physIface)], if Blocks(o.firewall) then [Block(BLOCK)] else [];
    ResolveAppend(Groups(n, o), direct, tags);
    ResolveAppend(Groups(n, o) + direct, block, tags);
  }

  lemma RulesResolve(firewall: seq<FirewallRule>, multi: bool, tags: seq<string>)
    requires forall t :: t in OwnTags(multi, Blocks(firewall)) ==> t in tags
    ensures forall r :: r in ProxyRules(firewall) && r.action.To? ==> r.action.tag in tags
  {
    FirewallTargets(firewall);
    assert DIRECT in OwnTags(multi, Blocks(firewall));
    assert Blocks(firewall) ==> BLOCK in OwnTags(multi, Blocks(firewall));
  }

  /** Every tag the proxy configuration refers to is defined in it. */
  lemma ReferencesDefined(w: World, profiles: seq<Profile>, o: Options)
    requires ProxyConfig(w, profiles, o).Some?
    ensures Closed(ProxyConfig(w, profiles, o).value)
  {
    var c := ProxyConfig(w, profiles, o).value;
    AllTagsAre(w, profiles, o);
    if |profiles| > 1 {
      assert OwnTags(true, Blocks(o.firewall))[0] == AUTO;
    }
    OwnResolve(|profiles|, o, AllTags(c));
    NodesAreServers(profiles, |profiles|, AsOutbound);
    NodesAreServers(profiles, |profiles|, AsEndpoint);
    ResolveAppend(Nodes(profiles, |profiles|, AsOutbound), OwnOutbounds(|profiles|, o), AllTags(c));
    ResolveAppend(c.outbounds, c.endpoints, AllTags(c));
    RulesResolve(o.firewall, |profiles| > 1, AllTags(c));
    DnsDefined(c, BootHosts(w, profiles, o));
  }

  lemma NodesAreServers(profiles: seq<Profile>, n: nat, kind: Kind)
    requires n <= |profiles|
    ensures forall x :: x in Nodes(profiles, n, kind) ==> x.Server?
  {
    forall x | x in Nodes(profiles, n, kind)
      ensures x.Server?
    {
      var k :| 0 <= k < |Nodes(profiles, n, kind)| && Nodes(profiles, n, kind)[k] == x;
      var i := NodeAt(profiles, n, kind, k);
    }
  }

  lemma DnsDefined(c: Config, boot: seq<string>)
    requires c.dnsServers == ProxyDns(boot)
    ensures PROXY_DNS in DnsTags(c) && LOCAL in DnsTags(c) && (boot != [] ==> BOOT_DNS in DnsTags(c))
    ensures forall s :: s in c.dnsServers && s.detour != "" ==> s.detour == PROXY
  {
    assert c.dnsServers[0].tag == PROXY_DNS && c.dnsServers[1].tag == LOCAL;
    assert boot != [] ==> c.dnsServers[2].tag == BOOT_DNS;
  }

  /** The block outbound exists exactly when some usable rule blocks something. */
  lemma BlockIffNeeded(w: World, profiles: seq<Profile>, o: Options)
    requires ProxyConfig(w, profiles, o).Some?
    ensures Block(BLOCK) in ProxyConfig(w, profiles, o).value.outbounds <==> Blocks(o.firewall)
    ensures Blocks(o.firewall) <==> exists r :: r in ProxyConfig(w, profiles, o).value.rules && r.action == To(BLOCK)
  {
    NodesAreServers(profiles, |profiles|, AsOutbound);
    FirewallTargets(o.firewall);
    if Blocks(o.firewall) {
      BlockRouted(o.firewall);
    }
  }

  lemma {:induction false} BlockRouted(rules: seq<FirewallRule>)
    requires Blocks(rules)
    ensures exists r :: r in FirewallRoutes(rules) && r.action == To(BLOCK)
  {
    var p, last := rules[..|rules| - 1], rules[|rules| - 1];
    if Matcher(last).Some? && last.block {
      assert RouteRule(Matcher(last).value, To(BLOCK)) in FirewallRoutes(rules);
    } else {
      var i :| 0 <= i < |rules| && Matcher(rules[i]).Some? && rules[i].block;
      assert p[i] == rules[i];
      BlockRouted(p);
      var r :| r in FirewallRoutes(p) && r.action == To(BLOCK);
      assert r in FirewallRoutes(rules);
    }
  }

  // ---------------------------------------------------------------- routing decisions

  /** A connection is what it matches. */
  type Traffic = Cond -> bool

  datatype Verdict = Hijacked | Sent(tag: string)

  /** The first matching rule that decides; sniffing decides nothing. */
  function Decision(rules: seq<RouteRule>, final: string, m: Traffic): Verdict {
    if rules == [] then Sent(final)
    else if m(rules[0].cond) && rules[0].action.To? then Sent(rules[0].action.tag)
    else if m(rules[0].cond) && rules[0].action.HijackDns? then Hijacked
    else Decision(rules[1..], final, m)
  }

  predicate Undecided(rules: seq<RouteRule>, m: Traffic) {
    forall i :: 0 <= i < |rules| ==> m(rules[i].cond) ==> rules[i].action.Sniff?
  }

  lemma {:induction false} UndecidedFront(front: seq<RouteRule>, rest: seq<RouteRule>, final: string, m: Traffic)
    requires Undecided(front, m)
    ensures Decision(front + rest, final, m) == Decision(rest, final, m)
  {
    if front == [] {
      assert front + rest == rest;
    } else {
      assert (front + rest)[1..] == front[1..] + rest;
      UndecidedFront(front[1..], rest, final, m);
    }
  }

  /** The firewall rule `i` is usable and matches. */
  predicate Matches(rules: seq<FirewallRule>, m: Traffic, i: int) {
    0 <= i < |rules| && Matcher(rules[i]).Some? && m(Matcher(rules[i]).value)
  }

  lemma {:induction false} FirewallDecides(rules: seq<FirewallRule>, rest: seq<RouteRule>, final: string, m: Traffic, i: int)
    requires Matches(rules, m, i) && forall j :: 0 <= j < i ==> !Matches(rules, m, j)
    ensures Decision(FirewallRoutes(rules) + rest, final, m) == Sent(if rules[i].block then BLOCK else DIRECT)
  {
    var p, last := rules[..|rules| - 1], rules[|rules| - 1];
    var own := if Matcher(last).None? then [] else [RouteRule(Matcher(last).value, To(if last.block then BLOCK else DIRECT))];
    assert FirewallRoutes(rules) + rest == FirewallRoutes(p) + (own + rest);
    assert forall j :: 0 <= j < |p| ==> (Matches(p, m, j) <==> Matches(rules, m, j));
    if i < |p| {
      FirewallDecides(p, own + rest, final, m, i);
    } else {
      FirewallSilent(p, m);
      UndecidedFront(FirewallRoutes(p), own + rest, final, m);
    }
  }

  lemma {:induction false} FirewallSilent(rules: seq<FirewallRule>, m: Traffic)
    requires forall j :: 0 <= j < |rules| ==> !Matches(rules, m, j)
    ensures Undecided(FirewallRoutes(rules), m)
  {
    if rules != [] {
      var p := rules[..|rules| - 1];
      assert forall j :: 0 <= j < |p| ==> (Matches(p, m, j) <==> Matches(rules, m, j));
      FirewallSilent(p, m);
      assert !Matches(rules, m, |rules| - 1);
    }
  }

  /** Apart from its routes and the block outbound, a configuration does not depend on the firewall. */
  lemma FirewallAddsOnly(w: World, profiles: seq<Profile>, o: Options)
    requires ProxyConfig(w, profiles, o).Some?
    ensures
      var c, plain := ProxyConfig(w, profiles, o).value, ProxyConfig(w, profiles, o.(firewall := [])).value;
      && c == plain.(rules := c.rules, outbounds := c.outbounds)
      && c.outbounds == plain.outbounds + if Blocks(o.firewall) then [Block(BLOCK)] else []
  {
    assert BootHosts(w, profiles, o) == BootHosts(w, profiles, o.(firewall := []));
    assert Groups(|profiles|, o) == Groups(|profiles|, o.(firewall := []));
  }

  /** Rule `i` of the firewall is the first usable one that matches. */
  predicate FirstMatch(rules: seq<FirewallRule>, m: Traffic, i: int) {
    Matches(rules, m, i) && forall j :: 0 <= j < i ==> !Matches(rules, m, j)
  }

  lemma TailDecides(m: Traffic)
    ensures Decision([RouteRule(PrivateIp, To(DIRECT)), RouteRule(Russian, To(DIRECT))], PROXY, m)
         == Sent(if m(PrivateIp) || m(Russian) then DIRECT else PROXY)
  {
    var tail := [RouteRule(PrivateIp, To(DIRECT)), RouteRule(Russian, To(DIRECT))];
    DirectRules(tail, PROXY, m);
    assert RouteRule(PrivateIp, To(DIRECT)) == tail[0] && RouteRule(Russian, To(DIRECT)) == tail[1];
  }

  /** Where the proxy configuration sends a connection: the first firewall rule that matches
      decides; else private networks and Russian domains go direct; everything else to the proxy. */
  lemma ProxyRelays(w: World, profiles: seq<Profile>, o: Options, m: Traffic)
    requires ProxyConfig(w, profiles, o).Some?
    ensures
      var c := ProxyConfig(w, profiles, o).value;
      && (forall i :: FirstMatch(o.firewall, m, i) ==>
            Decision(c.rules, c.final, m) == Sent(if o.firewall[i].block then BLOCK else DIRECT))
      && ((forall i :: !Matches(o.firewall, m, i)) ==>
            Decision(c.rules, c.final, m) == Sent(if m(PrivateIp) || m(Russian) then DIRECT else PROXY))
  {
    var c := ProxyConfig(w, profiles, o).value;
    var sniff, tail := [RouteRule(Any, Sniff)], [RouteRule(PrivateIp, To(DIRECT)), RouteRule(Russian, To(DIRECT))];
    assert c.rules == sniff + (FirewallRoutes(o.firewall) + tail);
    UndecidedFront(sniff, FirewallRoutes(o.firewall) + tail, PROXY, m);
    forall i | FirstMatch(o.firewall, m, i)
      ensures Decision(c.rules, c.final, m) == Sent(if o.firewall[i].block then BLOCK else DIRECT)
    {
      FirewallDecides(o.firewall, tail, PROXY, m, i);
    }
    if forall i :: !Matches(o.firewall, m, i) {
      FirewallSilent(o.firewall, m);
      UndecidedFront(FirewallRoutes(o.firewall), tail, PROXY, m);
      TailDecides(m);
    }
  }

  /** Firewall rules change the decision only for traffic they match. */
  lemma FirewallIsLocal(w: World, profiles: seq<Profile>, o: Options, m: Traffic)
    requires ProxyConfig(w, profiles, o).Some? && forall i :: !Matches(o.firewall, m, i)
    ensures
      var c, plain := ProxyConfig(w, profiles, o).value, ProxyConfig(w, profiles, o.(firewall := [])).value;
      Decision(c.rules, c.final, m) == Decision(plain.rules, plain.final, m)
  {
    ProxyRelays(w, profiles, o, m);
    ProxyRelays(w, profiles, o.(firewall := []), m);
  }

  // ---------------------------------------------------------------- what "proxy" stands for

  lemma {:induction false} NodePresent(profiles: seq<Profile>, n: nat, i: nat)
    requires i < n <= |profiles|
    ensures Server(ServerTag(|profiles| > 1, i), profiles[i].hosts) in Nodes(profiles, n, profiles[i].kind)
  {
    if i < n - 1 {
      NodePresent(profiles, n - 1, i);
    }
  }

  /** The tag of a server of the list. */
  predicate IsServerTag(n: nat, t: string) {
    exists i: nat :: i < n && t == ServerTag(true, i)
  }

  /** Every profile is rendered where its kind belongs. With one profile "proxy" is that server;
      with several it is a choice between all of them and the group that picks the fastest of
      them, which is the default. */
  lemma ProxyGroups(w: World, profiles: seq<Profile>, o: Options)
    requires ProxyConfig(w, profiles, o).Some?
    ensures
      var c := ProxyConfig(w, profiles, o).value;
      forall i :: 0 <= i < |profiles| ==>
        Server(ServerTag(|profiles| > 1, i), profiles[i].hosts) in if profiles[i].kind == AsEndpoint then c.endpoints else c.outbounds
    ensures |profiles| == 1 ==> ServerTag(|profiles| > 1, 0) == PROXY
    ensures |profiles| > 1 ==>
              exists all: seq<string>, picks: seq<string> ::
                && UrlTest(AUTO, all, TestUrl(o)) in ProxyConfig(w, profiles, o).value.outbounds
                && Selector(PROXY, picks, AUTO) in ProxyConfig(w, profiles, o).value.outbounds
                && (forall t :: t in all <==> IsServerTag(|profiles|, t))
                && (forall t :: t in picks <==> t == AUTO || IsServerTag(|profiles|, t))
    ensures Direct(DIRECT, o.physIface) in ProxyConfig(w, profiles, o).value.outbounds
  {
    forall i | 0 <= i < |profiles|
      ensures Server(ServerTag(|profiles| > 1, i), profiles[i].hosts) in Nodes(profiles, |profiles|, profiles[i].kind)
    {
      NodePresent(profiles, |profiles|, i);
    }
    if |profiles| > 1 {
      var all := Tags(true, |profiles|);
      assert forall t :: t in all <==> IsServerTag(|profiles|, t);
      assert Groups(|profiles|, o)[0] == UrlTest(AUTO, all, TestUrl(o));
      assert Groups(|profiles|, o)[1] == Selector(PROXY, [AUTO] + all, AUTO);
    }
  }

  // ---------------------------------------------------------------- no dependency cycle

  /** What must work for what: outbounds need hosts resolved and members up, hosts need the
      DNS server that answers for them, a DNS server needs the outbound it detours through. */
  datatype Part = Out(tag: string) | Dns(tag: string) | Host(name: string)

  /** The DNS server that answers for a host: the first rule that lists it, else the final one. */
  function AnsweredBy(rules: seq<DnsRule>, final: string, host: string): string {
    if rules == [] then final
    else if host in rules[0].domains then rules[0].server
    else AnsweredBy(rules[1..], final, host)
  }

  predicate OutboundNeeds(w: World, x: Outbound, b: Part) {
    match x
    case Server(_, hosts) => b.Host? && b.name in hosts && NeedsDns(w, b.name)
    case UrlTest(_, members, url) =>
      (b.Out? && b.tag in members) || (b.Host? && b.name == ProbeHost(w, url) && b.name != "")
    case Selector(_, members, _) => b.Out? && b.tag in members
    case _ => false
  }

  predicate Needs(w: World, c: Config, a: Part, b: Part) {
    match a
    case Out(t) => exists x :: x in c.outbounds + c.endpoints && x.tag == t && OutboundNeeds(w, x, b)
    case Dns(t) => exists s :: s in c.dnsServers && s.tag == t && s.detour != "" && b == Out(s.detour)
    case Host(h) => b == Dns(AnsweredBy(c.dnsRules, c.dnsFinal, h))
  }

  /** A height that every dependency lowers. */
  function Height(multi: bool, boot: seq<string>, p: Part): nat {
    match p
    case Out(t) =>
      if t == PROXY && multi then 4
      else if t == AUTO then 3
      else if t == DIRECT || t == BLOCK then 0
      else 2
    case Dns(t) => if t == PROXY_DNS then 6 else 0
    case Host(h) => if h in boot then 1 else 7
  }

  lemma {:induction false} NonLiteralMeans(w: World, hosts: seq<string>)
    ensures forall h :: h in NonLiteral(w, hosts) <==> h in hosts && NeedsDns(w, h)
  {
    if hosts != [] {
      NonLiteralMeans(w, hosts[..|hosts| - 1]);
      assert hosts == hosts[..|hosts| - 1] + [hosts[|hosts| - 1]];
    }
  }

  lemma {:induction false} DialHostsContain(w: World, profiles: seq<Profile>, n: nat, i: nat, h: string)
    requires i < n <= |profiles| && h in profiles[i].hosts && NeedsDns(w, h)
    ensures h in DialHosts(w, profiles, n)
  {
    NonLiteralMeans(w, profiles[n - 1].hosts);
    if i < n - 1 {
      DialHostsContain(w, profiles, n - 1, i, h);
    }
  }

  /** Domains that some server dials or that the probe of several servers fetches. */
  predicate Dialled(w: World, profiles: seq<Profile>, o: Options, h: string) {
    || (exists i :: 0 <= i < |profiles| && h in profiles[i].hosts && NeedsDns(w, h))
    || (|profiles| > 1 && h == ProbeHost(w, TestUrl(o)) && h != "")
  }

  lemma {:induction false} DialHostsOnly(w: World, profiles: seq<Profile>, n: nat, h: string)
    requires n <= |profiles| && h in DialHosts(w, profiles, n)
    ensures exists i :: 0 <= i < n && h in profiles[i].hosts && NeedsDns(w, h)
  {
    NonLiteralMeans(w, profiles[n - 1].hosts);
    if h !in NonLiteral(w, profiles[n - 1].hosts) {
      DialHostsOnly(w, profiles, n - 1, h);
    }
  }

  /** Every other name, and no dialled one, is resolved through the proxy. */
  lemma OthersThroughProxy(w: World, profiles: seq<Profile>, o: Options, h: string)
    requires ProxyConfig(w, profiles, o).Some?
    ensures
      var c := ProxyConfig(w, profiles, o).value;
      && AnsweredBy(c.dnsRules, c.dnsFinal, h) == (if Dialled(w, profiles, o, h) then BOOT_DNS else PROXY_DNS)
      && DnsServer(PROXY_DNS, PROXY) in c.dnsServers
  {
    var boot := BootHosts(w, profiles, o);
    var all := DialHosts(w, profiles, |profiles|) + if |profiles| > 1 then [ProbeHost(w, TestUrl(o))] else [];
    DedupeMeans(all);
    assert ProxyDns(boot)[0] == DnsServer(PROXY_DNS, PROXY);
    if Dialled(w, profiles, o, h) {
      BootHostsRuled(w, profiles, o, h);
    } else {
      if h in DialHosts(w, profiles, |profiles|) {
        DialHostsOnly(w, profiles, |profiles|, h);
        assert false;
      }
      assert h !in boot;
    }
  }

  /** Every domain a server dials, and the probe host, is answered by the DNS server without
      a detour. */
  lemma BootHostsRuled(w: World, profiles: seq<Profile>, o: Options, h: string)
    requires ProxyConfig(w, profiles, o).Some?
    requires Dialled(w, profiles, o, h)
    ensures h in BootHosts(w, profiles, o)
    ensures
      var c := ProxyConfig(w, profiles, o).value;
      AnsweredBy(c.dnsRules, c.dnsFinal, h) == BOOT_DNS && DnsServer(BOOT_DNS, "") in c.dnsServers
  {
    var all := DialHosts(w, profiles, |profiles|) + if |profiles| > 1 then [ProbeHost(w, TestUrl(o))] else [];
    DedupeMeans(all);
    if i :| 0 <= i < |profiles| && h in profiles[i].hosts && NeedsDns(w, h) {
      DialHostsContain(w, profiles, |profiles|, i, h);
    }
    assert h in all;
    assert ProxyDns(BootHosts(w, profiles, o))[2] == DnsServer(BOOT_DNS, "");
  }

  lemma ServerNeedsLess(w: World, profiles: seq<Profile>, o: Options, x: Outbound, b: Part, kind: Kind)
    requires ProxyConfig(w, profiles, o).Some?
    requires x in Nodes(profiles, |profiles|, kind) && OutboundNeeds(w, x, b)
    ensures
      var boot := BootHosts(w, profiles, o);
      Height(|profiles| > 1, boot, b) < Height(|profiles| > 1, boot, Out(x.tag))
  {
    var n := |profiles|;
    var k :| 0 <= k < |Nodes(profiles, n, kind)| && Nodes(profiles, n, kind)[k] == x;
    var i := NodeAt(profiles, n, kind, k);
    BootHostsRuled(w, profiles, o, b.name);
    if n > 1 {
      ServerTagIsOwn(i);
    }
    TagHeight(n > 1, i, BootHosts(w, profiles, o));
  }

  lemma TagHeight(multi: bool, i: nat, boot: seq<string>)
    ensures Height(multi, boot, Out(ServerTag(multi, i))) == 2
  {
    if multi {
      ServerTagIsOwn(i);
      assert [PROXY, AUTO, DIRECT, BLOCK][0] == PROXY && [PROXY, AUTO, DIRECT, BLOCK][1] == AUTO;
      assert [PROXY, AUTO, DIRECT, BLOCK][2] == DIRECT && [PROXY, AUTO, DIRECT, BLOCK][3] == BLOCK;
    }
  }

  lemma MemberHeight(n: nat, boot: seq<string>, t: string)
    requires t in Tags(true, n)
    ensures Height(true, boot, Out(t)) == 2
  {
    var i :| 0 <= i < n && Tags(true, n)[i] == t;
    TagHeight(true, i, boot);
  }

  lemma GroupNeedsLess(w: World, profiles: seq<Profile>, o: Options, x: Outbound, b: Part)
    requires ProxyConfig(w, profiles, o).Some?
    requires x in Groups(|profiles|, o) && OutboundNeeds(w, x, b)
    ensures
      var boot := BootHosts(w, profiles, o);
      Height(|profiles| > 1, boot, b) < Height(|profiles| > 1, boot, Out(x.tag))
  {
    var boot := BootHosts(w, profiles, o);
    if b.Host? {
      BootHostsRuled(w, profiles, o, b.name);
    } else if b.tag in Tags(true, |profiles|) {
      MemberHeight(|profiles|, boot, b.tag);
    }
  }

  lemma NeedsLess(w: World, profiles: seq<Profile>, o: Options, a: Part, b: Part)
    requires ProxyConfig(w, profiles, o).Some?
    requires Needs(w, ProxyConfig(w, profiles, o).value, a, b)
    ensures
      var boot := BootHosts(w, profiles, o);
      Height(|profiles| > 1, boot, b) < Height(|profiles| > 1, boot, a)
  {
    var c := ProxyConfig(w, profiles, o).value;
    match a
    case Out(t) =>
      var x :| x in c.outbounds + c.endpoints && x.tag == t && OutboundNeeds(w, x, b);
      if x in Nodes(profiles, |profiles|, AsOutbound) {
        ServerNeedsLess(w, profiles, o, x, b, AsOutbound);
      } else if x in Nodes(profiles, |profiles|, AsEndpoint) {
        ServerNeedsLess(w, profiles, o, x, b, AsEndpoint);
      } else {
        assert x in OwnOutbounds(|profiles|, o);
        assert x in Groups(|profiles|, o);
        GroupNeedsLess(w, profiles, o, x, b);
      }
    case Dns(t) => DnsDefined(c, BootHosts(w, profiles, o));
    case Host(h) =>
  }

  /** A chain of dependencies. */
  predicate Chain(w: World, c: Config, path: seq<Part>) {
    forall i :: 0 <= i < |path| - 1 ==> Needs(w, c, path[i], path[i + 1])
  }

  /** No part of the proxy configuration ever needs itself: resolving a server or the probe
      host never goes through the proxy those hosts are needed for. */
  lemma {:induction false} Acyclic(w: World, profiles: seq<Profile>, o: Options, path: seq<Part>)
    requires ProxyConfig(w, profiles, o).Some?
    requires |path| > 1 && Chain(w, ProxyConfig(w, profiles, o).value, path)
    ensures path[0] != path[|path| - 1]
    ensures
      var boot := BootHosts(w, profiles, o);
      Height(|profiles| > 1, boot, path[|path| - 1]) < Height(|profiles| > 1, boot, path[0])
    decreases |path|
  {
    NeedsLess(w, profiles, o, path[0], path[1]);
    if |path| > 2 {
      Acyclic(w, profiles, o, path[1..]);
    }
  }

  // ---------------------------------------------------------------- the forwarder configuration

  function CidrOf(w: World, host: string): string {
    host + if w.ip(host) == V4 then "/32" else "/128"
  }

  function ServerRoutes(w: World, hosts: seq<string>): seq<RouteRule> {
    if hosts == [] then []
    else
      var h := hosts[|hosts| - 1];
      ServerRoutes(w, hosts[..|hosts| - 1])
      + if w.ip(h) == NotIp then [] else [RouteRule(IpCidr(CidrOf(w, h)), To(DIRECT))]
  }

  function AllServerRoutes(w: World, profiles: seq<Profile>, n: nat): seq<RouteRule>
    requires n <= |profiles|
  {
    if n == 0 then [] else AllServerRoutes(w, profiles, n - 1) + ServerRoutes(w, profiles[n - 1].hosts)
  }

  const FORWARDER_HEAD := [RouteRule(Any, Sniff), RouteRule(DnsOnTun, HijackDns), RouteRule(PrivateIp, To(DIRECT))]

  function ForwarderConfig(w: World, profiles: seq<Profile>, socksPort: int): Option<Config> {
    if profiles == [] || !AllRender(profiles) then None
    else
      Some(Config(
        [DnsServer(FWD_DNS, SOCKS_OUT)], [], FWD_DNS,
        [Socks(SOCKS_OUT, if socksPort == 0 then 1080 else socksPort), Direct(DIRECT, "")], [],
        FORWARDER_HEAD + AllServerRoutes(w, profiles, |profiles|),
        SOCKS_OUT, ""))
  }

  method GenerateForwarderConfig(w: World, profiles: seq<Profile>, socksPort: int) returns (r: Option<Config>)
    ensures r == ForwarderConfig(w, profiles, socksPort)
  {
    if |profiles| == 0 {
      return None;
    }
    var rules := FORWARDER_HEAD;
    for i := 0 to |profiles|
      invariant forall k :: 0 <= k < i ==> profiles[k].renders
      invariant rules == FORWARDER_HEAD + AllServerRoutes(w, profiles, i)
    {
      if !profiles[i].renders {
        return None;
      }
      var hosts := profiles[i].hosts;
      for k := 0 to |hosts|
        invariant rules == FORWARDER_HEAD + AllServerRoutes(w, profiles, i) + ServerRoutes(w, hosts[..k])
      {
        assert hosts[..k + 1][..k] == hosts[..k];
        if w.ip(hosts[k]) == NotIp {
          continue;
        }
        var cidr := hosts[k] + "/32";
        if w.ip(hosts[k]) != V4 {
          cidr := hosts[k] + "/128";
        }
        rules := rules + [RouteRule(IpCidr(cidr), To(DIRECT))];
      }
      assert hosts[..|hosts|] == hosts;
    }
    r := Some(Config(
      [DnsServer(FWD_DNS, SOCKS_OUT)], [], FWD_DNS,
      [Socks(SOCKS_OUT, if socksPort == 0 then 1080 else socksPort), Direct(DIRECT, "")], [],
      rules, SOCKS_OUT, ""));
  }

  /** A rule that keeps the traffic to the literal server address `h` off the tunnel. */
  predicate ServerRoute(w: World, h: string, r: RouteRule) {
    w.ip(h) != NotIp && r == RouteRule(IpCidr(CidrOf(w, h)), To(DIRECT))
  }

  lemma {:induction false} ServerRoutesMean(w: World, hosts: seq<string>)
    ensures forall r :: r in ServerRoutes(w, hosts) <==> exists h :: h in hosts && ServerRoute(w, h, r)
  {
    if hosts != [] {
      var p, last := hosts[..|hosts| - 1], hosts[|hosts| - 1];
      ServerRoutesMean(w, p);
      forall r | r in ServerRoutes(w, hosts)
        ensures exists h :: h in hosts && ServerRoute(w, h, r)
      {
        if r in ServerRoutes(w, p) {
          var h :| h in p && ServerRoute(w, h, r);
          assert h in hosts;
        } else {
          assert ServerRoute(w, last, r) && last in hosts;
        }
      }
      forall r, h | h in hosts && ServerRoute(w, h, r)
        ensures r in ServerRoutes(w, hosts)
      {
        assert h in p || h == last;
      }
    }
  }

  lemma {:induction false} AllServerRoutesMean(w: World, profiles: seq<Profile>, n: nat)
    requires n <= |profiles|
    ensures forall r :: r in AllServerRoutes(w, profiles, n)
              <==> exists i, h :: 0 <= i < n && h in profiles[i].hosts && ServerRoute(w, h, r)
  {
    if n > 0 {
      ServerRoutesMean(w, profiles[n - 1].hosts);
      AllServerRoutesMean(w, profiles, n - 1);
    }
  }

  lemma {:induction false} DirectRules(rules: seq<RouteRule>, final: string, m: Traffic)
    requires forall r :: r in rules ==> r.action == To(DIRECT)
    ensures Decision(rules, final, m) == Sent(if exists r :: r in rules && m(r.cond) then DIRECT else final)
  {
    if rules != [] {
      assert rules == [rules[0]] + rules[1..];
      DirectRules(rules[1..], final, m);
    }
  }

  /** The traffic is for the literal address of some server. */
  predicate ForServer(w: World, profiles: seq<Profile>, m: Traffic) {
    exists i, h :: 0 <= i < |profiles| && h in profiles[i].hosts && w.ip(h) != NotIp && m(IpCidr(CidrOf(w, h)))
  }

  lemma ForServerMeans(w: World, profiles: seq<Profile>, m: Traffic)
    ensures ForServer(w, profiles, m)
       <==> exists r :: r in AllServerRoutes(w, profiles, |profiles|) && m(r.cond)
    ensures forall r :: r in AllServerRoutes(w, profiles, |profiles|) ==> r.action == To(DIRECT)
  {
    var rest := AllServerRoutes(w, profiles, |profiles|);
    AllServerRoutesMean(w, profiles, |profiles|);
    if ForServer(w, profiles, m) {
      var i, h :| 0 <= i < |profiles| && h in profiles[i].hosts && w.ip(h) != NotIp && m(IpCidr(CidrOf(w, h)));
      var r := RouteRule(IpCidr(CidrOf(w, h)), To(DIRECT));
      assert ServerRoute(w, h, r);
      assert r in rest && m(r.cond);
    }
    if r :| r in rest && m(r.cond) {
      var i, h :| 0 <= i < |profiles| && h in profiles[i].hosts && ServerRoute(w, h, r);
      assert ForServer(w, profiles, m);
    }
  }

  /** The forwarder hijacks exactly the DNS traffic on the tunnel, and relays to the local
      proxy exactly the traffic that is neither that, nor private, nor for the literal
      address of a server; so the tunnel never carries its own transport. */
  lemma ForwarderRelays(w: World, profiles: seq<Profile>, port: int, m: Traffic)
    requires ForwarderConfig(w, profiles, port).Some?
    ensures
      var c := ForwarderConfig(w, profiles, port).value;
      Decision(c.rules, c.final, m)
        == if m(DnsOnTun) then Hijacked
           else if m(PrivateIp) || ForServer(w, profiles, m) then Sent(DIRECT)
           else Sent(SOCKS_OUT)
  {
    var rest := AllServerRoutes(w, profiles, |profiles|);
    ForServerMeans(w, profiles, m);
    DirectRules(rest, SOCKS_OUT, m);
    HeadDecides(rest, SOCKS_OUT, m);
  }

  lemma HeadDecides(rest: seq<RouteRule>, final: string, m: Traffic)
    ensures Decision(FORWARDER_HEAD + rest, final, m)
         == if m(DnsOnTun) then Hijacked else if m(PrivateIp) then Sent(DIRECT) else Decision(rest, final, m)
  {
    var rules := FORWARDER_HEAD + rest;
    assert rules[1..][1..][1..] == rest;
    assert Decision(rules, final, m) == Decision(rules[1..], final, m);
    assert rules[1..][0] == RouteRule(DnsOnTun, HijackDns) && rules[1..][1..][0] == RouteRule(PrivateIp, To(DIRECT));
  }

  /** The forwarder's tags are unique and every reference is defined. */
  lemma ForwarderClosed(w: World, profiles: seq<Profile>, port: int)
    requires ForwarderConfig(w, profiles, port).Some?
    ensures NoDup(AllTags(ForwarderConfig(w, profiles, port).value))
    ensures Closed(ForwarderConfig(w, profiles, port).value)
  {
    var c := ForwarderConfig(w, profiles, port).value;
    AllServerRoutesMean(w, profiles, |profiles|);
    assert AllTags(c) == [SOCKS_OUT, DIRECT];
    assert SOCKS_OUT in [SOCKS_OUT, DIRECT] && DIRECT in [SOCKS_OUT, DIRECT] && SOCKS_OUT[0] != DIRECT[0];
    assert c.dnsServers[0].tag in DnsTags(c);
    forall r | r in c.rules && r.action.To?
      ensures r.action.tag == DIRECT
    {
      assert r in FORWARDER_HEAD || r in AllServerRoutes(w, profiles, |profiles|);
    }
  }
}
