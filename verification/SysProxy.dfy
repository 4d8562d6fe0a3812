/**
 The system-proxy manager: a transactional Apply over a foreign NetworkSetup port
 that may fail at every call, and the candidate protocol of the in-process PAC server.
 */
module SysProxy {
  import opened Wrappers
  import opened Text
  import opened Rules
  import opened ProxyConfig
  import opened Pac

  // ---------------------------------------------------------------- the foreign side

  /** `PacUrl(p)` is our PAC at local port `p`; anything else is somebody else's setting. */
  datatype Url = NoUrl | PacUrl(port: nat) | Foreign(text: string)

  datatype Service = Service(autoOn: bool, url: Url, web: bool, secureWeb: bool, bypass: seq<string>)

  type Network = map<string, Service>

  const UNTOUCHED := Service(false, NoUrl, false, false, [])

  function Get(net: Network, s: string): Service {
    if s in net then net[s] else UNTOUCHED
  }

  /** Reply of one port call; a failed call may have run some of its commands already. */
  datatype Reply = Done | Failed(commands: nat)

  function CommandsRun(r: Reply, all: nat): nat {
    if r.Done? then all else r.commands
  }

  function SetAutoProxyURL(net: Network, s: string, u: Url, r: Reply): Network {
    var n := CommandsRun(r, 2);
    var v := Get(net, s);
    net[s := v.(url := if n >= 1 then u else v.url, autoOn := v.autoOn || n >= 2)]
  }

  function DisableAutoProxy(net: Network, s: string, r: Reply): Network {
    var v := Get(net, s);
    net[s := v.(autoOn := v.autoOn && CommandsRun(r, 1) == 0)]
  }

  function DisableWebProxy(net: Network, s: string, r: Reply): Network {
    var n := CommandsRun(r, 2);
    var v := Get(net, s);
    net[s := v.(web := v.web && n == 0, secureWeb := v.secureWeb && n <= 1)]
  }

  function SetBypassDomains(net: Network, s: string, domains: seq<string>, r: Reply): Network {
    var v := Get(net, s);
    net[s := v.(bypass := if CommandsRun(r, 1) >= 1 then domains else v.bypass)]
  }

  /** Replies to the three calls of disableService. */
  datatype OffReplies = OffReplies(auto: Reply, web: Reply, bypass: Reply)

  datatype Bind = Bound(osPort: nat) | InUse | BindError

  /** Everything the outside world answers during one Apply. */
  datatype World = World(
    offNew: OffReplies, offOld: OffReplies, closeOk: bool,      // ModeOff
    bind: Bind, fallback: Bind,
    web: Reply, auto: Reply, bypass: Reply, release: OffReplies,   // include and exclude
    undoOff: OffReplies, undoAuto: Reply, undoBypass: Reply)       // rollback

  datatype Outcome =
    | Applied
    | Invalid          // rejected by Validate
    | NoListener       // the PAC server could not bind
    | RolledBack       // a port call failed and the rollback succeeded
    | Unrestored       // a port call failed and so did the rollback
    | OffFailed        // ModeOff: a port call failed
    | CloseFailed      // ModeOff: closing the PAC server reported an error

  // ---------------------------------------------------------------- derived values

  function PacOf(c: Config): Program {
    if c.mode == Include then IncludeProgram(c.proxy) else ExcludeProgram(c.proxy, c.direct, c.bypassPlain)
  }

  /** bypassDomainsFor: the domains and wildcards of a list, no CIDRs. */
  function BypassFor(direct: seq<string>): seq<string> {
    Classify(direct).domains + Classify(direct).globs
  }

  lemma {:induction false} ClassifiedEntries(rules: seq<string>, e: string)
    ensures e in Classify(rules).domains
        <==> exists i :: 0 <= i < |rules| && Norm(rules[i]) == e && e != "" && '/' !in e && '*' !in e
    ensures e in Classify(rules).globs
        <==> exists i :: 0 <= i < |rules| && Norm(rules[i]) == e && '/' !in e && '*' in e
  {
    if rules != [] {
      var n := |rules| - 1;
      ClassifiedEntries(rules[..n], e);
      assert forall i :: 0 <= i < n ==> rules[..n][i] == rules[i];
    }
  }

  /** The bypass list holds exactly the normalised, nonblank entries of the direct list that are
      no networks: first the domains, none twice, then the wildcards. */
  lemma BypassMeans(direct: seq<string>)
    ensures forall e :: e in BypassFor(direct)
                   <==> exists i :: 0 <= i < |direct| && Norm(direct[i]) == e && e != "" && '/' !in e
    ensures forall i, j :: 0 <= i < j < |BypassFor(direct)| && '*' !in BypassFor(direct)[j] ==>
              '*' !in BypassFor(direct)[i] && BypassFor(direct)[i] != BypassFor(direct)[j]
  {
    forall e: string
      ensures e in BypassFor(direct)
         <==> exists i :: 0 <= i < |direct| && Norm(direct[i]) == e && e != "" && '/' !in e
    {
      ClassifiedEntries(direct, e);
    }
    ClassifyMeans(direct, "");
    var cl := Classify(direct);
    assert forall k :: 0 <= k < |cl.domains| ==> BypassFor(direct)[k] == cl.domains[k];
    assert forall k :: |cl.domains| <= k < |BypassFor(direct)| ==> BypassFor(direct)[k] in cl.globs;
  }

  /** The script `p` decides every host as the rules of `c` do: in include mode it proxies what
      [proxy] matches and nothing else; in exclude mode it sends direct what [proxy] does not
      match and [direct] or the bare-name rule does, and nothing else. */
  ghost predicate RoutesBy(p: Program, c: Config) {
    forall host: string | '/' !in host && AddressAgrees(host) ::
      if c.mode == Include then
        Eval(p, host) == UseProxy <==> ListMatches(c.proxy, host)
      else
        Eval(p, host) == Direct <==> GoesDirect(c.proxy, c.direct, c.bypassPlain, host)
  }

  lemma PacRoutes(c: Config)
    ensures RoutesBy(PacOf(c), c)
  {
    forall host: string | '/' !in host && AddressAgrees(host)
      ensures Eval(IncludeProgram(c.proxy), host) == UseProxy <==> ListMatches(c.proxy, host)
      ensures Eval(ExcludeProgram(c.proxy, c.direct, c.bypassPlain), host) == Direct
         <==> GoesDirect(c.proxy, c.direct, c.bypassPlain, host)
    {
      IncludePreservesMeaning(c.proxy, host);
      ExcludePreservesMeaning(c.proxy, c.direct, c.bypassPlain, host);
    }
  }

  // ---------------------------------------------------------------- when an Apply succeeds

  predicate AllDone(r: OffReplies) {
    r.auto.Done? && r.web.Done? && r.bypass.Done?
  }

  /** The port that `c` asks for can be served: the live listener does, or it can be bound. */
  predicate CanPin(serving: Option<nat>, c: Config, w: World) {
    (serving.Some? && (c.pacPort == 0 || serving.value == c.pacPort)) || w.bind.Bound?
  }

  /** A listener for `c` can be had: at the port it asks for, or the taken legacy port is given up
      for the live listener or for a port of the system's choice. */
  predicate CanListen(serving: Option<nat>, c: Config, w: World) {
    || CanPin(serving, c, w)
    || (c.pacPort == LEGACY_PAC_PORT && w.bind == InUse && (serving.Some? || w.fallback.Bound?))
  }

  /** The old service is another one than the new, and in use. */
  predicate Moves(was: Config, c: Config) {
    was.mode != Off && was.service != c.service
  }

  /** Every forward call of an include or exclude succeeds. */
  predicate ForwardDone(was: Config, c: Config, w: World) {
    w.web.Done? && w.auto.Done? && w.bypass.Done? && (Moves(was, c) ==> AllDone(w.release))
  }

  /** Every call of the rollback succeeds. */
  predicate UndoDone(was: Config, c: Config, w: World) {
    && (was.mode == Off || was.service != c.service ==> AllDone(w.undoOff))
    && (was.mode != Off ==> w.undoAuto.Done? && w.undoBypass.Done?)
  }

  predicate OffDone(was: Config, c: Config, w: World) {
    AllDone(w.offNew) && (Moves(was, c) ==> AllDone(w.offOld))
  }

  /** When an Apply succeeds: "off" when both services can be cleared and the server closed, an
      include or exclude when a listener can be had and every forward call succeeds. */
  predicate Succeeds(was: Config, serving: Option<nat>, c: Config, w: World) {
    && Valid(c)
    && if c.mode == Off then
         OffDone(was, c, w) && (serving.None? || w.closeOk)
       else
         CanListen(serving, c, w) && ForwardDone(was, c, w)
  }

  /** Nothing outside fails. */
  predicate NoFaults(w: World) {
    && AllDone(w.offNew) && AllDone(w.offOld) && w.closeOk && w.bind.Bound?
    && w.web.Done? && w.auto.Done? && w.bypass.Done? && AllDone(w.release)
  }

  /** Our automatic proxy is on for service `s`. */
  predicate Ours(net: Network, s: string) {
    Get(net, s).autoOn && Get(net, s).url.PacUrl?
  }

  predicate Cleared(v: Service) {
    !v.autoOn && !v.web && !v.secureWeb && v.bypass == []
  }

  // ---------------------------------------------------------------- the PAC server

  datatype Candidate = Candidate(port: nat, body: Program)

  class PacServer {
    var up: bool
    var port: nat
    var body: Program
    ghost var listening: set<nat>   // local ports on which some listener of ours is open

    /** Exactly the committed listener is open. */
    ghost predicate Valid()
      reads this
    {
      listening == if up then {port} else {}
    }

    constructor ()
      ensures Valid() && !up
    {
      up, port, body, listening := false, 0, [], {};
    }

    /** The listeners open while `c` is pending. */
    ghost predicate Pending(c: Option<Candidate>)
      reads this
    {
      && listening == (if up then {port} else {}) + (if c.Some? then {c.value.port} else {})
      && (c.Some? ==> !up || c.value.port != port)
      && (c.None? ==> up)
    }

    function Address(): Url
      reads this
    {
      if up then PacUrl(port) else NoUrl
    }

    /** The local port being served. */
    function Serving(): Option<nat>
      reads this
    {
      if up then Some(port) else None
    }

    function CandidateUrl(c: Option<Candidate>): Url
      reads this
    {
      if c.Some? then PacUrl(c.value.port) else Address()
    }

    /** Binds a candidate unless the current listener already serves the wanted port. */
    method Prepare(wanted: nat, pac: Program, bind: Bind) returns (r: Result<Option<Candidate>, Bind>)
      requires Valid()
      modifies this`listening
      ensures r.Ok? ==> Pending(r.value) && (r.value.Some? ==> r.value.value.body == pac)
      ensures r.Ok? && wanted != 0 ==> CandidateUrl(r.value) == PacUrl(wanted)
      ensures r.Ok? && wanted == 0 && up ==> r.value.None?
      ensures r.Ok? && wanted == 0 && !up ==> bind.Bound? && CandidateUrl(r.value) == PacUrl(bind.osPort)
      ensures r.Ok? <==> (up && (wanted == 0 || port == wanted)) || bind.Bound?
      ensures r.Err? ==> Valid() && r.error == bind
    {
      if up && (wanted == 0 || port == wanted) {
        return Ok(None);
      }
      if !bind.Bound? {
        return Err(bind);
      }
      var p := if wanted == 0 then bind.osPort else wanted;
      listening := listening + {p};
      r := Ok(Some(Candidate(p, pac)));
    }

    method Commit(c: Option<Candidate>, pac: Program)
      requires Pending(c)
      modifies this
      ensures Valid() && up && body == pac
      ensures Address() == old(CandidateUrl(c))
    {
      if c.Some? {
        ghost var retired := if up then {port} else {};
        up, port := true, c.value.port;
        listening := listening - retired;
      }
      body := pac;
    }

    method Abort(c: Option<Candidate>)
      requires Pending(c)
      modifies this`listening
      ensures Valid()
    {
      if c.Some? {
        listening := listening - {c.value.port};
      }
    }

    /** The listener is gone even when closing it reports an error. */
    method Close(closeOk: bool) returns (ok: bool)
      requires Valid()
      modifies this
      ensures Valid() && !up && body == old(body)
      ensures ok <==> !old(up) || closeOk
    {
      if !up {
        return true;
      }
      up := false;
      listening := {};
      ok := closeOk;
    }
  }

  // ---------------------------------------------------------------- the manager

  class Manager {
    const server: PacServer
    var cfg: Config
    var net: Network

    /** The server runs exactly when the config is not off, and serves the script of that config. */
    ghost predicate ServerValid()
      reads this, server
    {
      && server.Valid()
      && (server.up <==> cfg.mode == Include || cfg.mode == Exclude)
      && (server.up ==> server.body == PacOf(cfg))
    }

    /** Our automatic proxy is on for the configured service at most, and then its URL is the
        one the live server answers. */
    ghost predicate NoDeadUrl()
      reads this, server
    {
      forall s | s in net.Keys && Ours(net, s) :: s == cfg.service && server.up && Get(net, s).url == server.Address()
    }

    /** Config, server and network agree. */
    ghost predicate Sound()
      reads this, server
    {
      ServerValid() && NoDeadUrl()
    }

    /** The configured service is in the state the config asks for. */
    ghost predicate InForce()
      reads this, server
    {
      var v := Get(net, cfg.service);
      && server.up && v.autoOn && v.url == server.Address() && v.bypass == BypassFor(cfg.direct)
    }

    /** A new manager has touched nothing; the network may still carry what a previous process
        left behind. */
    constructor (initial: Config, found: Network)
      requires initial.mode == Off
      ensures ServerValid() && !server.up && fresh(server)
      ensures cfg == initial && net == found
      ensures Sound() <==> forall s | s in found.Keys :: !Ours(found, s)
    {
      server := new PacServer();
      cfg, net := initial, found;
    }

    /** Stops at the first call that fails. */
    method DisableService(s: string, r: OffReplies) returns (ok: bool)
      modifies this`net
      ensures ok <==> AllDone(r)
      ensures ok ==> Cleared(Get(net, s))
      ensures Get(net, s).autoOn ==> old(Get(net, s).autoOn)
      ensures Get(net, s).url == old(Get(net, s).url)
      // whatever follows a failed call is not attempted
      ensures !r.auto.Done? ==> Get(net, s).(autoOn := false) == old(Get(net, s)).(autoOn := false)
      ensures !r.web.Done? ==> Get(net, s).bypass == old(Get(net, s)).bypass
      ensures net.Keys == old(net.Keys) + {s}
      ensures forall u :: u != s ==> Get(net, u) == Get(old(net), u)
    {
      net := DisableAutoProxy(net, s, r.auto);
      if !r.auto.Done? {
        return false;
      }
      net := DisableWebProxy(net, s, r.web);
      if !r.web.Done? {
        return false;
      }
      net := SetBypassDomains(net, s, [], r.bypass);
      ok := r.bypass.Done?;
    }

    /** At most the old and the new service carry our automatic proxy. */
    ghost predicate OnlyThese(s: string, t: string)
      reads this
    {
      forall u | u in net.Keys && Ours(net, u) :: u == s || u == t
    }

    /** Releases the new service and points the old one at the committed script again. */
    method PointBack(c: Config, w: World) returns (ok: bool)
      modifies this`net
      ensures ok <==> (c.service != cfg.service ==> AllDone(w.undoOff)) && w.undoAuto.Done? && w.undoBypass.Done?
      ensures ok && server.up ==> InForce()
      ensures ok && server.up && old(OnlyThese(cfg.service, c.service)) ==> NoDeadUrl()
      ensures ok && c.service != cfg.service ==> Cleared(Get(net, c.service))
      ensures forall u :: u != c.service && u != cfg.service ==> Get(net, u) == Get(old(net), u)
    {
      ok := true;
      if c.service != cfg.service {
        ok := DisableService(c.service, w.undoOff);
      }
      if ok {
        net := SetAutoProxyURL(net, cfg.service, server.Address(), w.undoAuto);
        ok := w.undoAuto.Done?;
      }
      if ok {
        net := SetBypassDomains(net, cfg.service, BypassFor(cfg.direct), w.undoBypass);
        ok := w.undoBypass.Done?;
      }
    }

    /** Our automatic proxy is on at most for the services that Apply of `c` visits. */
    ghost predicate Reached(c: Config)
      reads this
    {
      OnlyThese(if cfg.mode == Off then c.service else cfg.service, c.service)
    }

    lemma SoundReaches(c: Config)
      ensures Sound() && cfg.mode != Unset ==> Reached(c)
    {
    }

    /** Undoes a half-applied include or exclude: the candidate is dropped, and the network is
        put back under the old config. */
    method Rollback(c: Config, cand: Option<Candidate>, w: World) returns (restored: bool)
      requires server.Pending(cand) && cfg.mode != Unset
      modifies this`net, server`listening
      ensures restored <==> UndoDone(cfg, c, w)
      ensures server.Valid()
      ensures old(Reached(c)) ==>
                restored && (server.up <==> cfg.mode != Off) ==> NoDeadUrl()
      ensures restored && cfg.mode != Off && server.up ==> InForce()
      ensures restored && (cfg.mode == Off || c.service != cfg.service) ==> Cleared(Get(net, c.service))
      ensures forall u :: u != c.service && u != cfg.service ==> Get(net, u) == Get(old(net), u)
      ensures cfg.mode == Off && cfg.service != c.service ==> Get(net, cfg.service) == Get(old(net), cfg.service)
    {
      server.Abort(cand);
      if cfg.mode != Off {
        restored := PointBack(c, w);
      } else {
        restored := DisableService(c.service, w.undoOff);
      }
    }

    /** Clears the service of `c`, then the one owned so far. */
    method DisableServices(c: Config, w: World) returns (ok: bool)
      requires cfg.mode != Unset
      modifies this`net
      ensures ok <==> OffDone(cfg, c, w)
      ensures ok ==> Cleared(Get(net, c.service)) && (cfg.mode != Off ==> Cleared(Get(net, cfg.service)))
      ensures old(Reached(c)) && ok ==> forall u | u in net.Keys :: !Ours(net, u)
      ensures old(NoDeadUrl()) ==> NoDeadUrl()
      ensures forall u :: u != c.service && u != cfg.service ==> Get(net, u) == Get(old(net), u)
      ensures cfg.mode == Off && cfg.service != c.service ==> Get(net, cfg.service) == Get(old(net), cfg.service)
    {
      ok := DisableService(c.service, w.offNew);
      if ok && cfg.mode != Off && cfg.service != c.service {
        ok := DisableService(cfg.service, w.offOld);
      }
    }

    /** The ModeOff branch of Apply. */
    method ApplyOff(c: Config, w: World) returns (o: Outcome)
      requires c.mode == Off && cfg.mode != Unset && server.Valid()
      modifies this, server
      ensures o == Applied || o == OffFailed || o == CloseFailed
      ensures o == OffFailed <==> !OffDone(old(cfg), c, w)
      ensures o == Applied <==> OffDone(old(cfg), c, w) && (!old(server.up) || w.closeOk)
      ensures o == Applied ==>
                && cfg == c && ServerValid() && !server.up
                && Cleared(Get(net, c.service))
                && (old(cfg).mode != Off ==> Cleared(Get(net, old(cfg).service)))
      ensures o != Applied ==> cfg == old(cfg) && server.Valid() && server.body == old(server.body)
      ensures o == OffFailed ==> server.Address() == old(server.Address())
      ensures o == CloseFailed ==> !server.up
      ensures old(Sound()) && o == OffFailed ==> Sound()
      ensures old(Reached(c)) && o != OffFailed ==> forall u | u in net.Keys :: !Ours(net, u)
      ensures forall u :: u != c.service && u != old(cfg).service ==> Get(net, u) == Get(old(net), u)
      ensures old(cfg).mode == Off && old(cfg).service != c.service ==> Get(net, old(cfg).service) == Get(old(net), old(cfg).service)
    {
      var ok := DisableServices(c, w);
      if !ok {
        return OffFailed;
      }
      ok := server.Close(w.closeOk);
      if !ok {
        return CloseFailed;
      }
      cfg := c;
      o := Applied;
    }

    /** The config an include or exclude Apply ends with: a legacy port pin that is taken falls
        back to a port of the system's choice. */
    ghost predicate Adopted(c: Config)
      reads this, server
    {
      && (cfg == c || (c.pacPort == LEGACY_PAC_PORT && cfg == c.(pacPort := 0)))
      && (cfg.pacPort != 0 ==> server.up && server.port == cfg.pacPort)
    }

    /** Binds the candidate listener, falling back from a taken legacy port. */
    method PrepareListener(c: Config, w: World) returns (r: Option<Option<Candidate>>, adopted: Config)
      requires Valid(c) && c.mode != Off
      requires server.Valid()
      modifies server`listening
      ensures r.Some? <==> CanListen(server.Serving(), c, w)
      ensures r.None? ==> server.Valid()
      ensures r.Some? ==> server.Pending(r.value)
      ensures adopted == c || (c.pacPort == LEGACY_PAC_PORT && adopted == c.(pacPort := 0))
      ensures r.Some? ==> (adopted == c <==> CanPin(server.Serving(), c, w))
      ensures r.Some? && adopted.pacPort != 0 ==> server.CandidateUrl(r.value) == PacUrl(adopted.pacPort)
    {
      adopted := c;
      var prepared := server.Prepare(c.pacPort, PacOf(c), w.bind);
      if prepared.Err? {
        if c.pacPort != LEGACY_PAC_PORT || prepared.error != InUse {
          return None, adopted;
        }
        prepared := server.Prepare(0, PacOf(c), w.fallback);
        if prepared.Err? {
          return None, adopted;
        }
        adopted := c.(pacPort := 0);
      }
      r := Some(prepared.value);
    }

    /** The forward calls of an include or exclude: the new service is pointed at `url`, then the
        old one is released. */
    method Repoint(c: Config, url: Url, w: World) returns (ok: bool)
      requires url.PacUrl?
      modifies this`net
      ensures ok <==> ForwardDone(cfg, c, w)
      ensures ok ==>
                && (var v := Get(net, c.service);
                    v.autoOn && v.url == url && v.bypass == BypassFor(c.direct) && !v.web && !v.secureWeb)
                && (cfg.mode != Off && cfg.service != c.service ==> Cleared(Get(net, cfg.service)))
      ensures Ours(net, cfg.service) ==> c.service == cfg.service || Ours(old(net), cfg.service)
      ensures forall u :: u != c.service && u != cfg.service ==> Get(net, u) == Get(old(net), u)
      ensures cfg.mode == Off && cfg.service != c.service ==> Get(net, cfg.service) == Get(old(net), cfg.service)
    {
      net := DisableWebProxy(net, c.service, w.web);
      ok := w.web.Done?;
      if ok {
        net := SetAutoProxyURL(net, c.service, url, w.auto);
        ok := w.auto.Done?;
      }
      if ok {
        net := SetBypassDomains(net, c.service, BypassFor(c.direct), w.bypass);
        ok := w.bypass.Done?;
      }
      if ok && cfg.mode != Off && cfg.service != c.service {
        ok := DisableService(cfg.service, w.release);
      }
    }

    /** The network calls of an include or exclude: all forward ones, or the rollback after one
        that failed. */
    method Switch(c: Config, cand: Option<Candidate>, w: World) returns (o: Outcome)
      requires server.Pending(cand) && cfg.mode != Unset
      modifies this`net, server`listening
      ensures o == Applied || o == RolledBack || o == Unrestored
      ensures o == Applied <==> ForwardDone(cfg, c, w)
      ensures o != Applied ==> (o == RolledBack <==> UndoDone(cfg, c, w))
      ensures o == Applied ==>
                && server.Pending(cand)
                && (var v := Get(net, c.service);
                    v.autoOn && v.url == server.CandidateUrl(cand) && v.bypass == BypassFor(c.direct) && !v.web && !v.secureWeb)
                && (Moves(cfg, c) ==> Cleared(Get(net, cfg.service)))
      ensures o == Applied && old(Reached(c)) ==> OnlyThese(c.service, c.service)
      ensures o != Applied ==> server.Valid()
      ensures o == RolledBack && cfg.mode != Off && server.up ==> InForce()
      ensures o == RolledBack && (cfg.mode == Off || c.service != cfg.service) ==> Cleared(Get(net, c.service))
      ensures o == RolledBack && old(Reached(c)) && (server.up <==> cfg.mode != Off) ==> NoDeadUrl()
      ensures forall u :: u != c.service && u != cfg.service ==> Get(net, u) == Get(old(net), u)
      ensures cfg.mode == Off && cfg.service != c.service ==> Get(net, cfg.service) == Get(old(net), cfg.service)
    {
      var ok := Repoint(c, server.CandidateUrl(cand), w);
      assert old(Reached(c)) ==> Reached(c);
      if ok {
        return Applied;
      }
      ok := Rollback(c, cand, w);
      o := if ok then RolledBack else Unrestored;
    }

    /** The last step of an include or exclude: the candidate takes over. */
    method Adopt(c: Config, adopted: Config, cand: Option<Candidate>)
      requires Valid(c) && c.mode != Off
      requires adopted == c || (c.pacPort == LEGACY_PAC_PORT && adopted == c.(pacPort := 0))
      requires server.Pending(cand)
      requires adopted.pacPort != 0 ==> server.CandidateUrl(cand) == PacUrl(adopted.pacPort)
      requires
        var v := Get(net, c.service);
        v.autoOn && v.url == server.CandidateUrl(cand) && v.bypass == BypassFor(c.direct)
      modifies this`cfg, server
      ensures cfg == adopted && Adopted(c) && ServerValid() && InForce()
      ensures OnlyThese(c.service, c.service) ==> NoDeadUrl()
    {
      server.Commit(cand, PacOf(c));
      cfg := adopted;
      assert PacOf(adopted) == PacOf(c);
    }

    /** The ModeInclude and ModeExclude branch of Apply. */
    method ApplyOn(c: Config, w: World) returns (o: Outcome)
      requires Valid(c) && c.mode != Off && cfg.mode != Unset && server.Valid()
      modifies this, server
      ensures o == Applied || o == NoListener || o == RolledBack || o == Unrestored
      ensures o == NoListener <==> !CanListen(old(server.Serving()), c, w)
      ensures o == Applied <==> CanListen(old(server.Serving()), c, w) && ForwardDone(old(cfg), c, w)
      ensures o == RolledBack ==> UndoDone(cfg, c, w)
      ensures o == Unrestored ==> !UndoDone(cfg, c, w)
      ensures o == Applied ==>
                && Adopted(c) && ServerValid() && InForce()
                && !Get(net, c.service).web && !Get(net, c.service).secureWeb
                && (old(cfg).mode != Off && old(cfg).service != c.service ==> Cleared(Get(net, old(cfg).service)))
      ensures o != Applied ==>
                && cfg == old(cfg) && server.Valid()
                && server.Address() == old(server.Address()) && server.body == old(server.body)
      ensures o == Applied ==> (cfg == c <==> CanPin(old(server.Serving()), c, w))
      ensures o == NoListener ==> net == old(net)
      ensures o == RolledBack && cfg.mode != Off && server.up ==> InForce()
      ensures o == RolledBack && (cfg.mode == Off || c.service != cfg.service) ==> Cleared(Get(net, c.service))
      ensures old(Reached(c)) && o == Applied ==> Sound()
      ensures old(Sound()) && o != Applied ==> ServerValid() && (o != Unrestored ==> Sound())
      ensures forall u :: u != c.service && u != old(cfg).service ==> Get(net, u) == Get(old(net), u)
      ensures old(cfg).mode == Off && old(cfg).service != c.service ==> Get(net, old(cfg).service) == Get(old(net), old(cfg).service)
    {
      SoundReaches(c);
      var prepared, adopted := PrepareListener(c, w);
      if prepared.None? {
        return NoListener;
      }
      o := Switch(c, prepared.value, w);
      if o == Applied {
        Adopt(c, adopted, prepared.value);
      }
    }

    /** Manager.Apply, in whatever state earlier failures left the system. */
    method Apply(c: Config, w: World) returns (o: Outcome)
      requires cfg.mode != Unset && server.Valid()
      modifies this, server
      ensures cfg.mode != Unset && server.Valid()
      ensures o == Invalid <==> !Valid(c)
      ensures o == Invalid || o == NoListener ==> net == old(net)
      ensures o == OffFailed || o == CloseFailed ==> c.mode == Off
      // which replies decide the outcome
      ensures o == Applied <==> Succeeds(old(cfg), old(server.Serving()), c, w)
      ensures Valid(c) && c.mode == Off ==> (o == OffFailed <==> !OffDone(old(cfg), c, w))
      ensures Valid(c) && c.mode != Off ==> (o == NoListener <==> !CanListen(old(server.Serving()), c, w))
      ensures o == RolledBack ==> UndoDone(old(cfg), c, w)
      ensures o == Unrestored ==> !UndoDone(old(cfg), c, w)
      // the legacy pin is given up exactly when that port is taken
      ensures o == Applied && c.mode != Off ==> (cfg == c <==> CanPin(old(server.Serving()), c, w))
      // what is served after a success decides every host as the rules applied do
      ensures o == Applied && c.mode != Off ==> RoutesBy(server.body, c)
      // whatever fails, unless a rollback call or closing the server fails too, no service is
      // left pointing at a dead script
      ensures old(Sound()) && o != Unrestored && o != CloseFailed ==> Sound()
      // a config is adopted exactly when it is in force, also after earlier failures or over what
      // a previous process left behind; dead addresses on the services it visits are gone
      ensures o == Applied ==> ServerValid()
      ensures old(Reached(c)) && o == Applied ==> Sound()
      ensures o == Applied && c.mode != Off ==> Adopted(c) && InForce()
      ensures o == Applied && c.mode == Off ==> cfg == c && !server.up && Cleared(Get(net, c.service))
      ensures o == Applied && old(cfg).mode != Off && old(cfg).service != c.service ==> Cleared(Get(net, old(cfg).service))
      ensures o != Applied ==> cfg == old(cfg) && server.body == old(server.body)
      // a failed include or exclude leaves the old script served at the old address, and the
      // old service points at it
      ensures o != Applied && o != CloseFailed ==> server.Address() == old(server.Address())
      ensures o == RolledBack && cfg.mode != Off && server.up ==> InForce()
      ensures o == RolledBack && (cfg.mode == Off || c.service != cfg.service) ==> Cleared(Get(net, c.service))
      // services of no concern are not touched
      ensures forall u :: u != c.service && u != old(cfg).service ==> Get(net, u) == Get(old(net), u)
      ensures old(cfg).mode == Off && old(cfg).service != c.service ==> Get(net, old(cfg).service) == Get(old(net), old(cfg).service)
    {
      SoundReaches(c);
      if !Valid(c) {
        return Invalid;
      }
      if c.mode == Off {
        o := ApplyOff(c, w);
      } else {
        o := ApplyOn(c, w);
        PacRoutes(c);
      }
    }

    /** Manager.Restore: a persisted "off" is adopted without touching the system. */
    method Restore(c: Config, w: World) returns (o: Outcome)
      requires cfg.mode != Unset && server.Valid()
      modifies this, server
      ensures cfg.mode != Unset && server.Valid()
      ensures o == Invalid <==> !Valid(c)
      ensures Valid(c) && c.mode == Off ==> o == Applied && cfg == c && net == old(net)
      ensures c.mode != Off ==> (o == Applied <==> Succeeds(old(cfg), old(server.Serving()), c, w))
      ensures o == Applied && c.mode != Off ==> Adopted(c) && ServerValid() && InForce() && RoutesBy(server.body, c)
      ensures old(Sound()) && old(cfg).mode == Off && o != Unrestored ==> Sound()
      // services of no concern are not touched
      ensures forall u :: u != c.service && u != old(cfg).service ==> Get(net, u) == Get(old(net), u)
      ensures old(cfg).mode == Off && old(cfg).service != c.service ==> Get(net, old(cfg).service) == Get(old(net), old(cfg).service)
      // after a restart: an include or exclude clears up what the previous process left on the
      // services it visits, an "off" leaves every address of ours dead
      ensures o == Applied && c.mode != Off && old(Reached(c)) ==> Sound()
      ensures Valid(c) && c.mode == Off && !server.up ==> (NoDeadUrl() <==> forall u | u in net.Keys :: !Ours(old(net), u))
      // on a manager that is already serving, adopting "off" silently is what breaks the
      // agreement between the config and the server, and nothing else does
      ensures old(Sound()) && Valid(c) && c.mode == Off ==> (ServerValid() <==> old(cfg).mode == Off)
    {
      if !Valid(c) {
        return Invalid;
      }
      if c.mode == Off {
        cfg := c;
        return Applied;
      }
      o := Apply(c, w);
    }
  }

  /** The daemon starts over whatever network it finds and restores its persisted config. A
      restored include or exclude leaves no dead address exactly when no other service carried
      an address of the previous process, a restored "off" exactly when none did. */
  method Boot(initial: Config, found: Network, persisted: Config, w: World) returns (m: Manager, o: Outcome)
    requires initial.mode == Off
    ensures fresh(m) && fresh(m.server) && m.cfg.mode != Unset && m.server.Valid()
    ensures o == Applied <==> if persisted.mode == Off then Valid(persisted) else Succeeds(initial, None, persisted, w)
    ensures o == Applied && persisted.mode != Off ==> m.InForce() && RoutesBy(m.server.body, persisted)
    ensures o == Applied && persisted.mode != Off ==>
              (m.Sound() <==> forall s | s in found.Keys && Ours(found, s) :: s == persisted.service)
    ensures o == Applied && persisted.mode == Off ==> (m.Sound() <==> forall s | s in found.Keys :: !Ours(found, s))
  {
    m := new Manager(initial, found);
    o := m.Restore(persisted, w);
    if o == Applied && persisted.mode != Off {
      forall s | s in found.Keys && Ours(found, s) && s != persisted.service
        ensures s in m.net.Keys && Ours(m.net, s)
      {
        assert Get(m.net, s) == Get(found, s);
      }
    }
  }

  /** Only an invalid config is rejected, and without faults every other one is applied. */
  predicate Fits(c: Config, w: World, o: Outcome) {
    (o == Invalid <==> !Valid(c)) && (Valid(c) && NoFaults(w) ==> o == Applied)
  }

  /** One call of a sequence. */
  method ApplyNext(m: Manager, c: Config, w: World) returns (o: Outcome)
    requires m.cfg.mode != Unset && m.server.Valid()
    modifies m, m.server
    ensures m.cfg.mode != Unset && m.server.Valid()
    ensures Fits(c, w, o)
    ensures old(m.Sound()) && o != Unrestored && o != CloseFailed ==> m.Sound()
    ensures o == Applied ==> m.ServerValid() && (m.cfg.mode != Off ==> m.InForce())
  {
    o := m.Apply(c, w);
  }

  /** Any sequence of Apply calls, for any replies of the outside world, from any state. From a
      sound one, unless a rollback or a close fails on the way, at most one service carries our
      automatic proxy, it is the configured one, and its URL is answered by the live server. And
      whatever failed before, a valid config succeeds as soon as nothing fails, and an include or
      exclude that is applied last is in force. */
  method ApplyAll(m: Manager, cfgs: seq<Config>, worlds: seq<World>) returns (outcomes: seq<Outcome>)
    requires |cfgs| == |worlds|
    requires m.cfg.mode != Unset && m.server.Valid()
    modifies m, m.server
    ensures |outcomes| == |cfgs|
    ensures forall i :: 0 <= i < |cfgs| ==> Fits(cfgs[i], worlds[i], outcomes[i])
    ensures old(m.Sound()) && Unrestored !in outcomes && CloseFailed !in outcomes ==> m.Sound()
    ensures cfgs != [] && outcomes[|cfgs| - 1] == Applied ==> m.ServerValid() && (m.cfg.mode != Off ==> m.InForce())
  {
    outcomes := [];
    for i := 0 to |cfgs|
      invariant |outcomes| == i && m.cfg.mode != Unset && m.server.Valid()
      invariant forall k :: 0 <= k < i ==> Fits(cfgs[k], worlds[k], outcomes[k])
      invariant old(m.Sound()) && Unrestored !in outcomes && CloseFailed !in outcomes ==> m.Sound()
      invariant i > 0 && outcomes[i - 1] == Applied ==> m.ServerValid() && (m.cfg.mode != Off ==> m.InForce())
    {
      var o := ApplyNext(m, cfgs[i], worlds[i]);
      outcomes := outcomes + [o];
    }
  }
}
