/**
 What each Manager method computes when it runs alone, as functions on the
 manager's fields, and the invariant every sequence of calls keeps.

 Every foreign call (config builder, core factory, Start, interface prober,
 route clean-up) takes its outcome from `Draws`, so a statement over all draws is
 a statement over all faults. Cores are numbered in creation order; `closes`
 counts how often each was closed.
 */
module Lifecycle {
  import opened Wrappers

  datatype Mode = Stopped | ProxyOnly | Vpn | Suspended

  type CoreId = nat

  datatype Fields = Fields(
    mode: Mode,
    proxy: Option<CoreId>,
    fwd: Option<CoreId>,
    bound: string,
    gen: nat,
    next: CoreId,
    closes: multiset<CoreId>)

  const FRESH := Fields(Stopped, None, None, "", 0, 0, multiset{})

  /** How building, creating and starting one core goes. */
  datatype Dial = BuildFails | CreateFails | StartFails | Starts

  datatype Draws = Draws(
    cleanupOk: bool,
    probe: Option<string>,   // PhysicalDefault: None is an error, Some("") is "not found"
    first: Dial, retry: Dial,          // the two dials of recreateProxy
    forwarder: Dial,
    rollback: Dial, rollbackRetry: Dial)

  datatype Command =
    | StartProxy | StartForwarder | StopForwarder | Suspend | Resume
    | Bind(iface: string) | Unbind | Refresh | Shutdown

  // ---------------------------------------------------------------- building blocks

  function CloseCore(m: Fields, c: Option<CoreId>): Fields {
    if c.None? then m else m.(closes := m.closes + multiset{c.value})
  }

  /** A core that is created, fails to start and is closed again. */
  function Discarded(m: Fields): Fields {
    m.(next := m.next + 1, closes := m.closes + multiset{m.next})
  }

  /** The forwarder core becomes the published one. */
  function Launched(m: Fields): Fields {
    m.(fwd := Some(m.next), next := m.next + 1, mode := Vpn)
  }

  function DialProxy(m: Fields, iface: string, d: Dial): (Fields, bool) {
    match d
    case BuildFails => (m, false)
    case CreateFails => (m, false)
    case StartFails => (Discarded(m), false)
    case Starts => (m.(proxy := Some(m.next), bound := iface, next := m.next + 1), true)
  }

  /** Reports failure whenever the first dial failed, even when the retry brought the proxy back. */
  function RecreateProxy(m: Fields, iface: string, first: Dial, retry: Dial): (Fields, bool) {
    var (m1, ok) := DialProxy(CloseCore(m.(proxy := None), m.proxy), iface, first);
    if ok then (m1, true) else (DialProxy(m1, iface, retry).0, false)
  }

  function RollbackProxy(m: Fields, prev: string, d: Draws): Fields {
    var (m1, ok) := RecreateProxy(m, prev, d.rollback, d.rollbackRetry);
    m1.(mode := if ok then ProxyOnly else Stopped)
  }

  function Teardown(m: Fields, d: Draws): (Fields, bool) {
    var (m1, ok) := RecreateProxy(CloseCore(m.(fwd := None), m.fwd), "", d.first, d.retry);
    (m1.(mode := if ok then ProxyOnly else Stopped), ok)
  }

  // ---------------------------------------------------------------- the public methods

  function DoStartProxy(m: Fields, d: Draws): (Fields, bool) {
    if m.proxy.Some? then (m, true)
    else if !d.cleanupOk then (m, false)
    else
      var (m1, ok) := DialProxy(m, "", d.first);
      if ok then (m1.(mode := ProxyOnly), true) else (m1, false)
  }

  function DoStartForwarder(m: Fields, d: Draws): (Fields, bool) {
    if m.mode == Vpn then (m, true)
    else if m.proxy.None? || d.probe.None? || d.probe.value == "" then (m, false)
    else
      var (m1, ok) := RecreateProxy(m, d.probe.value, d.first, d.retry);
      if !ok then (RollbackProxy(m1, m.bound, d), false)
      else
        match d.forwarder
        case BuildFails => (RollbackProxy(m1, m.bound, d), false)
        case CreateFails => (RollbackProxy(m1, m.bound, d), false)
        case StartFails => (RollbackProxy(Discarded(m1), m.bound, d), false)
        case Starts => (Launched(m1), true)
  }

  function DoStopForwarder(m: Fields, d: Draws): (Fields, bool) {
    if m.mode != Vpn then (m, true) else Teardown(m, d)
  }

  function DoSuspend(m: Fields): Fields {
    CloseCore(CloseCore(m.(fwd := None, proxy := None, bound := ""), m.fwd), m.proxy).(mode := Suspended)
  }

  function DoResume(m: Fields, d: Draws): (Fields, bool) {
    if !(m.mode == Suspended && m.proxy.None?) then (m, true)
    else
      var (m1, ok) := DialProxy(m, "", d.first);
      if ok then (m1.(mode := ProxyOnly), true) else (m1, false)
  }

  function DoBind(m: Fields, iface: string, d: Draws): (Fields, bool) {
    if m.mode != ProxyOnly || m.proxy.None? then (m, true)
    else if iface == "" then (m, false)
    else if m.bound == iface then (m, true)
    else
      var (m1, ok) := RecreateProxy(m, iface, d.first, d.retry);
      if ok then (m1, true) else (RollbackProxy(m1, m.bound, d), false)
  }

  function DoUnbind(m: Fields, d: Draws): (Fields, bool) {
    if m.mode != ProxyOnly then (m, true)
    else
      var (m1, ok) := RecreateProxy(m, "", d.first, d.retry);
      if ok then (m1, true) else (m1.(mode := Stopped), false)
  }

  function DoRefresh(m: Fields, d: Draws): (Fields, bool) {
    if m.proxy.None? then (m, false)
    else
      var (m1, ok) := RecreateProxy(m, m.bound, d.first, d.retry);
      if ok then (m1, true)
      else if m1.proxy.Some? then (m1, false)
      else (CloseCore(m1.(fwd := None, mode := Stopped, bound := ""), m1.fwd), false)
  }

  function DoShutdown(m: Fields): Fields {
    CloseCore(CloseCore(m.(gen := m.gen + 1, fwd := None, proxy := None, mode := Stopped), m.fwd), m.proxy)
  }

  /** The manager after one call, and whether the call returned nil. */
  function Apply(m: Fields, c: Command, d: Draws): (Fields, bool) {
    match c
    case StartProxy => DoStartProxy(m, d)
    case StartForwarder => DoStartForwarder(m, d)
    case StopForwarder => DoStopForwarder(m, d)
    case Suspend => (DoSuspend(m), true)
    case Resume => DoResume(m, d)
    case Bind(iface) => DoBind(m, iface, d)
    case Unbind => DoUnbind(m, d)
    case Refresh => DoRefresh(m, d)
    case Shutdown => (DoShutdown(m), true)
  }

  function RunAll(m: Fields, calls: seq<(Command, Draws)>): Fields
    decreases |calls|
  {
    if calls == [] then m else RunAll(Apply(m, calls[0].0, calls[0].1).0, calls[1..])
  }

  lemma RunAllStep(m: Fields, calls: seq<(Command, Draws)>, i: nat)
    requires i < |calls|
    ensures RunAll(m, calls[i..]) == RunAll(Apply(m, calls[i].0, calls[i].1).0, calls[i + 1..])
  {
    assert calls[i..][0] == calls[i] && calls[i..][1..] == calls[i + 1..];
  }

  // ---------------------------------------------------------------- the invariant

  function Times(b: bool): nat {
    if b then 1 else 0
  }

  /** How often core `c` is published or has been closed. */
  function Count(m: Fields, c: CoreId): nat {
    Times(m.proxy == Some(c)) + Times(m.fwd == Some(c)) + m.closes[c]
  }

  /** A created core is published or closed, exactly one of them, exactly once. */
  predicate Accounted(m: Fields, c: CoreId) {
    Count(m, c) == Times(c < m.next)
  }

  predicate ModeInv(m: Fields) {
    && (m.fwd.Some? <==> m.mode == Vpn)
    && (m.mode == Vpn ==> m.proxy.Some? && m.bound != "")
    && (m.mode == ProxyOnly ==> m.proxy.Some?)
    && (m.mode == Suspended ==> m.proxy.None? && m.bound == "")
  }

  lemma RecreateAccounted(m: Fields, iface: string, first: Dial, retry: Dial, c: CoreId)
    requires Accounted(m, c)
    ensures Accounted(RecreateProxy(m, iface, first, retry).0, c)
  {
    var m0 := CloseCore(m.(proxy := None), m.proxy);
    assert Accounted(m0, c);
    assert Accounted(DialProxy(m0, iface, first).0, c);
  }

  lemma RollbackAccounted(m: Fields, prev: string, d: Draws, c: CoreId)
    requires Accounted(m, c)
    ensures Accounted(RollbackProxy(m, prev, d), c)
  {
    RecreateAccounted(m, prev, d.rollback, d.rollbackRetry, c);
  }

  lemma RecreateFacts(m: Fields, iface: string, first: Dial, retry: Dial)
    ensures
      var (r, ok) := RecreateProxy(m, iface, first, retry);
      && r.fwd == m.fwd && r.mode == m.mode && r.gen == m.gen
      && (ok <==> first == Starts)
      && (r.proxy.Some? <==> first == Starts || retry == Starts)
      && r.bound == (if r.proxy.Some? then iface else m.bound)
  {
  }

  lemma StartForwarderKeeps(m: Fields, d: Draws, c: CoreId)
    requires ModeInv(m) && Accounted(m, c)
    ensures ModeInv(DoStartForwarder(m, d).0) && Accounted(DoStartForwarder(m, d).0, c)
  {
    if m.mode == Vpn || m.proxy.None? || d.probe.None? || d.probe.value == "" {
      return;
    }
    var (m1, ok) := RecreateProxy(m, d.probe.value, d.first, d.retry);
    RecreateAccounted(m, d.probe.value, d.first, d.retry, c);
    RecreateFacts(m, d.probe.value, d.first, d.retry);
    if ok && d.forwarder == Starts {
      assert DoStartForwarder(m, d).0 == Launched(m1);
      assert Accounted(Launched(m1), c);
    } else {
      var m2 := if ok && d.forwarder == StartFails then Discarded(m1) else m1;
      assert DoStartForwarder(m, d).0 == RollbackProxy(m2, m.bound, d);
      RollbackAccounted(m2, m.bound, d, c);
      RollbackModes(m2, m.bound, d);
    }
  }

  lemma RollbackModes(m: Fields, prev: string, d: Draws)
    requires m.fwd.None?
    ensures ModeInv(RollbackProxy(m, prev, d))
  {
  }

  lemma BindKeeps(m: Fields, iface: string, d: Draws, c: CoreId)
    requires ModeInv(m) && Accounted(m, c)
    ensures ModeInv(DoBind(m, iface, d).0) && Accounted(DoBind(m, iface, d).0, c)
  {
    if m.mode == ProxyOnly {
      var m1 := RecreateProxy(m, iface, d.first, d.retry).0;
      RecreateAccounted(m, iface, d.first, d.retry, c);
      RollbackAccounted(m1, m.bound, d, c);
      RollbackModes(m1, m.bound, d);
    }
  }

  lemma StopForwarderKeeps(m: Fields, d: Draws, c: CoreId)
    requires ModeInv(m) && Accounted(m, c)
    ensures ModeInv(DoStopForwarder(m, d).0) && Accounted(DoStopForwarder(m, d).0, c)
  {
    RecreateAccounted(CloseCore(m.(fwd := None), m.fwd), "", d.first, d.retry, c);
  }

  lemma RefreshKeeps(m: Fields, d: Draws, c: CoreId)
    requires ModeInv(m) && Accounted(m, c)
    ensures ModeInv(DoRefresh(m, d).0) && Accounted(DoRefresh(m, d).0, c)
  {
    RecreateAccounted(m, m.bound, d.first, d.retry, c);
  }

  lemma UnbindKeeps(m: Fields, d: Draws, c: CoreId)
    requires ModeInv(m) && Accounted(m, c)
    ensures ModeInv(DoUnbind(m, d).0) && Accounted(DoUnbind(m, d).0, c)
  {
    RecreateAccounted(m, "", d.first, d.retry, c);
  }

  lemma OthersKeep(m: Fields, cmd: Command, d: Draws, c: CoreId)
    requires ModeInv(m) && Accounted(m, c)
    requires cmd in {StartProxy, Suspend, Resume, Shutdown}
    ensures ModeInv(Apply(m, cmd, d).0) && Accounted(Apply(m, cmd, d).0, c)
  {
  }

  lemma ApplyKeeps(m: Fields, cmd: Command, d: Draws, c: CoreId)
    requires ModeInv(m) && Accounted(m, c)
    ensures ModeInv(Apply(m, cmd, d).0) && Accounted(Apply(m, cmd, d).0, c)
  {
    match cmd
    case StartForwarder => StartForwarderKeeps(m, d, c);
    case StopForwarder => StopForwarderKeeps(m, d, c);
    case Bind(iface) => BindKeeps(m, iface, d, c);
    case Unbind => UnbindKeeps(m, d, c);
    case Refresh => RefreshKeeps(m, d, c);
    case _ => OthersKeep(m, cmd, d, c);
  }

  /** In every run of calls and for every outcome of every foreign call: the forwarder
      exists exactly in VPN mode, VPN has a bound proxy, proxy-only has a proxy, suspended
      has no core and no binding; no core is leaked and none is closed twice. */
  lemma {:induction false} EveryRunKeepsInv(m: Fields, calls: seq<(Command, Draws)>, c: CoreId)
    requires ModeInv(m) && Accounted(m, c)
    ensures ModeInv(RunAll(m, calls)) && Accounted(RunAll(m, calls), c)
    decreases |calls|
  {
    if calls != [] {
      ApplyKeeps(m, calls[0].0, calls[0].1, c);
      EveryRunKeepsInv(Apply(m, calls[0].0, calls[0].1).0, calls[1..], c);
    }
  }

  // ---------------------------------------------------------------- outcomes

  lemma LaunchResult(m: Fields, d: Draws)
    requires m.mode != Vpn && m.proxy.Some? && d.probe.Some? && d.probe.value != ""
    requires d.first == Starts && d.forwarder == Starts
    ensures DoStartForwarder(m, d) == (Launched(RecreateProxy(m, d.probe.value, d.first, d.retry).0), true)
  {
  }

  lemma RollbackResult(m: Fields, d: Draws)
    requires m.mode != Vpn && m.proxy.Some? && d.probe.Some? && d.probe.value != ""
    requires !(d.first == Starts && d.forwarder == Starts)
    ensures
      var m1 := RecreateProxy(m, d.probe.value, d.first, d.retry).0;
      var m2 := if d.first == Starts && d.forwarder == StartFails then Discarded(m1) else m1;
      DoStartForwarder(m, d) == (RollbackProxy(m2, m.bound, d), false)
  {
    RecreateFacts(m, d.probe.value, d.first, d.retry);
  }

  /** StartForwarder, once it may start, succeeds exactly when the first rebind and the
      forwarder both start; a retry that brings the proxy back does not help. */
  lemma StartForwarderSucceeds(m: Fields, d: Draws)
    requires ModeInv(m) && m.mode != Vpn && m.proxy.Some? && d.probe.Some? && d.probe.value != ""
    ensures DoStartForwarder(m, d).1 <==> d.first == Starts && d.forwarder == Starts
    ensures DoStartForwarder(m, d).1 <==> DoStartForwarder(m, d).0.mode == Vpn
    ensures DoStartForwarder(m, d).1 ==> DoStartForwarder(m, d).0.bound == d.probe.value
  {
    var m1 := RecreateProxy(m, d.probe.value, d.first, d.retry).0;
    RecreateFacts(m, d.probe.value, d.first, d.retry);
    if d.first == Starts && d.forwarder == Starts {
      LaunchResult(m, d);
    } else {
      RollbackResult(m, d);
      RollbackModes(if d.first == Starts && d.forwarder == StartFails then Discarded(m1) else m1, m.bound, d);
    }
  }

  /** A StartForwarder that fails after attempting the rebind ends without a forwarder,
      proxy-only on the previous binding or stopped; which one is the rollback's first dial. */
  lemma FailedStartRollsBack(m: Fields, d: Draws)
    requires ModeInv(m) && m.mode != Vpn && m.proxy.Some? && d.probe.Some? && d.probe.value != ""
    requires !DoStartForwarder(m, d).1
    ensures
      var r := DoStartForwarder(m, d).0;
      && r.fwd.None?
      && r.mode == (if d.rollback == Starts then ProxyOnly else Stopped)
      && (r.mode == ProxyOnly ==> r.proxy.Some? && r.bound == m.bound)
      && (r.proxy.Some? <==> d.rollback == Starts || d.rollbackRetry == Starts)
  {
    var m1 := RecreateProxy(m, d.probe.value, d.first, d.retry).0;
    RecreateFacts(m, d.probe.value, d.first, d.retry);
    RecreateFacts(m1, m.bound, d.rollback, d.rollbackRetry);
    RecreateFacts(Discarded(m1), m.bound, d.rollback, d.rollbackRetry);
  }

  /** Leaving VPN always drops the forwarder. It records "stopped" exactly when the first
      dial fails, and then a proxy is nevertheless alive exactly when the retry started. */
  lemma LeavingVpn(m: Fields, d: Draws)
    requires ModeInv(m) && m.mode == Vpn && Accounted(m, m.fwd.value)
    ensures
      var (r, ok) := DoStopForwarder(m, d);
      && r.fwd.None? && r.closes[m.fwd.value] == 1
      && (ok <==> d.first == Starts)
      && r.mode == (if ok then ProxyOnly else Stopped)
      && (r.mode == Stopped && r.proxy.Some? <==> d.first != Starts && d.retry == Starts)
      && (r.proxy.Some? ==> r.bound == "")
  {
    StopForwarderKeeps(m, d, m.fwd.value);
    RecreateFacts(CloseCore(m.(fwd := None), m.fwd), "", d.first, d.retry);
  }

  /** "Stopped" does not mean that no proxy runs. */
  lemma StoppedProxyExample()
    ensures exists calls: seq<(Command, Draws)> ::
      var m := RunAll(FRESH, calls); m.mode == Stopped && m.proxy.Some?
  {
    var good := Draws(true, Some("en0"), Starts, Starts, Starts, Starts, Starts);
    var calls := [(StartProxy, good), (Unbind, good.(first := BuildFails))];
    var m1 := Apply(FRESH, StartProxy, good).0;
    assert calls[1..] == [calls[1]] && calls[1..][1..] == [];
    assert RunAll(m1, [calls[1]]) == Apply(m1, Unbind, good.(first := BuildFails)).0;
    assert RunAll(FRESH, calls) == Apply(m1, Unbind, good.(first := BuildFails)).0;
  }

  /** The call drops the proxy to bring up an unbound one, and records the outcome of the first dial. */
  predicate Unbinds(m: Fields, c: Command) {
    (c == StopForwarder && m.mode == Vpn) || (c == Unbind && m.mode == ProxyOnly)
  }

  /** The call attempts a rebind and has to roll it back. */
  predicate RollsBack(m: Fields, c: Command, d: Draws) {
    match c
    case StartForwarder =>
      && m.mode != Vpn && m.proxy.Some? && d.probe.Some? && d.probe.value != ""
      && !(d.first == Starts && d.forwarder == Starts)
    case Bind(iface) => m.mode == ProxyOnly && iface != "" && m.bound != iface && d.first != Starts
    case _ => false
  }

  predicate StoppedWithProxy(m: Fields) {
    m.mode == Stopped && m.proxy.Some?
  }

  lemma RollbackStrands(m: Fields, prev: string, d: Draws)
    ensures StoppedWithProxy(RollbackProxy(m, prev, d)) <==> d.rollback != Starts && d.rollbackRetry == Starts
  {
    RecreateFacts(m, prev, d.rollback, d.rollbackRetry);
  }

  lemma StartForwarderStrands(m: Fields, d: Draws)
    requires ModeInv(m) && !StoppedWithProxy(m)
    ensures StoppedWithProxy(DoStartForwarder(m, d).0)
       <==> RollsBack(m, StartForwarder, d) && d.rollback != Starts && d.rollbackRetry == Starts
  {
    if m.mode != Vpn && m.proxy.Some? && d.probe.Some? && d.probe.value != "" {
      var m1 := RecreateProxy(m, d.probe.value, d.first, d.retry).0;
      RecreateFacts(m, d.probe.value, d.first, d.retry);
      if d.first == Starts && d.forwarder == Starts {
        LaunchResult(m, d);
      } else {
        RollbackResult(m, d);
        RollbackStrands(if d.first == Starts && d.forwarder == StartFails then Discarded(m1) else m1, m.bound, d);
      }
    }
  }

  lemma BindStrands(m: Fields, iface: string, d: Draws)
    requires ModeInv(m) && !StoppedWithProxy(m)
    ensures StoppedWithProxy(DoBind(m, iface, d).0)
       <==> RollsBack(m, Bind(iface), d) && d.rollback != Starts && d.rollbackRetry == Starts
  {
    RecreateFacts(m, iface, d.first, d.retry);
    RollbackStrands(RecreateProxy(m, iface, d.first, d.retry).0, m.bound, d);
  }

  lemma UnbindStrands(m: Fields, c: Command, d: Draws)
    requires ModeInv(m) && !StoppedWithProxy(m) && (c == StopForwarder || c == Unbind)
    ensures StoppedWithProxy(Apply(m, c, d).0) <==> Unbinds(m, c) && d.first != Starts && d.retry == Starts
  {
    RecreateFacts(m, "", d.first, d.retry);
    RecreateFacts(CloseCore(m.(fwd := None), m.fwd), "", d.first, d.retry);
  }

  /** Every way into "stopped" with a live proxy: the unbinding of StopForwarder or UnbindProxy
      fails and its retry starts, or the rollback of a failed StartForwarder or Bind does. */
  lemma StoppedWithProxyIff(m: Fields, c: Command, d: Draws)
    requires ModeInv(m) && !StoppedWithProxy(m)
    ensures StoppedWithProxy(Apply(m, c, d).0)
       <==> || (Unbinds(m, c) && d.first != Starts && d.retry == Starts)
            || (RollsBack(m, c, d) && d.rollback != Starts && d.rollbackRetry == Starts)
  {
    match c
    case StartForwarder => StartForwarderStrands(m, d);
    case Bind(iface) => BindStrands(m, iface, d);
    case StopForwarder => UnbindStrands(m, c, d);
    case Unbind => UnbindStrands(m, c, d);
    case Refresh => RecreateFacts(m, m.bound, d.first, d.retry);
    case _ =>
  }

  /** Nor does StartProxy mend it: it reports success and leaves "stopped" recorded. */
  lemma StartProxyKeepsStopped(m: Fields, d: Draws)
    requires StoppedWithProxy(m)
    ensures Apply(m, StartProxy, d) == (m, true)
  {
  }

  /** Shutdown closes every core but leaves the recorded binding, so afterwards the manager
      reports "no binding" exactly when it had none before. */
  lemma ShutdownResult(m: Fields, c: CoreId)
    requires ModeInv(m) && Accounted(m, c)
    ensures
      var r := DoShutdown(m);
      && r.mode == Stopped && r.proxy.None? && r.fwd.None? && r.gen == m.gen + 1
      && r.closes[c] == Times(c < r.next)
      && (r.bound == "" <==> m.bound == "")
  {
  }

  /** Entering and leaving VPN mode without faults restores an unbound proxy-only manager. */
  lemma VpnRoundTrip(m: Fields, up: Draws, down: Draws)
    requires ModeInv(m) && m.mode == ProxyOnly
    requires DoStartForwarder(m, up).1 && down.first == Starts
    ensures
      var r := DoStopForwarder(DoStartForwarder(m, up).0, down).0;
      r.mode == ProxyOnly && r.proxy.Some? && r.fwd.None? && r.bound == "" && r.gen == m.gen
  {
    StartForwarderSucceeds(m, up);
    var v := DoStartForwarder(m, up).0;
    RecreateFacts(m, up.probe.value, up.first, up.retry);
    RecreateFacts(CloseCore(v.(fwd := None), v.fwd), "", down.first, down.retry);
  }
}
