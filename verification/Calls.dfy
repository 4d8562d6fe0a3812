/**
 What each call of the manager does, told by its outcome instead of its steps: when it
 succeeds, the mode, binding and cores it leaves, and that the proxy it replaces is closed.
 */
module Calls {
  import opened Wrappers
  import opened Lifecycle

  /** StartProxy succeeds exactly when a proxy runs already, or the routes are cleaned and the proxy
      starts; a new proxy is unbound, and a failed call changes neither mode nor binding. */
  lemma StartProxyMeans(m: Fields, d: Draws)
    ensures
      var (r, ok) := Apply(m, StartProxy, d);
      && (ok <==> m.proxy.Some? || (d.cleanupOk && d.first == Starts))
      && (m.proxy.Some? ==> r == m)
      && (m.proxy.None? && ok ==> r.mode == ProxyOnly && r.proxy == Some(m.next) && r.bound == "" && r.fwd == m.fwd)
      && (!ok ==> r.mode == m.mode && r.bound == m.bound && r.proxy.None? && r.fwd == m.fwd)
  {
  }

  /** Resuming acts on a suspended manager only, and brings an unbound proxy back exactly when it
      starts. */
  lemma ResumeMeans(m: Fields, d: Draws)
    requires ModeInv(m)
    ensures
      var (r, ok) := Apply(m, Resume, d);
      && (m.mode != Suspended ==> r == m && ok)
      && (m.mode == Suspended ==>
            && (ok <==> d.first == Starts)
            && r.mode == (if ok then ProxyOnly else Suspended)
            && (r.proxy.Some? <==> ok) && r.bound == "" && r.fwd.None?)
  {
  }

  /** Suspending drops everything and closes every core. */
  lemma SuspendMeans(m: Fields, d: Draws, c: CoreId)
    requires ModeInv(m) && Accounted(m, c)
    ensures
      var (r, ok) := Apply(m, Suspend, d);
      && ok && r.mode == Suspended && r.proxy.None? && r.fwd.None? && r.bound == ""
      && r.closes[c] == Times(c < r.next)
  {
    OthersKeep(m, Suspend, d, c);
  }

  /** The call rebinds the proxy to another interface. */
  predicate Rebinds(m: Fields, iface: string) {
    m.mode == ProxyOnly && iface != "" && m.bound != iface
  }

  /** Binding succeeds exactly when there is nothing to bind, the binding is in place already, or
      the new proxy starts; otherwise the previous binding is restored or the manager stops. */
  lemma BindMeans(m: Fields, iface: string, d: Draws)
    requires ModeInv(m)
    ensures
      var (r, ok) := Apply(m, Bind(iface), d);
      && (!Rebinds(m, iface) ==> r == m && (ok <==> m.mode != ProxyOnly || iface != ""))
      && (Rebinds(m, iface) ==>
            && (ok <==> d.first == Starts)
            && (ok ==> r.mode == ProxyOnly && r.proxy.Some? && r.bound == iface)
            && (!ok && d.rollback == Starts ==> r.mode == ProxyOnly && r.proxy.Some? && r.bound == m.bound)
            && (!ok && d.rollback != Starts ==> r.mode == Stopped))
  {
    var m1 := RecreateProxy(m, iface, d.first, d.retry).0;
    RecreateFacts(m, iface, d.first, d.retry);
    RecreateFacts(m1, m.bound, d.rollback, d.rollbackRetry);
  }

  /** Unbinding acts on a proxy-only manager only; it succeeds exactly when the unbound proxy
      starts, and otherwise stops the manager. */
  lemma UnbindMeans(m: Fields, d: Draws)
    requires ModeInv(m)
    ensures
      var (r, ok) := Apply(m, Unbind, d);
      && (m.mode != ProxyOnly ==> r == m && ok)
      && (m.mode == ProxyOnly ==>
            && (ok <==> d.first == Starts)
            && r.mode == (if ok then ProxyOnly else Stopped)
            && (r.proxy.Some? <==> d.first == Starts || d.retry == Starts)
            && (r.proxy.Some? ==> r.bound == ""))
  {
    RecreateFacts(m, "", d.first, d.retry);
  }

  /** Refreshing needs a proxy. It keeps mode, binding and forwarder as long as one of its two dials
      starts, succeeds exactly when the first does, and stops the manager when none does. */
  lemma RefreshMeans(m: Fields, d: Draws)
    requires ModeInv(m)
    ensures
      var (r, ok) := Apply(m, Refresh, d);
      && (m.proxy.None? ==> r == m && !ok)
      && (m.proxy.Some? ==>
            && (ok <==> d.first == Starts)
            && (d.first == Starts || d.retry == Starts ==>
                  r.proxy.Some? && r.bound == m.bound && r.mode == m.mode && r.fwd == m.fwd)
            && (d.first != Starts && d.retry != Starts ==>
                  r.proxy.None? && r.bound == "" && r.mode == Stopped && r.fwd.None?))
  {
    RecreateFacts(m, m.bound, d.first, d.retry);
  }

  /** StopForwarder outside VPN mode does nothing; in it, `Lifecycle.LeavingVpn` applies. */
  lemma StopForwarderIdle(m: Fields, d: Draws)
    requires m.mode != Vpn
    ensures Apply(m, StopForwarder, d) == (m, true)
  {
  }

  /** StartForwarder that may not start changes nothing, and fails unless VPN mode is on. */
  lemma StartForwarderIdle(m: Fields, d: Draws)
    requires m.mode == Vpn || m.proxy.None? || d.probe.None? || d.probe.value == ""
    ensures Apply(m, StartForwarder, d) == (m, m.mode == Vpn)
  {
  }

  /** The call replaces or drops the proxy. */
  predicate Replaces(m: Fields, c: Command, d: Draws) {
    match c
    case StartForwarder => m.mode != Vpn && d.probe.Some? && d.probe.value != ""
    case StopForwarder => m.mode == Vpn
    case Bind(iface) => Rebinds(m, iface)
    case Unbind => m.mode == ProxyOnly
    case Refresh => true
    case Suspend => true
    case Shutdown => true
    case _ => false
  }

  lemma KeepsAll(m: Fields, c: Command, d: Draws)
    requires m.proxy.Some? && !Replaces(m, c, d)
    ensures Apply(m, c, d).0 == m
  {
  }

  /** The core `p` was created and is no longer in use, so it has been closed, once. */
  predicate Gone(m: Fields, p: CoreId) {
    Accounted(m, p) && p < m.next && m.proxy != Some(p) && m.fwd != Some(p)
  }

  lemma GoneIsClosed(m: Fields, p: CoreId)
    requires Gone(m, p)
    ensures m.closes[p] == 1
  {
  }

  /** A call either keeps the proxy it finds and everything else, or closes it, exactly once. */
  lemma OldProxyClosed(m: Fields, c: Command, d: Draws, p: CoreId)
    requires ModeInv(m) && m.proxy == Some(p) && Accounted(m, p)
    ensures if Replaces(m, c, d) then Gone(Apply(m, c, d).0, p) && Apply(m, c, d).0.closes[p] == 1 else Apply(m, c, d).0 == m
  {
    if Replaces(m, c, d) {
      ApplyKeeps(m, c, d, p);
      CoresAreNew(m, c, d, p);
      GoneIsClosed(Apply(m, c, d).0, p);
    } else {
      KeepsAll(m, c, d);
    }
  }

  /** A core once gone never comes back. */
  lemma GoneForever(m: Fields, c: Command, d: Draws, p: CoreId)
    requires ModeInv(m) && Gone(m, p)
    ensures Gone(Apply(m, c, d).0, p)
  {
    ApplyKeeps(m, c, d, p);
    CoresAreNew(m, c, d, p);
  }

  lemma RecreateIsNew(m: Fields, iface: string, first: Dial, retry: Dial, p: CoreId)
    requires p < m.next
    ensures var r := RecreateProxy(m, iface, first, retry).0; r.proxy != Some(p) && p < r.next && r.fwd == m.fwd
  {
  }

  lemma StartForwarderIsNew(m: Fields, d: Draws, p: CoreId)
    requires p < m.next && m.fwd != Some(p)
    requires m.mode != Vpn && m.proxy.Some? && d.probe.Some? && d.probe.value != ""
    ensures var r := Apply(m, StartForwarder, d).0; r.proxy != Some(p) && r.fwd != Some(p) && p < r.next
  {
    var m1 := RecreateProxy(m, d.probe.value, d.first, d.retry).0;
    RecreateIsNew(m, d.probe.value, d.first, d.retry, p);
    if d.first == Starts && d.forwarder == Starts {
      LaunchResult(m, d);
    } else {
      RollbackResult(m, d);
      var m2 := if d.first == Starts && d.forwarder == StartFails then Discarded(m1) else m1;
      RecreateIsNew(m2, m.bound, d.rollback, d.rollbackRetry, p);
    }
  }

  lemma BindIsNew(m: Fields, iface: string, d: Draws, p: CoreId)
    requires p < m.next && m.fwd != Some(p) && (m.proxy != Some(p) || Rebinds(m, iface)) && ModeInv(m)
    ensures var r := Apply(m, Bind(iface), d).0; r.proxy != Some(p) && r.fwd != Some(p) && p < r.next
  {
    var m1 := RecreateProxy(m, iface, d.first, d.retry).0;
    RecreateIsNew(m, iface, d.first, d.retry, p);
    RecreateIsNew(m1, m.bound, d.rollback, d.rollbackRetry, p);
  }

  /** No call puts a core to use that existed before, except by leaving it where it is. */
  lemma CoresAreNew(m: Fields, c: Command, d: Draws, p: CoreId)
    requires p < m.next && m.fwd != Some(p) && (m.proxy != Some(p) || Replaces(m, c, d)) && ModeInv(m)
    ensures var r := Apply(m, c, d).0; r.proxy != Some(p) && r.fwd != Some(p) && p < r.next
  {
    match c
    case StartForwarder =>
      if m.mode != Vpn && m.proxy.Some? && d.probe.Some? && d.probe.value != "" {
        StartForwarderIsNew(m, d, p);
      } else {
        StartForwarderIdle(m, d);
      }
    case StopForwarder => RecreateIsNew(CloseCore(m.(fwd := None), m.fwd), "", d.first, d.retry, p);
    case Bind(iface) => BindIsNew(m, iface, d, p);
    case Unbind => RecreateIsNew(m, "", d.first, d.retry, p);
    case Refresh => RecreateIsNew(m, m.bound, d.first, d.retry, p);
    case _ =>
  }
}
