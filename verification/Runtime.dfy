/**
 The lifecycle manager as the source writes it: methods that update its fields step
 by step. Each method is proved to compute the corresponding function of
 `Lifecycle`, whose properties are proved there.
 */
module Runtime {
  import opened Wrappers
  import L = Lifecycle

  class Manager {
    var mode: L.Mode
    var proxy: Option<L.CoreId>
    var fwd: Option<L.CoreId>
    var bound: string
    var gen: nat
    var next: L.CoreId               // name of the next core the factory returns
    ghost var closes: multiset<L.CoreId>

    ghost function Fields(): L.Fields
      reads this
    {
      L.Fields(mode, proxy, fwd, bound, gen, next, closes)
    }

    constructor ()
      ensures Fields() == L.FRESH
    {
      mode, proxy, fwd, bound, gen, next := L.Stopped, None, None, "", 0, 0;
      closes := multiset{};
    }

    ghost method Close(c: Option<L.CoreId>)
      modifies this`closes
      ensures Fields() == L.CloseCore(old(Fields()), c)
    {
      if c.Some? {
        closes := closes + multiset{c.value};
      }
    }

    /** Runs the factory: a fresh core, or None when building or creating it failed. */
    method Create(d: L.Dial) returns (c: Option<L.CoreId>)
      modifies this`next
      ensures c == if d.BuildFails? || d.CreateFails? then None else Some(old(next))
      ensures next == if c.Some? then old(next) + 1 else old(next)
    {
      if d.BuildFails? || d.CreateFails? {
        return None;
      }
      c := Some(next);
      next := next + 1;
    }

    method DialProxy(iface: string, d: L.Dial) returns (ok: bool)
      modifies this
      ensures (Fields(), ok) == L.DialProxy(old(Fields()), iface, d)
    {
      var c := Create(d);
      if c.None? {
        return false;
      }
      if d.StartFails? {
        Close(c);
        return false;
      }
      proxy := c;
      bound := iface;
      ok := true;
    }

    method RecreateProxy(iface: string, first: L.Dial, retry: L.Dial) returns (ok: bool)
      modifies this
      ensures (Fields(), ok) == L.RecreateProxy(old(Fields()), iface, first, retry)
    {
      ghost var previous := proxy;
      proxy := None;
      Close(previous);
      ok := DialProxy(iface, first);
      if !ok {
        var restored := DialProxy(iface, retry);
      }
    }

    method RollbackProxy(prev: string, d: L.Draws)
      modifies this
      ensures Fields() == L.RollbackProxy(old(Fields()), prev, d)
    {
      var ok := RecreateProxy(prev, d.rollback, d.rollbackRetry);
      if !ok {
        mode := L.Stopped;
        return;
      }
      mode := L.ProxyOnly;
    }

    method StartProxy(d: L.Draws) returns (ok: bool)
      modifies this
      ensures (Fields(), ok) == L.Apply(old(Fields()), L.StartProxy, d)
    {
      if proxy.Some? {
        return true;
      }
      if !d.cleanupOk {
        return false;
      }
      ok := DialProxy("", d.first);
      if ok {
        mode := L.ProxyOnly;
      }
    }

    method StartForwarder(d: L.Draws) returns (ok: bool)
      modifies this
      ensures (Fields(), ok) == L.Apply(old(Fields()), L.StartForwarder, d)
    {
      if mode == L.Vpn {
        return true;
      }
      if proxy.None? {
        return false;
      }
      var prev := bound;
      if d.probe.None? || d.probe.value == "" {
        return false;
      }
      ok := RecreateProxy(d.probe.value, d.first, d.retry);
      if !ok {
        RollbackProxy(prev, d);
        return;
      }
      var c := Create(d.forwarder);
      if c.None? {
        RollbackProxy(prev, d);
        return false;
      }
      if d.forwarder.StartFails? {
        Close(c);
        RollbackProxy(prev, d);
        return false;
      }
      fwd := c;
      mode := L.Vpn;
    }

    /** Also the body of NotifyForwarderExited. */
    method StopForwarder(d: L.Draws) returns (ok: bool)
      modifies this
      ensures (Fields(), ok) == L.Apply(old(Fields()), L.StopForwarder, d)
    {
      if mode != L.Vpn {
        return true;
      }
      ghost var leaving := fwd;
      fwd := None;
      Close(leaving);
      ok := RecreateProxy("", d.first, d.retry);
      if !ok {
        mode := L.Stopped;
        return;
      }
      mode := L.ProxyOnly;
    }

    method SuspendForCisco(d: L.Draws) returns (ok: bool)
      modifies this
      ensures (Fields(), ok) == L.Apply(old(Fields()), L.Suspend, d)
    {
      ghost var f, p := fwd, proxy;
      fwd, proxy, bound := None, None, "";
      Close(f);
      Close(p);
      mode := L.Suspended;
      ok := true;
    }

    method ResumeProxy(d: L.Draws) returns (ok: bool)
      modifies this
      ensures (Fields(), ok) == L.Apply(old(Fields()), L.Resume, d)
    {
      if !(mode == L.Suspended && proxy.None?) {
        return true;
      }
      ok := DialProxy("", d.first);
      if ok {
        mode := L.ProxyOnly;
      }
    }

    method BindProxyToPhysical(iface: string, d: L.Draws) returns (ok: bool)
      modifies this
      ensures (Fields(), ok) == L.Apply(old(Fields()), L.Bind(iface), d)
    {
      if mode != L.ProxyOnly || proxy.None? {
        return true;
      }
      if iface == "" {
        return false;
      }
      if bound == iface {
        return true;
      }
      var prev := bound;
      ok := RecreateProxy(iface, d.first, d.retry);
      if !ok {
        RollbackProxy(prev, d);
      }
    }

    method UnbindProxy(d: L.Draws) returns (ok: bool)
      modifies this
      ensures (Fields(), ok) == L.Apply(old(Fields()), L.Unbind, d)
    {
      if mode != L.ProxyOnly {
        return true;
      }
      ok := RecreateProxy("", d.first, d.retry);
      if !ok {
        mode := L.Stopped;
      }
    }

    method RefreshProxy(d: L.Draws) returns (ok: bool)
      modifies this
      ensures (Fields(), ok) == L.Apply(old(Fields()), L.Refresh, d)
    {
      if proxy.None? {
        return false;
      }
      ok := RecreateProxy(bound, d.first, d.retry);
      if !ok && proxy.None? {
        ghost var orphan := fwd;
        fwd := None;
        mode := L.Stopped;
        bound := "";
        Close(orphan);
      }
    }

    method Shutdown()
      modifies this
      ensures Fields() == L.DoShutdown(old(Fields()))
    {
      gen := gen + 1;
      ghost var f, p := fwd, proxy;
      fwd, proxy, mode := None, None, L.Stopped;
      ghost var cleared := old(Fields()).(gen := gen, fwd := None, proxy := None, mode := L.Stopped);
      Close(f);
      assert Fields() == L.CloseCore(cleared, f);
      Close(p);
    }

    method Call(c: L.Command, d: L.Draws) returns (ok: bool)
      modifies this
      ensures (Fields(), ok) == L.Apply(old(Fields()), c, d)
    {
      match c {
        case StartProxy => ok := StartProxy(d);
        case StartForwarder => ok := StartForwarder(d);
        case StopForwarder => ok := StopForwarder(d);
        case Suspend => ok := SuspendForCisco(d);
        case Resume => ok := ResumeProxy(d);
        case Bind(iface) => ok := BindProxyToPhysical(iface, d);
        case Unbind => ok := UnbindProxy(d);
        case Refresh => ok := RefreshProxy(d);
        case Shutdown =>
          Shutdown();
          ok := true;
      }
    }
  }

  /** A client issuing arbitrary calls one after another: what the manager's fields are in
      the end is `RunAll`, so the invariant of `Lifecycle` holds of them. */
  method Drive(calls: seq<(L.Command, L.Draws)>) returns (m: Manager)
    ensures m.Fields() == L.RunAll(L.FRESH, calls)
    ensures L.ModeInv(m.Fields())
    ensures forall c: L.CoreId :: L.Accounted(m.Fields(), c)
  {
    m := new Manager();
    var i := 0;
    assert calls[0..] == calls;
    while i < |calls|
      invariant 0 <= i <= |calls|
      invariant fresh(m)
      invariant L.RunAll(m.Fields(), calls[i..]) == L.RunAll(L.FRESH, calls)
    {
      L.RunAllStep(m.Fields(), calls, i);
      var ok := m.Call(calls[i].0, calls[i].1);
      i := i + 1;
    }
    assert calls[i..] == [];
    L.EveryRunKeepsInv(L.FRESH, calls, 0);
    forall c: L.CoreId
      ensures L.Accounted(m.Fields(), c)
    {
      L.EveryRunKeepsInv(L.FRESH, calls, c);
    }
  }
}
