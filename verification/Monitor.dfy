/**
 The monitor's poll and the executor's operations as the source writes them, proved to
 compute the functions of `Coexist`; `Daemon` holds what their goroutines share.
 */
module Monitor {
  import opened Wrappers
  import opened Policy
  import opened Debounce
  import C = Coexist
  import L = Lifecycle
  import R = Runtime

  method HasAction(d: Decision) returns (act: bool)
    ensures act <==> Actionable(d)
  {
    for i := 0 to |d.actions|
      invariant forall k :: 0 <= k < i ==> d.actions[k] == Nothing
    {
      if d.actions[i] != Nothing {
        assert d.actions[i] in d.actions;
        return true;
      }
    }
    act := false;
  }

  class Watcher {
    const deb: Debouncer
    var prevCisco: Cisco
    var prevPhys: string
    var havePhys: bool

    ghost function Now(): C.Watch
      reads this, deb
    {
      C.Watch(deb.Now(), prevCisco, prevPhys, havePhys)
    }

    constructor (threshold: int)
      ensures Now() == C.UNWATCHED && fresh(deb)
      ensures deb.threshold == if threshold < 1 then 1 else threshold
    {
      deb := new Debouncer(threshold);
      prevCisco, prevPhys, havePhys := Unknown, "", false;
    }

    /** One poll: the emitted decision, if any. A detector error leaves everything as it was. */
    method Poll(seen: Option<C.Seen>, mode: Mode, bound: bool) returns (event: Option<Decision>)
      modifies this, deb
      ensures
        if seen.None? then
          Now() == old(Now()) && event.None?
        else
          var (w, d) := C.Polled(old(Now()), deb.threshold, seen.value, mode, bound);
          Now() == w && event == if Actionable(d) then Some(d) else None
    {
      if seen.None? {
        return None;
      }
      var ns := seen.value;
      var raw := Inactive;
      if ns.cisco {
        raw := Active;
      }
      var committed, _ := deb.Observe(raw);
      var physChanged := false;
      if ns.phys != "" {
        if havePhys && ns.phys != prevPhys {
          physChanged := true;
        }
        prevPhys := ns.phys;
        havePhys := true;
      }
      var d := Decide(Input(mode, prevCisco, committed, NoIntent, physChanged, bound, ns.ownsDefault));
      prevCisco := committed;
      var act := HasAction(d);
      event := if act then Some(d) else None;
    }
  }

  class Executor {
    const mgr: R.Manager
    var lastCisco: bool

    constructor ()
      ensures fresh(mgr) && mgr.Fields() == L.FRESH && !lastCisco
    {
      mgr := new R.Manager();
      lastCisco := false;
    }

    method Mode() returns (m: Mode)
      ensures m == C.ModeOf(mgr.Fields())
    {
      if mgr.mode == L.Vpn {
        return Vpn;
      }
      return Proxy;
    }

    method ProxyBoundToPhysical() returns (b: bool)
      ensures b <==> C.BoundToPhysical(mgr.Fields())
    {
      b := mgr.mode == L.ProxyOnly && mgr.bound != "";
    }

    /** The flags a decision raises. */
    method Flags(acts: seq<Action>) returns (stop: bool, bind: bool, unbind: bool, refresh: bool)
      ensures stop <==> FailClosed in acts || StopForwarder in acts
      ensures bind <==> BindPhysical in acts
      ensures unbind <==> UnbindProxy in acts
      ensures refresh <==> RefreshProxy in acts
    {
      stop, bind, unbind, refresh := false, false, false, false;
      for i := 0 to |acts|
        invariant stop <==> FailClosed in acts[..i] || StopForwarder in acts[..i]
        invariant bind <==> BindPhysical in acts[..i]
        invariant unbind <==> UnbindProxy in acts[..i]
        invariant refresh <==> RefreshProxy in acts[..i]
      {
        assert acts[..i + 1] == acts[..i] + [acts[i]];
        match acts[i] {
          case FailClosed => stop := true;
          case StopForwarder => stop := true;
          case RefreshProxy => refresh := true;
          case BindPhysical => bind := true;
          case UnbindProxy => unbind := true;
          case _ =>
        }
      }
      assert acts[..|acts|] == acts;
    }

    method Apply(acts: seq<Action>, seen: C.Seen, f: C.Faults)
      modifies mgr
      ensures mgr.Fields() == C.Applied(old(mgr.Fields()), acts, seen, f)
    {
      var stop, bind, unbind, refresh := Flags(acts);
      if stop {
        var _ := mgr.StopForwarder(f.stop);
      }
      ghost var m1 := if stop then L.Apply(old(mgr.Fields()), L.StopForwarder, f.stop).0 else old(mgr.Fields());
      assert mgr.Fields() == m1;
      if bind {
        Rebind(seen, f);
      }
      ghost var m2 := if bind && C.Target(seen, f) != "" then L.Apply(m1, L.Bind(C.Target(seen, f)), f.bind).0 else m1;
      assert mgr.Fields() == m2;
      if unbind {
        var _ := mgr.UnbindProxy(f.unbind);
      }
      ghost var m3 := if unbind then L.Apply(m2, L.Unbind, f.unbind).0 else m2;
      assert mgr.Fields() == m3;
      if refresh {
        Renew(f.refresh);
      }
      assert mgr.Fields() == if refresh then C.Renewed(m3, f.refresh) else m3;
    }

    method Rebind(seen: C.Seen, f: C.Faults)
      modifies mgr
      ensures mgr.Fields()
           == if C.Target(seen, f) != "" then L.Apply(old(mgr.Fields()), L.Bind(C.Target(seen, f)), f.bind).0
              else old(mgr.Fields())
    {
      var iface := seen.phys;
      if iface == "" && f.bind.probe.Some? {
        iface := f.bind.probe.value;
      }
      if iface != "" {
        var _ := mgr.BindProxyToPhysical(iface, f.bind);
      }
    }

    method Renew(d: L.Draws)
      modifies mgr
      ensures mgr.Fields() == C.Renewed(old(mgr.Fields()), d)
    {
      if mgr.mode == L.Suspended {
        var _ := mgr.ResumeProxy(d);
      } else {
        var _ := mgr.RefreshProxy(d);
      }
    }

    /** The end of Apply and the callback of every poll: the observation is remembered. */
    method Display(seen: C.Seen)
      modifies this`lastCisco
      ensures lastCisco == seen.cisco
    {
      lastCisco := seen.cisco;
    }

    /** The check of EnableVPN, made under the lock that is released before the manager is
        called: what is left to do. */
    method AdmitVpn() returns (task: Option<C.Task>)
      ensures task == if lastCisco then None else Some(C.CallStartProxy)
    {
      if lastCisco {
        return None;
      }
      task := Some(C.CallStartProxy);
    }

    /** The check of EnableProxy. */
    method AdmitProxy() returns (task: C.Task)
      ensures task == if mgr.mode == L.Vpn then C.CallStopForwarder else C.CallProxyOnly
    {
      task := if mgr.mode == L.Vpn then C.CallStopForwarder else C.CallProxyOnly;
    }

    /** The next manager call of an admitted request. */
    method Advance(task: C.Task, d: L.Draws) returns (rest: Option<C.Task>)
      modifies mgr
      ensures (mgr.Fields(), rest) == C.Advanced(old(mgr.Fields()), task, d)
    {
      rest := None;
      match task {
        case CallStartProxy =>
          var ok := mgr.StartProxy(d);
          if ok {
            rest := Some(C.CallStartForwarder);
          }
        case CallStartForwarder => var _ := mgr.StartForwarder(d);
        case CallStopForwarder => var _ := mgr.StopForwarder(d);
        case CallProxyOnly => var _ := mgr.StartProxy(d);
      }
    }
  }

  /** The goroutines of the daemon around one monitor and one executor: the channel between
      them, the observation to be displayed, and the admitted requests. */
  class Daemon {
    const watcher: Watcher
    const executor: Executor
    var queue: seq<C.Emitted>
    var work: C.Work
    var tasks: seq<C.Task>
    ghost var late: bool

    ghost function Now(): C.System
      reads this, watcher, watcher.deb, executor, executor.mgr
    {
      C.System(watcher.Now(), executor.lastCisco, executor.mgr.Fields(), queue, work, tasks, late)
    }

    constructor (threshold: int)
      ensures Now() == C.START && fresh(watcher) && fresh(watcher.deb) && fresh(executor) && fresh(executor.mgr)
      ensures watcher.deb.threshold == if threshold < 1 then 1 else threshold
    {
      watcher := new Watcher(threshold);
      executor := new Executor();
      queue, work, tasks, late := [], C.Idle, [], false;
    }

    method Poll(seen: Option<C.Seen>, midway: bool)
      modifies this, watcher, watcher.deb, executor
      ensures Now() == C.Exec(old(Now()), watcher.deb.threshold, C.Poll(seen, midway))
    {
      var mode := executor.Mode();
      var bound := executor.ProxyBoundToPhysical();
      // halfway through a StartForwarder the proxy is already rebound
      bound := bound || (midway && C.CallStartForwarder in tasks);
      var event := watcher.Poll(seen, mode, bound);
      if seen.Some? {
        executor.Display(seen.value);
        late := false;
      }
      if event.Some? {
        queue := queue + [C.Emitted(seen.value, event.value)];
      }
    }

    /** Loop: the oldest event is received, */
    method Take()
      modifies this
      ensures Now() == C.Exec(old(Now()), watcher.deb.threshold, C.Take)
    {
      if queue != [] && work.Idle? {
        work := C.Applying(queue[0]);
        queue := queue[1..];
      }
    }

    /** applied with whatever faults, */
    method Enact(f: C.Faults)
      modifies this, executor.mgr
      ensures Now() == C.Exec(old(Now()), watcher.deb.threshold, C.Enact(f))
    {
      if work.Applying? {
        var e := work.event;
        executor.Apply(e.decision.actions, e.seen, f);
        work := C.Showing(e.seen);
        late := late && executor.mgr.mode == L.Vpn;
      }
    }

    /** and its observation displayed. */
    method Show()
      modifies this, executor
      ensures Now() == C.Exec(old(Now()), watcher.deb.threshold, C.Show)
    {
      if work.Showing? {
        executor.Display(work.seen);
        work := C.Idle;
      }
    }

    method RequestVpn()
      modifies this
      ensures Now() == C.Exec(old(Now()), watcher.deb.threshold, C.RequestVpn)
    {
      var task := executor.AdmitVpn();
      if task.Some? {
        tasks := tasks + [task.value];
      }
    }

    method RequestProxy()
      modifies this
      ensures Now() == C.Exec(old(Now()), watcher.deb.threshold, C.RequestProxy)
    {
      var task := executor.AdmitProxy();
      tasks := tasks + [task];
    }

    method Turn(i: nat, d: L.Draws)
      modifies this, executor.mgr
      ensures Now() == C.Exec(old(Now()), watcher.deb.threshold, C.Turn(i, d))
    {
      if i >= |tasks| {
        return;
      }
      ghost var before := executor.mgr.mode;
      var rest := executor.Advance(tasks[i], d);
      tasks := if rest.Some? then tasks[i := rest.value] else C.Without(tasks, i);
      late := executor.mgr.mode == L.Vpn && (late || before != L.Vpn);
    }

    method Off()
      modifies this, executor.mgr
      ensures Now() == C.Exec(old(Now()), watcher.deb.threshold, C.Off)
    {
      executor.mgr.Shutdown();
      late := false;
    }
  }

  /** Any interleaving over fresh objects: their state is `Coexist.Run`, so the run theorems
      speak about these objects. */
  method Serve(threshold: int, steps: seq<C.Step>) returns (d: Daemon)
    ensures d.Now() == C.Run(C.START, if threshold < 1 then 1 else threshold, steps)
  {
    d := new Daemon(threshold);
    for i := 0 to |steps|
      invariant fresh(d) && fresh(d.watcher) && fresh(d.watcher.deb) && fresh(d.executor) && fresh(d.executor.mgr)
      invariant d.watcher.deb.threshold == if threshold < 1 then 1 else threshold
      invariant d.Now() == C.Run(C.START, d.watcher.deb.threshold, steps[..i])
    {
      assert steps[..i + 1][..i] == steps[..i];
      match steps[i] {
        case Poll(seen, midway) => d.Poll(seen, midway);
        case Take => d.Take();
        case Enact(f) => d.Enact(f);
        case Show => d.Show();
        case RequestVpn => d.RequestVpn();
        case RequestProxy => d.RequestProxy();
        case Turn(k, draws) => d.Turn(k, draws);
        case Off => d.Off();
      }
    }
    assert steps[..|steps|] == steps;
  }
}
