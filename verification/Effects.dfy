/**
 What a poll orders and what the executor does for it: nothing that the network calls for is
 left out, and nothing that was ordered is dropped.
 */
module Effects {
  import opened Wrappers
  import opened Policy
  import opened Coexist
  import L = Lifecycle
  import K = Calls

  /** The proxy `p` is still in place, or gone and closed. */
  predicate InPlaceOrGone(m: L.Fields, p: L.CoreId) {
    L.ModeInv(m) && (K.Gone(m, p) || (m.proxy == Some(p) && L.Accounted(m, p)))
  }

  lemma CallMoves(m: L.Fields, c: L.Command, d: L.Draws, p: L.CoreId)
    requires InPlaceOrGone(m, p)
    ensures InPlaceOrGone(L.Apply(m, c, d).0, p)
    ensures K.Gone(m, p) || K.Replaces(m, c, d) ==> K.Gone(L.Apply(m, c, d).0, p)
  {
    L.ApplyKeeps(m, c, d, p);
    if K.Gone(m, p) {
      K.GoneForever(m, c, d, p);
    } else {
      K.OldProxyClosed(m, c, d, p);
    }
  }

  /** An ordered refresh replaces the proxy, whatever else is ordered and whatever fails: the
      one that was running is closed, exactly once. */
  lemma RefreshHappens(m: L.Fields, acts: seq<Action>, seen: Seen, f: Faults, p: L.CoreId)
    requires L.ModeInv(m) && m.proxy == Some(p) && L.Accounted(m, p) && RefreshProxy in acts
    ensures Applied(m, acts, seen, f).closes[p] == 1
  {
    var m1 := if FailClosed in acts || StopForwarder in acts then L.Apply(m, L.StopForwarder, f.stop).0 else m;
    CallMoves(m, L.StopForwarder, f.stop, p);
    var bind := L.Bind(Target(seen, f));
    var m2 := if BindPhysical in acts && Target(seen, f) != "" then L.Apply(m1, bind, f.bind).0 else m1;
    CallMoves(m1, bind, f.bind, p);
    var m3 := if UnbindProxy in acts then L.Apply(m2, L.Unbind, f.unbind).0 else m2;
    CallMoves(m2, L.Unbind, f.unbind, p);
    CallMoves(m3, L.Resume, f.refresh, p);
    CallMoves(m3, L.Refresh, f.refresh, p);
    assert Applied(m, acts, seen, f) == Renewed(m3, f.refresh);
    K.GoneIsClosed(Renewed(m3, f.refresh), p);
  }

  /** A suspended manager is resumed by an ordered refresh, exactly when the proxy starts. */
  lemma RefreshResumes(m: L.Fields, acts: seq<Action>, seen: Seen, f: Faults)
    requires L.ModeInv(m) && m.mode == L.Suspended && RefreshProxy in acts
    ensures
      var r := Applied(m, acts, seen, f);
      && r.mode == (if f.refresh.first == L.Starts then L.ProxyOnly else L.Suspended)
      && (r.proxy.Some? <==> f.refresh.first == L.Starts)
  {
    K.ResumeMeans(m, f.refresh);
    K.BindMeans(m, Target(seen, f), f.bind);
    K.UnbindMeans(m, f.unbind);
    K.StopForwarderIdle(m, f.stop);
  }

  /** What a refresh alone leaves, with a proxy to refresh. */
  lemma RefreshAlone(m: L.Fields, seen: Seen, f: Faults)
    requires L.ModeInv(m) && m.proxy.Some?
    ensures
      var r := Applied(m, [RefreshProxy], seen, f);
      if f.refresh.first == L.Starts || f.refresh.retry == L.Starts
      then r.mode == m.mode && r.bound == m.bound && r.proxy.Some? && r.fwd == m.fwd
      else r.mode == L.Stopped && r.proxy.None? && r.fwd.None?
  {
    K.RefreshMeans(m, f.refresh);
  }

  /** The order to stop, in VPN mode: the forwarder is closed, and an unbound proxy is left exactly
      when one of the two dials starts. */
  lemma StopHappens(m: L.Fields, seen: Seen, f: Faults)
    requires L.ModeInv(m) && m.mode == L.Vpn && L.Accounted(m, m.fwd.value)
    ensures
      var r := Applied(m, [FailClosed, StopForwarder, Notify], seen, f);
      && r.fwd.None? && r.closes[m.fwd.value] == 1
      && r.mode == (if f.stop.first == L.Starts then L.ProxyOnly else L.Stopped)
      && (r.proxy.Some? <==> f.stop.first == L.Starts || f.stop.retry == L.Starts)
      && (r.proxy.Some? ==> r.bound == "")
  {
    L.LeavingVpn(m, f.stop);
    L.RecreateFacts(L.CloseCore(m.(fwd := None), m.fwd), "", f.stop.first, f.stop.retry);
  }

  /** The order to release a binding, in proxy-only mode. */
  lemma UnbindHappens(m: L.Fields, seen: Seen, f: Faults)
    requires L.ModeInv(m) && m.mode == L.ProxyOnly
    ensures
      var r := Applied(m, [UnbindProxy], seen, f);
      && r.mode == (if f.unbind.first == L.Starts then L.ProxyOnly else L.Stopped)
      && (r.proxy.Some? ==> r.bound == "")
  {
    K.UnbindMeans(m, f.unbind);
  }

  /** The order to bind goes to the observed interface, or without one to the interface the
      prober finds; without either nothing happens. */
  lemma BindHappens(m: L.Fields, seen: Seen, f: Faults)
    requires L.ModeInv(m) && m.mode == L.ProxyOnly
    ensures
      var r := Applied(m, [BindPhysical], seen, f);
      var iface := if seen.phys != "" then seen.phys else if f.bind.probe.Some? then f.bind.probe.value else "";
      && (iface == "" ==> r == m)
      && (iface != "" && f.bind.first == L.Starts ==> r.mode == L.ProxyOnly && r.bound == iface)
  {
    if Target(seen, f) != "" {
      K.BindMeans(m, Target(seen, f), f.bind);
    }
  }

  // ---------------------------------------------------------------- what a poll orders

  /** The last physical interface the detector named. */
  function LastPhys(steps: seq<Step>): string {
    if steps == [] then ""
    else
      var last := steps[|steps| - 1];
      if last.Poll? && last.seen.Some? && last.seen.value.phys != "" then last.seen.value.phys
      else LastPhys(steps[..|steps| - 1])
  }

  lemma {:induction false} PhysRemembered(t: int, steps: seq<Step>)
    ensures
      var w := Run(START, t, steps).watch;
      w.prevPhys == LastPhys(steps) && (w.havePhys <==> LastPhys(steps) != "")
  {
    if steps != [] {
      var rest := steps[..|steps| - 1];
      PhysRemembered(t, rest);
      PhysStep(Run(START, t, rest), t, steps[|steps| - 1]);
    }
  }

  lemma PhysStep(s: System, t: int, step: Step)
    ensures
      var r := Exec(s, t, step).watch;
      if step.Poll? && step.seen.Some? && step.seen.value.phys != ""
      then r.prevPhys == step.seen.value.phys && r.havePhys
      else r.prevPhys == s.watch.prevPhys && r.havePhys == s.watch.havePhys
  {
  }

  /** What the network calls for. In VPN mode: to stop when the corporate VPN is committed as active,
      else to refresh when the physical interface has moved. Outside it: to release a physical
      binding, else to refresh when the committed state flips. And nothing else. */
  function CalledFor(vpn: bool, was: Cisco, now: Cisco, bound: bool, moved: bool): seq<Action> {
    if vpn then
      if now == Active then [FailClosed, StopForwarder, Notify] else if moved then [RefreshProxy] else []
    else if bound then [UnbindProxy]
    else if was != Unknown && was != now then [RefreshProxy]
    else []
  }

  lemma PollCalls(s: System, t: int, seen: Seen, midway: bool, last: string)
    requires s.watch.prevCisco == s.watch.deb.committed
    requires s.watch.prevPhys == last && (s.watch.havePhys <==> last != "")
    ensures
      var r := Exec(s, t, Poll(Some(seen), midway));
      var d := Verdict(s, t, seen, midway);
      var order := CalledFor(s.mgr.mode == L.Vpn, s.watch.deb.committed, r.watch.deb.committed,
                             SeenBound(s, midway), seen.phys != "" && last != "" && seen.phys != last);
      if order == [] then r.queue == s.queue else r.queue == s.queue + [Emitted(seen, d)] && d.actions == order
  {
    var d := Verdict(s, t, seen, midway);
    assert d.actions[0] in d.actions;
  }

  /** What a poll after any run orders, with the interface last named in that run. */
  lemma PollOrdersMeans(t: int, steps: seq<Step>, seen: Seen, midway: bool)
    ensures
      var s := Run(START, t, steps);
      var r := Exec(s, t, Poll(Some(seen), midway));
      var d := Verdict(s, t, seen, midway);
      var last := LastPhys(steps);
      var order := CalledFor(s.mgr.mode == L.Vpn, s.watch.deb.committed, r.watch.deb.committed,
                             SeenBound(s, midway), seen.phys != "" && last != "" && seen.phys != last);
      if order == [] then r.queue == s.queue else r.queue == s.queue + [Emitted(seen, d)] && d.actions == order
  {
    PhysRemembered(t, steps);
    RunKeepsInv(START, t, steps);
    PollCalls(Run(START, t, steps), t, seen, midway, LastPhys(steps));
  }

  // ---------------------------------------------------------------- what requests achieve

  /** Without faults and without anything in between, an admitted request for VPN mode leads to it. */
  lemma VpnServed(s: System, t: int, d: L.Draws)
    requires Inv(s) && !s.lastCisco && s.mgr.mode != L.Vpn
    requires d.cleanupOk && d.probe.Some? && d.probe.value != "" && d.first == L.Starts && d.forwarder == L.Starts
    ensures
      var n := |s.tasks|;
      var r := Exec(Exec(Exec(s, t, RequestVpn), t, Turn(n, d)), t, Turn(n, d));
      r.mgr.mode == L.Vpn && r.mgr.bound == d.probe.value && r.tasks == s.tasks
  {
    var n := |s.tasks|;
    var s1 := Exec(s, t, RequestVpn);
    K.StartProxyMeans(s1.mgr, d);
    var s2 := Exec(s1, t, Turn(n, d));
    AdvanceKeeps(s1.mgr, CallStartProxy, d);
    assert s1.tasks[n] == CallStartProxy && s2.tasks == s.tasks + [CallStartForwarder];
    L.StartForwarderSucceeds(s2.mgr, d);
    assert Without(s2.tasks, n) == s.tasks;
  }

  /** A request for proxy-only mode leaves VPN mode whatever fails, and leads to a proxy when the
      next dial starts. */
  lemma ProxyServed(s: System, t: int, d: L.Draws)
    requires Inv(s)
    ensures
      var n := |s.tasks|;
      var r := Exec(Exec(s, t, RequestProxy), t, Turn(n, d));
      && r.mgr.mode != L.Vpn && r.tasks == s.tasks
      && (d.cleanupOk && d.first == L.Starts ==> r.mgr.proxy.Some?)
      && (s.mgr.mode == L.Vpn && d.first == L.Starts ==> r.mgr.mode == L.ProxyOnly && r.mgr.bound == "")
  {
    var n := |s.tasks|;
    var s1 := Exec(s, t, RequestProxy);
    assert Without(s1.tasks, n) == s.tasks;
    if s.mgr.mode == L.Vpn {
      StopLeavesVpn(s.mgr, d);
      L.RecreateFacts(L.CloseCore(s.mgr.(fwd := None), s.mgr.fwd), "", d.first, d.retry);
    } else {
      K.StartProxyMeans(s.mgr, d);
    }
  }
}
