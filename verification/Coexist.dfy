/**
 The closed loop that keeps our VPN away from a corporate (Cisco) one: the monitor polls
 the network, debounces, decides and emits; the executor applies the decision to the
 lifecycle manager; the user switches modes in between. Every foreign call may fail.
 */
module Coexist {
  import opened Wrappers
  import opened Policy
  import D = Debounce
  import L = Lifecycle

  datatype Seen = Seen(cisco: bool, ownsDefault: bool, phys: string)

  function Raw(seen: Seen): Cisco {
    if seen.cisco then Active else Inactive
  }

  // ---------------------------------------------------------------- the monitor

  datatype Watch = Watch(deb: D.State, prevCisco: Cisco, prevPhys: string, havePhys: bool)

  const UNWATCHED := Watch(D.FRESH, Unknown, "", false)

  function Polled(w: Watch, t: int, seen: Seen, mode: Mode, bound: bool): (Watch, Decision) {
    var deb := D.Observed(w.deb, t, Raw(seen)).0;
    var physChanged := seen.phys != "" && w.havePhys && seen.phys != w.prevPhys;
    (Watch(deb, deb.committed,
           if seen.phys != "" then seen.phys else w.prevPhys,
           seen.phys != "" || w.havePhys),
     Decide(Input(mode, w.prevCisco, deb.committed, NoIntent, physChanged, bound, seen.ownsDefault)))
  }

  // ---------------------------------------------------------------- the executor

  function ModeOf(m: L.Fields): Mode {
    if m.mode == L.Vpn then Vpn else Proxy
  }

  function BoundToPhysical(m: L.Fields): bool {
    m.mode == L.ProxyOnly && m.bound != ""
  }

  datatype Faults = Faults(stop: L.Draws, bind: L.Draws, unbind: L.Draws, refresh: L.Draws)

  /** The binding target: the observed interface, else what the prober finds. */
  function Target(seen: Seen, f: Faults): string {
    if seen.phys != "" then seen.phys
    else if f.bind.probe.Some? then f.bind.probe.value
    else ""
  }

  function Renewed(m: L.Fields, d: L.Draws): L.Fields {
    if m.mode == L.Suspended then L.Apply(m, L.Resume, d).0 else L.Apply(m, L.Refresh, d).0
  }

  function Applied(m: L.Fields, acts: seq<Action>, seen: Seen, f: Faults): L.Fields {
    var m1 := if FailClosed in acts || StopForwarder in acts then L.Apply(m, L.StopForwarder, f.stop).0 else m;
    var m2 := if BindPhysical in acts && Target(seen, f) != "" then L.Apply(m1, L.Bind(Target(seen, f)), f.bind).0 else m1;
    var m3 := if UnbindProxy in acts then L.Apply(m2, L.Unbind, f.unbind).0 else m2;
    if RefreshProxy in acts then Renewed(m3, f.refresh) else m3
  }

  // ---------------------------------------------------------------- the loop

  /** A request of the user on its way through the executor: the next call it will make. */
  datatype Task = CallStartProxy | CallStartForwarder | CallStopForwarder | CallProxyOnly

  /** An event in the channel from the monitor to the executor. */
  datatype Emitted = Emitted(seen: Seen, decision: Decision)

  /** What the executor is at: it takes an event from the channel, applies it, and then displays
      the observation the event came with. */
  datatype Work = Idle | Applying(event: Emitted) | Showing(seen: Seen)

  /** `late` tells that the forwarder was published after the last poll and is still up. */
  datatype System = System(
    watch: Watch, lastCisco: bool, mgr: L.Fields,
    queue: seq<Emitted>, work: Work, tasks: seq<Task>, late: bool)

  const START := System(UNWATCHED, false, L.FRESH, [], Idle, [], false)

  /** The events not yet applied: the one being applied, and those in the channel. */
  function Orders(s: System): seq<Emitted> {
    (if s.work.Applying? then [s.work.event] else []) + s.queue
  }

  datatype Step =
    | Poll(seen: Option<Seen>, midway: bool)   // None: the detector failed
    | Take                                     // the executor receives the oldest event,
    | Enact(faults: Faults)                    // has applied it,
    | Show                                     // and displays its observation
    | RequestVpn                               // the check of EnableVPN
    | RequestProxy                             // the check of EnableProxy
    | Turn(i: nat, draws: L.Draws)             // the next call of a request
    | Off

  predicate Starts(task: Task) {
    task == CallStartProxy || task == CallStartForwarder
  }

  /** The binding as a poll sees it: halfway through a StartForwarder the proxy is already
      rebound while the state still says proxy-only. */
  predicate SeenBound(s: System, midway: bool) {
    BoundToPhysical(s.mgr) || (midway && CallStartForwarder in s.tasks)
  }

  /** The decision a poll takes in `s`. */
  function Verdict(s: System, t: int, seen: Seen, midway: bool): Decision {
    Polled(s.watch, t, seen, ModeOf(s.mgr), SeenBound(s, midway)).1
  }

  function Without<T>(s: seq<T>, i: nat): seq<T>
    requires i < |s|
  {
    s[..i] + s[i + 1..]
  }

  /** A request makes its next call; what is left of it, if anything. */
  function Advanced(m: L.Fields, task: Task, d: L.Draws): (L.Fields, Option<Task>) {
    match task
    case CallStartProxy =>
      var (m1, ok) := L.Apply(m, L.StartProxy, d);
      (m1, if ok then Some(CallStartForwarder) else None)
    case CallStartForwarder => (L.Apply(m, L.StartForwarder, d).0, None)
    case CallStopForwarder => (L.Apply(m, L.StopForwarder, d).0, None)
    case CallProxyOnly => (L.Apply(m, L.StartProxy, d).0, None)
  }

  function Exec(s: System, t: int, step: Step): System {
    match step
    case Poll(None, _) => s
    case Poll(Some(seen), midway) =>
      var (w, d) := Polled(s.watch, t, seen, ModeOf(s.mgr), SeenBound(s, midway));
      s.(watch := w, lastCisco := seen.cisco, late := false,
         queue := if Actionable(d) then s.queue + [Emitted(seen, d)] else s.queue)
    case Take =>
      if s.queue == [] || !s.work.Idle? then s
      else s.(work := Applying(s.queue[0]), queue := s.queue[1..])
    case Enact(f) =>
      if !s.work.Applying? then s
      else
        var e := s.work.event;
        var m := Applied(s.mgr, e.decision.actions, e.seen, f);
        s.(mgr := m, work := Showing(e.seen), late := s.late && m.mode == L.Vpn)
    case Show =>
      if !s.work.Showing? then s else s.(lastCisco := s.work.seen.cisco, work := Idle)
    case RequestVpn => if s.lastCisco then s else s.(tasks := s.tasks + [CallStartProxy])
    case RequestProxy =>
      s.(tasks := s.tasks + [if s.mgr.mode == L.Vpn then CallStopForwarder else CallProxyOnly])
    case Turn(i, d) =>
      if i >= |s.tasks| then s
      else
        var (m, rest) := Advanced(s.mgr, s.tasks[i], d);
        s.(mgr := m, late := m.mode == L.Vpn && (s.late || s.mgr.mode != L.Vpn),
           tasks := if rest.Some? then s.tasks[i := rest.value] else Without(s.tasks, i))
    case Off => s.(mgr := L.DoShutdown(s.mgr), late := false)
  }

  function Run(s: System, t: int, steps: seq<Step>): System {
    if steps == [] then s else Exec(Run(s, t, steps[..|steps| - 1]), t, steps[|steps| - 1])
  }

  function Observation(step: Step): seq<Cisco> {
    if step.Poll? && step.seen.Some? then [Raw(step.seen.value)] else []
  }

  /** The observations the detector delivered during `steps`. */
  function Observations(steps: seq<Step>): seq<Cisco> {
    if steps == [] then [] else Observations(steps[..|steps| - 1]) + Observation(steps[|steps| - 1])
  }

  // ---------------------------------------------------------------- the manager under the loop

  lemma StopLeavesVpn(m: L.Fields, d: L.Draws)
    requires L.ModeInv(m)
    ensures
      var r := L.Apply(m, L.StopForwarder, d).0;
      L.ModeInv(r) && r.mode != L.Vpn && (m.mode == L.Vpn ==> !BoundToPhysical(r))
  {
    L.RecreateFacts(L.CloseCore(m.(fwd := None), m.fwd), "", d.first, d.retry);
  }

  lemma BindStaysOut(m: L.Fields, iface: string, d: L.Draws)
    requires L.ModeInv(m)
    ensures L.ModeInv(L.Apply(m, L.Bind(iface), d).0)
    ensures m.mode != L.Vpn ==> L.Apply(m, L.Bind(iface), d).0.mode != L.Vpn
  {
    if m.mode == L.ProxyOnly {
      var m1 := L.RecreateProxy(m, iface, d.first, d.retry).0;
      L.RecreateFacts(m, iface, d.first, d.retry);
      L.RollbackModes(m1, m.bound, d);
      RollbackStaysOut(m1, m.bound, d);
    }
  }

  lemma RollbackStaysOut(m: L.Fields, prev: string, d: L.Draws)
    ensures L.RollbackProxy(m, prev, d).mode != L.Vpn
  {
  }

  lemma UnbindStaysOut(m: L.Fields, d: L.Draws)
    requires L.ModeInv(m)
    ensures L.ModeInv(L.Apply(m, L.Unbind, d).0)
    ensures m.mode != L.Vpn ==> L.Apply(m, L.Unbind, d).0.mode != L.Vpn && !BoundToPhysical(L.Apply(m, L.Unbind, d).0)
  {
    L.RecreateFacts(m, "", d.first, d.retry);
  }

  lemma RenewStaysOut(m: L.Fields, d: L.Draws)
    requires L.ModeInv(m)
    ensures L.ModeInv(Renewed(m, d))
    ensures m.mode != L.Vpn ==> Renewed(m, d).mode != L.Vpn
    ensures !BoundToPhysical(m) ==> !BoundToPhysical(Renewed(m, d))
  {
    L.RecreateFacts(m, m.bound, d.first, d.retry);
  }

  /** Whatever fails, and whatever else the decision asks for, applying a decision that says
      "fail closed" or "stop forwarding" ends without a forwarder; and no decision the
      executor applies starts one. */
  lemma ApplyFailsClosed(m: L.Fields, acts: seq<Action>, seen: Seen, f: Faults)
    requires L.ModeInv(m)
    ensures
      var r := Applied(m, acts, seen, f);
      && L.ModeInv(r)
      && (FailClosed in acts || StopForwarder in acts || m.mode != L.Vpn ==> r.fwd.None? && r.mode != L.Vpn)
  {
    var m1 := if FailClosed in acts || StopForwarder in acts then L.Apply(m, L.StopForwarder, f.stop).0 else m;
    StopLeavesVpn(m, f.stop);
    var m2 := if BindPhysical in acts && Target(seen, f) != "" then L.Apply(m1, L.Bind(Target(seen, f)), f.bind).0 else m1;
    BindStaysOut(m1, Target(seen, f), f.bind);
    var m3 := if UnbindProxy in acts then L.Apply(m2, L.Unbind, f.unbind).0 else m2;
    UnbindStaysOut(m2, f.unbind);
    RenewStaysOut(m3, f.refresh);
  }

  // ---------------------------------------------------------------- safety over whole runs

  /** What `Decide` can put into the channel. */
  predicate Emittable(d: Decision) {
    d.actions in [[FailClosed, StopForwarder, Notify], [UnbindProxy], [RefreshProxy]]
  }

  /** The action is ordered and not yet applied. */
  predicate Ordered(s: System, a: Action) {
    exists i :: 0 <= i < |Orders(s)| && a in Orders(s)[i].decision.actions
  }

  predicate Inv(s: System) {
    && L.ModeInv(s.mgr)
    && s.watch.prevCisco == s.watch.deb.committed
    && (forall i :: 0 <= i < |Orders(s)| ==> Emittable(Orders(s)[i].decision))
    && (s.late ==> s.mgr.mode == L.Vpn)
    && (s.watch.deb.committed == Active && s.mgr.mode == L.Vpn ==> s.late || Ordered(s, StopForwarder))
  }

  lemma DecidesEmittable(i: Input)
    requires i.intent == NoIntent
    ensures var d := Decide(i); if Actionable(d) then Emittable(d) else d.actions == [Nothing]
  {
    var d := Decide(i);
    assert d.actions[0] in d.actions;
  }

  lemma PollOrders(s: System, t: int, seen: Seen, midway: bool)
    ensures
      var d := Verdict(s, t, seen, midway);
      Orders(Exec(s, t, Poll(Some(seen), midway))) == Orders(s) + if Actionable(d) then [Emitted(seen, d)] else []
  {
  }

  lemma PollKeeps(s: System, t: int, seen: Seen, midway: bool)
    requires Inv(s)
    ensures Inv(Exec(s, t, Poll(Some(seen), midway)))
  {
    var r := Exec(s, t, Poll(Some(seen), midway));
    var d := Verdict(s, t, seen, midway);
    PollOrders(s, t, seen, midway);
    DecidesEmittable(Input(ModeOf(s.mgr), s.watch.prevCisco, r.watch.deb.committed, NoIntent,
                           seen.phys != "" && s.watch.havePhys && seen.phys != s.watch.prevPhys,
                           SeenBound(s, midway), seen.ownsDefault));
    if r.watch.deb.committed == Active && r.mgr.mode == L.Vpn {
      assert d.actions == [FailClosed, StopForwarder, Notify];
      assert FailClosed in d.actions && Actionable(d);
      assert StopForwarder in Orders(r)[|Orders(r)| - 1].decision.actions;
    }
  }

  /** Receiving an event changes nothing but where it is. */
  lemma TakeKeeps(s: System, t: int)
    requires Inv(s)
    ensures var r := Exec(s, t, Take); Inv(r) && Orders(r) == Orders(s) && r == s.(work := r.work, queue := r.queue)
  {
    var r := Exec(s, t, Take);
    assert Orders(r) == Orders(s);
    assert Ordered(r, StopForwarder) <==> Ordered(s, StopForwarder);
  }

  lemma ShowKeeps(s: System, t: int)
    requires Inv(s)
    ensures
      var r := Exec(s, t, Show);
      && Inv(r) && Orders(r) == Orders(s)
      && r == s.(work := r.work, lastCisco := r.lastCisco) && !r.work.Showing?
      && r.lastCisco == (if s.work.Showing? then s.work.seen.cisco else s.lastCisco)
      && (!s.work.Showing? ==> r.work == s.work) && (s.work.Showing? ==> r.work.Idle?)
  {
    var r := Exec(s, t, Show);
    assert Orders(r) == Orders(s);
    assert Ordered(r, StopForwarder) <==> Ordered(s, StopForwarder);
  }

  lemma EnactOrders(s: System, t: int, f: Faults)
    ensures Orders(Exec(s, t, Enact(f))) == if s.work.Applying? then Orders(s)[1..] else Orders(s)
  {
  }

  lemma EnactManager(s: System, t: int, f: Faults)
    requires L.ModeInv(s.mgr) && s.work.Applying?
    ensures
      var r := Exec(s, t, Enact(f));
      && L.ModeInv(r.mgr) && r.watch == s.watch && r.late == (s.late && r.mgr.mode == L.Vpn)
      && (s.mgr.mode != L.Vpn || StopForwarder in s.work.event.decision.actions ==> r.mgr.mode != L.Vpn)
  {
    ApplyFailsClosed(s.mgr, s.work.event.decision.actions, s.work.event.seen, f);
  }

  /** An order for an action the first event does not ask for stays when that event is gone. */
  lemma OrderStays(s: System, r: System, a: Action)
    requires Ordered(s, a) && Orders(r) == Orders(s)[1..] && a !in Orders(s)[0].decision.actions
    ensures Ordered(r, a)
  {
    var i :| 0 <= i < |Orders(s)| && a in Orders(s)[i].decision.actions;
    assert Orders(r)[i - 1] == Orders(s)[i];
  }

  lemma EnactKeeps(s: System, t: int, f: Faults)
    requires Inv(s)
    ensures Inv(Exec(s, t, Enact(f)))
    ensures s.mgr.mode != L.Vpn ==> Exec(s, t, Enact(f)).mgr.mode != L.Vpn
  {
    if s.work.Applying? {
      var r := Exec(s, t, Enact(f));
      EnactManager(s, t, f);
      EnactOrders(s, t, f);
      assert Orders(s)[0] == s.work.event;
      if r.watch.deb.committed == Active && r.mgr.mode == L.Vpn && !s.late {
        OrderStays(s, r, StopForwarder);
      }
    }
  }

  lemma StartForwarderModes(m: L.Fields, d: L.Draws)
    requires L.ModeInv(m)
    ensures L.ModeInv(L.DoStartForwarder(m, d).0)
  {
    if m.mode != L.Vpn && m.proxy.Some? && d.probe.Some? && d.probe.value != "" {
      var m1 := L.RecreateProxy(m, d.probe.value, d.first, d.retry).0;
      L.RecreateFacts(m, d.probe.value, d.first, d.retry);
      if d.first == L.Starts && d.forwarder == L.Starts {
        assert L.DoStartForwarder(m, d).0 == L.Launched(m1);
      } else {
        var m2 := if d.first == L.Starts && d.forwarder == L.StartFails then L.Discarded(m1) else m1;
        assert L.DoStartForwarder(m, d).0 == L.RollbackProxy(m2, m.bound, d);
        L.RollbackModes(m2, m.bound, d);
      }
    }
  }

  lemma AdvanceKeeps(m: L.Fields, task: Task, d: L.Draws)
    requires L.ModeInv(m)
    ensures L.ModeInv(Advanced(m, task, d).0)
    ensures !Starts(task) && m.mode != L.Vpn ==> Advanced(m, task, d).0.mode != L.Vpn
    ensures task == CallStartProxy && m.mode != L.Vpn ==> Advanced(m, task, d).0.mode != L.Vpn
  {
    match task
    case CallStartForwarder => StartForwarderModes(m, d);
    case CallStopForwarder => StopLeavesVpn(m, d);
    case _ =>
  }

  lemma ExecKeeps(s: System, t: int, step: Step)
    requires Inv(s)
    ensures Inv(Exec(s, t, step))
  {
    match step
    case Poll(Some(seen), midway) => PollKeeps(s, t, seen, midway);
    case Take => TakeKeeps(s, t);
    case Enact(f) => EnactKeeps(s, t, f);
    case Show => ShowKeeps(s, t);
    case Turn(i, d) =>
      if i < |s.tasks| {
        AdvanceKeeps(s.mgr, s.tasks[i], d);
      }
      assert Orders(Exec(s, t, step)) == Orders(s);
      assert Ordered(Exec(s, t, step), StopForwarder) <==> Ordered(s, StopForwarder);
    case _ =>
      assert Orders(Exec(s, t, step)) == Orders(s);
      assert Ordered(Exec(s, t, step), StopForwarder) <==> Ordered(s, StopForwarder);
  }

  lemma {:induction false} RunKeepsInv(s: System, t: int, steps: seq<Step>)
    requires Inv(s)
    ensures Inv(Run(s, t, steps))
  {
    if steps != [] {
      RunKeepsInv(s, t, steps[..|steps| - 1]);
      ExecKeeps(Run(s, t, steps[..|steps| - 1]), t, steps[|steps| - 1]);
    }
  }

  /** The debouncer has seen exactly the observations `h`. */
  ghost predicate Observes(s: System, h: seq<Cisco>, t: int) {
    (forall k :: 0 <= k < |h| ==> h[k] != Unknown) && s.watch.deb == D.After(h, t)
  }

  lemma ExecObserves(s: System, h: seq<Cisco>, t: int, step: Step)
    requires Observes(s, h, t)
    ensures Observes(Exec(s, t, step), h + Observation(step), t)
  {
    if step.Poll? && step.seen.Some? {
      var o := Raw(step.seen.value);
      assert (h + [o])[..|h|] == h;
      assert Exec(s, t, step).watch.deb == D.Observed(s.watch.deb, t, o).0;
    } else {
      assert h + [] == h;
    }
  }

  lemma {:induction false} LoopObserves(t: int, steps: seq<Step>)
    ensures Observes(Run(START, t, steps), Observations(steps), t)
  {
    if steps != [] {
      var rest := steps[..|steps| - 1];
      LoopObserves(t, rest);
      ExecObserves(Run(START, t, rest), Observations(rest), t, steps[|steps| - 1]);
    }
  }

  /** The corporate VPN is committed as active: the last `t` delivered observations saw it, or
      all of them did. */
  ghost predicate CiscoSettled(t: int, steps: seq<Step>) {
    var h := Observations(steps);
    && h != []
    && (D.Window(h, t, |h|, Active) || forall k :: 0 <= k < |h| ==> h[k] == Active)
  }

  lemma SettledIsCommitted(t: int, steps: seq<Step>)
    requires t >= 1 && CiscoSettled(t, steps)
    ensures Run(START, t, steps).watch.deb.committed == Active
  {
    var h := Observations(steps);
    LoopObserves(t, steps);
    D.CommittedMeans(h, t);
    var v := D.After(h, t).committed;
    assert D.Settled(h, t, v);
    if D.Window(h, t, |h|, Active) {
      assert forall i :: i > |h| ==> !D.Window(h, t, i, v);
    } else {
      forall i, w | D.Window(h, t, i, w)
        ensures w == Active
      {
        assert h[i - 1] == w;
      }
    }
  }

  /** No tunnel beside the corporate VPN, in every interleaving of polls, the executor and any
      number of requests, under all faults and detector errors. Once the corporate VPN is
      committed as active, a forwarder that is up was published after the last poll, or the
      order to close it is in the channel or being applied; when nothing is, the former is
      the only way, exactly. */
  lemma TunnelBesideCisco(t: int, steps: seq<Step>)
    requires t >= 1 && CiscoSettled(t, steps)
    ensures
      var s := Run(START, t, steps);
      && (s.mgr.fwd.Some? ==> s.late || Ordered(s, StopForwarder))
      && (Orders(s) == [] ==> (s.mgr.fwd.Some? <==> s.late))
  {
    SettledIsCommitted(t, steps);
    RunKeepsInv(START, t, steps);
  }

  /** The executor finishes what it is at, or takes and finishes the next event. */
  function Round(s: System, t: int, f: Faults): System {
    Exec(Exec(Exec(Exec(s, t, Show), t, Take), t, Enact(f)), t, Show)
  }

  function WorkedOff(s: System, t: int, fs: seq<Faults>): System {
    if fs == [] then s else Round(WorkedOff(s, t, fs[..|fs| - 1]), t, fs[|fs| - 1])
  }

  lemma RoundFacts(s: System, t: int, f: Faults)
    requires Inv(s)
    ensures
      var r := Round(s, t, f);
      && Inv(r) && r.watch == s.watch && (!s.late ==> !r.late) && r.work.Idle?
      && Orders(r) == (if Orders(s) == [] then [] else Orders(s)[1..])
      && (s.mgr.mode != L.Vpn ==> r.mgr.mode != L.Vpn)
      && (Orders(s) != [] ==> r.lastCisco == Orders(s)[0].seen.cisco)
  {
    var s1 := Exec(s, t, Show);
    ShowKeeps(s, t);
    var s2 := Exec(s1, t, Take);
    TakeKeeps(s1, t);
    assert s2.work.Applying? <==> Orders(s) != [];
    assert s2.work.Applying? ==> Orders(s2)[0] == s2.work.event;
    EnactKeeps(s2, t, f);
    EnactOrders(s2, t, f);
    ShowKeeps(Exec(s2, t, Enact(f)), t);
  }

  lemma {:induction false} WorkedOffFacts(s: System, t: int, fs: seq<Faults>)
    requires Inv(s) && !s.late && |fs| <= |Orders(s)|
    ensures
      var r := WorkedOff(s, t, fs);
      Inv(r) && !r.late && r.watch == s.watch && Orders(r) == Orders(s)[|fs|..]
  {
    if fs != [] {
      WorkedOffFacts(s, t, fs[..|fs| - 1]);
      RoundFacts(WorkedOff(s, t, fs[..|fs| - 1]), t, fs[|fs| - 1]);
    }
  }

  /** The next poll that leaves "active" committed closes whatever is up once its order is worked
      off, whatever fails on the way. */
  lemma NextPollCloses(t: int, steps: seq<Step>, seen: Seen, midway: bool, fs: seq<Faults>)
    requires
      var s := Exec(Run(START, t, steps), t, Poll(Some(seen), midway));
      s.watch.deb.committed == Active && |fs| == |Orders(s)|
    ensures
      var r := WorkedOff(Exec(Run(START, t, steps), t, Poll(Some(seen), midway)), t, fs);
      r.mgr.fwd.None? && r.mgr.mode != L.Vpn
  {
    RunKeepsInv(START, t, steps);
    var s := Exec(Run(START, t, steps), t, Poll(Some(seen), midway));
    PollKeeps(Run(START, t, steps), t, seen, midway);
    WorkedOffFacts(s, t, fs);
  }
}
