/**
 How long the forwarder of `Coexist` stays closed beside the corporate VPN: exactly when it
 does whatever is requested, and two runs in which it does not.
 */
module Shut {
  import opened Wrappers
  import opened Policy
  import opened Coexist
  import D = Debounce
  import L = Lifecycle

  predicate ActiveOnly(steps: seq<Step>) {
    forall p :: p in steps && p.Poll? && p.seen.Some? ==> p.seen.value.cisco
  }

  /** The forwarder is closed, nothing on its way can start it, and the flag that refuses new
      starts is set and will not be overwritten by an older observation. */
  predicate Barred(s: System) {
    && s.mgr.mode != L.Vpn && s.lastCisco
    && (forall i :: 0 <= i < |s.tasks| ==> !Starts(s.tasks[i]))
    && (s.work.Showing? ==> s.work.seen.cisco)
    && (forall i :: 0 <= i < |Orders(s)| ==> Orders(s)[i].seen.cisco)
  }

  ghost predicate StaysClosed(s: System, t: int) {
    forall steps :: ActiveOnly(steps) ==> Run(s, t, steps).mgr.mode != L.Vpn
  }

  lemma ShutStep(s: System, t: int, step: Step)
    requires Inv(s) && Barred(s)
    requires step.Poll? && step.seen.Some? ==> step.seen.value.cisco
    ensures Barred(Exec(s, t, step))
  {
    match step
    case Poll(Some(seen), midway) => PollOrders(s, t, seen, midway);
    case Take => TakeKeeps(s, t);
    case Enact(f) =>
      EnactKeeps(s, t, f);
      EnactOrders(s, t, f);
      assert s.work.Applying? ==> Orders(s)[0] == s.work.event;
    case Turn(i, d) =>
      if i < |s.tasks| {
        AdvanceKeeps(s.mgr, s.tasks[i], d);
      }
      assert Orders(Exec(s, t, step)) == Orders(s);
    case _ => assert Orders(Exec(s, t, step)) == Orders(s);
  }

  lemma {:induction false} ShutRun(s: System, t: int, steps: seq<Step>)
    requires Inv(s) && Barred(s) && ActiveOnly(steps)
    ensures Barred(Run(s, t, steps))
  {
    if steps != [] {
      var rest, last := steps[..|steps| - 1], steps[|steps| - 1];
      assert last in steps && forall p :: p in rest ==> p in steps;
      ShutRun(s, t, rest);
      RunKeepsInv(s, t, rest);
      ShutStep(Run(s, t, rest), t, last);
    }
  }

  const FINE := L.Draws(true, Some("en0"), L.Starts, L.Starts, L.Starts, L.Starts, L.Starts)

  lemma RunSnoc(s: System, t: int, steps: seq<Step>, step: Step)
    ensures Run(s, t, steps + [step]) == Exec(Run(s, t, steps), t, step)
  {
    assert (steps + [step])[..|steps|] == steps;
  }

  lemma {:induction false} RunAppend(s: System, t: int, a: seq<Step>, b: seq<Step>)
    ensures Run(s, t, a + b) == Run(Run(s, t, a), t, b)
  {
    if b == [] {
      assert a + b == a;
    } else {
      var c := b[..|b| - 1];
      assert a + b == (a + c) + [b[|b| - 1]];
      RunSnoc(s, t, a + c, b[|b| - 1]);
      RunAppend(s, t, a, c);
    }
  }

  lemma ProxyComes(m: L.Fields)
    ensures var (r, ok) := L.Apply(m, L.StartProxy, FINE); ok && r.proxy.Some? && (m.mode != L.Vpn ==> r.mode != L.Vpn)
  {
  }

  lemma ForwarderComes(m: L.Fields)
    requires m.mode != L.Vpn && m.proxy.Some?
    ensures var r := L.Apply(m, L.StartForwarder, FINE).0; r.mode == L.Vpn && r.fwd.Some?
  {
  }

  /** An admitted start finds no fault. */
  lemma ProxyTurn(s: System, t: int, i: nat)
    requires s.mgr.mode != L.Vpn && i < |s.tasks| && s.tasks[i] in [CallStartProxy, CallProxyOnly]
    ensures
      var r := Exec(s, t, Turn(i, FINE));
      && r.mgr.mode != L.Vpn && r.mgr.proxy.Some? && r.queue == s.queue && r.work == s.work && r.watch == s.watch
      && r.tasks == if s.tasks[i] == CallStartProxy then s.tasks[i := CallStartForwarder] else Without(s.tasks, i)
  {
    ProxyComes(s.mgr);
  }

  lemma ForwarderTurn(s: System, t: int, i: nat)
    requires s.mgr.mode != L.Vpn && s.mgr.proxy.Some? && i < |s.tasks| && s.tasks[i] == CallStartForwarder
    ensures
      var r := Exec(s, t, Turn(i, FINE));
      r.mgr.mode == L.Vpn && r.mgr.fwd.Some? && r.queue == s.queue && r.work == s.work && r.watch == s.watch
  {
    ForwarderComes(s.mgr);
  }

  /** A start whose next call needs a proxy: the user asks for one first. */
  lemma ForwarderOpens(s: System, t: int, i: nat) returns (steps: seq<Step>)
    requires s.mgr.mode != L.Vpn && i < |s.tasks| && s.tasks[i] == CallStartForwarder
    ensures ActiveOnly(steps) && Run(s, t, steps).mgr.mode == L.Vpn
  {
    var n := |s.tasks|;
    var s1 := Exec(s, t, RequestProxy);
    var s2 := Exec(s1, t, Turn(n, FINE));
    ProxyTurn(s1, t, n);
    ForwarderTurn(s2, t, i);
    RunSnoc(s, t, [], RequestProxy);
    RunSnoc(s, t, [] + [RequestProxy], Turn(n, FINE));
    RunSnoc(s, t, [] + [RequestProxy] + [Turn(n, FINE)], Turn(i, FINE));
    steps := [] + [RequestProxy] + [Turn(n, FINE)] + [Turn(i, FINE)];
  }

  lemma StartOpens(s: System, t: int, i: nat) returns (steps: seq<Step>)
    requires s.mgr.mode != L.Vpn && i < |s.tasks| && Starts(s.tasks[i])
    ensures ActiveOnly(steps) && Run(s, t, steps).mgr.mode == L.Vpn
  {
    if s.tasks[i] == CallStartForwarder {
      steps := ForwarderOpens(s, t, i);
    } else {
      ProxyTurn(s, t, i);
      var rest := ForwarderOpens(Exec(s, t, Turn(i, FINE)), t, i);
      RunSnoc(s, t, [], Turn(i, FINE));
      RunAppend(s, t, [] + [Turn(i, FINE)], rest);
      steps := [] + [Turn(i, FINE)] + rest;
    }
  }

  lemma RequestOpens(s: System, t: int) returns (steps: seq<Step>)
    requires s.mgr.mode != L.Vpn && !s.lastCisco
    ensures ActiveOnly(steps) && Run(s, t, steps).mgr.mode == L.Vpn
  {
    var s1 := Exec(s, t, RequestVpn);
    var rest := StartOpens(s1, t, |s.tasks|);
    RunSnoc(s, t, [], RequestVpn);
    RunAppend(s, t, [] + [RequestVpn], rest);
    steps := [] + [RequestVpn] + rest;
  }

  /** One round of the executor, as steps. */
  lemma OneRound(s: System, t: int) returns (steps: seq<Step>, r: System)
    requires Inv(s) && s.mgr.mode != L.Vpn && Orders(s) != []
    ensures ActiveOnly(steps) && Run(s, t, steps) == r
    ensures Inv(r) && r.mgr.mode != L.Vpn && Orders(r) == Orders(s)[1..] && r.lastCisco == Orders(s)[0].seen.cisco
  {
    var f := Faults(FINE, FINE, FINE, FINE);
    RoundFacts(s, t, f);
    r := Round(s, t, f);
    RunSnoc(s, t, [], Show);
    RunSnoc(s, t, [] + [Show], Take);
    RunSnoc(s, t, [] + [Show] + [Take], Enact(f));
    RunSnoc(s, t, [] + [Show] + [Take] + [Enact(f)], Show);
    steps := [] + [Show] + [Take] + [Enact(f)] + [Show];
  }

  lemma {:induction false} OrderOpens(s: System, t: int, i: nat) returns (steps: seq<Step>)
    requires Inv(s) && s.mgr.mode != L.Vpn
    requires i < |Orders(s)| && !Orders(s)[i].seen.cisco
    ensures ActiveOnly(steps) && Run(s, t, steps).mgr.mode == L.Vpn
    decreases i
  {
    var front, r := OneRound(s, t);
    var rest;
    if i == 0 {
      rest := RequestOpens(r, t);
    } else {
      rest := OrderOpens(r, t, i - 1);
    }
    RunAppend(s, t, front, rest);
    steps := front + rest;
  }

  /** While every observation sees the corporate VPN the forwarder stays closed, whatever is
      requested and whatever fails, exactly when it is closed, no admitted start is on its
      way, and neither the flag nor any event still to be displayed says otherwise. */
  lemma StaysClosedIff(s: System, t: int)
    requires Inv(s)
    ensures StaysClosed(s, t) <==> Barred(s)
  {
    if Barred(s) {
      forall steps | ActiveOnly(steps)
        ensures Run(s, t, steps).mgr.mode != L.Vpn
      {
        ShutRun(s, t, steps);
      }
    } else {
      var steps := Opens(s, t);
    }
  }

  lemma Opens(s: System, t: int) returns (steps: seq<Step>)
    requires Inv(s) && !Barred(s)
    ensures ActiveOnly(steps) && Run(s, t, steps).mgr.mode == L.Vpn
  {
    if s.mgr.mode == L.Vpn {
      steps := [];
    } else if !s.lastCisco {
      steps := RequestOpens(s, t);
    } else if i :| 0 <= i < |s.tasks| && Starts(s.tasks[i]) {
      steps := StartOpens(s, t, i);
    } else if s.work.Showing? && !s.work.seen.cisco {
      RunSnoc(s, t, [], Show);
      var rest := RequestOpens(Exec(s, t, Show), t);
      RunAppend(s, t, [] + [Show], rest);
      steps := [] + [Show] + rest;
    } else {
      var i :| 0 <= i < |Orders(s)| && !Orders(s)[i].seen.cisco;
      steps := OrderOpens(s, t, i);
    }
  }

  // ---------------------------------------------------------------- two runs that open it

  const BESIDE := Seen(true, false, "")
  const ALONE := Seen(false, false, "")

  lemma ObservationsSnoc(steps: seq<Step>, step: Step)
    ensures Observations(steps + [step]) == Observations(steps) + Observation(step)
  {
    assert (steps + [step])[..|steps|] == steps;
  }

  /** Run and observations of a list of steps grow together. */
  lemma Grow(t: int, steps: seq<Step>, step: Step, s: System, h: seq<Cisco>)
    requires Run(START, t, steps) == s && Observations(steps) == h
    ensures Run(START, t, steps + [step]) == Exec(s, t, step)
    ensures Observations(steps + [step]) == h + Observation(step)
  {
    RunSnoc(START, t, steps, step);
    ObservationsSnoc(steps, step);
  }

  /** A start admitted before the first poll publishes after it: every observation saw the
      corporate VPN, no order is outstanding, and the forwarder is up. */
  lemma LateStartExample(t: int) returns (steps: seq<Step>)
    requires t >= 1
    ensures Observations(steps) == [Active] && CiscoSettled(t, steps)
    ensures
      var s := Run(START, t, steps);
      s.watch.deb.committed == Active && Orders(s) == [] && s.mgr.fwd.Some? && s.mgr.mode == L.Vpn
  {
    var a, s := AdmittedFirst(t);
    ProxyTurn(s, t, 0);
    Grow(t, a, Turn(0, FINE), s, [Active]);
    var b, s1 := a + [Turn(0, FINE)], Exec(s, t, Turn(0, FINE));
    ForwarderTurn(s1, t, 0);
    Grow(t, b, Turn(0, FINE), s1, [Active]);
    steps := b + [Turn(0, FINE)];
  }

  /** A start is admitted, and then the first poll sees the corporate VPN. */
  lemma AdmittedFirst(t: int) returns (steps: seq<Step>, s: System)
    ensures Run(START, t, steps) == s && Observations(steps) == [Active]
    ensures s.watch.deb.committed == Active && s.queue == [] && s.work.Idle? && s.tasks == [CallStartProxy]
    ensures s.mgr.mode != L.Vpn
  {
    var s1 := Exec(START, t, RequestVpn);
    Grow(t, [], RequestVpn, START, []);
    s := FirstPollBeside(s1, t);
    Grow(t, [] + [RequestVpn], Poll(Some(BESIDE), false), s1, []);
    steps := [] + [RequestVpn] + [Poll(Some(BESIDE), false)];
  }

  lemma FirstPollBeside(s: System, t: int) returns (r: System)
    requires s == Exec(START, t, RequestVpn)
    ensures r == Exec(s, t, Poll(Some(BESIDE), false))
    ensures r.watch.deb.committed == Active && r.queue == [] && r.work.Idle? && r.tasks == [CallStartProxy]
    ensures r.mgr.mode != L.Vpn
  {
    r := Exec(s, t, Poll(Some(BESIDE), false));
    assert Verdict(s, t, BESIDE, false).actions == [Nothing];
  }

  /** Displaying an applied event overwrites the flag with that event's older observation. At
      the threshold the program uses, a run in which the corporate VPN is committed and the
      flag set by the last poll, and yet a start requested after that poll is admitted. */
  lemma StaleFlagExample(f: Faults) returns (front: seq<Step>)
    ensures CiscoSettled(2, front) && Run(START, 2, front).lastCisco && Run(START, 2, front).tasks == []
    ensures Exec(Run(START, 2, front), 2, RequestVpn).tasks == []
    ensures Run(START, 2, front + [Take, Enact(f), Show, RequestVpn]).tasks == [CallStartProxy]
  {
    front := FlapExample();
    var s := Run(START, 2, front);
    var s1 := Exec(s, 2, Take);
    var s2 := Exec(s1, 2, Enact(f));
    var s3 := Exec(s2, 2, Show);
    RunSnoc(START, 2, front, Take);
    RunSnoc(START, 2, front + [Take], Enact(f));
    RunSnoc(START, 2, front + [Take] + [Enact(f)], Show);
    RunSnoc(START, 2, front + [Take] + [Enact(f)] + [Show], RequestVpn);
    assert front + [Take] + [Enact(f)] + [Show] + [RequestVpn] == front + [Take, Enact(f), Show, RequestVpn];
    assert !s3.lastCisco && s3.tasks == [];
  }

  /** The state after a poll, in parts. */
  lemma PollIs(s: System, t: int, seen: Seen, d: Decision, deb: D.State)
    requires d == Verdict(s, t, seen, false) && deb == D.Observed(s.watch.deb, t, Raw(seen)).0
    requires d.actions == [Nothing] || d.actions == [RefreshProxy]
    ensures
      var r := Exec(s, t, Poll(Some(seen), false));
      && r.lastCisco == seen.cisco && r.watch.deb == deb && r.watch.prevCisco == deb.committed
      && r.mgr == s.mgr && r.tasks == s.tasks && r.work == s.work
      && r.queue == if d.actions == [Nothing] then s.queue else s.queue + [Emitted(seen, d)]
  {
    assert d.actions[0] in d.actions;
  }

  /** The state of a run in which only polls have happened. */
  predicate OnlyPolled(s: System, deb: D.State, queue: seq<Emitted>) {
    && s.watch.deb == deb && s.watch.prevCisco == deb.committed
    && s.queue == queue && s.mgr == L.FRESH && s.tasks == [] && s.work.Idle?
  }

  lemma PollGrows(steps: seq<Step>, s: System, h: seq<Cisco>, seen: Seen, deb: D.State, queue: seq<Emitted>, after: D.State)
    requires Run(START, 2, steps) == s && Observations(steps) == h && OnlyPolled(s, deb, queue)
    requires seen == BESIDE || seen == ALONE
    requires after == D.Observed(deb, 2, Raw(seen)).0
    ensures
      var poll := Poll(Some(seen), false);
      var r := Exec(s, 2, poll);
      && Run(START, 2, steps + [poll]) == r && Observations(steps + [poll]) == h + [Raw(seen)]
      && r.lastCisco == seen.cisco
      && OnlyPolled(r, after,
           if Edge(deb.committed, after.committed) then queue + [Emitted(seen, Decision([RefreshProxy], Proxy))] else queue)
  {
    var d := if Edge(deb.committed, after.committed) then Decision([RefreshProxy], Proxy) else Decision([Nothing], Proxy);
    assert Verdict(s, 2, seen, false) == d;
    PollIs(s, 2, seen, d, after);
    Grow(2, steps, Poll(Some(seen), false), s, h);
  }

  /** The corporate VPN is seen, then missed twice: a refresh is emitted. */
  lemma FlapDown() returns (steps: seq<Step>, e: Emitted)
    ensures !e.seen.cisco && Observations(steps) == [Active, Inactive, Inactive]
    ensures OnlyPolled(Run(START, 2, steps), D.State(Inactive, Inactive, 0), [e])
  {
    var on, off := Poll(Some(BESIDE), false), Poll(Some(ALONE), false);
    var up, down := D.State(Active, Active, 0), D.State(Inactive, Inactive, 0);
    PollGrows([], START, [], BESIDE, D.FRESH, [], up);
    var a := [] + [on];
    PollGrows(a, Run(START, 2, a), [Active], ALONE, up, [], D.State(Active, Inactive, 1));
    var b := a + [off];
    PollGrows(b, Run(START, 2, b), [Active, Inactive], ALONE, D.State(Active, Inactive, 1), [], down);
    steps := b + [off];
    e := Emitted(ALONE, Decision([RefreshProxy], Proxy));
    assert [] + [e] == [e];
  }

  /** The corporate VPN drops and comes back before the executor gets to run. */
  lemma FlapExample() returns (steps: seq<Step>)
    ensures CiscoSettled(2, steps)
    ensures
      var s := Run(START, 2, steps);
      && s.lastCisco && s.tasks == [] && s.work.Idle?
      && s.queue != [] && !s.queue[0].seen.cisco
  {
    var on := Poll(Some(BESIDE), false);
    var down, e := FlapDown();
    var h := [Active, Inactive, Inactive];
    PollGrows(down, Run(START, 2, down), h, BESIDE, D.State(Inactive, Inactive, 0), [e], D.State(Inactive, Active, 1));
    var up := down + [on];
    PollGrows(up, Run(START, 2, up), h + [Active], BESIDE, D.State(Inactive, Active, 1), [e], D.State(Active, Active, 0));
    steps := up + [on];
    assert Observations(steps) == h + [Active] + [Active];
  }
}
