/**
 The loop of `Coexist` comes to rest when the network does not change and the user requests
 nothing.
 */
module Settle {
  import opened Wrappers
  import opened Policy
  import opened Coexist
  import D = Debounce
  import L = Lifecycle

  /** Polls of an unchanging network, which deliver `seen` whenever they succeed, and the
      executor at work; the user requests nothing. */
  predicate Constant(steps: seq<Step>, seen: Seen) {
    forall p :: p in steps ==> p.Take? || p.Enact? || p.Show? || (p.Poll? && (p.seen.Some? ==> p.seen.value == seen))
  }

  predicate Delivers(step: Step) {
    step.Poll? && step.seen.Some?
  }

  /** The step is a poll that finds no order outstanding, neither in the channel nor being applied,
      and emits an event. */
  predicate EmitsAfresh(s: System, t: int, step: Step) {
    Delivers(step) && Orders(s) == [] && Actionable(Verdict(s, t, step.seen.value, step.midway))
  }

  function Successes(steps: seq<Step>): nat {
    if steps == [] then 0
    else Successes(steps[..|steps| - 1]) + if Delivers(steps[|steps| - 1]) then 1 else 0
  }

  function FreshEvents(s: System, t: int, steps: seq<Step>): nat {
    if steps == [] then 0
    else
      var p := steps[..|steps| - 1];
      FreshEvents(s, t, p) + if EmitsAfresh(Run(s, t, p), t, steps[|steps| - 1]) then 1 else 0
  }

  /** What holds once one poll has delivered `seen`: the release of a stale binding is ordered,
      and only committing the pending flip is left. */
  predicate Calm(s: System, t: int, seen: Seen) {
    && Inv(s) && s.tasks == [] && !s.late
    && (BoundToPhysical(s.mgr) ==> Ordered(s, UnbindProxy))
    && (seen.phys != "" ==> s.watch.havePhys && s.watch.prevPhys == seen.phys)
    && s.watch.deb.committed != Unknown
    && (s.watch.deb.committed != Raw(seen) ==> s.watch.deb.pending == Raw(seen) && s.watch.deb.count < t)
  }

  /** Successful polls that may still pass before the flip is committed. */
  function Left(s: System, t: int, seen: Seen): int {
    if s.watch.deb.committed == Raw(seen) then 0 else t - s.watch.deb.count
  }

  predicate DebounceInv(s: System, t: int) {
    if s.watch.deb.pending == s.watch.deb.committed then s.watch.deb.count == 0 else 0 <= s.watch.deb.count < t
  }

  lemma PollReleases(s: System, t: int, seen: Seen, midway: bool)
    requires Inv(s)
    ensures
      var r := Exec(s, t, Poll(Some(seen), midway));
      BoundToPhysical(r.mgr) ==> Ordered(r, UnbindProxy)
  {
    var r := Exec(s, t, Poll(Some(seen), midway));
    PollOrders(s, t, seen, midway);
    if BoundToPhysical(r.mgr) {
      var d := Verdict(s, t, seen, midway);
      assert d.actions == [UnbindProxy];
      assert UnbindProxy in d.actions && Actionable(d);
      assert UnbindProxy in Orders(r)[|Orders(r)| - 1].decision.actions;
    }
  }

  lemma FirstPollCalms(s: System, t: int, seen: Seen, midway: bool)
    requires Inv(s) && t >= 1 && s.tasks == [] && DebounceInv(s, t)
    ensures
      var r := Exec(s, t, Poll(Some(seen), midway));
      Calm(r, t, seen) && Left(r, t, seen) <= t - 1
  {
    PollKeeps(s, t, seen, midway);
    PollReleases(s, t, seen, midway);
  }

  /** In a calm system a poll that finds no order outstanding emits only when it commits the flip. */
  lemma CalmPoll(s: System, t: int, seen: Seen, midway: bool)
    requires Calm(s, t, seen)
    ensures
      var r := Exec(s, t, Poll(Some(seen), midway));
      && Calm(r, t, seen)
      && Left(r, t, seen) == (if Left(s, t, seen) == 0 then 0 else Left(s, t, seen) - 1)
      && (EmitsAfresh(s, t, Poll(Some(seen), midway)) ==> Left(s, t, seen) == 1)
  {
    PollKeeps(s, t, seen, midway);
    PollReleases(s, t, seen, midway);
    if Orders(s) == [] && Left(s, t, seen) != 1 {
      var d := Verdict(s, t, seen, midway);
      assert d.actions == [Nothing];
    }
  }

  lemma ApplyUnbinds(m: L.Fields, d: Decision, seen: Seen, f: Faults)
    requires L.ModeInv(m) && Emittable(d)
    ensures BoundToPhysical(Applied(m, d.actions, seen, f)) ==> BoundToPhysical(m) && UnbindProxy !in d.actions
  {
    if d.actions == [FailClosed, StopForwarder, Notify] {
      StopLeavesVpn(m, f.stop);
    } else if d.actions == [UnbindProxy] {
      UnbindStaysOut(m, f.unbind);
    } else {
      assert d.actions == [RefreshProxy];
      RenewStaysOut(m, f.refresh);
    }
  }

  lemma CalmTake(s: System, t: int, seen: Seen)
    requires Calm(s, t, seen)
    ensures Calm(Exec(s, t, Take), t, seen)
  {
    TakeKeeps(s, t);
    assert Ordered(Exec(s, t, Take), UnbindProxy) <==> Ordered(s, UnbindProxy);
  }

  lemma CalmShow(s: System, t: int, seen: Seen)
    requires Calm(s, t, seen)
    ensures Calm(Exec(s, t, Show), t, seen)
  {
    var r := Exec(s, t, Show);
    ShowKeeps(s, t);
    assert Ordered(r, UnbindProxy) <==> Ordered(s, UnbindProxy);
  }

  lemma CalmEnact(s: System, t: int, seen: Seen, f: Faults)
    requires Calm(s, t, seen)
    ensures Calm(Exec(s, t, Enact(f)), t, seen)
  {
    EnactKeeps(s, t, f);
    if s.work.Applying? {
      var r := Exec(s, t, Enact(f));
      EnactOrders(s, t, f);
      assert Orders(s)[0] == s.work.event;
      ApplyUnbinds(s.mgr, s.work.event.decision, s.work.event.seen, f);
      if BoundToPhysical(r.mgr) {
        OrderStays(s, r, UnbindProxy);
      }
    }
  }

  /** Where a stretch without change or request stands: before its first successful poll, or
      calm with at most `t` minus the successes to go. */
  predicate Stage(s: System, t: int, seen: Seen, successes: nat, events: nat) {
    if successes == 0 then Inv(s) && s.tasks == [] && DebounceInv(s, t) && events == 0
    else
      && Calm(s, t, seen) && 0 <= Left(s, t, seen)
      && (Left(s, t, seen) > 0 ==> Left(s, t, seen) <= t - successes)
      && events + (if Left(s, t, seen) > 0 then 1 else 0) <= 2
  }

  lemma StageStep(s: System, t: int, seen: Seen, successes: nat, events: nat, step: Step)
    requires t >= 1 && Stage(s, t, seen, successes, events)
    requires step.Take? || step.Enact? || step.Show? || (step.Poll? && (step.seen.Some? ==> step.seen.value == seen))
    ensures
      Stage(Exec(s, t, step), t, seen, successes + (if Delivers(step) then 1 else 0),
            events + if EmitsAfresh(s, t, step) then 1 else 0)
    ensures EmitsAfresh(s, t, step) ==> successes < t
  {
    match step
    case Poll(Some(_), midway) =>
      if successes == 0 {
        FirstPollCalms(s, t, seen, midway);
      } else {
        CalmPoll(s, t, seen, midway);
      }
    case Take =>
      TakeKeeps(s, t);
      if successes > 0 {
        CalmTake(s, t, seen);
      }
    case Enact(f) =>
      EnactKeeps(s, t, f);
      if successes > 0 {
        CalmEnact(s, t, seen, f);
      }
    case Show =>
      ShowKeeps(s, t);
      if successes > 0 {
        CalmShow(s, t, seen);
      }
    case _ =>
  }

  lemma {:induction false} StageRun(s: System, t: int, seen: Seen, steps: seq<Step>)
    requires t >= 1 && Inv(s) && s.tasks == [] && DebounceInv(s, t) && Constant(steps, seen)
    ensures Stage(Run(s, t, steps), t, seen, Successes(steps), FreshEvents(s, t, steps))
  {
    if steps != [] {
      var p, last := steps[..|steps| - 1], steps[|steps| - 1];
      assert last in steps && forall q :: q in p ==> q in steps;
      StageRun(s, t, seen, p);
      StageStep(Run(s, t, p), t, seen, Successes(p), FreshEvents(s, t, p), last);
    }
  }

  /** The loop settles. From every state a run can reach with no request on its way, while the
      network does not change and the user requests nothing, at most two polls that find no order
      outstanding emit an event, both among the first `t` successful ones; detector errors,
      faults and the pace of the executor do not matter. */
  lemma Settles(t: int, before: seq<Step>, seen: Seen, steps: seq<Step>, next: Step)
    requires t >= 1 && Run(START, t, before).tasks == []
    requires Constant(steps, seen) && Constant([next], seen)
    ensures FreshEvents(Run(START, t, before), t, steps) <= 2
    ensures EmitsAfresh(Run(Run(START, t, before), t, steps), t, next) ==> Successes(steps) < t
  {
    var s := Run(START, t, before);
    RunKeepsInv(START, t, before);
    LoopObserves(t, before);
    var h := Observations(before);
    if h != [] {
      D.CountsAfter(h, t);
    }
    StageRun(s, t, seen, steps);
    assert next in [next];
    StageStep(Run(s, t, steps), t, seen, Successes(steps), FreshEvents(s, t, steps), next);
  }
}
