/**
 The two views of the manager agree: when no Shutdown interferes, the lock-level
 steps of `Overtake` carry every transition to exactly the result of `Lifecycle`.
 */
module Solo {
  import opened Wrappers
  import opened Lifecycle
  import opened Overtake

  /** The machine at a program point of a transition no Shutdown has overtaken. */
  function At(m: Fields, pc: Pc): Sys {
    Sys(m, pc, m.gen, multiset{})
  }

  function Turns(os: seq<Outcome>): (es: seq<Event>)
    ensures |es| == |os|
  {
    if os == [] then [] else [Turn(os[0])] + Turns(os[1..])
  }

  /** The transition, fed with the outcomes `os`, goes from `pc` to `pc'`. */
  predicate Goes(m: Fields, pc: Pc, os: seq<Outcome>, m': Fields, pc': Pc) {
    Run(At(m, pc), Turns(os)) == Some(At(m', pc'))
  }

  lemma {:induction false} Then(m: Fields, pc: Pc, os: seq<Outcome>, m1: Fields, pc1: Pc, os1: seq<Outcome>, m2: Fields, pc2: Pc)
    requires Goes(m, pc, os, m1, pc1) && Goes(m1, pc1, os1, m2, pc2)
    ensures Goes(m, pc, os + os1, m2, pc2)
    decreases |os|
  {
    TurnsAppend(os, os1);
    RunAppend(At(m, pc), Turns(os), Turns(os1));
  }

  lemma {:induction false} TurnsAppend(a: seq<Outcome>, b: seq<Outcome>)
    ensures Turns(a + b) == Turns(a) + Turns(b)
  {
    if a == [] {
      assert a + b == b;
    } else {
      assert (a + b)[1..] == a[1..] + b;
      TurnsAppend(a[1..], b);
    }
  }

  lemma {:induction false} RunAppend(s: Sys, a: seq<Event>, b: seq<Event>)
    requires Run(s, a).Some?
    ensures Run(s, a + b) == Run(Run(s, a).value, b)
    decreases |a|
  {
    if a == [] {
      assert a + b == b;
    } else {
      assert (a + b)[1..] == a[1..] + b;
      RunAppend(Exec(s, a[0]).value, a[1..], b);
    }
  }

  /** One step. */
  lemma One(m: Fields, pc: Pc, o: Outcome)
    requires !pc.Done? && Step(m, pc, m.gen, o).0.gen == m.gen
    ensures Goes(m, pc, [o], Step(m, pc, m.gen, o).0, Step(m, pc, m.gen, o).1)
  {
    assert Turns([o]) == [Turn(o)];
    var t := At(Step(m, pc, m.gen, o).0, Step(m, pc, m.gen, o).1);
    assert Exec(At(m, pc), Turn(o)) == Some(t);
    assert [Turn(o)][1..] == [];
    assert Run(t, []) == Some(t);
  }

  /** A path and one more step. */
  lemma Extend(m: Fields, pc: Pc, os: seq<Outcome>, m1: Fields, pc1: Pc, o: Outcome)
    requires Goes(m, pc, os, m1, pc1)
    requires !pc1.Done? && Step(m1, pc1, m1.gen, o).0.gen == m1.gen
    ensures Goes(m, pc, os + [o], Step(m1, pc1, m1.gen, o).0, Step(m1, pc1, m1.gen, o).1)
  {
    One(m1, pc1, o);
    Then(m, pc, os, m1, pc1, [o], Step(m1, pc1, m1.gen, o).0, Step(m1, pc1, m1.gen, o).1);
  }

  const FAILS := Outcome(false, "")

  lemma DialSolo(m: Fields, iface: string, t: Try, k: Cont, d: Dial) returns (os: seq<Outcome>)
    ensures Goes(m, Create(iface, t, k), os, DialProxy(m, iface, d).0, AfterDial(iface, t, k, DialProxy(m, iface, d).1))
  {
    var pc := Create(iface, t, k);
    if d.BuildFails? || d.CreateFails? {
      One(m, pc, FAILS);
      return [FAILS];
    }
    var m1 := m.(next := m.next + 1);
    One(m, pc, FINE);
    if d.StartFails? {
      Extend(m, pc, [FINE], m1, Start(m.next, iface, t, k), FAILS);
      Extend(m, pc, [FINE] + [FAILS], m1, Closing(m.next, AfterDial(iface, t, k, false)), FINE);
      return [FINE] + [FAILS] + [FINE];
    }
    Extend(m, pc, [FINE], m1, Start(m.next, iface, t, k), FINE);
    Extend(m, pc, [FINE] + [FINE], m1, Check(m.next, iface, t, k), FINE);
    Extend(m, pc, [FINE] + [FINE] + [FINE], m1, Publish(m.next, iface, t, k), FINE);
    return [FINE] + [FINE] + [FINE] + [FINE];
  }

  /** A queued Close, if there is a core to close. */
  lemma CloseSolo(m: Fields, c: Option<CoreId>, next: Pc) returns (os: seq<Outcome>)
    ensures Goes(m, CloseThen(c, next), os, CloseCore(m, c), next)
  {
    if c.Some? {
      One(m, Closing(c.value, next), FINE);
      return [FINE];
    }
    os := [];
    assert Turns(os) == [];
  }

  lemma RecreateSolo(m: Fields, iface: string, k: Cont, first: Dial, retry: Dial) returns (os: seq<Outcome>)
    requires !k.KStart? && !k.KResume?
    ensures
      var (r, ok) := RecreateProxy(m, iface, first, retry);
      Goes(m, TakeOld(iface, k), os, r, AfterRecreate(k, ok))
  {
    var pc := TakeOld(iface, k);
    var m0 := m.(proxy := None);
    One(m, pc, FINE);
    os := [FINE];
    var m1 := CloseCore(m0, m.proxy);
    var more := CloseSolo(m0, m.proxy, Create(iface, First, k));
    Then(m, pc, os, m0, CloseThen(m.proxy, Create(iface, First, k)), more, m1, Create(iface, First, k));
    os := os + more;
    var (m2, ok) := DialProxy(m1, iface, first);
    more := DialSolo(m1, iface, First, k, first);
    Then(m, pc, os, m1, Create(iface, First, k), more, m2, AfterDial(iface, First, k, ok));
    os := os + more;
    if !ok {
      var (m3, ok') := DialProxy(m2, iface, retry);
      more := DialSolo(m2, iface, Retry, k, retry);
      Then(m, pc, os, m2, Create(iface, Retry, k), more, m3, AfterDial(iface, Retry, k, ok'));
      os := os + more;
    }
  }

  lemma RollbackSolo(m: Fields, prev: string, d: Draws) returns (os: seq<Outcome>)
    ensures Goes(m, TakeOld(prev, KRollback), os, RollbackProxy(m, prev, d), Done(false))
  {
    var (r, ok) := RecreateProxy(m, prev, d.rollback, d.rollbackRetry);
    os := RecreateSolo(m, prev, KRollback, d.rollback, d.rollbackRetry);
    Extend(m, TakeOld(prev, KRollback), os, r, AfterRecreate(KRollback, ok), FINE);
    os := os + [FINE];
  }

  lemma StartProxySolo(m: Fields, d: Draws) returns (os: seq<Outcome>)
    ensures Goes(m, Entry(StartProxy), os, Apply(m, StartProxy, d).0, Done(Apply(m, StartProxy, d).1))
  {
    var pc := Entry(StartProxy);
    One(m, pc, FINE);
    os := [FINE];
    if m.proxy.None? {
      Extend(m, pc, os, m, CleanUp, if d.cleanupOk then FINE else FAILS);
      os := os + [if d.cleanupOk then FINE else FAILS];
      if d.cleanupOk {
        os := FinishSingleDial(m, pc, os, KStart, d);
      }
    }
  }

  lemma ResumeSolo(m: Fields, d: Draws) returns (os: seq<Outcome>)
    ensures Goes(m, Entry(Resume), os, Apply(m, Resume, d).0, Done(Apply(m, Resume, d).1))
  {
    var pc := Entry(Resume);
    One(m, pc, FINE);
    os := [FINE];
    if m.mode == Suspended && m.proxy.None? {
      os := FinishSingleDial(m, pc, os, KResume, d);
    }
  }

  lemma FinishSingleDial(m: Fields, pc: Pc, sofar: seq<Outcome>, k: Cont, d: Draws) returns (os: seq<Outcome>)
    requires k.KStart? || k.KResume?
    requires Goes(m, pc, sofar, m, Create("", Only, k))
    ensures
      var (r, ok) := DialProxy(m, "", d.first);
      Goes(m, pc, os, if ok then r.(mode := ProxyOnly) else r, Done(ok))
  {
    var (r, ok) := DialProxy(m, "", d.first);
    var more := DialSolo(m, "", Only, k, d.first);
    Then(m, pc, sofar, m, Create("", Only, k), more, r, AfterDial("", Only, k, ok));
    os := sofar + more;
    if ok {
      Extend(m, pc, os, r, SetMode(ProxyOnly, true), FINE);
      os := os + [FINE];
    }
  }

  lemma SuspendSolo(m: Fields, d: Draws) returns (os: seq<Outcome>)
    ensures Goes(m, Entry(Suspend), os, Apply(m, Suspend, d).0, Done(true))
  {
    var pc := Entry(Suspend);
    var tail := Scrub(SetMode(Suspended, true));
    var m0 := m.(fwd := None, proxy := None, bound := "");
    var m1 := CloseCore(m0, m.fwd);
    var m2 := CloseCore(m1, m.proxy);
    One(m, pc, FINE);
    var a := CloseSolo(m0, m.fwd, CloseThen(m.proxy, tail));
    Then(m, pc, [FINE], m0, CloseThen(m.fwd, CloseThen(m.proxy, tail)), a, m1, CloseThen(m.proxy, tail));
    var b := CloseSolo(m1, m.proxy, tail);
    Then(m, pc, [FINE] + a, m1, CloseThen(m.proxy, tail), b, m2, tail);
    Extend(m, pc, [FINE] + a + b, m2, tail, FINE);
    Extend(m, pc, [FINE] + a + b + [FINE], m2, SetMode(Suspended, true), FINE);
    os := [FINE] + a + b + [FINE] + [FINE];
  }

  /** The rest of a teardown, once the forwarder is closed. */
  lemma TeardownSolo(m: Fields, d: Draws) returns (os: seq<Outcome>)
    ensures
      var (r, ok) := RecreateProxy(m, "", d.first, d.retry);
      Goes(m, Scrub(TakeOld("", KTeardown)), os, r.(mode := if ok then ProxyOnly else Stopped), Done(ok))
  {
    var pc, next := Scrub(TakeOld("", KTeardown)), TakeOld("", KTeardown);
    One(m, pc, FINE);
    var (r, ok) := RecreateProxy(m, "", d.first, d.retry);
    var mode := if ok then ProxyOnly else Stopped;
    var more := RecreateSolo(m, "", KTeardown, d.first, d.retry);
    Then(m, pc, [FINE], m, next, more, r, SetMode(mode, ok));
    One(r, SetMode(mode, ok), FINE);
    Then(m, pc, [FINE] + more, r, SetMode(mode, ok), [FINE], r.(mode := mode), Done(ok));
    os := [FINE] + more + [FINE];
  }

  lemma StopForwarderSolo(m: Fields, d: Draws) returns (os: seq<Outcome>)
    ensures Goes(m, Entry(StopForwarder), os, Apply(m, StopForwarder, d).0, Done(Apply(m, StopForwarder, d).1))
  {
    var pc := Entry(StopForwarder);
    One(m, pc, FINE);
    os := [FINE];
    if m.mode == Vpn {
      var tail := Scrub(TakeOld("", KTeardown));
      var m0 := m.(fwd := None);
      var m1 := CloseCore(m0, m.fwd);
      Extend(m, pc, os, m, TakeFwd, FINE);
      os := os + [FINE];
      var more := CloseSolo(m0, m.fwd, tail);
      Then(m, pc, os, m0, CloseThen(m.fwd, tail), more, m1, tail);
      os := os + more;
      more := TeardownSolo(m1, d);
      Then(m, pc, os, m1, tail, more, Teardown(m, d).0, Done(Teardown(m, d).1));
      os := os + more;
    }
  }

  lemma BindSolo(m: Fields, iface: string, d: Draws) returns (os: seq<Outcome>)
    ensures Goes(m, Entry(Bind(iface)), os, Apply(m, Bind(iface), d).0, Done(Apply(m, Bind(iface), d).1))
  {
    var pc := Entry(Bind(iface));
    One(m, pc, FINE);
    os := [FINE];
    if m.mode == ProxyOnly && m.proxy.Some? && iface != "" && m.bound != iface {
      var k := KBind(m.bound);
      var (r, ok) := RecreateProxy(m, iface, d.first, d.retry);
      var more := RecreateSolo(m, iface, k, d.first, d.retry);
      Then(m, pc, os, m, TakeOld(iface, k), more, r, AfterRecreate(k, ok));
      os := os + more;
      if !ok {
        more := RollbackSolo(r, m.bound, d);
        Then(m, pc, os, r, TakeOld(m.bound, KRollback), more, RollbackProxy(r, m.bound, d), Done(false));
        os := os + more;
      }
    }
  }

  lemma UnbindResult(m: Fields, d: Draws, r: Fields, ok: bool)
    requires m.mode == ProxyOnly && (r, ok) == RecreateProxy(m, "", d.first, d.retry)
    ensures Apply(m, Unbind, d) == if ok then (r, true) else (r.(mode := Stopped), false)
  {
  }

  lemma UnbindSolo(m: Fields, d: Draws) returns (os: seq<Outcome>)
    ensures Goes(m, Entry(Unbind), os, Apply(m, Unbind, d).0, Done(Apply(m, Unbind, d).1))
  {
    var pc := Entry(Unbind);
    One(m, pc, FINE);
    os := [FINE];
    if m.mode == ProxyOnly {
      var (r, ok) := RecreateProxy(m, "", d.first, d.retry);
      UnbindResult(m, d, r, ok);
      var more := RecreateSolo(m, "", KUnbind, d.first, d.retry);
      Then(m, pc, os, m, TakeOld("", KUnbind), more, r, AfterRecreate(KUnbind, ok));
      os := os + more;
      if !ok {
        One(r, SetMode(Stopped, false), FINE);
        Then(m, pc, os, r, SetMode(Stopped, false), [FINE], r.(mode := Stopped), Done(false));
        os := os + [FINE];
      }
    }
  }

  lemma RefreshSolo(m: Fields, d: Draws) returns (os: seq<Outcome>)
    ensures Goes(m, Entry(Refresh), os, Apply(m, Refresh, d).0, Done(Apply(m, Refresh, d).1))
  {
    var pc := Entry(Refresh);
    One(m, pc, FINE);
    os := [FINE];
    if m.proxy.Some? {
      var (r, ok) := RecreateProxy(m, m.bound, d.first, d.retry);
      var more := RecreateSolo(m, m.bound, KRefresh, d.first, d.retry);
      Then(m, pc, os, m, TakeOld(m.bound, KRefresh), more, r, AfterRecreate(KRefresh, ok));
      os := os + more;
      if !ok {
        more := RefreshFailedSolo(r);
        Then(m, pc, os, r, RefreshFailed, more, DoRefresh(m, d).0, Done(false));
        os := os + more;
      }
    }
  }

  lemma RefreshFailedSolo(r: Fields) returns (os: seq<Outcome>)
    ensures Goes(r, RefreshFailed, os,
                 if r.proxy.Some? then r else CloseCore(r.(fwd := None, mode := Stopped, bound := ""), r.fwd),
                 Done(false))
  {
    One(r, RefreshFailed, FINE);
    os := [FINE];
    if r.proxy.None? {
      var r1 := r.(fwd := None, mode := Stopped, bound := "");
      var more := CloseSolo(r1, r.fwd, Done(false));
      Then(r, RefreshFailed, os, r1, CloseThen(r.fwd, Done(false)), more, CloseCore(r1, r.fwd), Done(false));
      os := os + more;
    }
  }

  lemma StartForwarderSolo(m: Fields, d: Draws) returns (os: seq<Outcome>)
    ensures Goes(m, Entry(StartForwarder), os, Apply(m, StartForwarder, d).0, Done(Apply(m, StartForwarder, d).1))
  {
    var pc := Entry(StartForwarder);
    One(m, pc, FINE);
    os := [FINE];
    if m.mode != Vpn && m.proxy.Some? {
      var probed := if d.probe.None? then FAILS else Outcome(true, d.probe.value);
      Extend(m, pc, os, m, Probe(m.bound), probed);
      os := os + [probed];
      if d.probe.Some? && d.probe.value != "" {
        var k := KForward(m.bound);
        var (r, ok) := RecreateProxy(m, d.probe.value, d.first, d.retry);
        var more := RecreateSolo(m, d.probe.value, k, d.first, d.retry);
        Then(m, pc, os, m, TakeOld(d.probe.value, k), more, r, AfterRecreate(k, ok));
        os := os + more;
        var r1, after := r, AfterRecreate(k, ok);
        if ok {
          r1, more, after := LaunchSolo(r, m.bound, d.forwarder);
          Then(m, pc, os, r, CreateFwd(m.bound), more, r1, after);
          os := os + more;
        }
        if after == TakeOld(m.bound, KRollback) {
          more := RollbackSolo(r1, m.bound, d);
          Then(m, pc, os, r1, after, more, RollbackProxy(r1, m.bound, d), Done(false));
          os := os + more;
        }
      }
    }
  }

  /** Creating and starting the forwarder: launched, or on to the rollback. */
  lemma LaunchSolo(r: Fields, prev: string, d: Dial) returns (r1: Fields, os: seq<Outcome>, after: Pc)
    ensures Goes(r, CreateFwd(prev), os, r1, after)
    ensures d == Starts ==> r1 == Launched(r) && after == Done(true)
    ensures d == StartFails ==> r1 == Discarded(r) && after == TakeOld(prev, KRollback)
    ensures d == BuildFails || d == CreateFails ==> r1 == r && after == TakeOld(prev, KRollback)
  {
    var pc := CreateFwd(prev);
    if d == BuildFails || d == CreateFails {
      One(r, pc, FAILS);
      return r, [FAILS], TakeOld(prev, KRollback);
    }
    r1 := r.(next := r.next + 1);
    One(r, pc, FINE);
    if d == StartFails {
      Extend(r, pc, [FINE], r1, StartFwd(r.next, prev), FAILS);
      Extend(r, pc, [FINE] + [FAILS], r1, Closing(r.next, TakeOld(prev, KRollback)), FINE);
      return Discarded(r), [FINE] + [FAILS] + [FINE], TakeOld(prev, KRollback);
    }
    Extend(r, pc, [FINE], r1, StartFwd(r.next, prev), FINE);
    Extend(r, pc, [FINE] + [FINE], r1, CheckFwd(r.next), FINE);
    Extend(r, pc, [FINE] + [FINE] + [FINE], r1, PublishFwd(r.next), FINE);
    return Launched(r), [FINE] + [FINE] + [FINE] + [FINE], Done(true);
  }

  /** Every call of `Lifecycle` is a run of the lock-level machine, with the same result. */
  lemma CallIsRun(m: Fields, cmd: Command, d: Draws) returns (os: seq<Outcome>)
    requires cmd != Shutdown
    ensures Run(Begin(m, cmd), Turns(os)) == Some(At(Apply(m, cmd, d).0, Done(Apply(m, cmd, d).1)))
  {
    match cmd
    case StartProxy => os := StartProxySolo(m, d);
    case StartForwarder => os := StartForwarderSolo(m, d);
    case StopForwarder => os := StopForwarderSolo(m, d);
    case Suspend => os := SuspendSolo(m, d);
    case Resume => os := ResumeSolo(m, d);
    case Bind(iface) => os := BindSolo(m, iface, d);
    case Unbind => os := UnbindSolo(m, d);
    case Refresh => os := RefreshSolo(m, d);
  }

  // ---------------------------------------------------------------- a race, from a sound manager

  /** StartForwarder up to the moment between its generation check and its publication. */
  lemma ReachWindow(m: Fields) returns (os: seq<Outcome>)
    requires m.mode != Vpn && m.proxy.Some?
    ensures
      var w := RecreateProxy(m, "en0", Starts, Starts).0;
      Goes(m, Entry(StartForwarder), os, w.(next := w.next + 1), PublishFwd(w.next))
  {
    var pc, k := Entry(StartForwarder), KForward(m.bound);
    One(m, pc, FINE);
    Extend(m, pc, [FINE], m, Probe(m.bound), Outcome(true, "en0"));
    os := [FINE] + [Outcome(true, "en0")];
    var w := RecreateProxy(m, "en0", Starts, Starts).0;
    var more := RecreateSolo(m, "en0", k, Starts, Starts);
    Then(m, pc, os, m, TakeOld("en0", k), more, w, CreateFwd(m.bound));
    os := os + more;
    var w1 := w.(next := w.next + 1);
    Extend(m, pc, os, w, CreateFwd(m.bound), FINE);
    Extend(m, pc, os + [FINE], w1, StartFwd(w.next, m.bound), FINE);
    Extend(m, pc, os + [FINE] + [FINE], w1, CheckFwd(w.next), FINE);
    os := os + [FINE] + [FINE] + [FINE];
  }

  /** A Shutdown that falls there: the forwarder is published over it. */
  lemma Overrun(w: Fields, c: CoreId, p: CoreId)
    requires w.proxy == Some(p) && w.fwd.None?
    ensures
      var m := w.(gen := w.gen + 1, proxy := None, fwd := Some(c), mode := Vpn, closes := w.closes + multiset{p});
      Run(At(w, PublishFwd(c)), [ShutdownLocked, Turn(FINE), ShutdownCloses(p)])
        == Some(Sys(m, Done(true), w.gen, multiset{}))
  {
    var es := [ShutdownLocked, Turn(FINE), ShutdownCloses(p)];
    assert es[1..] == [Turn(FINE), ShutdownCloses(p)] && es[1..][1..] == [ShutdownCloses(p)] && es[1..][1..][1..] == [];
    var s1 := Exec(At(w, PublishFwd(c)), ShutdownLocked).value;
    assert s1.pending == multiset{p};
    var s2 := Exec(s1, Turn(FINE)).value;
    var s3 := Exec(s2, ShutdownCloses(p)).value;
    assert Run(s3, es[1..][1..][1..]) == Some(s3);
    assert Run(s2, es[1..][1..]) == Some(s3);
    assert Run(s1, es[1..]) == Some(s3);
  }

  /** From every sound proxy-only manager some run of StartForwarder with one Shutdown ends,
      all closing done, in recorded VPN mode without a proxy. Starting the proxy and the
      forwarder afterwards overwrites the published forwarder: a created core that is
      neither published nor closed. */
  lemma RaceCanLeak(m: Fields, d: Draws) returns (es: seq<Event>, c: CoreId)
    requires ModeInv(m) && m.mode == ProxyOnly && (forall h: CoreId :: Accounted(m, h))
    requires d == Draws(true, Some("en0"), Starts, Starts, Starts, Starts, Starts)
    ensures Run(Begin(m, StartForwarder), es).Some?
    ensures
      var s := Run(Begin(m, StartForwarder), es).value;
      && s.pc == Done(true) && s.pending == multiset{}
      && s.m.mode == Vpn && s.m.proxy.None? && s.m.fwd == Some(c)
      && var again := Apply(Apply(s.m, StartProxy, d).0, StartForwarder, d).0;
         again.mode == Vpn && c < again.next && Count(again, c) == 0
  {
    var os := ReachWindow(m);
    var w := RecreateProxy(m, "en0", Starts, Starts).0;
    RecreateFacts(m, "en0", Starts, Starts);
    c := w.next;
    var p := w.proxy.value;
    RecreateAccounted(m, "en0", Starts, Starts, c);
    var w1 := w.(next := w.next + 1);
    Overrun(w1, c, p);
    var tail := [ShutdownLocked, Turn(FINE), ShutdownCloses(p)];
    RunAppend(Begin(m, StartForwarder), Turns(os), tail);
    es := Turns(os) + tail;
    var s := Run(At(w1, PublishFwd(c)), tail).value;
    LeakAfterwards(s.m, c, d);
  }

  lemma LeakAfterwards(m: Fields, c: CoreId, d: Draws)
    requires m.mode == Vpn && m.proxy.None? && m.fwd == Some(c) && c < m.next && m.closes[c] == 0
    requires d == Draws(true, Some("en0"), Starts, Starts, Starts, Starts, Starts)
    ensures
      var again := Apply(Apply(m, StartProxy, d).0, StartForwarder, d).0;
      again.mode == Vpn && c < again.next && Count(again, c) == 0
  {
    var up := Apply(m, StartProxy, d).0;
    assert up.mode == ProxyOnly && up.fwd == Some(c) && up.proxy == Some(m.next);
  }
}
