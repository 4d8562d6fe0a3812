/**
 Which Shutdowns can make the manager of `Overtake` lose a core later on.
 */
module Leak {
  import opened Wrappers
  import opened Lifecycle
  import opened Overtake
  import opened Solo

  /** Publishing the forwarder is the next thing the transition does to the fields. */
  predicate ForwarderAhead(pc: Pc) {
    match pc
    case PublishFwd(_) => true
    case Closing(_, next) => ForwarderAhead(next)
    case Scrub(next) => ForwarderAhead(next)
    case _ => false
  }

  lemma AheadAfterDial(iface: string, t: Try, k: Cont, ok: bool)
    ensures !ForwarderAhead(AfterDial(iface, t, k, ok))
  {
  }

  lemma AheadCloseThen(h: Option<CoreId>, next: Pc)
    ensures ForwarderAhead(CloseThen(h, next)) <==> ForwarderAhead(next)
  {
  }

  /** A forwarder about to be published is published in the very next step. */
  predicate Direct(pc: Pc) {
    ForwarderAhead(pc) ==> pc.PublishFwd?
  }

  lemma DirectStep(s: Sys, e: Event)
    requires Direct(s.pc) && Exec(s, e).Some?
    ensures Direct(Exec(s, e).value.pc)
    ensures s.m.gen != s.stamp && !s.pc.PublishFwd? ==> !Exec(s, e).value.pc.PublishFwd?
  {
    if e.Turn? {
      match s.pc
      case Start(_, iface, t, k) => AheadAfterDial(iface, t, k, false);
      case Check(_, iface, t, k) => AheadAfterDial(iface, t, k, false);
      case Create(iface, t, k) => AheadAfterDial(iface, t, k, false);
      case Publish(_, iface, t, k) => AheadAfterDial(iface, t, k, true);
      case Entry(cmd) =>
        var tail := Scrub(SetMode(Suspended, true));
        AheadCloseThen(s.m.proxy, tail);
        AheadCloseThen(s.m.fwd, CloseThen(s.m.proxy, tail));
      case TakeOld(iface, k) => AheadCloseThen(s.m.proxy, Create(iface, First, k));
      case TakeFwd => AheadCloseThen(s.m.fwd, Scrub(TakeOld("", KTeardown)));
      case RefreshFailed => AheadCloseThen(s.m.fwd, Done(false));
      case StartFwd(_, prev) => assert !ForwarderAhead(TakeOld(prev, KRollback));
      case CheckFwd(_) => assert !ForwarderAhead(Done(false));
      case Closing(_, next) => assert !ForwarderAhead(next);
      case Scrub(next) => assert !ForwarderAhead(next);
      case _ =>
    }
  }

  lemma {:induction false} DirectRun(s: Sys, es: seq<Event>)
    requires Direct(s.pc) && Run(s, es).Some?
    ensures Direct(Run(s, es).value.pc)
    decreases |es|
  {
    if es != [] {
      DirectStep(s, es[0]);
      DirectRun(Exec(s, es[0]).value, es[1..]);
    }
  }

  // ---------------------------------------------------------------- away from the forwarder's window

  /** Superseded, stopped, without a forwarder and about to publish none. */
  predicate Harmless(s: Sys) {
    s.m.gen > s.stamp && s.m.mode == Stopped && s.m.fwd.None? && !s.pc.PublishFwd? && Direct(s.pc)
  }

  lemma HarmlessStep(s: Sys, e: Event)
    requires Harmless(s) && Exec(s, e).Some?
    ensures Harmless(Exec(s, e).value)
  {
    DirectStep(s, e);
  }

  lemma {:induction false} HarmlessRun(s: Sys, es: seq<Event>)
    requires Harmless(s) && Run(s, es).Some?
    ensures Harmless(Run(s, es).value)
    decreases |es|
  {
    if es != [] {
      HarmlessStep(s, es[0]);
      HarmlessRun(Exec(s, es[0]).value, es[1..]);
    }
  }

  // ---------------------------------------------------------------- in the forwarder's window

  predicate NoShutdown(es: seq<Event>) {
    forall i :: 0 <= i < |es| ==> es[i] != ShutdownLocked
  }

  /** The forwarder `c` is published over a Shutdown that has taken the proxy, now or next. */
  predicate Published(s: Sys, c: CoreId) {
    s.m.proxy.None?
    && (s.pc == PublishFwd(c) || (s.pc.Done? && s.m.mode == Vpn && s.m.fwd == Some(c)))
  }

  lemma {:induction false} PublishedRun(s: Sys, es: seq<Event>, c: CoreId)
    requires Published(s, c) && NoShutdown(es) && Run(s, es).Some?
    ensures Published(Run(s, es).value, c)
    decreases |es|
  {
    if es != [] {
      var next := Exec(s, es[0]).value;
      assert es[0] != ShutdownLocked;
      PublishedRun(next, es[1..], c);
    }
  }

  // ---------------------------------------------------------------- the exact condition

  /** Some sequence of later calls, one after the other, ends with a core that is neither
      published nor closed, or is so twice. */
  ghost predicate CanLose(m: Fields) {
    exists calls, c :: !Accounted(RunAll(m, calls), c)
  }

  /** The end of one transition and its Shutdowns: the last of them fell when the transition was
      at `s`, and everything has been closed that was to be closed. */
  ghost predicate Ends(s: Sys, after: seq<Event>, u: Sys) {
    && NoShutdown(after) && Run(Exec(s, ShutdownLocked).value, after) == Some(u)
    && u.pc.Done? && u.pending == multiset{}
  }

  /** Later calls can lose a core if and only if the last Shutdown fell between the generation
      check of StartForwarder and the publication of its forwarder. One that falls in the
      corresponding window of a dial leaves a live proxy recorded as stopped, and every later
      call still accounts for it. */
  lemma LosesIff(m: Fields, cmd: Command, before: seq<Event>, after: seq<Event>, u: Sys)
    requires ModeInv(m) && forall c: CoreId :: Accounted(m, c)
    requires Run(Begin(m, cmd), before).Some?
    requires Ends(Run(Begin(m, cmd), before).value, after, u)
    ensures CanLose(u.m) <==> Run(Begin(m, cmd), before).value.pc.PublishFwd?
  {
    var s := Run(Begin(m, cmd), before).value;
    DirectRun(Begin(m, cmd), before);
    GenGrows(Begin(m, cmd), before);
    if s.pc.PublishFwd? {
      Loses(m, cmd, before, after, u);
    } else {
      HarmlessRun(Exec(s, ShutdownLocked).value, after);
      forall calls, c
        ensures Accounted(RunAll(u.m, calls), c)
      {
        EndsAccounted(m, cmd, before, after, u, c);
        EveryRunKeepsInv(u.m, calls, c);
      }
    }
  }

  lemma EndsOwned(m: Fields, cmd: Command, before: seq<Event>, after: seq<Event>, u: Sys, c: CoreId)
    requires ModeInv(m) && Accounted(m, c)
    requires Run(Begin(m, cmd), before).Some?
    requires Ends(Run(Begin(m, cmd), before).value, after, u)
    ensures Owned(u, c)
  {
    var s := Run(Begin(m, cmd), before).value;
    RunKeeps(Begin(m, cmd), before, c);
    ShutdownKeeps(s, ShutdownLocked, c);
    RunKeeps(Exec(s, ShutdownLocked).value, after, c);
  }

  lemma EndsAccounted(m: Fields, cmd: Command, before: seq<Event>, after: seq<Event>, u: Sys, c: CoreId)
    requires ModeInv(m) && Accounted(m, c)
    requires Run(Begin(m, cmd), before).Some?
    requires Ends(Run(Begin(m, cmd), before).value, after, u)
    ensures Accounted(u.m, c)
  {
    EndsOwned(m, cmd, before, after, u, c);
  }

  lemma Loses(m: Fields, cmd: Command, before: seq<Event>, after: seq<Event>, u: Sys)
    requires ModeInv(m) && forall c: CoreId :: Accounted(m, c)
    requires Run(Begin(m, cmd), before).Some? && Run(Begin(m, cmd), before).value.pc.PublishFwd?
    requires Ends(Run(Begin(m, cmd), before).value, after, u)
    ensures CanLose(u.m)
  {
    var s := Run(Begin(m, cmd), before).value;
    var c := s.pc.c;
    var t := Exec(s, ShutdownLocked).value;
    PublishedRun(t, after, c);
    EndsAccounted(m, cmd, before, after, u, c);
    var d := Draws(true, Some("en0"), Starts, Starts, Starts, Starts, Starts);
    LeakAfterwards(u.m, c, d);
    TwoCalls(u.m, StartProxy, StartForwarder, d);
    assert !Accounted(RunAll(u.m, [(StartProxy, d), (StartForwarder, d)]), c);
  }

  lemma TwoCalls(m: Fields, a: Command, b: Command, d: Draws)
    ensures RunAll(m, [(a, d), (b, d)]) == Apply(Apply(m, a, d).0, b, d).0
  {
    var calls := [(a, d), (b, d)];
    assert calls[1..] == [(b, d)] && calls[1..][1..] == [];
    var m1 := Apply(m, a, d).0;
    assert RunAll(m1, [(b, d)]) == Apply(m1, b, d).0;
  }
}
