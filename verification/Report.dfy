/**
 What a manager call reports when Shutdowns overtake it: exactly when it returns success.
 */
module Report {
  import opened Wrappers
  import opened Lifecycle
  import opened Overtake

  /** Success is decided, and only bookkeeping is left. */
  predicate WillSucceed(pc: Pc) {
    match pc
    case SetMode(_, ok) => ok
    case Done(ok) => ok
    case Closing(_, next) => WillSucceed(next)
    case Scrub(next) => WillSucceed(next)
    case _ => false
  }

  /** The publication that makes the call a success: of the forwarder in StartForwarder, of the
      proxy of the first dial in every other call. A retry and a rollback come too late. */
  predicate Decisive(pc: Pc) {
    match pc
    case PublishFwd(_) => true
    case Publish(_, _, t, k) => t != Retry && !k.KForward? && !k.KRollback?
    case _ => false
  }

  /** The fields already are as the call wants them. */
  predicate NothingToDo(m: Fields, cmd: Command) {
    match cmd
    case StartProxy => m.proxy.Some?
    case StartForwarder => m.mode == Vpn
    case StopForwarder => m.mode != Vpn
    case Resume => m.mode != Suspended || m.proxy.Some?
    case Bind(iface) => m.mode != ProxyOnly || m.proxy.None? || (iface != "" && m.bound == iface)
    case Unbind => m.mode != ProxyOnly
    case Refresh => false
    case Suspend => true        // suspending cannot fail
    case Shutdown => true
  }

  predicate Succeeds(s: Sys) {
    WillSucceed(s.pc) || Decisive(s.pc) || (s.pc.Entry? && NothingToDo(s.m, s.pc.cmd))
  }

  lemma CloseThenSucceeds(h: Option<CoreId>, next: Pc)
    ensures WillSucceed(CloseThen(h, next)) <==> WillSucceed(next)
  {
  }

  lemma DialSucceeds(iface: string, t: Try, k: Cont, ok: bool)
    ensures WillSucceed(AfterDial(iface, t, k, ok)) <==> ok && t != Retry && !k.KForward? && !k.KRollback?
    ensures !Decisive(AfterDial(iface, t, k, ok)) && !AfterDial(iface, t, k, ok).Entry?
  {
  }

  lemma EntrySucceeds(m: Fields, cmd: Command)
    ensures WillSucceed(EntryStep(m, cmd).1) <==> NothingToDo(m, cmd)
    ensures !Decisive(EntryStep(m, cmd).1) && !EntryStep(m, cmd).1.Entry?
  {
    var tail := Scrub(SetMode(Suspended, true));
    CloseThenSucceeds(m.proxy, tail);
    CloseThenSucceeds(m.fwd, CloseThen(m.proxy, tail));
  }

  /** What is queued behind a Close or a clean-up neither starts a call nor publishes. */
  predicate Tail(pc: Pc) {
    match pc
    case Closing(_, next) => Tail(next)
    case Scrub(next) => Tail(next)
    case _ => !pc.Entry? && !pc.Publish? && !pc.PublishFwd?
  }

  predicate Plain(pc: Pc) {
    match pc
    case Closing(_, next) => Tail(next)
    case Scrub(next) => Tail(next)
    case _ => true
  }

  lemma CloseThenTail(h: Option<CoreId>, next: Pc)
    requires Tail(next)
    ensures Tail(CloseThen(h, next)) && Plain(CloseThen(h, next))
  {
  }

  lemma DialTail(iface: string, t: Try, k: Cont, ok: bool)
    ensures Tail(AfterDial(iface, t, k, ok)) && Plain(AfterDial(iface, t, k, ok))
  {
  }

  lemma EntryTail(m: Fields, cmd: Command)
    ensures Tail(EntryStep(m, cmd).1) && Plain(EntryStep(m, cmd).1)
  {
    var tail := Scrub(SetMode(Suspended, true));
    CloseThenTail(m.proxy, tail);
    CloseThenTail(m.fwd, CloseThen(m.proxy, tail));
  }

  // ---------------------------------------------------------------- one step

  /** A step decides success at once or leaves it open; it never takes it back. */
  lemma TurnSucceeds(s: Sys, o: Outcome)
    requires !s.pc.Done?
    ensures WillSucceed(Exec(s, Turn(o)).value.pc) <==> Succeeds(s)
  {
    match s.pc
    case Entry(cmd) => EntrySucceeds(s.m, cmd);
    case Create(iface, t, k) => DialSucceeds(iface, t, k, false);
    case Start(_, iface, t, k) => DialSucceeds(iface, t, k, false);
    case Check(_, iface, t, k) => DialSucceeds(iface, t, k, false);
    case Publish(_, iface, t, k) => DialSucceeds(iface, t, k, true);
    case TakeOld(iface, k) => CloseThenSucceeds(s.m.proxy, Create(iface, First, k));
    case TakeFwd => CloseThenSucceeds(s.m.fwd, Scrub(TakeOld("", KTeardown)));
    case RefreshFailed => CloseThenSucceeds(s.m.fwd, Done(false));
    case StartFwd(_, prev) => assert !WillSucceed(TakeOld(prev, KRollback));
    case CheckFwd(_) => assert !WillSucceed(Done(false));
    case _ =>
  }

  /** Publications come straight from a check that found the generation unchanged. */
  lemma TurnPlain(s: Sys, o: Outcome)
    requires !s.pc.Done? && Plain(s.pc)
    ensures
      var pc := Exec(s, Turn(o)).value.pc;
      Plain(pc) && !pc.Entry? && (s.m.gen != s.stamp ==> !pc.Publish? && !pc.PublishFwd?)
  {
    match s.pc
    case Entry(cmd) => EntryTail(s.m, cmd);
    case Create(iface, t, k) => DialTail(iface, t, k, false);
    case Start(_, iface, t, k) => DialTail(iface, t, k, false);
    case Check(_, iface, t, k) => DialTail(iface, t, k, false);
    case Publish(_, iface, t, k) => DialTail(iface, t, k, true);
    case TakeOld(iface, k) => CloseThenTail(s.m.proxy, Create(iface, First, k));
    case TakeFwd => CloseThenTail(s.m.fwd, Scrub(TakeOld("", KTeardown)));
    case RefreshFailed => CloseThenTail(s.m.fwd, Done(false));
    case Closing(_, next) => assert Tail(next);
    case Scrub(next) => assert Tail(next);
    case _ =>
  }

  // ---------------------------------------------------------------- whole runs

  /** The transition makes the step that decides success: it publishes its core, or finds at its
      first look that nothing is to be done. */
  predicate DecidedAlong(s: Sys, es: seq<Event>)
    requires Run(s, es).Some?
    decreases |es|
  {
    es != []
    && ((es[0].Turn? && !WillSucceed(s.pc) && Succeeds(s)) || DecidedAlong(Exec(s, es[0]).value, es[1..]))
  }

  lemma {:induction false} SuccessFrom(s: Sys, es: seq<Event>)
    requires Run(s, es).Some? && Run(s, es).value.pc.Done?
    ensures Run(s, es).value.pc == Done(true) <==> WillSucceed(s.pc) || DecidedAlong(s, es)
    decreases |es|
  {
    if es != [] {
      if es[0].Turn? {
        TurnSucceeds(s, es[0].o);
      }
      SuccessFrom(Exec(s, es[0]).value, es[1..]);
      if WillSucceed(s.pc) {
        assert WillSucceed(Exec(s, es[0]).value.pc);
      }
    }
  }

  /** A call that has ended returns success if and only if it published its core, or found nothing
      to do, whatever Shutdowns fell in between. */
  lemma SuccessMeans(m: Fields, cmd: Command, es: seq<Event>)
    requires Run(Begin(m, cmd), es).Some? && Run(Begin(m, cmd), es).value.pc.Done?
    ensures Run(Begin(m, cmd), es).value.pc == Done(true) <==> DecidedAlong(Begin(m, cmd), es)
  {
    SuccessFrom(Begin(m, cmd), es);
  }

  /** Some prefix of the run ends right before the publication of a forwarder. */
  ghost predicate ReachesPublication(s: Sys, es: seq<Event>) {
    exists k :: 0 <= k < |es| && Run(s, es[..k]).Some? && Run(s, es[..k]).value.pc.PublishFwd?
  }

  lemma ReachesLater(s: Sys, es: seq<Event>)
    requires es != [] && Exec(s, es[0]).Some? && ReachesPublication(Exec(s, es[0]).value, es[1..])
    ensures ReachesPublication(s, es)
  {
    var next := Exec(s, es[0]).value;
    var k :| 0 <= k < |es[1..]| && Run(next, es[1..][..k]).Some? && Run(next, es[1..][..k]).value.pc.PublishFwd?;
    assert es[..k + 1][0] == es[0] && es[..k + 1][1..] == es[1..][..k];
    assert Run(s, es[..k + 1]) == Run(next, es[1..][..k]);
  }

  lemma {:induction false} ForwarderFrom(s: Sys, es: seq<Event>)
    requires Run(s, es).Some? && DecidedAlong(s, es)
    requires ForForwarder(s.pc) && Plain(s.pc) && (s.pc.Entry? ==> s.m.mode != Vpn)
    ensures ReachesPublication(s, es)
    decreases |es|
  {
    if es[0].Turn? {
      TurnPlain(s, es[0].o);
    }
    if es[0].Turn? && !WillSucceed(s.pc) && Succeeds(s) {
      assert es[..0] == [] && Run(s, es[..0]) == Some(s);
    } else {
      ForForwarderStep(s, es[0]);
      ForwarderFrom(Exec(s, es[0]).value, es[1..]);
      ReachesLater(s, es);
    }
  }

  /** Entering VPN mode is reported only by a StartForwarder that has stood right before publishing
      its forwarder. */
  lemma ForwarderSuccess(m: Fields, es: seq<Event>)
    requires m.mode != Vpn && Run(Begin(m, StartForwarder), es).Some?
    requires Run(Begin(m, StartForwarder), es).value.pc == Done(true)
    ensures ReachesPublication(Begin(m, StartForwarder), es)
  {
    SuccessMeans(m, StartForwarder, es);
    ForwarderFrom(Begin(m, StartForwarder), es);
  }

  /** The program points of StartForwarder. */
  predicate ForForwarder(pc: Pc) {
    match pc
    case Entry(cmd) => cmd == StartForwarder
    case Probe(_) => true
    case TakeOld(_, k) => k.KForward? || k.KRollback?
    case Create(_, t, k) => t != Only && (k.KForward? || k.KRollback?)
    case Start(_, _, t, k) => t != Only && (k.KForward? || k.KRollback?)
    case Check(_, _, t, k) => t != Only && (k.KForward? || k.KRollback?)
    case Publish(_, _, t, k) => t != Only && (k.KForward? || k.KRollback?)
    case Closing(_, next) => ForForwarder(next)
    case SetMode(_, ok) => !ok
    case CreateFwd(_) => true
    case StartFwd(_, _) => true
    case CheckFwd(_) => true
    case PublishFwd(_) => true
    case Done(_) => true
    case _ => false
  }

  lemma DialForForwarder(iface: string, t: Try, k: Cont, ok: bool)
    requires t != Only && (k.KForward? || k.KRollback?)
    ensures ForForwarder(AfterDial(iface, t, k, ok))
  {
  }

  lemma ForForwarderStep(s: Sys, e: Event)
    requires ForForwarder(s.pc) && Exec(s, e).Some?
    ensures ForForwarder(Exec(s, e).value.pc)
    ensures s.pc.Entry? && s.m.mode != Vpn && !e.Turn? ==> Exec(s, e).value.m.mode != Vpn
  {
    if e.Turn? {
      match s.pc
      case Create(iface, t, k) => DialForForwarder(iface, t, k, false);
      case Start(_, iface, t, k) => DialForForwarder(iface, t, k, false);
      case Check(_, iface, t, k) => DialForForwarder(iface, t, k, false);
      case Publish(_, iface, t, k) => DialForForwarder(iface, t, k, true);
      case TakeOld(iface, k) => assert ForForwarder(Create(iface, First, k));
      case StartFwd(_, prev) => assert ForForwarder(TakeOld(prev, KRollback));
      case CheckFwd(_) => assert ForForwarder(Done(false));
      case _ =>
    }
  }

  // ---------------------------------------------------------------- overtaken by a Shutdown

  /** Superseded; before its first look the fields are those of a manager that is off. */
  predicate Overtaken(s: Sys) {
    s.m.gen > s.stamp && Plain(s.pc) && (s.pc.Entry? ==> Off(s.m))
  }

  lemma OvertakenStep(s: Sys, e: Event)
    requires Overtaken(s) && Exec(s, e).Some?
    ensures Overtaken(Exec(s, e).value) && (Succeeds(Exec(s, e).value) <==> Succeeds(s))
  {
    if e.Turn? {
      TurnSucceeds(s, e.o);
      TurnPlain(s, e.o);
    }
  }

  lemma {:induction false} OvertakenRun(s: Sys, es: seq<Event>)
    requires Overtaken(s) && Run(s, es).Some?
    ensures Succeeds(Run(s, es).value) <==> Succeeds(s)
    decreases |es|
  {
    if es != [] {
      OvertakenStep(s, es[0]);
      OvertakenRun(Exec(s, es[0]).value, es[1..]);
    }
  }

  lemma {:induction false} PlainRun(s: Sys, es: seq<Event>)
    requires Plain(s.pc) && Run(s, es).Some?
    ensures Plain(Run(s, es).value.pc)
    decreases |es|
  {
    if es != [] {
      if es[0].Turn? {
        TurnPlain(s, es[0].o);
      }
      PlainRun(Exec(s, es[0]).value, es[1..]);
    }
  }

  /** A call that a Shutdown overtakes at `s` returns success if and only if its success was already
      decided there, or it stood right before the publication that decides it, or it had not
      looked yet and has nothing to do on a manager that is off. Everywhere else it reports that
      it was superseded, although every foreign call may have succeeded. */
  lemma OvertakenReports(m: Fields, cmd: Command, before: seq<Event>, after: seq<Event>, u: Sys)
    requires Run(Begin(m, cmd), before).Some?
    requires
      var t := Exec(Run(Begin(m, cmd), before).value, ShutdownLocked).value;
      Run(t, after) == Some(u) && u.pc.Done?
    ensures
      var s := Run(Begin(m, cmd), before).value;
      u.pc == Done(true) <==>
        || WillSucceed(s.pc) || Decisive(s.pc)
        || s.pc in [Entry(StopForwarder), Entry(Suspend), Entry(Resume), Entry(Unbind), Entry(Shutdown)]
        || (s.pc.Entry? && s.pc.cmd.Bind?)
  {
    var s := Run(Begin(m, cmd), before).value;
    PlainRun(Begin(m, cmd), before);
    GenGrows(Begin(m, cmd), before);
    OvertakenRun(Exec(s, ShutdownLocked).value, after);
  }
}
