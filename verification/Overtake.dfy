/**
 One transition of the manager interleaved with any number of Shutdowns, at the
 granularity of its lock: a step is one locked section or one foreign call.

 `Pc` is the program point of the goroutine that runs the transition, with its local
 variables; `stamp` is the generation it was handed. Nothing between two steps is
 atomic: in particular the generation check and the publication that follows it
 are separate steps.
 */
module Overtake {
  import opened Wrappers
  import opened Lifecycle

  /** What follows a dial or a recreate. */
  datatype Cont =
    | KStart | KResume               // StartProxy, ResumeProxy: one dial, no retry
    | KForward(prev: string)         // rebind of StartForwarder
    | KRollback                      // rollbackProxy
    | KTeardown | KUnbind | KRefresh
    | KBind(prev: string)

  datatype Try = Only | First | Retry

  datatype Pc =
    | Entry(cmd: Command)                              // lock: first read of the fields
    | CleanUp                                          // StartProxy: remove orphan routes
    | Probe(prev: string)                              // StartForwarder: detect the interface
    | TakeOld(iface: string, k: Cont)                  // lock: recreateProxy unpublishes the proxy
    | Create(iface: string, t: Try, k: Cont)           // build the config and call the factory
    | Start(c: CoreId, iface: string, t: Try, k: Cont)
    | Check(c: CoreId, iface: string, t: Try, k: Cont)     // lock: committed(gen)
    | Publish(c: CoreId, iface: string, t: Try, k: Cont)   // lock: store proxy and binding
    | CreateFwd(prev: string)
    | StartFwd(c: CoreId, prev: string)
    | CheckFwd(c: CoreId)                              // lock: committed(gen)
    | PublishFwd(c: CoreId)                            // lock: store forwarder and state
    | TakeFwd                                          // lock: teardown unpublishes the forwarder
    | Scrub(next: Pc)                                  // remove orphan routes, result ignored
    | RefreshFailed                                    // lock: RefreshProxy after a failed recreate
    | Closing(c: CoreId, next: Pc)                     // a Close call
    | SetMode(mode: Mode, ok: bool)                    // lock: store the state if still current
    | Done(ok: bool)

  /** Outcome of a foreign call; `iface` is read by the prober only. */
  datatype Outcome = Outcome(ok: bool, iface: string)

  datatype Sys = Sys(m: Fields, pc: Pc, stamp: nat, pending: multiset<CoreId>)

  datatype Event =
    | Turn(o: Outcome)             // one step of the transition
    | ShutdownLocked               // the locked section of a Shutdown
    | ShutdownCloses(c: CoreId)    // a Shutdown closes a core it took

  // ---------------------------------------------------------------- steps

  function CloseThen(c: Option<CoreId>, next: Pc): Pc {
    if c.Some? then Closing(c.value, next) else next
  }

  function AfterRecreate(k: Cont, ok: bool): Pc {
    match k
    case KForward(prev) => if ok then CreateFwd(prev) else TakeOld(prev, KRollback)
    case KRollback => SetMode(if ok then ProxyOnly else Stopped, false)
    case KTeardown => SetMode(if ok then ProxyOnly else Stopped, ok)
    case KUnbind => if ok then Done(true) else SetMode(Stopped, false)
    case KBind(prev) => if ok then Done(true) else TakeOld(prev, KRollback)
    case KRefresh => if ok then Done(true) else RefreshFailed
    case _ => if ok then SetMode(ProxyOnly, true) else Done(false)
  }

  function AfterDial(iface: string, t: Try, k: Cont, ok: bool): Pc {
    match t
    case Only => AfterRecreate(k, ok)
    case First => if ok then AfterRecreate(k, true) else Create(iface, Retry, k)
    case Retry => AfterRecreate(k, false)
  }

  function EntryStep(m: Fields, cmd: Command): (Fields, Pc) {
    match cmd
    case StartProxy => (m, if m.proxy.Some? then Done(true) else CleanUp)
    case StartForwarder =>
      (m, if m.mode == Vpn then Done(true) else if m.proxy.None? then Done(false) else Probe(m.bound))
    case StopForwarder => (m, if m.mode == Vpn then TakeFwd else Done(true))
    case Suspend =>
      (m.(fwd := None, proxy := None, bound := ""),
       CloseThen(m.fwd, CloseThen(m.proxy, Scrub(SetMode(Suspended, true)))))
    case Resume =>
      (m, if m.mode == Suspended && m.proxy.None? then Create("", Only, KResume) else Done(true))
    case Bind(iface) =>
      (m, if m.mode != ProxyOnly || m.proxy.None? then Done(true)
          else if iface == "" then Done(false)
          else if m.bound == iface then Done(true)
          else TakeOld(iface, KBind(m.bound)))
    case Unbind => (m, if m.mode != ProxyOnly then Done(true) else TakeOld("", KUnbind))
    case Refresh => (m, if m.proxy.None? then Done(false) else TakeOld(m.bound, KRefresh))
    case Shutdown => (m, Done(true))   // not a transition; see ShutdownLocked
  }

  /** One step of the transition with generation `stamp`. */
  function Step(m: Fields, pc: Pc, stamp: nat, o: Outcome): (Fields, Pc) {
    match pc
    case Entry(cmd) => EntryStep(m, cmd)
    case CleanUp => (m, if o.ok then Create("", Only, KStart) else Done(false))
    case Probe(prev) =>
      (m, if !o.ok || o.iface == "" then Done(false) else TakeOld(o.iface, KForward(prev)))
    case TakeOld(iface, k) => (m.(proxy := None), CloseThen(m.proxy, Create(iface, First, k)))
    case Create(iface, t, k) =>
      if o.ok then (m.(next := m.next + 1), Start(m.next, iface, t, k))
      else (m, AfterDial(iface, t, k, false))
    case Start(c, iface, t, k) =>
      (m, if o.ok then Check(c, iface, t, k) else Closing(c, AfterDial(iface, t, k, false)))
    case Check(c, iface, t, k) =>
      (m, if m.gen == stamp then Publish(c, iface, t, k) else Closing(c, AfterDial(iface, t, k, false)))
    case Publish(c, iface, t, k) => (m.(proxy := Some(c), bound := iface), AfterDial(iface, t, k, true))
    case CreateFwd(prev) =>
      if o.ok then (m.(next := m.next + 1), StartFwd(m.next, prev)) else (m, TakeOld(prev, KRollback))
    case StartFwd(c, prev) => (m, if o.ok then CheckFwd(c) else Closing(c, TakeOld(prev, KRollback)))
    case CheckFwd(c) => (m, if m.gen == stamp then PublishFwd(c) else Closing(c, Done(false)))
    case PublishFwd(c) => (m.(fwd := Some(c), mode := Vpn), Done(true))
    case TakeFwd => (m.(fwd := None), CloseThen(m.fwd, Scrub(TakeOld("", KTeardown))))
    case Scrub(next) => (m, next)
    case RefreshFailed =>
      if m.gen == stamp && m.proxy.None? then
        (m.(fwd := None, mode := Stopped, bound := ""), CloseThen(m.fwd, Done(false)))
      else (m, Done(false))
    case Closing(c, next) => (m.(closes := m.closes + multiset{c}), next)
    case SetMode(mode, ok) => (if m.gen == stamp then m.(mode := mode) else m, Done(ok))
    case Done(_) => (m, pc)
  }

  function Cores(c: Option<CoreId>): multiset<CoreId> {
    if c.Some? then multiset{c.value} else multiset{}
  }

  function Exec(s: Sys, e: Event): Option<Sys> {
    match e
    case Turn(o) =>
      if s.pc.Done? then None
      else
        var (m, pc) := Step(s.m, s.pc, s.stamp, o);
        Some(s.(m := m, pc := pc))
    case ShutdownLocked =>
      Some(s.(m := s.m.(gen := s.m.gen + 1, fwd := None, proxy := None, mode := Stopped),
              pending := s.pending + Cores(s.m.fwd) + Cores(s.m.proxy)))
    case ShutdownCloses(c) =>
      if s.pending[c] == 0 then None
      else Some(s.(m := s.m.(closes := s.m.closes + multiset{c}), pending := s.pending - multiset{c}))
  }

  function Run(s: Sys, es: seq<Event>): Option<Sys>
    decreases |es|
  {
    if es == [] then Some(s)
    else
      match Exec(s, es[0])
      case None => None
      case Some(t) => Run(t, es[1..])
  }

  /** A transition about to read the fields of an otherwise idle manager. */
  function Begin(m: Fields, cmd: Command): Sys {
    Sys(m, Entry(cmd), m.gen, multiset{})
  }

  // ---------------------------------------------------------------- no core is lost or closed twice

  /** How often the transition holds core `c` in a local variable. */
  function Held(pc: Pc, c: CoreId): nat {
    match pc
    case Start(h, _, _, _) => Times(h == c)
    case Check(h, _, _, _) => Times(h == c)
    case Publish(h, _, _, _) => Times(h == c)
    case StartFwd(h, _) => Times(h == c)
    case CheckFwd(h) => Times(h == c)
    case PublishFwd(h) => Times(h == c)
    case Closing(h, next) => Times(h == c) + Held(next, c)
    case Scrub(next) => Held(next, c)
    case _ => 0
  }

  /** Core `c` is published, held by the transition, held by a Shutdown, or closed: exactly
      one of these, exactly once, from its creation on. */
  predicate Owned(s: Sys, c: CoreId) {
    Count(s.m, c) + Held(s.pc, c) + s.pending[c] == Times(c < s.m.next)
  }

  /** Where the transition relies on the proxy slot being empty. */
  predicate ProxySlotEmpty(pc: Pc) {
    match pc
    case CleanUp => true
    case Create(_, _, _) => true
    case Start(_, _, _, _) => true
    case Check(_, _, _, _) => true
    case Publish(_, _, _, _) => true
    case Closing(_, next) => ProxySlotEmpty(next)
    case Scrub(next) => ProxySlotEmpty(next)
    case _ => false
  }

  /** Where it relies on the forwarder slot being empty. */
  predicate FwdSlotEmpty(pc: Pc) {
    match pc
    case Entry(_) => false
    case TakeFwd => false
    case RefreshFailed => false
    case Done(_) => false
    case TakeOld(_, k) => !k.KRefresh?
    case Create(_, _, k) => !k.KRefresh?
    case Start(_, _, _, k) => !k.KRefresh?
    case Check(_, _, _, k) => !k.KRefresh?
    case Publish(_, _, _, k) => !k.KRefresh?
    case Closing(_, next) => FwdSlotEmpty(next)
    case Scrub(next) => FwdSlotEmpty(next)
    case _ => true
  }

  predicate BeforeEntry(pc: Pc) {
    match pc
    case Entry(_) => true
    case Closing(_, next) => BeforeEntry(next)
    case Scrub(next) => BeforeEntry(next)
    case _ => false
  }

  predicate SlotInv(s: Sys) {
    && (BeforeEntry(s.pc) ==> s.m.fwd.Some? ==> s.m.mode == Vpn && s.m.proxy.Some?)
    && (ProxySlotEmpty(s.pc) ==> s.m.proxy.None?)
    && (FwdSlotEmpty(s.pc) ==> s.m.fwd.None?)
  }

  /** The two places where several pending actions are queued at once. */
  lemma QueuedFacts(c: CoreId)
    ensures
      var afterSuspend := Scrub(SetMode(Suspended, true));
      var afterTake := Scrub(TakeOld("", KTeardown));
      && !BeforeEntry(afterSuspend) && !BeforeEntry(afterTake)
      && FwdSlotEmpty(afterSuspend) && !ProxySlotEmpty(afterSuspend) && Held(afterSuspend, c) == 0
      && FwdSlotEmpty(afterTake) && !ProxySlotEmpty(afterTake) && Held(afterTake, c) == 0
  {
  }

  lemma CloseThenFacts(h: Option<CoreId>, next: Pc, c: CoreId)
    ensures Held(CloseThen(h, next), c) == Times(h == Some(c)) + Held(next, c)
    ensures ProxySlotEmpty(CloseThen(h, next)) == ProxySlotEmpty(next)
    ensures FwdSlotEmpty(CloseThen(h, next)) == FwdSlotEmpty(next)
    ensures BeforeEntry(CloseThen(h, next)) == BeforeEntry(next)
  {
  }

  lemma AfterDialFacts(iface: string, t: Try, k: Cont, ok: bool, c: CoreId)
    ensures
      var pc := AfterDial(iface, t, k, ok);
      && Held(pc, c) == 0 && !BeforeEntry(pc)
      && (ok ==> !ProxySlotEmpty(pc))
      && (k.KRefresh? ==> !FwdSlotEmpty(pc))
  {
  }

  lemma EntryKeeps(s: Sys, o: Outcome, c: CoreId)
    requires SlotInv(s) && Owned(s, c) && s.pc.Entry?
    ensures SlotInv(Exec(s, Turn(o)).value) && Owned(Exec(s, Turn(o)).value, c)
  {
    QueuedFacts(c);
    if s.pc.cmd == Suspend {
      var tail := Scrub(SetMode(Suspended, true));
      CloseThenFacts(s.m.proxy, tail, c);
      CloseThenFacts(s.m.fwd, CloseThen(s.m.proxy, tail), c);
    }
  }

  lemma DialKeeps(s: Sys, o: Outcome, c: CoreId)
    requires SlotInv(s) && Owned(s, c)
    requires s.pc.Create? || s.pc.Start? || s.pc.Check? || s.pc.Publish?
    ensures SlotInv(Exec(s, Turn(o)).value) && Owned(Exec(s, Turn(o)).value, c)
  {
    AfterDialFacts(s.pc.iface, s.pc.t, s.pc.k, s.pc.Publish?, c);
  }

  lemma TakeOldKeeps(s: Sys, o: Outcome, c: CoreId)
    requires SlotInv(s) && Owned(s, c) && s.pc.TakeOld?
    ensures SlotInv(Exec(s, Turn(o)).value) && Owned(Exec(s, Turn(o)).value, c)
  {
    QueuedFacts(c);
    CloseThenFacts(s.m.proxy, Create(s.pc.iface, First, s.pc.k), c);
  }

  lemma DropForwarderKeeps(s: Sys, o: Outcome, c: CoreId)
    requires SlotInv(s) && Owned(s, c) && (s.pc.TakeFwd? || s.pc.RefreshFailed?)
    ensures SlotInv(Exec(s, Turn(o)).value) && Owned(Exec(s, Turn(o)).value, c)
  {
    QueuedFacts(c);
    CloseThenFacts(s.m.fwd, if s.pc.TakeFwd? then Scrub(TakeOld("", KTeardown)) else Done(false), c);
  }

  lemma ForwarderTurnKeeps(s: Sys, o: Outcome, c: CoreId)
    requires SlotInv(s) && Owned(s, c) && (s.pc.StartFwd? || s.pc.CheckFwd?)
    ensures SlotInv(Exec(s, Turn(o)).value) && Owned(Exec(s, Turn(o)).value, c)
  {
    match s.pc
    case StartFwd(h, prev) => CloseThenFacts(Some(h), TakeOld(prev, KRollback), c);
    case CheckFwd(h) => CloseThenFacts(Some(h), Done(false), c);
  }

  lemma OtherTurnKeeps(s: Sys, o: Outcome, c: CoreId)
    requires SlotInv(s) && Owned(s, c) && !s.pc.Done? && !s.pc.Entry?
    requires !(s.pc.Create? || s.pc.Start? || s.pc.Check? || s.pc.Publish?)
    requires !(s.pc.TakeOld? || s.pc.TakeFwd? || s.pc.RefreshFailed?)
    requires !(s.pc.StartFwd? || s.pc.CheckFwd?)
    ensures SlotInv(Exec(s, Turn(o)).value) && Owned(Exec(s, Turn(o)).value, c)
  {
  }

  lemma TurnKeeps(s: Sys, o: Outcome, c: CoreId)
    requires SlotInv(s) && Owned(s, c) && !s.pc.Done?
    ensures SlotInv(Exec(s, Turn(o)).value) && Owned(Exec(s, Turn(o)).value, c)
  {
    if s.pc.Entry? {
      EntryKeeps(s, o, c);
    } else if s.pc.Create? || s.pc.Start? || s.pc.Check? || s.pc.Publish? {
      DialKeeps(s, o, c);
    } else if s.pc.TakeOld? {
      TakeOldKeeps(s, o, c);
    } else if s.pc.TakeFwd? || s.pc.RefreshFailed? {
      DropForwarderKeeps(s, o, c);
    } else if s.pc.StartFwd? || s.pc.CheckFwd? {
      ForwarderTurnKeeps(s, o, c);
    } else {
      OtherTurnKeeps(s, o, c);
    }
  }

  lemma ShutdownKeeps(s: Sys, e: Event, c: CoreId)
    requires SlotInv(s) && Owned(s, c) && !e.Turn? && Exec(s, e).Some?
    ensures SlotInv(Exec(s, e).value) && Owned(Exec(s, e).value, c)
  {
  }

  lemma {:induction false} RunKeeps(s: Sys, es: seq<Event>, c: CoreId)
    requires SlotInv(s) && Owned(s, c) && Run(s, es).Some?
    ensures SlotInv(Run(s, es).value) && Owned(Run(s, es).value, c)
    decreases |es|
  {
    if es != [] {
      if es[0].Turn? {
        TurnKeeps(s, es[0].o, c);
      } else {
        ShutdownKeeps(s, es[0], c);
      }
      RunKeeps(Exec(s, es[0]).value, es[1..], c);
    }
  }

  /** One transition interleaved with any number of Shutdowns never loses a core and never
      closes one twice: at every moment each core created so far is published, in the hands
      of the transition or of a Shutdown, or has been closed, and it is so exactly once. */
  lemma NoCoreLost(m: Fields, cmd: Command, es: seq<Event>, c: CoreId)
    requires ModeInv(m) && Accounted(m, c)
    requires Run(Begin(m, cmd), es).Some?
    ensures Owned(Run(Begin(m, cmd), es).value, c)
  {
    RunKeeps(Begin(m, cmd), es, c);
  }

  // ---------------------------------------------------------------- a Shutdown that overtakes

  /** The generation was already checked and the publication is still to come. */
  predicate Window(pc: Pc) {
    match pc
    case Publish(_, _, _, _) => true
    case PublishFwd(_) => true
    case Closing(_, next) => Window(next)
    case Scrub(next) => Window(next)
    case _ => false
  }

  predicate Off(m: Fields) {
    m.mode == Stopped && m.proxy.None? && m.fwd.None?
  }

  /** Once superseded, no step but the publication of StartForwarder changes the state. */
  lemma SupersededKeepsMode(s: Sys, o: Outcome)
    requires s.m.gen != s.stamp && !s.pc.Done? && !s.pc.PublishFwd?
    ensures Exec(s, Turn(o)).value.m.mode == s.m.mode
  {
  }

  lemma OffStep(s: Sys, e: Event)
    requires s.m.gen > s.stamp && Off(s.m) && !Window(s.pc) && Exec(s, e).Some?
    ensures
      var t := Exec(s, e).value;
      t.m.gen > t.stamp && Off(t.m) && !Window(t.pc)
  {
    if e.Turn? {
      match s.pc
      case TakeOld(iface, k) => assert !Window(Create(iface, First, k));
      case Start(_, iface, t, k) => assert !Window(AfterDial(iface, t, k, false));
      case Check(_, iface, t, k) => assert !Window(AfterDial(iface, t, k, false));
      case StartFwd(_, prev) => assert !Window(TakeOld(prev, KRollback));
      case Entry(cmd) =>
        assert !Window(Scrub(SetMode(Suspended, true)));
      case _ =>
    }
  }

  lemma {:induction false} OffForever(s: Sys, es: seq<Event>)
    requires s.m.gen > s.stamp && Off(s.m) && !Window(s.pc) && Run(s, es).Some?
    ensures Off(Run(s, es).value.m)
    decreases |es|
  {
    if es != [] {
      OffStep(s, es[0]);
      OffForever(Exec(s, es[0]).value, es[1..]);
    }
  }

  const FINE := Outcome(true, "")

  /** A transition caught in the window publishes, whatever a Shutdown did meanwhile. */
  lemma {:induction false} WindowPublishes(s: Sys) returns (es: seq<Event>)
    requires Window(s.pc)
    ensures Run(s, es).Some? && !Off(Run(s, es).value.m)
    decreases s.pc
  {
    var t := Exec(s, Turn(FINE)).value;
    if s.pc.Publish? || s.pc.PublishFwd? {
      es := [Turn(FINE)];
      assert es[1..] == [];
      assert Run(t, []) == Some(t);
    } else {
      var rest := WindowPublishes(t);
      es := [Turn(FINE)] + rest;
      assert es[1..] == rest;
    }
  }

  ghost predicate StaysOff(s: Sys) {
    forall es :: Run(s, es).Some? ==> Off(Run(s, es).value.m)
  }

  /** "MODE off" is final for the transition it overtakes exactly when the Shutdown does not
      fall between that transition's generation check and its publication. */
  lemma ShutdownIsFinalIff(m: Fields, cmd: Command, es: seq<Event>)
    requires Run(Begin(m, cmd), es).Some?
    ensures
      var s := Run(Begin(m, cmd), es).value;
      StaysOff(Exec(s, ShutdownLocked).value) <==> !Window(s.pc)
  {
    var s := Run(Begin(m, cmd), es).value;
    GenGrows(Begin(m, cmd), es);
    var t := Exec(s, ShutdownLocked).value;
    if Window(s.pc) {
      var later := WindowPublishes(t);
    } else {
      forall later | Run(t, later).Some?
        ensures Off(Run(t, later).value.m)
      {
        OffForever(t, later);
      }
    }
  }

  lemma {:induction false} GenGrows(s: Sys, es: seq<Event>)
    requires Run(s, es).Some? && s.m.gen >= s.stamp
    ensures Run(s, es).value.stamp == s.stamp && Run(s, es).value.m.gen >= s.stamp
    decreases |es|
  {
    if es != [] {
      GenGrows(Exec(s, es[0]).value, es[1..]);
    }
  }

  /** And then, when the transition has ended and the Shutdowns have closed what they took,
      every core ever created has been closed exactly once. */
  lemma ShutdownClosesAll(m: Fields, cmd: Command, es: seq<Event>, later: seq<Event>, c: CoreId)
    requires ModeInv(m) && Accounted(m, c)
    requires Run(Begin(m, cmd), es).Some? && !Window(Run(Begin(m, cmd), es).value.pc)
    requires
      var t := Exec(Run(Begin(m, cmd), es).value, ShutdownLocked).value;
      Run(t, later).Some? && Run(t, later).value.pc.Done? && Run(t, later).value.pending == multiset{}
    ensures
      var u := Run(Exec(Run(Begin(m, cmd), es).value, ShutdownLocked).value, later).value;
      Off(u.m) && u.m.closes[c] == Times(c < u.m.next)
  {
    var s := Run(Begin(m, cmd), es).value;
    var t := Exec(s, ShutdownLocked).value;
    RunKeeps(Begin(m, cmd), es, c);
    ShutdownKeeps(s, ShutdownLocked, c);
    RunKeeps(t, later, c);
    GenGrows(Begin(m, cmd), es);
    OffForever(t, later);
  }
}
