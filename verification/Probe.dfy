/**
 The cached extension probe: any number of concurrent callers share one probe at a time.
 `Cache` holds the package's variables with one method per critical section; `Exec`
 interleaves the critical sections of all callers, invalidations and the clock.
 A Go zero time stands for "never" and is modelled by `None`.
 */
module Probe {
  import opened Wrappers

  const TTL := 5

  /** The variables under the mutex; flights are numbered in order. */
  datatype Shared = Shared(at: Option<int>, cache: bool, flight: Option<nat>, generation: nat, flights: nat)

  /** What the first critical section of a caller decides. */
  datatype Turn = Fast(v: bool) | Join(flight: nat) | Lead(flight: nat, generation: nat)

  function Begin(s: Shared, now: int): (Shared, Turn) {
    if s.at.Some? && now - s.at.value < TTL then (s, Fast(s.cache))
    else if s.flight.Some? then (s, Join(s.flight.value))
    else (s.(flight := Some(s.flights), flights := s.flights + 1), Lead(s.flights, s.generation))
  }

  function Finished(s: Shared, generation: nat, v: bool, now: int): Shared {
    s.(cache := v, flight := None, at := if generation == s.generation then Some(now) else s.at)
  }

  function Invalidated(s: Shared): Shared {
    s.(at := None, generation := s.generation + 1)
  }

  class Cache {
    var at: Option<int>
    var cache: bool
    var flight: Option<nat>
    var generation: nat
    var flights: nat

    ghost function Now(): Shared
      reads this
    {
      Shared(at, cache, flight, generation, flights)
    }

    constructor ()
      ensures Now() == START.shared
    {
      at, cache, flight, generation, flights := None, false, None, 0, 0;
    }

    method Enter(now: int) returns (turn: Turn)
      modifies this
      ensures (Now(), turn) == Begin(old(Now()), now)
    {
      if at.Some? && now - at.value < TTL {
        return Fast(cache);
      }
      if flight.Some? {
        return Join(flight.value);
      }
      turn := Lead(flights, generation);
      flight := Some(flights);
      flights := flights + 1;
    }

    method Finish(gen: nat, v: bool, now: int)
      modifies this
      ensures Now() == Finished(old(Now()), gen, v, now)
    {
      cache, flight := v, None;
      if gen == generation {
        at := Some(now);
      }
    }

    method Invalidate()
      modifies this
      ensures Now() == Invalidated(old(Now()))
    {
      at := None;
      generation := generation + 1;
    }
  }

  // ---------------------------------------------------------------- interleavings

  type Caller = nat

  /** Where a call of Available stands between its critical sections; a waiter with the number of
      the event that began it and of the last invalidation before. */
  datatype Call = Idle | Leading(flight: nat, generation: nat) | Joined(flight: nat, since: nat, after: nat)

  /** One probe: when it started and, once finished, when it did and with what value.
      `start` and `end` number the events of the run; `at` is the clock. */
  datatype Probe = Probe(start: nat, leader: Caller, generation: nat, outcome: Option<Outcome>)
  datatype Outcome = Outcome(end: nat, at: int, value: bool)

  datatype State = State(
    shared: Shared,
    now: int,
    step: nat,                       // events so far
    calls: map<Caller, Call>,
    probes: seq<Probe>,
    invalidated: nat,                // number of the last invalidation, 0 for none
    latest: Option<nat>)             // the probe whose value is cached

  const START := State(Shared(None, false, None, 0, 0), 0, 1, map[], [], 0, None)

  function CallOf(s: State, c: Caller): Call {
    if c in s.calls then s.calls[c] else Idle
  }

  datatype Event =
    | Enter(c: Caller)
    | Finish(c: Caller, v: bool)     // the leader's probe is done and recorded
    | Wake(c: Caller)                // a waiter whose flight was closed reads the cache
    | Invalidate
    | Pass(d: nat)

  function Exec(s: State, e: Event): State {
    var s1 := s.(step := s.step + 1);
    match e
    case Enter(c) =>
      if CallOf(s, c) != Idle then s1
      else
        var (shared, turn) := Begin(s.shared, s.now);
        (match turn
         case Fast(_) => s1
         case Join(f) => s1.(calls := s.calls[c := Joined(f, s.step, s.invalidated)])
         case Lead(f, g) =>
           s1.(shared := shared, calls := s.calls[c := Leading(f, g)],
               probes := s.probes + [Probe(s.step, c, g, None)]))
    case Finish(c, v) =>
      var call := CallOf(s, c);
      if !call.Leading? || call.flight >= |s.probes| then s1
      else
        s1.(shared := Finished(s.shared, call.generation, v, s.now),
            calls := s.calls[c := Idle],
            probes := s.probes[call.flight := s.probes[call.flight].(outcome := Some(Outcome(s.step, s.now, v)))],
            latest := Some(call.flight))
    case Wake(c) =>
      var call := CallOf(s, c);
      if call.Joined? && call.flight < |s.probes| && s.probes[call.flight].outcome.Some?
      then s1.(calls := s.calls[c := Idle]) else s1
    case Invalidate => s1.(shared := Invalidated(s.shared), invalidated := s.step)
    case Pass(d) => s1.(now := s.now + d)
  }

  function Run(events: seq<Event>): State {
    if events == [] then START else Exec(Run(events[..|events| - 1]), events[|events| - 1])
  }

  // ---------------------------------------------------------------- the invariant

  predicate InFlight(s: State, f: nat) {
    s.shared.flight == Some(f)
  }

  predicate FlightInv(s: State) {
    && s.shared.flights == |s.probes|
    && (s.shared.flight.Some? ==> s.shared.flight.value == |s.probes| - 1)
    && (forall f :: 0 <= f < |s.probes| ==> (s.probes[f].outcome.None? <==> InFlight(s, f)))
    && (s.shared.flight.Some? ==>
          var p := s.probes[s.shared.flight.value];
          CallOf(s, p.leader) == Leading(s.shared.flight.value, p.generation))
  }

  predicate CallInv(s: State, c: Caller) {
    match CallOf(s, c)
    case Idle => true
    case Leading(f, g) => InFlight(s, f) && f < |s.probes| && s.probes[f].leader == c && s.probes[f].generation == g
    case Joined(f, since, after) =>
      && f < |s.probes| && s.probes[f].start < since < s.step && after < since && after <= s.invalidated
      && (s.probes[f].outcome.Some? ==> since < s.probes[f].outcome.value.end)
      && (forall g :: f < g < |s.probes| ==> since < s.probes[g].start)
  }

  predicate ProbeInv(s: State, f: nat)
    requires f < |s.probes|
  {
    var p := s.probes[f];
    && p.start < s.step && p.generation <= s.shared.generation
    && (p.generation == s.shared.generation ==> s.invalidated < p.start)
    && (p.generation < s.shared.generation ==> p.start < s.invalidated)
    && (p.outcome.Some? ==>
          && p.start < p.outcome.value.end < s.step
          && s.latest.Some? && f <= s.latest.value && s.latest.value < |s.probes| && s.probes[s.latest.value].outcome.Some?
          && p.outcome.value.end <= s.probes[s.latest.value].outcome.value.end)
  }

  predicate CacheInv(s: State) {
    && s.invalidated < s.step
    && (s.latest.Some? ==>
          && s.latest.value < |s.probes|
          && s.probes[s.latest.value].outcome.Some?
          && s.shared.cache == s.probes[s.latest.value].outcome.value.value)
    && (s.shared.at.Some? ==>
          && s.latest.Some?
          && s.probes[s.latest.value].generation == s.shared.generation
          && s.probes[s.latest.value].outcome.value.at == s.shared.at.value)
    && (s.shared.flight.Some? && s.shared.flight.value < |s.probes| ==>
          s.probes[s.shared.flight.value].generation != s.shared.generation ==> s.shared.at.None?)
  }

  ghost predicate Inv(s: State) {
    && FlightInv(s) && CacheInv(s)
    && (forall c :: CallInv(s, c))
    && (forall f :: 0 <= f < |s.probes| ==> ProbeInv(s, f))
  }

  lemma LeadKeeps(s: State, c: Caller)
    requires Inv(s) && CallOf(s, c) == Idle && Begin(s.shared, s.now).1.Lead?
    ensures Inv(Exec(s, Enter(c)))
  {
    var r := Exec(s, Enter(c));
    assert r.probes == s.probes + [Probe(s.step, c, s.shared.generation, None)];
    forall d: Caller
      ensures CallInv(r, d)
    {
      assert CallInv(s, d);
    }
    forall f | 0 <= f < |r.probes|
      ensures ProbeInv(r, f)
    {
      assert f < |s.probes| ==> ProbeInv(s, f);
    }
  }

  lemma EnterKeeps(s: State, c: Caller)
    requires Inv(s)
    ensures Inv(Exec(s, Enter(c)))
  {
    if CallOf(s, c) == Idle && Begin(s.shared, s.now).1.Lead? {
      LeadKeeps(s, c);
      return;
    }
    var r := Exec(s, Enter(c));
    assert s.shared.flight.Some? ==> ProbeInv(s, s.shared.flight.value);
    forall d: Caller
      ensures CallInv(r, d)
    {
      assert CallInv(s, d);
    }
    forall f | 0 <= f < |r.probes|
      ensures ProbeInv(r, f)
    {
      assert ProbeInv(s, f);
    }
  }

  lemma FinishKeeps(s: State, c: Caller, v: bool)
    requires Inv(s)
    ensures Inv(Exec(s, Finish(c, v)))
  {
    var r := Exec(s, Finish(c, v));
    assert CallInv(s, c);
    forall d: Caller
      ensures CallInv(r, d)
    {
      assert CallInv(s, d);
    }
    forall f | 0 <= f < |r.probes|
      ensures ProbeInv(r, f)
    {
      assert ProbeInv(s, f);
    }
  }

  lemma OtherKeeps(s: State, e: Event)
    requires Inv(s) && (e.Wake? || e.Invalidate? || e.Pass?)
    ensures Inv(Exec(s, e))
  {
    var r := Exec(s, e);
    forall d: Caller
      ensures CallInv(r, d)
    {
      assert CallInv(s, d);
    }
    forall f | 0 <= f < |r.probes|
      ensures ProbeInv(r, f)
    {
      assert ProbeInv(s, f);
    }
    if e.Wake? {
      assert CallInv(s, e.c);
    }
  }

  lemma {:induction false} RunKeepsInv(events: seq<Event>)
    ensures Inv(Run(events))
  {
    if events != [] {
      var s, e := Run(events[..|events| - 1]), events[|events| - 1];
      RunKeepsInv(events[..|events| - 1]);
      match e
      case Enter(c) => EnterKeeps(s, c);
      case Finish(c, v) => FinishKeeps(s, c, v);
      case _ => OtherKeeps(s, e);
    }
  }

  // ---------------------------------------------------------------- what callers may rely on

  /** At most one probe runs at a time. */
  lemma OneProbeAtATime(events: seq<Event>, a: Caller, b: Caller)
    requires CallOf(Run(events), a).Leading? && CallOf(Run(events), b).Leading?
    ensures a == b
  {
    RunKeepsInv(events);
    assert CallInv(Run(events), a) && CallInv(Run(events), b);
  }

  /** A return on the fast path carries the result of a probe that started after the most
      recent invalidation and finished less than the time-to-live ago; no later probe
      has finished. */
  lemma FastPathIsFresh(events: seq<Event>)
    requires var s := Run(events); Begin(s.shared, s.now).1.Fast?
    ensures
      var s := Run(events);
      && s.latest.Some? && s.latest.value < |s.probes| && s.probes[s.latest.value].outcome.Some?
      && var p := s.probes[s.latest.value];
      && Begin(s.shared, s.now).1.v == p.outcome.value.value
      && s.invalidated < p.start
      && s.now - p.outcome.value.at < TTL
      && forall f :: 0 <= f < |s.probes| && s.probes[f].outcome.Some? ==>
           s.probes[f].outcome.value.end <= p.outcome.value.end
  {
    RunKeepsInv(events);
    var s := Run(events);
    assert ProbeInv(s, s.latest.value);
    forall f | 0 <= f < |s.probes| && s.probes[f].outcome.Some?
      ensures s.probes[f].outcome.value.end <= s.probes[s.latest.value].outcome.value.end
    {
      assert ProbeInv(s, f);
    }
  }

  /** The value of the last finished probe is recorded as fresh unless it was invalidated. */
  predicate Recorded(s: State) {
    s.latest.Some? && s.latest.value < |s.probes| && s.probes[s.latest.value].generation == s.shared.generation ==>
      s.probes[s.latest.value].outcome.Some?
      && s.shared.at == Some(s.probes[s.latest.value].outcome.value.at)
  }

  lemma {:induction false} RunRecords(events: seq<Event>)
    ensures Recorded(Run(events))
  {
    if events != [] {
      var s, e := Run(events[..|events| - 1]), events[|events| - 1];
      RunRecords(events[..|events| - 1]);
      RunKeepsInv(events[..|events| - 1]);
      if e.Finish? {
        assert CallInv(s, e.c);
      }
      if s.latest.Some? {
        assert ProbeInv(s, s.latest.value);
      }
    }
  }

  /** What a call does in every reachable state: it returns at once exactly when the last finished
      probe started after the last invalidation and finished less than the time-to-live ago; else
      it joins exactly when some probe is running; else it starts one. */
  lemma EnterIff(events: seq<Event>)
    ensures
      var s := Run(events);
      var turn := Begin(s.shared, s.now).1;
      && (turn.Fast? <==>
            && s.latest.Some? && s.latest.value < |s.probes| && s.probes[s.latest.value].outcome.Some?
            && s.invalidated < s.probes[s.latest.value].start
            && s.now - s.probes[s.latest.value].outcome.value.at < TTL)
      && (!turn.Fast? ==> (turn.Join? <==> exists f :: 0 <= f < |s.probes| && s.probes[f].outcome.None?))
      && (turn.Join? ==> turn.flight < |s.probes| && s.probes[turn.flight].outcome.None?)
  {
    RunKeepsInv(events);
    RunRecords(events);
    var s := Run(events);
    if s.latest.Some? {
      assert ProbeInv(s, s.latest.value);
    }
  }

  /** A waiter returns the value of a probe that finished after the waiter's call began. */
  lemma WaiterGetsLaterResult(events: seq<Event>, c: Caller)
    requires
      var s := Run(events);
      var call := CallOf(s, c);
      call.Joined? && call.flight < |s.probes| && s.probes[call.flight].outcome.Some?
    ensures
      var s := Run(events);
      && s.latest.Some? && s.latest.value < |s.probes| && s.probes[s.latest.value].outcome.Some?
      && s.shared.cache == s.probes[s.latest.value].outcome.value.value
      && CallOf(s, c).since < s.probes[s.latest.value].outcome.value.end
  {
    RunKeepsInv(events);
    var s := Run(events);
    assert CallInv(s, c) && ProbeInv(s, CallOf(s, c).flight);
  }

  /** No waiter is forgotten: the flight it waits for is closed, or some caller leads it. */
  lemma WaiterIsServed(events: seq<Event>, c: Caller)
    requires CallOf(Run(events), c).Joined?
    ensures
      var s := Run(events);
      var f := CallOf(s, c).flight;
      && f < |s.probes|
      && (s.probes[f].outcome.None? ==> exists g :: CallOf(s, s.probes[f].leader) == Leading(f, g))
  {
    RunKeepsInv(events);
    assert CallInv(Run(events), c);
  }

  /** Joining does not protect from an invalidation the way the fast path does. The probe a
      caller joins started after the most recent invalidation exactly when its generation
      is still the current one. */
  lemma JoinedIsFreshIff(events: seq<Event>)
    requires var s := Run(events); Begin(s.shared, s.now).1.Join?
    ensures
      var s := Run(events);
      var f := Begin(s.shared, s.now).1.flight;
      && f < |s.probes|
      && (s.invalidated < s.probes[f].start <==> s.probes[f].generation == s.shared.generation)
  {
    RunKeepsInv(events);
    var s := Run(events);
    assert ProbeInv(s, s.shared.flight.value);
  }

  /** What a waiter returns. Its value comes from the joined probe or a later one, and that probe
      started after the last invalidation before the call exactly when it is a later one or
      the joined one did. */
  lemma ReturnedIsFreshIff(events: seq<Event>, c: Caller)
    requires
      var s := Run(events);
      var call := CallOf(s, c);
      call.Joined? && call.flight < |s.probes| && s.probes[call.flight].outcome.Some?
    ensures
      var s := Run(events);
      var call := CallOf(s, c);
      && s.latest.Some? && call.flight <= s.latest.value < |s.probes|
      && s.probes[s.latest.value].outcome.Some?
      && s.shared.cache == s.probes[s.latest.value].outcome.value.value
      && var fresher := call.flight < s.latest.value || call.after < s.probes[call.flight].start;
         call.after < s.probes[s.latest.value].start <==> fresher
  {
    RunKeepsInv(events);
    var s := Run(events);
    assert CallInv(s, c) && ProbeInv(s, CallOf(s, c).flight);
  }

  /** A run in which a call that began after an invalidation returns the result of a probe
      that started before it. */
  lemma JoinedCanBeStale()
    ensures exists events: seq<Event>, c: Caller ::
      var s := Run(events);
      && CallOf(s, c).Joined? && s.latest.Some? && s.latest.value < |s.probes|
      && s.probes[s.latest.value].outcome.Some?
      && CallOf(s, c).flight == s.latest.value
      && s.probes[s.latest.value].start < CallOf(s, c).after == s.invalidated < CallOf(s, c).since
  {
    var e1 := [Enter(0)];
    var e2 := e1 + [Invalidate];
    var e3 := e2 + [Enter(1)];
    var e4 := e3 + [Finish(0, true)];
    assert e1[..0] == [] && e2[..1] == e1 && e3[..2] == e2 && e4[..3] == e3;
    assert Run(e1) == Exec(START, Enter(0));
    assert Run(e2) == Exec(Run(e1), Invalidate);
    assert Run(e3) == Exec(Run(e2), Enter(1));
    var s := Run(e4);
    assert s == Exec(Run(e3), Finish(0, true));
    assert CallOf(s, 1).Joined?;
  }
}
