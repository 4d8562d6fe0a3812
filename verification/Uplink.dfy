/**
 The packet-up uplink: one writer appends to a bounded buffer, one runner turns
 the buffer into numbered POSTs, and any number of goroutines may call Close.

 `Shared` holds the fields guarded by the mutex and the functions on it are the
 critical sections of the source; `PacketUploader` executes the same sections on
 mutable fields. `Exec` interleaves them with everything that happens while the
 lock is not held. Every statement at the end quantifies over all event lists.
 */
module Uplink {
  import opened Wrappers

  type Bytes = seq<bv8>

  // ---------------------------------------------------------------- shared fields

  datatype Shared = Shared(maxChunk: nat, buf: Bytes, closed: bool, err: bool) {
    /** Condition of the inner wait loop of Write. */
    predicate WriterMustWait() {
      |buf| >= maxChunk && !closed && !err
    }

    /** Condition of the wait loop of run. */
    predicate RunnerMustWait() {
      buf == [] && !closed && !err
    }
  }

  datatype WriteTurn = WriteWait | WriteClosed | WriteFailed | Appended(n: nat)

  datatype RunTurn = RunWait | RunExit | Took(chunk: Bytes)

  function Min(a: int, b: int): int {
    if a < b then a else b
  }

  /** One pass of the loop of Write, from acquiring the lock to releasing it or looping. */
  function WriteTurnOf(sh: Shared, rest: Bytes): (Shared, WriteTurn)
    requires rest != []
  {
    if sh.WriterMustWait() then (sh, WriteWait)
    else if sh.closed then (sh, WriteClosed)
    else if sh.err then (sh, WriteFailed)
    else
      var n := Min(sh.maxChunk - |sh.buf|, |rest|);
      (sh.(buf := sh.buf + rest[..n]), Appended(n))
  }

  /** The locked part of one pass of the loop of run. */
  function RunTurnOf(sh: Shared): (Shared, RunTurn) {
    if sh.RunnerMustWait() then (sh, RunWait)
    else if sh.err || (sh.closed && sh.buf == []) then (sh, RunExit)
    else
      var n := Min(sh.maxChunk, |sh.buf|);
      (sh.(buf := sh.buf[n..]), Took(sh.buf[..n]))
  }

  /** The fields of the uploader that its mutex guards, updated in place. */
  class PacketUploader {
    const maxChunk: nat
    var buf: Bytes
    var closed: bool
    var err: bool

    function State(): Shared
      reads this
    {
      Shared(maxChunk, buf, closed, err)
    }

    /** A configured chunk size of zero or less means one million bytes. */
    constructor (configured: int)
      ensures State() == Shared(if configured <= 0 then 1000000 else configured, [], false, false)
    {
      maxChunk := if configured <= 0 then 1000000 else configured;
      buf, closed, err := [], false, false;
    }

    /** One locked turn of Write over the bytes still to be written. */
    method TurnOfWrite(rest: Bytes) returns (turn: WriteTurn)
      requires rest != []
      modifies this
      ensures (State(), turn) == WriteTurnOf(old(State()), rest)
    {
      if |buf| >= maxChunk && !closed && !err {
        return WriteWait;
      }
      if closed {
        return WriteClosed;
      }
      if err {
        return WriteFailed;
      }
      var n := Min(maxChunk - |buf|, |rest|);
      buf := buf + rest[..n];
      turn := Appended(n);
    }

    /** One locked turn of run. */
    method TurnOfRun() returns (turn: RunTurn)
      modifies this
      ensures (State(), turn) == RunTurnOf(old(State()))
    {
      if buf == [] && !closed && !err {
        return RunWait;
      }
      if err || (closed && buf == []) {
        return RunExit;
      }
      var n := Min(maxChunk, |buf|);
      var chunk := buf[..n];
      buf := buf[n..];
      turn := Took(chunk);
    }

    /** The locked part of stop; `leader` is false when some other caller closed first. */
    method MarkClosed() returns (leader: bool)
      modifies this
      ensures leader == !old(closed)
      ensures State() == old(State()).(closed := true)
    {
      leader := !closed;
      closed := true;
    }

    /** The locked part of run after a failed POST: the first error is kept. */
    method RecordFailure()
      modifies this
      ensures State() == old(State()).(err := true)
    {
      if !err {
        err := true;
      }
    }
  }

  // ---------------------------------------------------------------- the three parties

  datatype Runner =
    | Awake                  // about to take the lock at the top of the loop
    | Asleep                 // parked in the condition variable
    | Pacing(chunk: Bytes)   // chunk removed from the buffer, in the pacing select
    | Posting(chunk: Bytes)  // inside postPacket
    | Failing                // postPacket returned an error, about to record it
    | Exited                 // `done` is closed

  datatype Writer =
    | Idle
    | Writing(data: Bytes, written: nat, asleep: bool)

  /** How a Write call ends: without error, with io.ErrClosedPipe, or with the upload's error. */
  datatype WriteEnd = WroteAll | ClosedPipe | UploadError

  /** A finished Write call: its argument, and the count and error it reported. */
  datatype Call = Call(data: Bytes, n: nat, end: WriteEnd)

  /** A numbered request that reached the server. */
  datatype Packet = Packet(seqNo: nat, chunk: Bytes)

  datatype State = State(
    sh: Shared,
    runner: Runner,
    writer: Writer,
    leader: bool,            // the first closer is waiting for `done`
    followers: nat,          // later closers waiting for `done`
    returned: nat,           // Close calls that have returned
    cancelled: bool,         // the upload context has been cancelled
    nextSeq: nat,            // the runner's sequence counter
    acked: seq<Bytes>,       // chunks whose POST succeeded
    lost: Option<Bytes>,     // the chunk whose POST failed
    arrived: seq<Packet>,    // what the server has received
    calls: seq<Call>)        // finished Write calls

  datatype Event =
    | BeginWrite(data: Bytes)
    | WriterTurn
    | EnterClose
    | LeaderReturns
    | FollowerReturns
    | RunnerTurn
    | PaceElapsed
    | PaceCancelled                // the early exit of the pacing select
    | PostSucceeds
    | PostFails(delivered: bool)   // the server may have seen the request anyway
    | FailureRecorded

  function Initial(maxChunk: nat): State {
    State(Shared(maxChunk, [], false, false), Awake, Idle, false, 0, 0, false, 0, [], None, [], [])
  }

  /** Broadcast wakes every sleeper. */
  function Broadcast(s: State): State {
    s.(runner := if s.runner.Asleep? then Awake else s.runner,
       writer := if s.writer.Writing? then s.writer.(asleep := false) else s.writer)
  }

  /** The writer's call returns. */
  function EndWrite(s: State, n: nat, end: WriteEnd): State
    requires s.writer.Writing?
  {
    s.(writer := Idle, calls := s.calls + [Call(s.writer.data, n, end)])
  }

  function ExecWriter(s: State): Option<State> {
    match s.writer
    case Idle => None
    case Writing(data, written, asleep) =>
      if asleep then None
      else if written >= |data| then Some(EndWrite(s, written, WroteAll))
      else
        var (sh, turn) := WriteTurnOf(s.sh, data[written..]);
        match turn
        case WriteWait => Some(s.(writer := s.writer.(asleep := true)))
        case WriteClosed => Some(EndWrite(s, written, ClosedPipe))
        case WriteFailed => Some(EndWrite(s, written, UploadError))
        case Appended(n) =>
          Some(Broadcast(s.(sh := sh, writer := Writing(data, written + n, false))))
  }

  function ExecRunner(s: State): Option<State> {
    if !s.runner.Awake? then None
    else
      var (sh, turn) := RunTurnOf(s.sh);
      match turn
      case RunWait => Some(s.(runner := Asleep))
      case RunExit => Some(s.(runner := Exited))
      case Took(chunk) => Some(Broadcast(s.(sh := sh, runner := Pacing(chunk))))
  }

  /** One event, or None when the event cannot happen in `s`. */
  function Exec(s: State, e: Event): Option<State> {
    match e
    case BeginWrite(data) =>
      if s.writer.Idle? then Some(s.(writer := Writing(data, 0, false))) else None
    case WriterTurn => ExecWriter(s)
    case EnterClose =>
      if s.sh.closed then Some(s.(followers := s.followers + 1))
      else Some(Broadcast(s.(sh := s.sh.(closed := true), leader := true)))
    case LeaderReturns =>
      if s.leader && s.runner.Exited? then
        Some(s.(leader := false, cancelled := true, returned := s.returned + 1))
      else None
    case FollowerReturns =>
      if s.followers > 0 && s.runner.Exited? then
        Some(s.(followers := s.followers - 1, returned := s.returned + 1))
      else None
    case RunnerTurn => ExecRunner(s)
    case PaceElapsed =>
      if s.runner.Pacing? then Some(s.(runner := Posting(s.runner.chunk))) else None
    case PaceCancelled =>
      if s.runner.Pacing? && s.cancelled then Some(s.(runner := Exited)) else None
    case PostSucceeds =>
      if !s.runner.Posting? then None
      else
        Some(s.(runner := Awake,
                nextSeq := s.nextSeq + 1,
                acked := s.acked + [s.runner.chunk],
                arrived := s.arrived + [Packet(s.nextSeq, s.runner.chunk)]))
    case PostFails(delivered) =>
      if !s.runner.Posting? then None
      else
        Some(s.(runner := Failing,
                lost := Some(s.runner.chunk),
                arrived := s.arrived + if delivered then [Packet(s.nextSeq, s.runner.chunk)] else []))
    case FailureRecorded =>
      if s.runner.Failing? then
        Some(Broadcast(s.(sh := s.sh.(err := true), runner := Exited)))
      else None
  }

  function Run(s: State, es: seq<Event>): Option<State>
    decreases |es|
  {
    if es == [] then Some(s)
    else
      match Exec(s, es[0])
      case None => None
      case Some(t) => Run(t, es[1..])
  }

  /** `s` is reached by some interleaving from a fresh uploader. */
  ghost predicate Reachable(maxChunk: nat, s: State) {
    exists es :: Run(Initial(maxChunk), es) == Some(s)
  }

  // ---------------------------------------------------------------- what is conserved

  function Flatten(chunks: seq<Bytes>): Bytes {
    if chunks == [] then [] else chunks[0] + Flatten(chunks[1..])
  }

  lemma {:induction false} FlattenAppend(chunks: seq<Bytes>, c: Bytes)
    ensures Flatten(chunks + [c]) == Flatten(chunks) + c
  {
    if chunks == [] {
      assert [c][1..] == [];
    } else {
      assert (chunks + [c])[1..] == chunks[1..] + [c];
      FlattenAppend(chunks[1..], c);
    }
  }

  /** The bytes a list of finished Write calls reported as accepted. */
  function Reported(calls: seq<Call>): Bytes {
    if calls == [] then []
    else
      var last := calls[|calls| - 1];
      Reported(calls[..|calls| - 1]) + last.data[..Min(last.n, |last.data|)]
  }

  lemma ReportedAppend(calls: seq<Call>, c: Call)
    ensures Reported(calls + [c]) == Reported(calls) + c.data[..Min(c.n, |c.data|)]
  {
    assert (calls + [c])[..|calls|] == calls;
  }

  /** Everything accepted so far, including the part of an unfinished Write. */
  function Accepted(s: State): Bytes {
    Reported(s.calls) +
    match s.writer
    case Idle => []
    case Writing(data, written, _) => data[..Min(written, |data|)]
  }

  /** The chunk that has left the buffer without being acknowledged. */
  function InFlight(s: State): Bytes {
    match s.runner
    case Pacing(c) => c
    case Posting(c) => c
    case _ => if s.lost.Some? then s.lost.value else []
  }

  /** The chunks the server has received, in arrival order. */
  function Chunks(ps: seq<Packet>): (cs: seq<Bytes>)
    ensures |cs| == |ps|
    ensures forall i :: 0 <= i < |ps| ==> cs[i] == ps[i].chunk
  {
    seq(|ps|, i requires 0 <= i < |ps| => ps[i].chunk)
  }

  // ---------------------------------------------------------------- the invariant

  predicate ChunkOk(sh: Shared, c: Bytes) {
    1 <= |c| <= sh.maxChunk
  }

  /** Sizes, and who may still be running. */
  predicate ControlInv(s: State) {
    && 1 <= s.sh.maxChunk
    && |s.sh.buf| <= s.sh.maxChunk
    && (s.writer.Writing? ==> s.writer.written <= |s.writer.data|)
    && (s.cancelled ==> s.runner.Exited?)
    && (s.leader || s.followers > 0 || s.returned > 0 ==> s.sh.closed)
    && (s.returned > 0 ==> s.runner.Exited?)
    && (s.runner.Exited? ==> s.sh.err || (s.sh.closed && s.sh.buf == []))
    && (s.runner.Failing? || s.sh.err <==> s.lost.Some?)
    && (s.sh.err ==> s.runner.Exited?)
  }

  /** Whoever sleeps still has a reason to. */
  predicate SleepInv(s: State) {
    && (s.runner.Asleep? ==> s.sh.RunnerMustWait())
    && (s.writer.Writing? && s.writer.asleep ==> s.sh.WriterMustWait())
  }

  /** Chunks are legal and nothing is lost, duplicated or reordered. */
  ghost predicate DataInv(s: State) {
    && (forall i :: 0 <= i < |s.acked| ==> ChunkOk(s.sh, s.acked[i]))
    && (s.runner.Pacing? || s.runner.Posting? ==> ChunkOk(s.sh, s.runner.chunk))
    && (s.lost.Some? ==> ChunkOk(s.sh, s.lost.value))
    && s.nextSeq == |s.acked|
    && (forall i :: 0 <= i < |s.arrived| ==> s.arrived[i].seqNo == i)
    && (|| Chunks(s.arrived) == s.acked
        || (s.lost.Some? && Chunks(s.arrived) == s.acked + [s.lost.value]))
    && Flatten(s.acked) + InFlight(s) + s.sh.buf == Accepted(s)
  }

  ghost predicate Inv(s: State) {
    ControlInv(s) && SleepInv(s) && DataInv(s)
  }

  predicate OfWriter(e: Event) {
    e.BeginWrite? || e.WriterTurn?
  }

  lemma WriterKeepsControl(s: State, e: Event)
    requires ControlInv(s) && OfWriter(e) && Exec(s, e).Some?
    ensures ControlInv(Exec(s, e).value)
  {
  }

  lemma OthersKeepControl(s: State, e: Event)
    requires ControlInv(s) && !OfWriter(e) && Exec(s, e).Some?
    ensures ControlInv(Exec(s, e).value)
  {
  }

  lemma ControlKept(s: State, e: Event)
    requires ControlInv(s) && Exec(s, e).Some?
    ensures ControlInv(Exec(s, e).value)
  {
    if OfWriter(e) {
      WriterKeepsControl(s, e);
    } else {
      OthersKeepControl(s, e);
    }
  }

  lemma SleepKept(s: State, e: Event)
    requires ControlInv(s) && SleepInv(s) && Exec(s, e).Some?
    ensures SleepInv(Exec(s, e).value)
  {
  }

  lemma SumShift(flying: Bytes, buf: Bytes, reported: Bytes, prefix: Bytes, more: Bytes)
    requires flying + buf == reported + prefix
    ensures flying + (buf + more) == reported + (prefix + more)
  {
    assert flying + (buf + more) == (flying + buf) + more;
    assert reported + (prefix + more) == (reported + prefix) + more;
  }

  lemma ReturnKeepsData(s: State, end: WriteEnd)
    requires DataInv(s) && s.writer.Writing? && s.writer.written <= |s.writer.data|
    ensures DataInv(EndWrite(s, s.writer.written, end))
  {
    var Writing(data, w, _) := s.writer;
    var t := EndWrite(s, w, end);
    ReportedAppend(s.calls, Call(data, w, end));
    assert Min(w, |data|) == w;
    assert Reported(t.calls) + [] == Reported(t.calls);
    assert Accepted(t) == Reported(s.calls) + data[..w] == Accepted(s);
    assert InFlight(t) == InFlight(s);
  }

  lemma AppendKeepsData(s: State, n: nat)
    requires DataInv(s) && s.writer.Writing?
    requires s.writer.written + n <= |s.writer.data|
    ensures
      var more := s.writer.data[s.writer.written..][..n];
      var sh := s.sh.(buf := s.sh.buf + more);
      DataInv(Broadcast(s.(sh := sh, writer := Writing(s.writer.data, s.writer.written + n, false))))
  {
    var Writing(data, w, _) := s.writer;
    var more := data[w..][..n];
    var t := Broadcast(s.(sh := s.sh.(buf := s.sh.buf + more), writer := Writing(data, w + n, false)));
    assert InFlight(t) == InFlight(s);
    assert data[..w] + more == data[..w + n];
    SumShift(Flatten(s.acked) + InFlight(s), s.sh.buf, Reported(s.calls), data[..w], more);
  }

  lemma WriterKeepsData(s: State)
    requires Inv(s) && ExecWriter(s).Some?
    ensures DataInv(ExecWriter(s).value)
  {
    var Writing(data, written, _) := s.writer;
    if written < |data| {
      var (sh, turn) := WriteTurnOf(s.sh, data[written..]);
      match turn
      case Appended(n) => AppendKeepsData(s, n);
      case WriteClosed => ReturnKeepsData(s, ClosedPipe);
      case WriteFailed => ReturnKeepsData(s, UploadError);
      case _ =>
    } else {
      ReturnKeepsData(s, WroteAll);
    }
  }

  lemma RunnerKeepsData(s: State)
    requires Inv(s) && ExecRunner(s).Some?
    ensures DataInv(ExecRunner(s).value)
  {
    var n := Min(s.sh.maxChunk, |s.sh.buf|);
    assert s.sh.buf[..n] + s.sh.buf[n..] == s.sh.buf;
  }

  lemma PostKeepsData(s: State, e: Event)
    requires Inv(s) && Exec(s, e).Some?
    requires e.PostSucceeds? || e.PostFails?
    ensures DataInv(Exec(s, e).value)
  {
    var t := Exec(s, e).value;
    var c := s.runner.chunk;
    FlattenAppend(s.acked, c);
    assert t.arrived != s.arrived ==> Chunks(t.arrived) == s.acked + [c];
  }

  lemma OthersKeepData(s: State, e: Event)
    requires Inv(s) && Exec(s, e).Some?
    requires !(e.WriterTurn? || e.RunnerTurn? || e.PostSucceeds? || e.PostFails?)
    ensures DataInv(Exec(s, e).value)
  {
    var t := Exec(s, e).value;
    assert Accepted(t) == Accepted(s);
    assert !e.PaceCancelled?;
    assert InFlight(t) == InFlight(s);
  }

  lemma InvKept(s: State, e: Event)
    requires Inv(s) && Exec(s, e).Some?
    ensures Inv(Exec(s, e).value)
  {
    ControlKept(s, e);
    SleepKept(s, e);
    if e.WriterTurn? {
      WriterKeepsData(s);
    } else if e.RunnerTurn? {
      RunnerKeepsData(s);
    } else if e.PostSucceeds? || e.PostFails? {
      PostKeepsData(s, e);
    } else {
      OthersKeepData(s, e);
    }
  }

  lemma SizeFixed(s: State, e: Event)
    requires Exec(s, e).Some?
    ensures Exec(s, e).value.sh.maxChunk == s.sh.maxChunk
  {
  }

  lemma {:induction false} InvAlong(s: State, es: seq<Event>)
    requires Inv(s) && Run(s, es).Some?
    ensures Inv(Run(s, es).value) && Run(s, es).value.sh.maxChunk == s.sh.maxChunk
    decreases |es|
  {
    if es != [] {
      InvKept(s, es[0]);
      SizeFixed(s, es[0]);
      InvAlong(Exec(s, es[0]).value, es[1..]);
    }
  }

  lemma ReachableInv(maxChunk: nat, s: State)
    requires 1 <= maxChunk && Reachable(maxChunk, s)
    ensures Inv(s) && s.sh.maxChunk == maxChunk
  {
    var es :| Run(Initial(maxChunk), es) == Some(s);
    InvAlong(Initial(maxChunk), es);
  }

  // ---------------------------------------------------------------- theorems over every interleaving

  /** Acknowledged chunks in order, then the chunk in flight or failed, then the buffer,
      are exactly the bytes Write accepted; no chunk is empty or too large. */
  lemma Conservation(maxChunk: nat, s: State)
    requires 1 <= maxChunk && Reachable(maxChunk, s)
    ensures Flatten(s.acked) + InFlight(s) + s.sh.buf == Accepted(s)
    ensures |s.sh.buf| <= maxChunk
    ensures forall i :: 0 <= i < |s.acked| ==> 1 <= |s.acked[i]| <= maxChunk
    ensures s.runner.Pacing? || s.runner.Posting? ==> 1 <= |s.runner.chunk| <= maxChunk
  {
    ReachableInv(maxChunk, s);
  }

  /** At every moment the server holds an exact prefix of the accepted bytes, under
      consecutive sequence numbers, even when a failed request did reach it. */
  lemma ServerHoldsPrefix(maxChunk: nat, s: State)
    requires 1 <= maxChunk && Reachable(maxChunk, s)
    ensures Flatten(Chunks(s.arrived)) <= Accepted(s)
    ensures forall i :: 0 <= i < |s.arrived| ==> s.arrived[i].seqNo == i
  {
    ReachableInv(maxChunk, s);
    if s.lost.Some? {
      FlattenAppend(s.acked, s.lost.value);
    }
  }

  /** The context is cancelled only after the runner has exited, so the pacing select
      can never abandon a chunk. */
  lemma PacingNeverCancelled(maxChunk: nat, s: State)
    requires 1 <= maxChunk && Reachable(maxChunk, s)
    ensures Exec(s, PaceCancelled).None?
  {
    ReachableInv(maxChunk, s);
  }

  /** No wakeup is lost: a parked goroutine is parked on a condition that still holds,
      and the writer and the runner never wait for each other. */
  lemma NoLostWakeup(maxChunk: nat, s: State)
    requires 1 <= maxChunk && Reachable(maxChunk, s)
    ensures s.runner.Asleep? ==> s.sh.RunnerMustWait()
    ensures s.writer.Writing? && s.writer.asleep ==> s.sh.WriterMustWait()
    ensures !(s.runner.Asleep? && s.writer.Writing? && s.writer.asleep)
  {
    ReachableInv(maxChunk, s);
  }

  lemma ExitedStep(s: State, e: Event)
    requires ControlInv(s) && s.runner.Exited? && Exec(s, e).Some?
    ensures
      var t := Exec(s, e).value;
      && t.runner.Exited?
      && t.arrived == s.arrived && t.acked == s.acked && t.sh.buf == s.sh.buf
      && Accepted(t) == Accepted(s)
  {
    if e.WriterTurn? {
      ReportedAppend(s.calls, Call(s.writer.data, s.writer.written, WroteAll));
      ReportedAppend(s.calls, Call(s.writer.data, s.writer.written, ClosedPipe));
      ReportedAppend(s.calls, Call(s.writer.data, s.writer.written, UploadError));
    }
  }

  /** Once the runner has exited nothing more is accepted or sent. */
  lemma {:induction false} ExitIsFinal(s: State, es: seq<Event>)
    requires ControlInv(s) && s.runner.Exited? && Run(s, es).Some?
    ensures
      var t := Run(s, es).value;
      t.arrived == s.arrived && t.acked == s.acked && t.sh.buf == s.sh.buf && Accepted(t) == Accepted(s)
    decreases |es|
  {
    if es != [] {
      ControlKept(s, es[0]);
      ExitedStep(s, es[0]);
      ExitIsFinal(Exec(s, es[0]).value, es[1..]);
    }
  }

  /** When a Close has returned and no POST failed, the server has every accepted byte,
      and no later event changes what it has or accepts another byte. */
  lemma CloseDelivers(maxChunk: nat, s: State, later: seq<Event>)
    requires 1 <= maxChunk && Reachable(maxChunk, s)
    requires s.returned > 0 && !s.sh.err
    requires Run(s, later).Some?
    ensures
      var t := Run(s, later).value;
      Flatten(Chunks(t.arrived)) == Accepted(t) == Accepted(s)
  {
    ReachableInv(maxChunk, s);
    ExitIsFinal(s, later);
    assert Flatten(s.acked) + [] + [] == Flatten(s.acked);
  }

  predicate ByRunner(e: Event) {
    e.RunnerTurn? || e.PaceElapsed? || e.PaceCancelled? || e.PostSucceeds? || e.PostFails? || e.FailureRecorded?
  }

  function RunnerEvents(es: seq<Event>): nat {
    if es == [] then 0 else (if ByRunner(es[0]) then 1 else 0) + RunnerEvents(es[1..])
  }

  /** How many events the runner can still perform once the uploader is closed. */
  function Remaining(s: State): nat {
    if s.runner.Exited? then 0
    else
      (if s.sh.buf == [] then 0 else 4) +
      match s.runner
      case Pacing(_) => 3
      case Posting(_) => 2
      case _ => 1
  }

  lemma RemainingDrops(s: State, e: Event)
    requires ControlInv(s) && SleepInv(s) && s.sh.closed && Exec(s, e).Some?
    ensures Exec(s, e).value.sh.closed
    ensures Remaining(Exec(s, e).value) + (if ByRunner(e) then 1 else 0) <= Remaining(s)
  {
  }

  lemma {:induction false} RemainingBounds(s: State, es: seq<Event>)
    requires ControlInv(s) && SleepInv(s) && s.sh.closed && Run(s, es).Some?
    ensures RunnerEvents(es) + Remaining(Run(s, es).value) <= Remaining(s)
    decreases |es|
  {
    if es != [] {
      ControlKept(s, es[0]);
      SleepKept(s, es[0]);
      RemainingDrops(s, es[0]);
      RemainingBounds(Exec(s, es[0]).value, es[1..]);
    }
  }

  /** Close cannot hang on the uploader: after closing, whatever else is interleaved, the
      runner takes at most seven more events, and until it exits one of them is enabled. */
  lemma CloseDrains(maxChunk: nat, s: State, es: seq<Event>)
    requires 1 <= maxChunk && Reachable(maxChunk, s) && s.sh.closed
    requires Run(s, es).Some?
    ensures RunnerEvents(es) <= 7
    ensures
      var t := Run(s, es).value;
      t.runner.Exited? || exists e :: ByRunner(e) && Exec(t, e).Some?
  {
    ReachableInv(maxChunk, s);
    RemainingBounds(s, es);
    InvAlong(s, es);
    ClosedStays(s, es);
    var t := Run(s, es).value;
    match t.runner
    case Awake => assert Exec(t, RunnerTurn).Some?;
    case Pacing(_) => assert Exec(t, PaceElapsed).Some?;
    case Posting(_) => assert Exec(t, PostSucceeds).Some?;
    case Failing => assert Exec(t, FailureRecorded).Some?;
    case _ =>
  }

  lemma {:induction false} ClosedStays(s: State, es: seq<Event>)
    requires s.sh.closed && Run(s, es).Some?
    ensures Run(s, es).value.sh.closed
    decreases |es|
  {
    if es != [] {
      ClosedStays(Exec(s, es[0]).value, es[1..]);
    }
  }
}
