/**
 What the writer and the runner of `Uplink` do with their turns: when a Write may return
 short, when it waits, and how much each turn moves.
 */
module Writes {
  import opened Wrappers
  import opened Uplink

  /** A finished call without an error accepted everything; one that returned short names a reason
      that holds. */
  predicate CallOk(sh: Shared, c: Call) {
    && c.n <= |c.data|
    && (c.end == WroteAll <==> c.n == |c.data|)
    && (c.end == ClosedPipe ==> sh.closed)
    && (c.end == UploadError ==> sh.err)
  }

  predicate CallsInv(s: State) {
    forall i :: 0 <= i < |s.calls| ==> CallOk(s.sh, s.calls[i])
  }

  lemma CallsKept(s: State, e: Event)
    requires ControlInv(s) && CallsInv(s) && Exec(s, e).Some?
    ensures CallsInv(Exec(s, e).value)
  {
    var t := Exec(s, e).value;
    assert (s.sh.closed ==> t.sh.closed) && (s.sh.err ==> t.sh.err);
    assert t.calls == s.calls || (e.WriterTurn? && |t.calls| == |s.calls| + 1 && t.calls[..|s.calls|] == s.calls);
    forall i | 0 <= i < |t.calls|
      ensures CallOk(t.sh, t.calls[i])
    {
      assert i < |s.calls| ==> t.calls[i] == s.calls[i] && CallOk(s.sh, s.calls[i]);
    }
  }

  lemma {:induction false} CallsAlong(s: State, es: seq<Event>)
    requires Inv(s) && CallsInv(s) && Run(s, es).Some?
    ensures CallsInv(Run(s, es).value)
    decreases |es|
  {
    if es != [] {
      CallsKept(s, es[0]);
      InvKept(s, es[0]);
      CallsAlong(Exec(s, es[0]).value, es[1..]);
    }
  }

  /** In every interleaving: a Write returns no error exactly when all its bytes were accepted; it
      reports a closed pipe only when the uploader is closed, and an upload error only when a
      POST has failed. While the uploader is open and unfailed every finished Write has had all
      its bytes accepted. */
  lemma WriteReports(maxChunk: nat, s: State, i: nat)
    requires 1 <= maxChunk && Reachable(maxChunk, s) && i < |s.calls|
    ensures CallOk(s.sh, s.calls[i])
    ensures !s.sh.closed && !s.sh.err ==> s.calls[i].n == |s.calls[i].data|
  {
    var es :| Run(Initial(maxChunk), es) == Some(s);
    ReachableInv(maxChunk, Initial(maxChunk)) by {
      assert Run(Initial(maxChunk), []) == Some(Initial(maxChunk));
    }
    CallsAlong(Initial(maxChunk), es);
  }

  /** The turn of a writer that is awake and has bytes left: it fails exactly when the uploader is
      closed or has failed, the close first; else it waits exactly when the buffer is full; else it
      accepts bytes until none is left or the buffer is full, and wakes the runner. */
  lemma WriterTurnMeans(maxChunk: nat, s: State)
    requires 1 <= maxChunk && Reachable(maxChunk, s)
    requires s.writer.Writing? && !s.writer.asleep && s.writer.written < |s.writer.data|
    ensures
      var t := Exec(s, WriterTurn);
      && t.Some?
      && (s.sh.closed || s.sh.err <==> t.value.writer.Idle?)
      && (s.sh.closed ==> t.value.calls == s.calls + [Call(s.writer.data, s.writer.written, ClosedPipe)])
      && (!s.sh.closed && s.sh.err ==> t.value.calls == s.calls + [Call(s.writer.data, s.writer.written, UploadError)])
      && (!s.sh.closed && !s.sh.err && |s.sh.buf| == maxChunk ==> t.value == s.(writer := s.writer.(asleep := true)))
      && (!s.sh.closed && !s.sh.err && |s.sh.buf| < maxChunk ==>
            && t.value.writer.Writing? && s.writer.written < t.value.writer.written
            && (t.value.writer.written == |s.writer.data| || |t.value.sh.buf| == maxChunk)
            && !t.value.runner.Asleep?)
  {
    ReachableInv(maxChunk, s);
  }

  /** The turn of a runner that is awake: it exits exactly when an upload has failed or nothing is
      left after a close; else it waits exactly when nothing is buffered; else it takes everything
      buffered in one chunk, and wakes the writer. */
  lemma RunnerTurnMeans(maxChunk: nat, s: State)
    requires 1 <= maxChunk && Reachable(maxChunk, s) && s.runner.Awake?
    ensures
      var t := Exec(s, RunnerTurn);
      && t.Some?
      && (t.value.runner.Exited? <==> s.sh.err || (s.sh.closed && s.sh.buf == []))
      && (t.value.runner.Asleep? <==> !s.sh.err && !s.sh.closed && s.sh.buf == [])
      && (!s.sh.err && s.sh.buf != [] ==>
            && t.value.runner == Pacing(s.sh.buf) && t.value.sh.buf == []
            && !(t.value.writer.Writing? && t.value.writer.asleep))
  {
    ReachableInv(maxChunk, s);
  }
}
