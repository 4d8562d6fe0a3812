/**
 The debouncer, against a statement about the whole history of observations that does
 not mention its counters.
 */
module Debounce {
  import opened Policy

  datatype State = State(committed: Cisco, pending: Cisco, count: int)

  const FRESH := State(Unknown, Unknown, 0)

  /** The state after one observation, and whether the committed value is reported as changed. */
  function Observed(s: State, threshold: int, raw: Cisco): (State, bool) {
    if s.committed == Unknown then (State(raw, raw, 0), false)
    else if raw == s.committed then (State(s.committed, raw, 0), false)
    else
      var count := if raw == s.pending then s.count + 1 else 1;
      if count >= threshold then (State(raw, raw, 0), true)
      else (State(s.committed, raw, count), false)
  }

  class Debouncer {
    const threshold: int
    var committed: Cisco
    var pending: Cisco
    var count: int

    ghost function Now(): State
      reads this
    {
      State(committed, pending, count)
    }

    constructor (threshold: int)
      ensures Now() == FRESH
      ensures this.threshold == if threshold < 1 then 1 else threshold
    {
      this.threshold := if threshold < 1 then 1 else threshold;
      committed, pending, count := Unknown, Unknown, 0;
    }

    method Observe(raw: Cisco) returns (value: Cisco, changed: bool)
      modifies this
      ensures (Now(), changed) == Observed(old(Now()), threshold, raw)
      ensures value == committed
    {
      if committed == Unknown {
        committed, pending, count := raw, raw, 0;
        return committed, false;
      }
      if raw == committed {
        pending, count := raw, 0;
        return committed, false;
      }
      if raw == pending {
        count := count + 1;
      } else {
        pending, count := raw, 1;
      }
      if count >= threshold {
        committed := raw;
        count := 0;
        return committed, true;
      }
      return committed, false;
    }

    method Pending() returns (r: bool)
      ensures r <==> committed != Unknown && pending != committed
    {
      r := committed != Unknown && pending != committed;
    }
  }

  // ---------------------------------------------------------------- histories

  /** The state after the observations `h`. */
  function After(h: seq<Cisco>, t: int): State {
    if h == [] then FRESH else Observed(After(h[..|h| - 1], t), t, h[|h| - 1]).0
  }

  /** The last observation of `h` is reported as a change. */
  predicate Reports(h: seq<Cisco>, t: int)
    requires h != []
  {
    Observed(After(h[..|h| - 1], t), t, h[|h| - 1]).1
  }

  /** The `t` observations that end before index `i` are all `v`. */
  predicate Window(h: seq<Cisco>, t: int, i: int, v: Cisco) {
    0 <= i - t && i <= |h| && forall k :: i - t <= k < i ==> h[k] == v
  }

  /** `v` fills the last window of `t` equal observations, or is the first observation when
      there is no such window. */
  ghost predicate Settled(h: seq<Cisco>, t: int, v: Cisco) {
    || (exists i :: Window(h, t, i, v) && forall j, w :: i < j && Window(h, t, j, w) ==> w == v)
    || (h != [] && v == h[0] && forall j, w :: !Window(h, t, j, w))
  }

  /** What the counters mean: the last observation is pending, and while it differs from the
      committed value exactly the last `count` observations equal it. */
  predicate Counts(h: seq<Cisco>, t: int, s: State)
    requires h != []
  {
    && s.committed != Unknown && s.pending == h[|h| - 1]
    && 0 <= s.count < t && s.count < |h|
    && (s.count == 0 <==> s.pending == s.committed)
    && (s.count > 0 ==>
          && Window(h, s.count, |h|, s.pending)
          && h[|h| - 1 - s.count] != s.pending)
  }

  ghost predicate Proper(h: seq<Cisco>, t: int) {
    t >= 1 && forall k :: 0 <= k < |h| ==> h[k] != Unknown
  }

  lemma {:induction false} CountsAfter(h: seq<Cisco>, t: int)
    requires h != [] && Proper(h, t)
    ensures Counts(h, t, After(h, t))
  {
    if |h| > 1 {
      CountsAfter(h[..|h| - 1], t);
    }
  }

  lemma WindowShrinks(h: seq<Cisco>, t: int, i: int, v: Cisco)
    requires h != [] && t >= 1
    ensures i < |h| ==> (Window(h, t, i, v) <==> Window(h[..|h| - 1], t, i, v))
  {
    if 0 <= i - t && i < |h| {
      assert forall k :: i - t <= k < i ==> h[k] == h[..|h| - 1][k];
    }
  }

  /** Which value a window closing with the last observation holds, in terms of the state
      before it. */
  lemma LastWindow(h: seq<Cisco>, t: int, w: Cisco)
    requires |h| > 1 && Proper(h, t)
    requires Window(h, t, |h|, w)
    ensures After(h, t).committed == w
  {
    var p := h[..|h| - 1];
    var s := After(p, t);
    CountsAfter(p, t);
    assert w == h[|h| - 1];
    assert w != s.committed && t > 1 ==> p[|p| - 1] == w && s.count > 0;
    assert s.count < t - 1 && s.count < |p| ==> p[|p| - 1 - s.count] == w;
  }

  /** A commit closes a window. */
  lemma CommitIsWindow(h: seq<Cisco>, t: int)
    requires |h| > 1 && Proper(h, t)
    requires After(h, t).committed != After(h[..|h| - 1], t).committed
    ensures Window(h, t, |h|, After(h, t).committed)
  {
    var p := h[..|h| - 1];
    CountsAfter(p, t);
    var s := After(p, t);
    assert forall k :: 0 <= k < |p| ==> p[k] == h[k];
  }

  /** After any nonempty sequence of observations the committed value is the value of the
      last window of `t` equal observations, or the first observation if there is none. */
  lemma {:induction false} CommittedMeans(h: seq<Cisco>, t: int)
    requires h != [] && Proper(h, t)
    ensures Settled(h, t, After(h, t).committed)
  {
    var v := After(h, t).committed;
    if |h| == 1 {
      if t == 1 {
        assert Window(h, t, 1, v);
      }
      return;
    }
    var p := h[..|h| - 1];
    CommittedMeans(p, t);
    CountsAfter(p, t);
    forall j, w
      ensures j < |h| ==> (Window(h, t, j, w) <==> Window(p, t, j, w))
    {
      WindowShrinks(h, t, j, w);
    }
    forall w | Window(h, t, |h|, w)
      ensures w == v
    {
      LastWindow(h, t, w);
    }
    if Window(h, t, |h|, v) {
      assert forall j, w :: |h| < j ==> !Window(h, t, j, w);
    } else {
      if After(p, t).committed != v {
        CommitIsWindow(h, t);
      }
      assert forall w :: !Window(h, t, |h|, w);
    }
  }

  /** The settled value is unique, so `CommittedMeans` determines the committed value. */
  lemma SettledUnique(h: seq<Cisco>, t: int, v: Cisco, w: Cisco)
    requires t >= 1 && Settled(h, t, v) && Settled(h, t, w)
    ensures v == w
  {
    if i :| Window(h, t, i, v) && forall j, u :: i < j && Window(h, t, j, u) ==> u == v {
      if j :| Window(h, t, j, w) && forall k, u :: j < k && Window(h, t, k, u) ==> u == w {
        assert i == j ==> h[i - 1] == v && h[i - 1] == w;
      }
    }
  }

  /** A change is reported exactly when the settled value of the history differs from the
      settled value one observation earlier. */
  lemma ReportsMeans(h: seq<Cisco>, t: int, before: Cisco, now: Cisco)
    requires |h| > 1 && Proper(h, t)
    requires Settled(h[..|h| - 1], t, before) && Settled(h, t, now)
    ensures Reports(h, t) <==> before != now
  {
    var p := h[..|h| - 1];
    CommittedMeans(p, t);
    CommittedMeans(h, t);
    CountsAfter(p, t);
    SettledUnique(p, t, before, After(p, t).committed);
    SettledUnique(h, t, now, After(h, t).committed);
  }
}
