/**
 The resource watchdog's pressure window, against a statement about the whole sequence
 of samples. A Go zero time stands for "unset" and is modelled by `None`.
 */
module Watchdog {
  import opened Wrappers

  type Time = int

  datatype Sample = Sample(now: Time, goroutines: int, fileDescs: int, trackers: int)
  datatype Config = Config(interval: int, sustainedFor: int, goroutineLimit: int, fileDescLimit: int, trackerLimit: int)

  function Values(s: Sample): (v: seq<int>)
    ensures |v| == 3
  {
    [s.goroutines, s.fileDescs, s.trackers]
  }

  function Limits(c: Config): (v: seq<int>)
    ensures |v| == 3
  {
    [c.goroutineLimit, c.fileDescLimit, c.trackerLimit]
  }

  /** The sample is at or over the positive limit of resource `r`. */
  predicate Over(c: Config, s: Sample, r: int)
    requires 0 <= r < 3
  {
    Limits(c)[r] > 0 && Values(s)[r] >= Limits(c)[r]
  }

  /** Two samples are close enough to belong to one stretch. */
  predicate Joined(c: Config, a: Time, b: Time) {
    a <= b && b - a <= 2 * c.interval
  }

  datatype Window = Window(since: seq<Option<Time>>, last: Option<Time>)

  const EMPTY := Window([None, None, None], None)

  function SinceAfter(start: Option<Time>, over: bool, now: Time): Option<Time> {
    if !over then None else if start.None? then Some(now) else start
  }

  function Observed(w: Window, s: Sample, c: Config): (r: Window)
    requires |w.since| == 3
    ensures |r.since| == 3
  {
    var kept := if w.last.Some? && !Joined(c, w.last.value, s.now) then EMPTY.since else w.since;
    Window([SinceAfter(kept[0], Over(c, s, 0), s.now),
            SinceAfter(kept[1], Over(c, s, 1), s.now),
            SinceAfter(kept[2], Over(c, s, 2), s.now)],
           Some(s.now))
  }

  predicate Leaking(w: Window, now: Time, c: Config)
    requires |w.since| == 3
  {
    exists r :: 0 <= r < 3 && w.since[r].Some? && now - w.since[r].value >= c.sustainedFor
  }

  class PressureWindow {
    const since: array<Option<Time>>
    var last: Option<Time>

    ghost predicate Valid()
      reads this
    {
      since.Length == 3
    }

    ghost function Now(): (w: Window)
      requires Valid()
      reads this, since
      ensures |w.since| == 3
    {
      Window(since[..], last)
    }

    constructor ()
      ensures Valid() && fresh(since) && Now() == EMPTY
    {
      since := new Option<Time>[3](_ => None);
      last := None;
      new;
      assert since[..] == [None, None, None];
    }

    method Reset()
      requires Valid()
      modifies this, since
      ensures Now() == EMPTY
    {
      since[0], since[1], since[2] := None, None, None;
      last := None;
    }

    method Observe(s: Sample, c: Config) returns (leaking: bool)
      requires Valid()
      modifies this, since
      ensures Now() == Observed(old(Now()), s, c)
      ensures leaking <==> Leaking(Now(), s.now, c)
    {
      if last.Some? && (s.now < last.value || s.now - last.value > 2 * c.interval) {
        Reset();
      }
      last := Some(s.now);
      ghost var kept := since[..];
      var values, limits := Values(s), Limits(c);
      leaking := false;
      for i := 0 to 3
        invariant last == Some(s.now)
        invariant forall k :: i <= k < 3 ==> since[k] == kept[k]
        invariant forall k :: 0 <= k < i ==> since[k] == SinceAfter(kept[k], Over(c, s, k), s.now)
        invariant leaking <==> exists k :: 0 <= k < i && since[k].Some? && s.now - since[k].value >= c.sustainedFor
      {
        if limits[i] <= 0 || values[i] < limits[i] {
          since[i] := None;
          continue;
        }
        if since[i].None? {
          since[i] := Some(s.now);
        }
        if s.now - since[i].value >= c.sustainedFor {
          leaking := true;
        }
      }
      assert since[..] == Observed(old(Now()), s, c).since;
    }
  }

  // ---------------------------------------------------------------- histories

  function After(h: seq<Sample>, c: Config): (w: Window)
    ensures |w.since| == 3
  {
    if h == [] then EMPTY else Observed(After(h[..|h| - 1], c), h[|h| - 1], c)
  }

  /** From sample `j` to the end resource `r` is over its limit in every sample, and no two
      neighbouring samples are out of order or too far apart. */
  predicate Stretch(h: seq<Sample>, c: Config, r: int, j: int) {
    && 0 <= r < 3 && 0 <= j < |h|
    && (forall k :: j <= k < |h| ==> Over(c, h[k], r))
    && (forall k :: j < k < |h| ==> Joined(c, h[k - 1].now, h[k].now))
  }

  lemma StretchExtends(h: seq<Sample>, c: Config, r: int, j: int)
    requires |h| > 1 && 0 <= r < 3
    ensures Stretch(h, c, r, j)
       <==> || (j == |h| - 1 && Over(c, h[j], r))
            || (Stretch(h[..|h| - 1], c, r, j) && Over(c, h[|h| - 1], r) && Joined(c, h[|h| - 2].now, h[|h| - 1].now))
  {
    var p := h[..|h| - 1];
    assert forall k :: 0 <= k < |p| ==> p[k] == h[k];
    if Stretch(h, c, r, j) && j < |h| - 1 {
      assert Stretch(p, c, r, j);
    }
  }

  /** `start` is the time of the earliest sample that starts a stretch of `r`. */
  ghost predicate Earliest(h: seq<Sample>, c: Config, r: int, start: Option<Time>)
    requires h != []
  {
    && (start.None? ==> forall j :: !Stretch(h, c, r, j))
    && (start.Some? ==>
          && start.value <= h[|h| - 1].now
          && (exists j :: Stretch(h, c, r, j) && h[j].now == start.value)
          && (forall j :: Stretch(h, c, r, j) ==> start.value <= h[j].now))
  }

  lemma EarliestExtends(h: seq<Sample>, c: Config, r: int, start: Option<Time>)
    requires |h| > 1 && 0 <= r < 3 && Earliest(h[..|h| - 1], c, r, start)
    ensures
      var kept := if Joined(c, h[|h| - 2].now, h[|h| - 1].now) then start else None;
      Earliest(h, c, r, SinceAfter(kept, Over(c, h[|h| - 1], r), h[|h| - 1].now))
  {
    var s, p := h[|h| - 1], h[..|h| - 1];
    var joined := Joined(c, p[|p| - 1].now, s.now);
    forall j
      ensures Stretch(h, c, r, j)
         <==> (j == |h| - 1 && Over(c, h[j], r)) || (Stretch(p, c, r, j) && Over(c, s, r) && joined)
    {
      StretchExtends(h, c, r, j);
    }
    if Over(c, s, r) && joined && start.Some? {
      var j :| Stretch(p, c, r, j) && p[j].now == start.value;
      assert Stretch(h, c, r, j) && h[j].now == start.value;
      assert forall k :: Stretch(p, c, r, k) ==> p[k].now == h[k].now;
    } else if Over(c, s, r) {
      assert Stretch(h, c, r, |h| - 1);
    }
  }

  lemma ObservedAt(w: Window, s: Sample, c: Config, r: int)
    requires |w.since| == 3 && 0 <= r < 3
    ensures
      var kept := if w.last.Some? && !Joined(c, w.last.value, s.now) then None else w.since[r];
      Observed(w, s, c).since[r] == SinceAfter(kept, Over(c, s, r), s.now)
  {
  }

  lemma FirstSample(h: seq<Sample>, c: Config, r: int)
    requires |h| == 1 && 0 <= r < 3
    ensures Earliest(h, c, r, SinceAfter(None, Over(c, h[0], r), h[0].now))
  {
    assert Over(c, h[0], r) ==> Stretch(h, c, r, 0);
  }

  lemma {:induction false} SinceMeans(h: seq<Sample>, c: Config, r: int)
    requires h != [] && 0 <= r < 3
    ensures After(h, c).last == Some(h[|h| - 1].now)
    ensures Earliest(h, c, r, After(h, c).since[r])
  {
    var p := h[..|h| - 1];
    ObservedAt(After(p, c), h[|h| - 1], c, r);
    if p == [] {
      FirstSample(h, c, r);
    } else {
      SinceMeans(p, c, r);
      EarliestExtends(h, c, r, After(p, c).since[r]);
    }
  }

  /** An observation reports a leak exactly when some single resource was at or over its
      positive limit in every sample of a contiguous stretch that ends now and spans at least
      `sustainedFor`. Spikes of different resources never combine. */
  lemma LeakMeans(h: seq<Sample>, c: Config)
    requires h != []
    ensures Leaking(After(h, c), h[|h| - 1].now, c)
       <==> exists r, j :: Stretch(h, c, r, j) && h[|h| - 1].now - h[j].now >= c.sustainedFor
  {
    var w, now := After(h, c), h[|h| - 1].now;
    if Leaking(w, now, c) {
      var r :| 0 <= r < 3 && w.since[r].Some? && now - w.since[r].value >= c.sustainedFor;
      SinceMeans(h, c, r);
      var j :| Stretch(h, c, r, j) && h[j].now == w.since[r].value;
    }
    if r, j :| Stretch(h, c, r, j) && now - h[j].now >= c.sustainedFor {
      SinceMeans(h, c, r);
    }
  }
}
