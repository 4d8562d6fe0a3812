/**
 Subscriptions: the effective list of links, and a refresh that fetches without holding
 the lock and merges its results into whatever the list has become meanwhile.
 */
module Subscriptions {
  import opened Text
  import opened Distinct

  datatype Record = Record(url: string, links: seq<string>, title: string, meta: int, updated: int, error: string)

  /** How one fetch goes; links count as fetched only when they parse. */
  datatype Outcome =
    | Failed(message: string)
    | Unusable(message: string)
    | Fetched(links: seq<string>, meta: int, title: string, now: int)

  /** The record after a fetch, and whether the fetch succeeded. */
  function FetchedInto(r: Record, o: Outcome): (Record, bool) {
    match o
    case Failed(m) => (r.(error := m), false)
    case Unusable(m) => (r.(error := m), false)
    case Fetched(links, meta, title, now) =>
      (Record(r.url, links, if title != "" then title else r.title, meta, now, ""), true)
  }

  function Urls(s: seq<Record>): (r: seq<string>)
    ensures |r| == |s| && forall i :: 0 <= i < |s| ==> r[i] == s[i].url
  {
    seq(|s|, i requires 0 <= i < |s| => s[i].url)
  }

  /** The last record of `s` with the given URL replaces `r`. */
  function Replaced(r: Record, s: seq<Record>): Record {
    if s == [] then r
    else if s[|s| - 1].url == r.url then s[|s| - 1]
    else Replaced(r, s[..|s| - 1])
  }

  /** The list after a merge: the first record of every URL is replaced by the last outcome
      for that URL, if there is one; everything else stays. */
  function Merged(subs: seq<Record>, outcomes: seq<Record>): (r: seq<Record>)
    ensures |r| == |subs|
    ensures forall i :: 0 <= i < |subs| ==>
      r[i] == if First(Urls(subs), subs[i].url) == i then Replaced(subs[i], outcomes) else subs[i]
  {
    seq(|subs|, i requires 0 <= i < |subs| =>
      if First(Urls(subs), subs[i].url) == i then Replaced(subs[i], outcomes) else subs[i])
  }

  function Joined(links: seq<string>): string {
    if links == [] then "" else Join(links, '\n')
  }

  function AfterFetches(s: seq<Record>, outcomes: seq<Outcome>): (r: seq<Record>)
    requires |s| == |outcomes|
    ensures |r| == |s| && forall i :: 0 <= i < |s| ==> r[i] == FetchedInto(s[i], outcomes[i]).0
  {
    seq(|s|, i requires 0 <= i < |s| => FetchedInto(s[i], outcomes[i]).0)
  }

  /** Fetches that changed their record's links, as the joined text tells. */
  function Changes(s: seq<Record>, outcomes: seq<Outcome>): nat
    requires |s| == |outcomes|
  {
    if s == [] then 0
    else
      var n := |s| - 1;
      var (r, ok) := FetchedInto(s[n], outcomes[n]);
      Changes(s[..n], outcomes[..n]) + if ok && Joined(r.links) != Joined(s[n].links) then 1 else 0
  }

  ghost predicate SameElements(s: set<string>, t: seq<string>) {
    forall x :: x in s <==> x in t
  }

  class Executor {
    var manual: seq<string>
    var subs: seq<Record>

    constructor ()
      ensures manual == [] && subs == []
    {
      manual, subs := [], [];
    }

    /** Adds one link to those collected from `done`. */
    method Add(seen0: set<string>, out0: seq<string>, raw: string, ghost done: seq<string>)
      returns (seen: set<string>, out: seq<string>)
      requires out0 == Dedupe(TrimAll(done)) && SameElements(seen0, out0)
      ensures out == Dedupe(TrimAll(done + [raw])) && SameElements(seen, out)
    {
      TrimAllSnoc(done, raw);
      var link := Trim(raw);
      if link == "" || link in seen0 {
        return seen0, out0;
      }
      return seen0 + {link}, out0 + [link];
    }

    /** Adds the links one by one to those collected from `before`. */
    method AddAll(seen0: set<string>, out0: seq<string>, links: seq<string>, ghost before: seq<string>)
      returns (seen: set<string>, out: seq<string>)
      requires out0 == Dedupe(TrimAll(before)) && SameElements(seen0, out0)
      ensures out == Dedupe(TrimAll(before + links)) && SameElements(seen, out)
    {
      seen, out := seen0, out0;
      ghost var done := before;
      for i := 0 to |links|
        invariant done == before + links[..i]
        invariant out == Dedupe(TrimAll(done)) && SameElements(seen, out)
      {
        seen, out := Add(seen, out, links[i], done);
        assert links[..i + 1] == links[..i] + [links[i]];
        done := done + [links[i]];
      }
      assert links[..|links|] == links;
    }

    /** What the proxy runs: manual links, then each subscription's, trimmed, without blanks
        and repetitions. */
    method EffectiveLinks() returns (out: seq<string>)
      ensures out == Dedupe(TrimAll(AllLinks(manual, subs)))
    {
      var seen: set<string>;
      seen, out := AddAll({}, [], manual, []);
      assert [] + manual == manual;
      for k := 0 to |subs|
        invariant out == Dedupe(TrimAll(AllLinks(manual, subs[..k]))) && SameElements(seen, out)
      {
        assert subs[..k + 1][..k] == subs[..k];
        seen, out := AddAll(seen, out, subs[k].links, AllLinks(manual, subs[..k]));
      }
      assert subs[..|subs|] == subs;
    }

    /** First phase of a refresh: a snapshot, taken under the lock. */
    method Snapshot() returns (current: seq<Record>)
      ensures current == subs
    {
      current := subs;
    }

    /** Second phase: one fetch after the other, without the lock. */
    method FetchAll(snapshot: seq<Record>, outcomes: seq<Outcome>)
      returns (current: seq<Record>, changed: nat, firstErr: bool)
      requires |snapshot| == |outcomes|
      ensures current == AfterFetches(snapshot, outcomes)
      ensures changed == Changes(snapshot, outcomes)
      ensures firstErr <==> exists i :: 0 <= i < |outcomes| && !outcomes[i].Fetched?
    {
      current, changed, firstErr := snapshot, 0, false;
      for i := 0 to |snapshot|
        invariant |current| == |snapshot|
        invariant forall k :: 0 <= k < i ==> current[k] == FetchedInto(snapshot[k], outcomes[k]).0
        invariant forall k :: i <= k < |snapshot| ==> current[k] == snapshot[k]
        invariant changed == Changes(snapshot[..i], outcomes[..i])
        invariant firstErr <==> exists k :: 0 <= k < i && !outcomes[k].Fetched?
      {
        assert snapshot[..i + 1][..i] == snapshot[..i] && outcomes[..i + 1][..i] == outcomes[..i];
        var before := Joined(current[i].links);
        var (r, ok) := FetchedInto(current[i], outcomes[i]);
        current := current[i := r];
        if !ok {
          firstErr := true;
          continue;
        }
        if Joined(r.links) != before {
          changed := changed + 1;
        }
      }
      assert snapshot[..|snapshot|] == snapshot && outcomes[..|outcomes|] == outcomes;
      assert current == AfterFetches(snapshot, outcomes);
    }

    /** Third phase, under the lock again: results are matched by URL. */
    method Merge(outcomes: seq<Record>)
      modifies this`subs
      ensures subs == Merged(old(subs), outcomes)
    {
      ghost var was := subs;
      assert Merged(was, outcomes[..0]) == was;
      for k := 0 to |outcomes|
        invariant subs == Merged(was, outcomes[..k])
      {
        var o := outcomes[k];
        var at := FindUrl(subs, o.url);
        MergeOne(was, outcomes[..k], o, at);
        if at < |subs| {
          subs := subs[at := o];
        }
        assert outcomes[..k + 1] == outcomes[..k] + [o];
      }
      assert outcomes[..|outcomes|] == outcomes;
    }
  }

  method FindUrl(subs: seq<Record>, url: string) returns (at: nat)
    ensures at <= |subs| && (at < |subs| ==> subs[at].url == url)
    ensures forall j :: 0 <= j < at ==> subs[j].url != url
  {
    for i := 0 to |subs|
      invariant forall j :: 0 <= j < i ==> subs[j].url != url
    {
      if subs[i].url == url {
        return i;
      }
    }
    at := |subs|;
  }

  function AllLinks(manual: seq<string>, subs: seq<Record>): seq<string> {
    if subs == [] then manual else AllLinks(manual, subs[..|subs| - 1]) + subs[|subs| - 1].links
  }

  function TrimAll(s: seq<string>): (r: seq<string>)
    ensures |r| == |s| && forall i :: 0 <= i < |s| ==> r[i] == Trim(s[i])
  {
    seq(|s|, i requires 0 <= i < |s| => Trim(s[i]))
  }

  lemma TrimAllSnoc(s: seq<string>, x: string)
    ensures
      var r := Dedupe(TrimAll(s));
      Dedupe(TrimAll(s + [x])) == if Trim(x) == "" || Trim(x) in r then r else r + [Trim(x)]
  {
    assert TrimAll(s + [x]) == TrimAll(s) + [Trim(x)];
    assert (TrimAll(s) + [Trim(x)])[..|s|] == TrimAll(s);
  }

  lemma {:induction false} ReplacedKeepsUrl(r: Record, s: seq<Record>)
    ensures Replaced(r, s).url == r.url
  {
    if s != [] && s[|s| - 1].url != r.url {
      ReplacedKeepsUrl(r, s[..|s| - 1]);
    }
  }

  /** A merge keeps the URL list found at merge time, in its order: nothing removed comes
      back, nothing added is lost. */
  lemma MergedKeepsUrls(subs: seq<Record>, outcomes: seq<Record>)
    ensures Urls(Merged(subs, outcomes)) == Urls(subs)
  {
    forall i | 0 <= i < |subs|
      ensures Merged(subs, outcomes)[i].url == subs[i].url
    {
      ReplacedKeepsUrl(subs[i], outcomes);
    }
  }

  lemma MergeOne(subs: seq<Record>, outcomes: seq<Record>, o: Record, at: nat)
    requires
      var m := Merged(subs, outcomes);
      at <= |m| && (at < |m| ==> m[at].url == o.url) && forall j :: 0 <= j < at ==> m[j].url != o.url
    ensures
      var m := Merged(subs, outcomes);
      Merged(subs, outcomes + [o]) == if at < |m| then m[at := o] else m
  {
    var m, r := Merged(subs, outcomes), Merged(subs, outcomes + [o]);
    MergedKeepsUrls(subs, outcomes);
    forall i | 0 <= i < |subs|
      ensures r[i] == if i == at then o else m[i]
    {
      assert Urls(m)[i] == subs[i].url;
      assert (outcomes + [o])[..|outcomes|] == outcomes;
      if subs[i].url == o.url {
        assert Urls(subs)[at] == o.url;
        assert First(Urls(subs), subs[i].url) == at;
      }
    }
  }

  // ---------------------------------------------------------------- what a refresh does

  lemma {:induction false} ReplacedBy(r: Record, s: seq<Record>, k: nat)
    requires k < |s| && s[k].url == r.url && forall j :: k < j < |s| ==> s[j].url != r.url
    ensures Replaced(r, s) == s[k]
  {
    if k < |s| - 1 {
      ReplacedBy(r, s[..|s| - 1], k);
    }
  }

  lemma {:induction false} ReplacedByNone(r: Record, s: seq<Record>)
    requires forall j :: 0 <= j < |s| ==> s[j].url != r.url
    ensures Replaced(r, s) == r
  {
    if s != [] {
      ReplacedByNone(r, s[..|s| - 1]);
    }
  }

  /** The fetch of record `i` brought other links, as the joined texts tell. */
  predicate Changed(s: seq<Record>, outcomes: seq<Outcome>, i: int)
    requires |s| == |outcomes|
  {
    0 <= i < |s| && outcomes[i].Fetched? && Joined(outcomes[i].links) != Joined(s[i].links)
  }

  function ChangedSet(s: seq<Record>, outcomes: seq<Outcome>): set<int>
    requires |s| == |outcomes|
  {
    set i | 0 <= i < |s| && Changed(s, outcomes, i)
  }

  lemma ChangedPrefix(s: seq<Record>, outcomes: seq<Outcome>, i: int)
    requires |s| == |outcomes| && 0 <= i < |s| - 1
    ensures Changed(s[..|s| - 1], outcomes[..|s| - 1], i) <==> Changed(s, outcomes, i)
  {
  }

  lemma ChangedSetLast(s: seq<Record>, outcomes: seq<Outcome>)
    requires |s| == |outcomes| > 0
    ensures
      var n := |s| - 1;
      |ChangedSet(s, outcomes)| == |ChangedSet(s[..n], outcomes[..n])| + if Changed(s, outcomes, n) then 1 else 0
  {
    var n := |s| - 1;
    var rest, all := ChangedSet(s[..n], outcomes[..n]), ChangedSet(s, outcomes);
    forall i | 0 <= i < n
      ensures i in rest <==> i in all
    {
      ChangedPrefix(s, outcomes, i);
    }
    assert n !in rest;
    assert all == if Changed(s, outcomes, n) then rest + {n} else rest;
  }

  /** The reported number is that of the records whose fetch succeeded and brought other links. */
  lemma {:induction false} ChangesCount(s: seq<Record>, outcomes: seq<Outcome>)
    requires |s| == |outcomes|
    ensures Changes(s, outcomes) == |ChangedSet(s, outcomes)|
  {
    if s != [] {
      var n := |s| - 1;
      ChangesCount(s[..n], outcomes[..n]);
      ChangedSetLast(s, outcomes);
    }
  }

  lemma FetchKeepsUrl(r: Record, o: Outcome)
    ensures FetchedInto(r, o).0.url == r.url
    ensures !FetchedInto(r, o).1 ==> FetchedInto(r, o).0.links == r.links
  {
  }

  /** `k` is the last record of the snapshot with the URL. */
  predicate LastOf(snapshot: seq<Record>, url: string, k: int) {
    0 <= k < |snapshot| && snapshot[k].url == url && forall j :: k < j < |snapshot| ==> snapshot[j].url != url
  }

  /** Whatever was added and removed while the fetches ran: the refreshed list has the URLs
      found at merge time; the first record of a URL the snapshot held gets the last outcome for
      that URL, and every other record stays. Repeated URLs, which two additions at the same time
      can produce, are included. */
  lemma RefreshMeans(snapshot: seq<Record>, outcomes: seq<Outcome>, now: seq<Record>, i: nat)
    requires |snapshot| == |outcomes| && i < |now|
    ensures
      var r := Merged(now, AfterFetches(snapshot, outcomes));
      && Urls(r) == Urls(now)
      && (forall k :: LastOf(snapshot, now[i].url, k) ==>
            r[i] == if First(Urls(now), now[i].url) == i then FetchedInto(snapshot[k], outcomes[k]).0 else now[i])
      && (now[i].url !in Urls(snapshot) ==> r[i] == now[i])
  {
    var fetched := AfterFetches(snapshot, outcomes);
    MergedKeepsUrls(now, fetched);
    forall j | 0 <= j < |snapshot|
      ensures fetched[j].url == snapshot[j].url == Urls(snapshot)[j]
    {
      FetchKeepsUrl(snapshot[j], outcomes[j]);
    }
    forall k | LastOf(snapshot, now[i].url, k)
      ensures Replaced(now[i], fetched) == FetchedInto(snapshot[k], outcomes[k]).0
    {
      ReplacedBy(now[i], fetched, k);
    }
    if now[i].url !in Urls(snapshot) {
      ReplacedByNone(now[i], fetched);
    }
  }

  /** After a failed fetch the subscription holds the links of the snapshot, whatever the list
      held at merge time. */
  lemma FailedFetchReverts(snapshot: seq<Record>, outcomes: seq<Outcome>, now: seq<Record>, i: nat, k: nat)
    requires |snapshot| == |outcomes| && i < |now| && First(Urls(now), now[i].url) == i
    requires LastOf(snapshot, now[i].url, k) && !outcomes[k].Fetched?
    ensures
      var r := Merged(now, AfterFetches(snapshot, outcomes));
      r[i] == snapshot[k].(error := outcomes[k].message)
  {
    RefreshMeans(snapshot, outcomes, now, i);
  }

  /** After a successful fetch the subscription holds what was fetched and no error; a blank
      title keeps that of the snapshot. */
  lemma FetchedReplaces(snapshot: seq<Record>, outcomes: seq<Outcome>, now: seq<Record>, i: nat, k: nat)
    requires |snapshot| == |outcomes| && i < |now| && First(Urls(now), now[i].url) == i
    requires LastOf(snapshot, now[i].url, k) && outcomes[k].Fetched?
    ensures
      var r, o := Merged(now, AfterFetches(snapshot, outcomes))[i], outcomes[k];
      && r.url == now[i].url && r.links == o.links && r.meta == o.meta && r.updated == o.now && r.error == ""
      && r.title == if o.title == "" then snapshot[k].title else o.title
  {
    RefreshMeans(snapshot, outcomes, now, i);
    FetchKeepsUrl(snapshot[k], outcomes[k]);
  }

  /** Two overlapping refreshes of one subscription: the first to merge has new links, the second
      failed, and afterwards the new links are lost. */
  lemma OverlapLosesLinks(r: Record, fetched: Outcome, failed: Outcome)
    requires fetched.Fetched? && fetched.links != r.links && !failed.Fetched?
    ensures
      var first := Merged([r], AfterFetches([r], [fetched]));
      && first[0].links == fetched.links
      && Merged(first, AfterFetches([r], [failed])) == [r.(error := failed.message)]
  {
    var snapshot := [r];
    var first := Merged(snapshot, AfterFetches(snapshot, [fetched]));
    assert LastOf(snapshot, r.url, 0) && First(Urls(snapshot), r.url) == 0;
    RefreshMeans(snapshot, [fetched], snapshot, 0);
    assert first[0].url == r.url && First(Urls(first), r.url) == 0;
    FailedFetchReverts(snapshot, [failed], first, 0, 0);
  }

  /** Joining with newlines tells lists of nonblank one-line links apart. */
  lemma JoinedTellsApart(a: seq<string>, b: seq<string>)
    requires forall l :: l in a + b ==> l != "" && '\n' !in l
    ensures Joined(a) == Joined(b) <==> a == b
  {
    assert forall l :: l in a || l in b ==> l in a + b;
    assert Split("", '\n') == [""];
    if a != [] {
      SplitJoin(a, '\n');
      assert a[0] in a + b;
    }
    if b != [] {
      SplitJoin(b, '\n');
      assert b[0] in a + b;
    }
  }

  /** The effective links are exactly the nonblank trimmed links of the user and of the
      subscriptions, none twice, in the order in which they first occur. */
  lemma EffectiveLinksMean(manual: seq<string>, subs: seq<Record>)
    ensures
      var all := TrimAll(AllLinks(manual, subs));
      var out := Dedupe(all);
      && NoDup(out)
      && (forall x :: x in out <==>
            x != "" && (x in TrimAll(manual) || exists k :: 0 <= k < |subs| && x in TrimAll(subs[k].links)))
      && (forall i, j :: 0 <= i < j < |out| ==> First(all, out[i]) < First(all, out[j]))
  {
    DedupeMeans(TrimAll(AllLinks(manual, subs)));
    AllLinksMean(manual, subs);
  }

  /** Every effective link of the user stands before every other. */
  lemma ManualLinksFirst(manual: seq<string>, subs: seq<Record>, i: nat, j: nat)
    requires
      var out := Dedupe(TrimAll(AllLinks(manual, subs)));
      i < |out| && j < |out| && out[i] in TrimAll(manual) && out[j] !in TrimAll(manual)
    ensures i < j
  {
    var all := TrimAll(AllLinks(manual, subs));
    var out := Dedupe(all);
    DedupeMeans(all);
    assert out[i] in all && out[j] in all;
    ManualFirst(manual, subs, out[i]);
    ManualFirst(manual, subs, out[j]);
    assert First(all, out[i]) < First(all, out[j]);
    assert i != j;
  }

  lemma {:induction false} AllLinksMean(manual: seq<string>, subs: seq<Record>)
    ensures forall x :: x in TrimAll(AllLinks(manual, subs))
              <==> x in TrimAll(manual) || exists k :: 0 <= k < |subs| && x in TrimAll(subs[k].links)
  {
    if subs != [] {
      var p, last := subs[..|subs| - 1], subs[|subs| - 1];
      AllLinksMean(manual, p);
      assert TrimAll(AllLinks(manual, subs)) == TrimAll(AllLinks(manual, p)) + TrimAll(last.links);
      assert forall k :: 0 <= k < |p| ==> p[k] == subs[k];
    }
  }

  /** The manual links are the front of all links. */
  lemma {:induction false} ManualFront(manual: seq<string>, subs: seq<Record>)
    ensures |AllLinks(manual, subs)| >= |manual| && AllLinks(manual, subs)[..|manual|] == manual
  {
    if subs != [] {
      ManualFront(manual, subs[..|subs| - 1]);
    }
  }

  lemma ManualFirst(manual: seq<string>, subs: seq<Record>, x: string)
    requires x in TrimAll(AllLinks(manual, subs))
    ensures First(TrimAll(AllLinks(manual, subs)), x) < |manual| <==> x in TrimAll(manual)
  {
    ManualFront(manual, subs);
    var all := TrimAll(AllLinks(manual, subs));
    assert all[..|manual|] == TrimAll(manual);
    var k := First(all, x);
    if k < |manual| {
      assert all[..|manual|][k] == x;
    }
  }
}
