/**
 Whether the grouping of `Processes` depends on the order in which the processes are listed:
 a root without a name takes that of its process on the way, which later climbs then see.
 */
module ListingOrder {
  import opened Wrappers
  import opened Distinct
  import opened Processes

  lemma {:induction false} NamedRoots(t: Table, name: map<Pid, string>, procs: seq<Process>, n: nat)
    requires n <= |procs| && forall i :: 0 <= i < |procs| ==> procs[i].pid in name
    ensures NamesAfter(t, name, procs, n) == name
    ensures n < |procs| ==> RootOf(t, name, procs, n) == Root(t, name, procs[n].pid)
  {
    if n > 0 {
      NamedRoots(t, name, procs, n - 1);
    }
  }

  /** When every process has a name beforehand, listing the same processes in another order
      gives each the same application, and the same applications in all. */
  lemma OrderIrrelevant(t: Table, name: map<Pid, string>, a: seq<Process>, b: seq<Process>)
    requires multiset(a) == multiset(b) && forall i :: 0 <= i < |a| ==> a[i].pid in name
    ensures forall i, j :: 0 <= i < |a| && 0 <= j < |b| && a[i] == b[j] ==> RootOf(t, name, a, i) == RootOf(t, name, b, j)
    ensures forall r :: r in Roots(t, name, a) <==> r in Roots(t, name, b)
  {
    SameRoots(t, name, a, b);
    SameRoots(t, name, b, a);
  }

  lemma SameRoots(t: Table, name: map<Pid, string>, a: seq<Process>, b: seq<Process>)
    requires multiset(a) == multiset(b) && forall i :: 0 <= i < |a| ==> a[i].pid in name
    ensures forall j :: 0 <= j < |b| ==> b[j].pid in name
    ensures forall i, j :: 0 <= i < |a| && 0 <= j < |b| && a[i] == b[j] ==> RootOf(t, name, a, i) == RootOf(t, name, b, j)
    ensures forall r :: r in Roots(t, name, a) ==> r in Roots(t, name, b)
  {
    forall j | 0 <= j < |b|
      ensures b[j].pid in name
    {
      assert b[j] in multiset(a);
    }
    forall i, j | 0 <= i < |a| && 0 <= j < |b| && a[i] == b[j]
      ensures RootOf(t, name, a, i) == RootOf(t, name, b, j)
    {
      NamedRoots(t, name, a, i);
      NamedRoots(t, name, b, j);
    }
    forall i | 0 <= i < |a|
      ensures Roots(t, name, a)[i] in Roots(t, name, b)
    {
      assert a[i] in multiset(b);
      var j :| 0 <= j < |b| && b[j] == a[i];
      assert Roots(t, name, b)[j] == Roots(t, name, a)[i];
    }
  }

  /** Without names it does: a helper listed before its unnamed parent is an application of
      its own, listed after it the parent's. */
  lemma OrderMatters(t: Table, child: Process, parent: Process)
    requires child.pid != parent.pid && parent.pid > 1
    requires t.parent == map[child.pid := parent.pid]
    requires forall a, b :: t.same(a, b) <==> a != "" && a == b
    requires !t.launcher(child.name) && !t.launcher("") && child.name != "" && parent.name == child.name
    ensures
      var name := map[child.pid := child.name];
      && RootOf(t, name, [child, parent], 0) == child.pid
      && RootOf(t, name, [parent, child], 1) == parent.pid
  {
    var name := map[child.pid := child.name];
    assert Root(t, name, parent.pid) == parent.pid;
    assert NamesAfter(t, name, [parent, child], 0) == name;
    var named := NamesAfter(t, name, [parent, child], 1);
    assert named == name[parent.pid := parent.name];
    assert Next(t, named, child.pid) == Some(parent.pid);
    assert Next(t, named, parent.pid) == None;
    assert Climb(t, named, parent.pid, {child.pid, parent.pid}) == parent.pid;
    assert {child.pid} + {parent.pid} == {child.pid, parent.pid};
  }

  // ---------------------------------------------------------------- exactly when the order matters

  /** An empty name belongs to no application. */
  ghost predicate EmptyIsAlone(t: Table) {
    forall a, b :: t.same(a, b) ==> a != "" && b != ""
  }

  predicate DistinctPids(procs: seq<Process>) {
    forall i, j :: 0 <= i < j < |procs| ==> procs[i].pid != procs[j].pid
  }

  /** `u` has no name yet, and with its name the climb that ends at `r` would go on to it. */
  predicate StopsAt(t: Table, name: map<Pid, string>, r: Pid, u: Process) {
    && u.pid !in name && r in t.parent && t.parent[r] == u.pid && u.pid != 0 && u.pid != 1
    && !t.launcher(u.name) && t.same(NameOf(name, r), u.name)
  }

  /** The application of the named process `p` stops below the unnamed process `u` of its own. */
  predicate StopsBelow(t: Table, name: map<Pid, string>, p: Process, u: Process) {
    p.pid in name && StopsAt(t, name, Root(t, name, p.pid), u)
  }

  /** `names` adds to `name` the names of some listed processes. */
  ghost predicate Extends(name: map<Pid, string>, names: map<Pid, string>, procs: seq<Process>) {
    && (forall q :: q in name ==> q in names && names[q] == name[q])
    && (forall q :: q in names && q !in name ==>
          exists k :: 0 <= k < |procs| && procs[k].pid == q && names[q] == procs[k].name)
  }

  lemma {:induction false} NamesExtend(t: Table, name: map<Pid, string>, procs: seq<Process>, n: nat)
    requires n <= |procs|
    ensures Extends(name, NamesAfter(t, name, procs, n), procs[..n])
  {
    if n > 0 {
      NamesExtend(t, name, procs, n - 1);
      var p := procs[n - 1];
      assert procs[..n] == procs[..n - 1] + [p];
      var before, after := NamesAfter(t, name, procs, n - 1), NamesAfter(t, name, procs, n);
      assert after == Named(before, p, Root(t, before, p.pid));
      forall q | q in after && q !in name
        ensures exists k :: 0 <= k < n && procs[..n][k].pid == q && after[q] == procs[..n][k].name
      {
        if q in before {
          var k :| 0 <= k < n - 1 && procs[..n - 1][k].pid == q && before[q] == procs[..n - 1][k].name;
          assert procs[..n][k] == procs[..n - 1][k];
        } else {
          assert procs[..n][n - 1] == p;
        }
      }
    }
  }

  /** A process without a name is its own root. */
  lemma UnnamedRoot(t: Table, name: map<Pid, string>, p: Pid)
    requires EmptyIsAlone(t) && p !in name
    ensures Root(t, name, p) == p
  {
    assert Next(t, name, p).None?;
  }

  lemma NextNamed(t: Table, name: map<Pid, string>, names: map<Pid, string>, procs: seq<Process>, p: Pid)
    requires EmptyIsAlone(t) && Extends(name, names, procs) && p in name
    ensures Next(t, name, p).Some? ==> Next(t, name, p).value in name && Next(t, names, p) == Next(t, name, p)
    ensures Next(t, name, p).None? && (forall u :: u in procs ==> !StopsAt(t, name, p, u)) ==> Next(t, names, p).None?
  {
    if p in t.parent && t.parent[p] in names && t.parent[p] !in name {
      var q := t.parent[p];
      var k :| 0 <= k < |procs| && procs[k].pid == q && names[q] == procs[k].name;
      assert procs[k] in procs;
    }
  }

  /** Names added elsewhere do not change where a climb ends. */
  lemma {:induction false} ClimbKeeps(t: Table, name: map<Pid, string>, names: map<Pid, string>, procs: seq<Process>, p: Pid, seen: set<Pid>)
    requires EmptyIsAlone(t) && Extends(name, names, procs) && p in name
    requires forall u :: u in procs ==> !StopsAt(t, name, Climb(t, name, p, seen), u)
    ensures Climb(t, names, p, seen) == Climb(t, name, p, seen)
    decreases |Unseen(t, seen)|
  {
    NextNamed(t, name, names, procs, p);
    var next := Next(t, name, p);
    if next.Some? && next.value !in seen {
      FewerUnseen(t, seen, next.value);
      ClimbKeeps(t, name, names, procs, next.value, seen + {next.value});
    }
  }

  /** A climb never ends at a process it has left. */
  lemma {:induction false} ClimbAvoids(t: Table, name: map<Pid, string>, p: Pid, seen: set<Pid>)
    ensures Climb(t, name, p, seen) == p || Climb(t, name, p, seen) !in seen
    decreases |Unseen(t, seen)|
  {
    var next := Next(t, name, p);
    if next.Some? && next.value !in seen {
      FewerUnseen(t, seen, next.value);
      ClimbAvoids(t, name, next.value, seen + {next.value});
    }
  }

  /** With the name of the process above it, the climb goes on and ends elsewhere. */
  lemma {:induction false} ClimbGoesOn(t: Table, name: map<Pid, string>, u: Process, p: Pid, seen: set<Pid>)
    requires EmptyIsAlone(t) && p in name && p in seen && forall q :: q in seen ==> q in name
    requires StopsAt(t, name, Climb(t, name, p, seen), u)
    ensures Climb(t, name[u.pid := u.name], p, seen) != Climb(t, name, p, seen)
    decreases |Unseen(t, seen)|
  {
    var names := name[u.pid := u.name];
    assert names[u.pid] == [u][0].name;
    NextNamed(t, name, names, [u], p);
    var next := Next(t, name, p);
    if next.Some? && next.value !in seen {
      FewerUnseen(t, seen, next.value);
      ClimbGoesOn(t, name, u, next.value, seen + {next.value});
    } else {
      assert Climb(t, name, p, seen) == p;
      assert Next(t, names, p) == Some(u.pid);
      FewerUnseen(t, seen, u.pid);
      ClimbAvoids(t, names, u.pid, seen + {u.pid});
    }
  }

  /** Every other order of the list gives each process the same application. */
  ghost predicate OrderFree(t: Table, name: map<Pid, string>, a: seq<Process>) {
    forall b, i, j :: multiset(b) == multiset(a) && 0 <= i < |a| && 0 <= j < |b| && a[i] == b[j] ==>
      RootOf(t, name, a, i) == RootOf(t, name, b, j)
  }

  lemma SettledRoot(t: Table, name: map<Pid, string>, procs: seq<Process>, i: nat)
    requires EmptyIsAlone(t) && DistinctPids(procs) && i < |procs|
    requires forall u :: u in procs ==> !StopsBelow(t, name, procs[i], u)
    ensures RootOf(t, name, procs, i) == Root(t, name, procs[i].pid)
  {
    var p, names := procs[i].pid, NamesAfter(t, name, procs, i);
    NamesExtend(t, name, procs, i);
    if p in name {
      assert forall u :: u in procs[..i] ==> u in procs;
      ClimbKeeps(t, name, names, procs[..i], p, {p});
    } else {
      assert p !in names by {
        assert forall k :: 0 <= k < i ==> procs[..i][k].pid != p;
      }
      UnnamedRoot(t, names, p);
      UnnamedRoot(t, name, p);
    }
  }

  lemma PairFirst(x: Process, y: Process, rest: seq<Process>)
    ensures multiset([x, y] + rest) == multiset{x} + multiset{y} + multiset(rest)
  {
    assert [x, y] + rest == [x] + ([y] + rest);
  }

  lemma TakeTwo(procs: seq<Process>, i: nat, j: nat) returns (rest: seq<Process>)
    requires i < j < |procs|
    ensures multiset(procs) == multiset{procs[i]} + multiset{procs[j]} + multiset(rest)
  {
    var front, back := procs[..j], procs[j + 1..];
    assert procs == front + ([procs[j]] + back);
    assert front == front[..i] + ([front[i]] + front[i + 1..]);
    rest := front[..i] + front[i + 1..] + back;
  }

  /** The two listed processes first, in either order, and the others after them. */
  lemma TwoOrders(procs: seq<Process>, i: nat, j: nat) returns (rest: seq<Process>)
    requires i < |procs| && j < |procs| && i != j
    ensures multiset([procs[i], procs[j]] + rest) == multiset(procs)
    ensures multiset([procs[j], procs[i]] + rest) == multiset(procs)
  {
    if i < j {
      rest := TakeTwo(procs, i, j);
    } else {
      rest := TakeTwo(procs, j, i);
    }
    PairFirst(procs[i], procs[j], rest);
    PairFirst(procs[j], procs[i], rest);
  }

  lemma SwapChangesRoot(t: Table, name: map<Pid, string>, p: Process, u: Process, rest: seq<Process>)
    requires EmptyIsAlone(t) && p.pid != u.pid && StopsBelow(t, name, p, u)
    ensures RootOf(t, name, [p, u] + rest, 0) != RootOf(t, name, [u, p] + rest, 1)
  {
    var a, b := [p, u] + rest, [u, p] + rest;
    assert a[0] == p && b[0] == u && b[1] == p;
    assert NamesAfter(t, name, a, 0) == name && NamesAfter(t, name, b, 0) == name;
    UnnamedRoot(t, name, u.pid);
    assert NamesAfter(t, name, b, 1) == Named(name, u, u.pid) == name[u.pid := u.name];
    ClimbGoesOn(t, name, u, p.pid, {p.pid});
  }

  /** The order of the list does not matter exactly when the application of no listed process
      stops below a listed process without a name that belongs to it. */
  lemma OrderFreeIff(t: Table, name: map<Pid, string>, a: seq<Process>)
    requires EmptyIsAlone(t) && DistinctPids(a)
    ensures OrderFree(t, name, a) <==> forall p, u :: p in a && u in a ==> !StopsBelow(t, name, p, u)
  {
    if forall p, u :: p in a && u in a ==> !StopsBelow(t, name, p, u) {
      forall b, i, j | multiset(b) == multiset(a) && 0 <= i < |a| && 0 <= j < |b| && a[i] == b[j]
        ensures RootOf(t, name, a, i) == RootOf(t, name, b, j)
      {
        SameProcesses(a, b);
        assert a[i] in a && b[j] in a;
        SettledRoot(t, name, a, i);
        SettledRoot(t, name, b, j);
      }
    } else {
      var p, u :| p in a && u in a && StopsBelow(t, name, p, u);
      StopsBelowMatters(t, name, a, p, u);
    }
  }

  lemma StopsBelowMatters(t: Table, name: map<Pid, string>, a: seq<Process>, p: Process, u: Process)
    requires EmptyIsAlone(t) && p in a && u in a && StopsBelow(t, name, p, u)
    ensures !OrderFree(t, name, a)
  {
    var i :| 0 <= i < |a| && a[i] == p;
    var j :| 0 <= j < |a| && a[j] == u;
    var rest := TwoOrders(a, i, j);
    SwapChangesRoot(t, name, p, u, rest);
    var b, c := [p, u] + rest, [u, p] + rest;
    assert b[0] == p && c[1] == p;
    var own, first, second := RootOf(t, name, a, i), RootOf(t, name, b, 0), RootOf(t, name, c, 1);
    assert own != first || own != second;
  }

  /** A reordering lists the same processes, and no pid twice either. */
  lemma SameProcesses(a: seq<Process>, b: seq<Process>)
    requires multiset(a) == multiset(b) && DistinctPids(a)
    ensures DistinctPids(b)
    ensures forall p :: p in b <==> p in a
  {
    assert forall p :: p in multiset(a) <==> p in a;
    assert forall p :: p in multiset(b) <==> p in b;
    forall i, j | 0 <= i < j < |b|
      ensures b[i].pid != b[j].pid
    {
      assert b[i] in a && b[j] in a;
      var k :| 0 <= k < |a| && a[k] == b[i];
      var l :| 0 <= l < |a| && a[l] == b[j];
      if k == l {
        TwiceInMultiset(b, i, j);
        OnceInMultiset(a, k);
      }
    }
  }

  lemma TwiceInMultiset(s: seq<Process>, i: nat, j: nat)
    requires i < j < |s| && s[i] == s[j]
    ensures multiset(s)[s[i]] >= 2
  {
    assert s == s[..j] + s[j..];
    assert s[..j][i] == s[i] && s[j..][0] == s[j];
    assert s[i] in multiset(s[..j]) && s[i] in multiset(s[j..]);
  }

  lemma OnceInMultiset(s: seq<Process>, k: nat)
    requires k < |s| && DistinctPids(s)
    ensures multiset(s)[s[k]] == 1
  {
    assert s == s[..k] + [s[k]] + s[k + 1..];
    assert s[k] !in s[..k] && s[k] !in s[k + 1..];
    assert multiset(s[..k])[s[k]] == 0 && multiset(s[k + 1..])[s[k]] == 0;
  }
}
