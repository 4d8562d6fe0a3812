/**
 Grouping networked processes into applications: climbing to the root process of an
 application, and collecting every application's ports and helpers. Which names are
 launchers and which two names belong to one application are parameters.
 */
module Processes {
  import opened Wrappers
  import opened Distinct

  type Pid = int

  datatype Table = Table(parent: map<Pid, Pid>, launcher: string -> bool, same: (string, string) -> bool)

  function NameOf(name: map<Pid, string>, p: Pid): string {
    if p in name then name[p] else ""
  }

  /** The parent, when it still belongs to the application of `p`. */
  function Next(t: Table, name: map<Pid, string>, p: Pid): Option<Pid> {
    if p !in t.parent || t.parent[p] == 0 || t.parent[p] == 1 then None
    else if t.launcher(NameOf(name, t.parent[p])) || !t.same(NameOf(name, p), NameOf(name, t.parent[p])) then None
    else Some(t.parent[p])
  }

  function Unseen(t: Table, seen: set<Pid>): set<Pid> {
    t.parent.Values - seen
  }

  function Climb(t: Table, name: map<Pid, string>, root: Pid, seen: set<Pid>): Pid
    decreases |Unseen(t, seen)|
  {
    var next := Next(t, name, root);
    if next.None? || next.value in seen then root
    else
      assert Unseen(t, seen + {next.value}) < Unseen(t, seen) by {
        assert next.value in Unseen(t, seen);
      }
      FewerUnseen(t, seen, next.value);
      Climb(t, name, next.value, seen + {next.value})
  }

  lemma FewerUnseen(t: Table, seen: set<Pid>, p: Pid)
    requires p in Unseen(t, seen)
    ensures |Unseen(t, seen + {p})| < |Unseen(t, seen)|
  {
    assert Unseen(t, seen) == Unseen(t, seen + {p}) + {p};
  }

  function Root(t: Table, name: map<Pid, string>, p: Pid): Pid {
    Climb(t, name, p, {p})
  }

  /** Ends on every parent map, cyclic ones included. */
  method AppRoot(t: Table, name: map<Pid, string>, p: Pid) returns (root: Pid)
    ensures root == Root(t, name, p)
  {
    root := p;
    var seen := {p};
    while true
      invariant Climb(t, name, root, seen) == Root(t, name, p)
      decreases |Unseen(t, seen)|
    {
      if root !in t.parent {
        return;
      }
      var parent := t.parent[root];
      if parent == 0 || parent == 1 || parent in seen {
        return;
      }
      if t.launcher(NameOf(name, parent)) {
        return;
      }
      if !t.same(NameOf(name, root), NameOf(name, parent)) {
        return;
      }
      FewerUnseen(t, seen, parent);
      seen := seen + {parent};
      root := parent;
    }
  }

  // ---------------------------------------------------------------- what the root is

  /** The processes climbed through. */
  function Trail(t: Table, name: map<Pid, string>, root: Pid, seen: set<Pid>): (r: seq<Pid>)
    ensures |r| > 0 && r[0] == root
    decreases |Unseen(t, seen)|
  {
    var next := Next(t, name, root);
    if next.None? || next.value in seen then [root]
    else
      FewerUnseen(t, seen, next.value);
      [root] + Trail(t, name, next.value, seen + {next.value})
  }

  /** From parent to parent inside one application, without repetition. */
  predicate Path(t: Table, name: map<Pid, string>, path: seq<Pid>) {
    NoDup(path) && forall i :: 0 <= i < |path| - 1 ==> Next(t, name, path[i]) == Some(path[i + 1])
  }

  lemma {:induction false} TrailMeans(t: Table, name: map<Pid, string>, root: Pid, seen: set<Pid>)
    requires root in seen
    ensures
      var r := Trail(t, name, root, seen);
      && Path(t, name, r) && r[|r| - 1] == Climb(t, name, root, seen)
      && (forall i :: 1 <= i < |r| ==> r[i] !in seen)
      && var next := Next(t, name, r[|r| - 1]); next.None? || next.value in seen || next.value in r
    decreases |Unseen(t, seen)|
  {
    var next := Next(t, name, root);
    if next.Some? && next.value !in seen {
      FewerUnseen(t, seen, next.value);
      TrailMeans(t, name, next.value, seen + {next.value});
      var rest := Trail(t, name, next.value, seen + {next.value});
      PathCons(t, name, root, rest);
    }
  }

  lemma PathCons(t: Table, name: map<Pid, string>, p: Pid, rest: seq<Pid>)
    requires rest != [] && Path(t, name, rest) && Next(t, name, p) == Some(rest[0]) && p !in rest
    ensures Path(t, name, [p] + rest)
  {
    assert forall i :: 0 <= i < |rest| ==> rest[i] in rest;
  }

  /** The root is an ancestor of the process within its application, and the topmost one:
      the application ends there or the parents run in a cycle. */
  lemma RootIsTopmost(t: Table, name: map<Pid, string>, p: Pid)
    ensures
      var path := Trail(t, name, p, {p});
      && Path(t, name, path) && path[0] == p && path[|path| - 1] == Root(t, name, p)
      && var next := Next(t, name, Root(t, name, p)); next.None? || next.value in path
  {
    TrailMeans(t, name, p, {p});
  }

  /** `q` is the parent of `p` and of the same application: a known process other than 0 and 1,
      no launcher, with a name that belongs with that of `p`. */
  predicate SameAppParent(t: Table, name: map<Pid, string>, p: Pid, q: Pid) {
    && p in t.parent && t.parent[p] == q && q != 0 && q != 1
    && !t.launcher(NameOf(name, q)) && t.same(NameOf(name, p), NameOf(name, q))
  }

  /** A chain of parents from `p` to `root` without repetition that stops only where it must:
      nothing of the application is above `root` but what has been passed. */
  predicate FullClimb(t: Table, name: map<Pid, string>, p: Pid, root: Pid, path: seq<Pid>) {
    && NoDup(path) && path != [] && path[0] == p && path[|path| - 1] == root
    && (forall i :: 0 <= i < |path| - 1 ==> SameAppParent(t, name, path[i], path[i + 1]))
    && (root in t.parent ==> !SameAppParent(t, name, root, t.parent[root]) || t.parent[root] in path)
  }

  lemma NextMeans(t: Table, name: map<Pid, string>, p: Pid, q: Pid)
    ensures Next(t, name, p) == Some(q) <==> SameAppParent(t, name, p, q)
  {
  }

  /** The root is the end of the full climb, and there is no other full climb. */
  lemma RootIff(t: Table, name: map<Pid, string>, p: Pid, root: Pid)
    ensures root == Root(t, name, p) <==> exists path :: FullClimb(t, name, p, root, path)
  {
    var own := Trail(t, name, p, {p});
    RootIsTopmost(t, name, p);
    FullClimbIsPath(t, name, p, Root(t, name, p), own);
    assert FullClimb(t, name, p, Root(t, name, p), own);
    if path :| FullClimb(t, name, p, root, path) {
      FullClimbIsPath(t, name, p, root, path);
      OneFullPath(t, name, own, path);
      OneFullPath(t, name, path, own);
    }
  }

  predicate FullPath(t: Table, name: map<Pid, string>, path: seq<Pid>) {
    && path != [] && Path(t, name, path)
    && (Next(t, name, path[|path| - 1]).Some? ==> Next(t, name, path[|path| - 1]).value in path)
  }

  lemma FullClimbIsPath(t: Table, name: map<Pid, string>, p: Pid, root: Pid, path: seq<Pid>)
    requires path != [] && path[0] == p && path[|path| - 1] == root
    ensures FullClimb(t, name, p, root, path) <==> FullPath(t, name, path)
  {
    forall i | 0 <= i < |path| - 1
      ensures Next(t, name, path[i]) == Some(path[i + 1]) <==> SameAppParent(t, name, path[i], path[i + 1])
    {
      NextMeans(t, name, path[i], path[i + 1]);
    }
  }

  lemma StepIsNew(t: Table, name: map<Pid, string>, path: seq<Pid>, k: nat)
    requires 0 < k < |path| && Path(t, name, path)
    ensures Next(t, name, path[k - 1]) == Some(path[k]) && path[k] !in path[..k]
  {
  }

  lemma OneFullPath(t: Table, name: map<Pid, string>, a: seq<Pid>, b: seq<Pid>)
    requires FullPath(t, name, a) && FullPath(t, name, b) && a[0] == b[0]
    ensures |b| <= |a| && b[|b| - 1] == a[|b| - 1]
  {
    var n := if |a| < |b| then |a| else |b|;
    forall i | 0 <= i < n
      ensures a[i] == b[i]
    {
      UpAlong(t, name, a, i);
      UpAlong(t, name, b, i);
    }
    if |a| < |b| {
      assert a == b[..|a|];
      StepIsNew(t, name, b, |a|);
      assert false;
    }
  }

  /** The `k`-th ancestor of `p` within its application. */
  function Up(t: Table, name: map<Pid, string>, p: Pid, k: nat): Option<Pid> {
    if k == 0 then Some(p)
    else if Up(t, name, p, k - 1).None? then None
    else Next(t, name, Up(t, name, p, k - 1).value)
  }

  /** The `i`-th ancestor has another one above it and is met again as the `j`-th. */
  predicate Recurs(t: Table, name: map<Pid, string>, p: Pid, i: nat, j: nat) {
    && i + 1 < j && Up(t, name, p, i).Some?
    && Up(t, name, p, j) == Up(t, name, p, i) != Up(t, name, p, i + 1)
  }

  /** Climbing from `p` leaves some process for another one and comes back to it. */
  ghost predicate EntersCycle(t: Table, name: map<Pid, string>, p: Pid) {
    exists i: nat, j: nat :: Recurs(t, name, p, i, j)
  }

  lemma {:induction false} UpAlong(t: Table, name: map<Pid, string>, path: seq<Pid>, i: nat)
    requires i < |path| && Path(t, name, path)
    ensures Up(t, name, path[0], i) == Some(path[i])
  {
    if i > 0 {
      UpAlong(t, name, path, i - 1);
    }
  }

  /** Beyond the root the chain ends, or stands still at a process that is its own parent. */
  lemma {:induction false} UpBeyond(t: Table, name: map<Pid, string>, path: seq<Pid>, k: nat)
    requires path != [] && Path(t, name, path) && k >= |path|
    requires var next := Next(t, name, path[|path| - 1]); next.None? || next.value == path[|path| - 1]
    ensures Up(t, name, path[0], k) == Next(t, name, path[|path| - 1])
  {
    if k == |path| {
      UpAlong(t, name, path, k - 1);
    } else {
      UpBeyond(t, name, path, k - 1);
    }
  }

  lemma RootOfRoot(t: Table, name: map<Pid, string>, r: Pid)
    ensures Root(t, name, r) == r <==> Next(t, name, r).None? || Next(t, name, r).value == r
  {
    RootIsTopmost(t, name, r);
    var path := Trail(t, name, r, {r});
    if Next(t, name, r).Some? && Next(t, name, r).value != r {
      assert |path| > 1;
    }
  }

  lemma NoCycleBeyond(t: Table, name: map<Pid, string>, path: seq<Pid>, i: nat, j: nat)
    requires path != [] && Path(t, name, path)
    requires var next := Next(t, name, path[|path| - 1]); next.None? || next.value == path[|path| - 1]
    ensures !Recurs(t, name, path[0], i, j)
  {
    UpAt(t, name, path, i);
    UpAt(t, name, path, j);
    UpAt(t, name, path, i + 1);
  }

  lemma UpAt(t: Table, name: map<Pid, string>, path: seq<Pid>, k: nat)
    requires path != [] && Path(t, name, path)
    requires var next := Next(t, name, path[|path| - 1]); next.None? || next.value == path[|path| - 1]
    ensures Up(t, name, path[0], k) == if k < |path| then Some(path[k]) else Next(t, name, path[|path| - 1])
  {
    if k < |path| {
      UpAlong(t, name, path, k);
    } else {
      UpBeyond(t, name, path, k);
    }
  }

  lemma NoCycleFound(t: Table, name: map<Pid, string>, path: seq<Pid>)
    requires path != [] && Path(t, name, path)
    requires var next := Next(t, name, path[|path| - 1]); next.None? || next.value == path[|path| - 1]
    ensures !EntersCycle(t, name, path[0])
  {
    if i: nat, j: nat :| Recurs(t, name, path[0], i, j) {
      NoCycleBeyond(t, name, path, i, j);
    }
  }

  lemma CycleFound(t: Table, name: map<Pid, string>, p: Pid, path: seq<Pid>, i: nat)
    requires Path(t, name, path) && i < |path| - 1 && path[0] == p
    requires Next(t, name, path[|path| - 1]) == Some(path[i])
    ensures EntersCycle(t, name, p)
  {
    var n := |path|;
    UpAlong(t, name, path, i);
    UpAlong(t, name, path, i + 1);
    UpAlong(t, name, path, n - 1);
    assert Up(t, name, p, n) == Some(path[i]);
    assert Recurs(t, name, p, i, n);
  }

  /** The root of a root is itself exactly when climbing from the process enters no cycle of
      two or more processes. */
  lemma RootIdempotentIff(t: Table, name: map<Pid, string>, p: Pid)
    ensures Root(t, name, Root(t, name, p)) == Root(t, name, p) <==> !EntersCycle(t, name, p)
  {
    var r := Root(t, name, p);
    RootOfRoot(t, name, r);
    RootIsTopmost(t, name, p);
    var path := Trail(t, name, p, {p});
    var next := Next(t, name, r);
    if next.Some? && next.value != r {
      var i :| 0 <= i < |path| && path[i] == next.value;
      CycleFound(t, name, p, path, i);
    } else {
      NoCycleFound(t, name, path);
    }
  }

  /** Parents are ranked below their children, as in every process tree. */
  ghost predicate Ranked(t: Table, name: map<Pid, string>, rank: Pid -> nat) {
    forall p :: Next(t, name, p).Some? ==> rank(Next(t, name, p).value) < rank(p)
  }

  lemma {:induction false} RankFalls(t: Table, name: map<Pid, string>, rank: Pid -> nat, path: seq<Pid>, i: nat)
    requires Ranked(t, name, rank) && Path(t, name, path) && i < |path|
    ensures rank(path[|path| - 1]) <= rank(path[i])
    decreases |path| - i
  {
    if i < |path| - 1 {
      RankFalls(t, name, rank, path, i + 1);
      assert Next(t, name, path[i]) == Some(path[i + 1]);
    }
  }

  /** Without cycles the root has no parent in its application and is its own root. */
  lemma AcyclicRoot(t: Table, name: map<Pid, string>, rank: Pid -> nat, p: Pid)
    requires Ranked(t, name, rank)
    ensures var r := Root(t, name, p); Next(t, name, r).None? && Root(t, name, r) == r
  {
    RootIsTopmost(t, name, p);
    var path := Trail(t, name, p, {p});
    var next := Next(t, name, Root(t, name, p));
    if next.Some? {
      var i :| 0 <= i < |path| && path[i] == next.value;
      RankFalls(t, name, rank, path, i);
    }
    RootOfRoot(t, name, Root(t, name, p));
  }

  /** Two processes of one application that are each other's parent are each other's root. */
  lemma TwoCycle(t: Table, name: map<Pid, string>, a: Pid, b: Pid)
    requires a != b && Next(t, name, a) == Some(b) && Next(t, name, b) == Some(a)
    ensures Root(t, name, a) == b && Root(t, name, b) == a
    ensures EntersCycle(t, name, a)
  {
    assert Climb(t, name, a, {a}) == Climb(t, name, b, {a} + {b});
    assert Climb(t, name, b, {b}) == Climb(t, name, a, {b} + {a});
    RootIdempotentIff(t, name, a);
  }

  // ---------------------------------------------------------------- ports

  predicate Ascending(s: seq<int>) {
    forall i, j :: 0 <= i < j < |s| ==> s[i] < s[j]
  }

  function Insert(s: seq<int>, x: int): seq<int> {
    if s == [] || x <= s[0] then [x] + s else [s[0]] + Insert(s[1..], x)
  }

  /** The library's sort. */
  function Sort(s: seq<int>): seq<int> {
    if s == [] then [] else Insert(Sort(s[..|s| - 1]), s[|s| - 1])
  }

  lemma AscendingCons(x: int, rest: seq<int>)
    requires Ascending(rest) && forall y :: y in rest ==> x < y
    ensures Ascending([x] + rest)
  {
    assert forall i :: 0 <= i < |rest| ==> rest[i] in rest;
  }

  lemma {:induction false} InsertMeans(s: seq<int>, x: int)
    requires Ascending(s) && x !in s
    ensures Ascending(Insert(s, x)) && |Insert(s, x)| == |s| + 1
    ensures forall y :: y in Insert(s, x) <==> y == x || y in s
  {
    if s == [] {
      return;
    }
    assert s == [s[0]] + s[1..];
    assert s[0] in s;
    if x <= s[0] {
      AscendingCons(x, s);
    } else {
      InsertMeans(s[1..], x);
      AscendingCons(s[0], Insert(s[1..], x));
    }
  }

  lemma {:induction false} SortMeans(s: seq<int>)
    requires NoDup(s)
    ensures Ascending(Sort(s)) && |Sort(s)| == |s|
    ensures forall y :: y in Sort(s) <==> y in s
  {
    if s != [] {
      var p, x := s[..|s| - 1], s[|s| - 1];
      assert s == p + [x];
      SortMeans(p);
      InsertMeans(Sort(p), x);
    }
  }

  /** The distinct elements of `s` in ascending order; there is only one such list. */
  ghost predicate SortedDistinct(s: seq<int>, r: seq<int>) {
    Ascending(r) && forall y :: y in r <==> y in s
  }

  /** Compacts the distinct ports to the front of the array, over the ports already read,
      and sorts them there. */
  method DedupSortPorts(ports: array<int>) returns (n: nat)
    modifies ports
    ensures n <= ports.Length && SortedDistinct(old(ports[..]), ports[..n])
  {
    var seen: set<int> := {};
    n := 0;
    for i := 0 to ports.Length
      invariant n <= i
      invariant forall k :: i <= k < ports.Length ==> ports[k] == old(ports[k])
      invariant NoDup(ports[..n])
      invariant forall y :: y in ports[..n] <==> y in old(ports[..])[..i]
      invariant forall y :: y in seen <==> y in ports[..n]
    {
      var p := ports[i];
      ghost var front := ports[..n];
      assert old(ports[..])[..i + 1] == old(ports[..])[..i] + [p];
      if p !in seen {
        seen := seen + {p};
        ports[n] := p;
        n := n + 1;
        assert ports[..n] == front + [p];
        NoDupSnoc(front, p);
      }
    }
    assert old(ports[..])[..ports.Length] == old(ports[..]);
    var sorted := Sort(ports[..n]);
    SortMeans(ports[..n]);
    forall k | 0 <= k < n {
      ports[k] := sorted[k];
    }
    assert ports[..n] == sorted;
  }

  // ---------------------------------------------------------------- applications

  datatype Process = Process(pid: Pid, name: string, ports: seq<int>)
  datatype App = App(pid: Pid, name: string, ports: seq<int>, children: nat)

  /** A root without a name takes that of its process. */
  function Named(name: map<Pid, string>, p: Process, root: Pid): map<Pid, string> {
    if p.pid !in name && root == p.pid then name[p.pid := p.name] else name
  }

  /** The names after the first `n` processes. */
  function NamesAfter(t: Table, name: map<Pid, string>, procs: seq<Process>, n: nat): map<Pid, string>
    requires n <= |procs|
  {
    if n == 0 then name
    else
      var before, p := NamesAfter(t, name, procs, n - 1), procs[n - 1];
      Named(before, p, Root(t, before, p.pid))
  }

  /** The application the `i`-th process goes to. */
  function RootOf(t: Table, name: map<Pid, string>, procs: seq<Process>, i: nat): Pid
    requires i < |procs|
  {
    Root(t, NamesAfter(t, name, procs, i), procs[i].pid)
  }

  function Roots(t: Table, name: map<Pid, string>, procs: seq<Process>): (r: seq<Pid>)
    ensures |r| == |procs| && forall i :: 0 <= i < |procs| ==> r[i] == RootOf(t, name, procs, i)
  {
    seq(|procs|, i requires 0 <= i < |procs| => RootOf(t, name, procs, i))
  }

  /** All ports of the members of an application among the first `n` processes. */
  function PortsOf(procs: seq<Process>, roots: seq<Pid>, root: Pid, n: nat): seq<int>
    requires n <= |procs| == |roots|
  {
    if n == 0 then []
    else PortsOf(procs, roots, root, n - 1) + if roots[n - 1] == root then procs[n - 1].ports else []
  }

  function Helpers(procs: seq<Process>, roots: seq<Pid>, root: Pid, n: nat): set<Pid>
    requires n <= |procs| == |roots|
  {
    set i | 0 <= i < n && roots[i] == root && procs[i].pid != root :: procs[i].pid
  }

  datatype Acc = Acc(ports: seq<int>, kids: set<Pid>)

  /** After `n` processes `order` lists the applications seen, each with what its members
      contributed. */
  ghost predicate Grouped(procs: seq<Process>, roots: seq<Pid>, order: seq<Pid>, byRoot: map<Pid, Acc>, n: nat)
    requires n <= |procs| == |roots|
  {
    && NoDup(order)
    && (forall r :: r in order <==> r in byRoot)
    && (forall r :: r in order <==> r in roots[..n])
    && (forall r :: r in byRoot ==>
          byRoot[r].ports == PortsOf(procs, roots, r, n) && byRoot[r].kids == Helpers(procs, roots, r, n))
  }

  function Known(byRoot: map<Pid, Acc>, root: Pid): map<Pid, Acc> {
    if root in byRoot then byRoot else byRoot[root := Acc([], {})]
  }

  function Absorbed(a: Acc, p: Process, root: Pid): Acc {
    Acc(a.ports + p.ports, if p.pid == root then a.kids else a.kids + {p.pid})
  }

  lemma GroupedStep(procs: seq<Process>, roots: seq<Pid>, order: seq<Pid>, byRoot: map<Pid, Acc>, n: nat)
    requires n < |procs| == |roots| && Grouped(procs, roots, order, byRoot, n)
    ensures
      var root := roots[n];
      var known := Known(byRoot, root);
      Grouped(procs, roots, if root in byRoot then order else order + [root],
              known[root := Absorbed(known[root], procs[n], root)], n + 1)
  {
    var root := roots[n];
    var known := Known(byRoot, root);
    assert roots[..n + 1] == roots[..n] + [root];
    NoDupSnoc(order, root);
    if root !in byRoot {
      Fresh(procs, roots, root, n);
    }
    var next := known[root := Absorbed(known[root], procs[n], root)];
    forall r | r in next
      ensures next[r].ports == PortsOf(procs, roots, r, n + 1) && next[r].kids == Helpers(procs, roots, r, n + 1)
    {
      HelpersStep(procs, roots, r, n);
    }
  }

  /** Every process with its ports goes to exactly one application; an application lists
      exactly the distinct ports of its members and counts its distinct other members. */
  method GroupApps(t: Table, name0: map<Pid, string>, procs: seq<Process>)
    returns (apps: seq<App>, name: map<Pid, string>)
    ensures name == NamesAfter(t, name0, procs, |procs|)
    ensures NoDup(PidsOf(apps))
    ensures
      var roots := Roots(t, name0, procs);
      && (forall r :: r in PidsOf(apps) <==> r in roots)
      && (forall k :: 0 <= k < |apps| ==>
            && SortedDistinct(PortsOf(procs, roots, apps[k].pid, |procs|), apps[k].ports)
            && apps[k].children == |Helpers(procs, roots, apps[k].pid, |procs|)|)
  {
    ghost var roots := Roots(t, name0, procs);
    var order, byRoot;
    order, byRoot, name := Collect(t, name0, procs);
    assert roots[..|procs|] == roots;
    apps := Finish(name, order, byRoot);
    assert PidsOf(apps) == order;
    forall k | 0 <= k < |apps|
      ensures SortedDistinct(PortsOf(procs, roots, apps[k].pid, |procs|), apps[k].ports)
      ensures apps[k].children == |Helpers(procs, roots, apps[k].pid, |procs|)|
    {
      assert order[k] in order;
    }
  }

  method Assign(order0: seq<Pid>, byRoot0: map<Pid, Acc>, root: Pid, p: Process,
                ghost procs: seq<Process>, ghost roots: seq<Pid>, ghost n: nat)
    returns (order: seq<Pid>, byRoot: map<Pid, Acc>)
    requires n < |procs| == |roots| && Grouped(procs, roots, order0, byRoot0, n)
    requires p == procs[n] && root == roots[n]
    ensures Grouped(procs, roots, order, byRoot, n + 1)
  {
    GroupedStep(procs, roots, order0, byRoot0, n);
    order, byRoot := order0, byRoot0;
    if root !in byRoot {
      byRoot := byRoot[root := Acc([], {})];
      order := order + [root];
    }
    assert byRoot == Known(byRoot0, root);
    byRoot := byRoot[root := Absorbed(byRoot[root], p, root)];
  }

  method Collect(t: Table, name0: map<Pid, string>, procs: seq<Process>)
    returns (order: seq<Pid>, byRoot: map<Pid, Acc>, name: map<Pid, string>)
    ensures name == NamesAfter(t, name0, procs, |procs|)
    ensures Grouped(procs, Roots(t, name0, procs), order, byRoot, |procs|)
  {
    ghost var roots := Roots(t, name0, procs);
    byRoot, order, name := map[], [], name0;
    for i := 0 to |procs|
      invariant name == NamesAfter(t, name0, procs, i)
      invariant Grouped(procs, roots, order, byRoot, i)
    {
      RootAt(t, name0, procs, i);
      var root := AppRoot(t, name, procs[i].pid);
      order, byRoot := Assign(order, byRoot, root, procs[i], procs, roots, i);
      name := NameRoot(name, procs[i], root);
    }
  }

  lemma RootAt(t: Table, name: map<Pid, string>, procs: seq<Process>, i: nat)
    requires i < |procs|
    ensures
      var before := NamesAfter(t, name, procs, i);
      var root := Root(t, before, procs[i].pid);
      Roots(t, name, procs)[i] == root && NamesAfter(t, name, procs, i + 1) == Named(before, procs[i], root)
  {
  }

  method NameRoot(name0: map<Pid, string>, p: Process, root: Pid) returns (name: map<Pid, string>)
    ensures name == Named(name0, p, root)
  {
    name := name0;
    if root !in name && p.pid == root {
      name := name[root := p.name];
    }
  }

  function PidsOf(apps: seq<App>): (r: seq<Pid>)
    ensures |r| == |apps| && forall k :: 0 <= k < |apps| ==> r[k] == apps[k].pid
  {
    seq(|apps|, k requires 0 <= k < |apps| => apps[k].pid)
  }

  lemma Fresh(procs: seq<Process>, roots: seq<Pid>, root: Pid, n: nat)
    requires n <= |procs| == |roots| && root !in roots[..n]
    ensures PortsOf(procs, roots, root, n) == [] && Helpers(procs, roots, root, n) == {}
  {
    if n > 0 {
      assert roots[..n][n - 1] == roots[n - 1];
      assert roots[..n - 1] == roots[..n][..n - 1];
      Fresh(procs, roots, root, n - 1);
    }
    assert forall i :: 0 <= i < n ==> roots[i] == roots[..n][i];
  }

  lemma HelpersStep(procs: seq<Process>, roots: seq<Pid>, root: Pid, n: nat)
    requires n < |procs| == |roots|
    ensures Helpers(procs, roots, root, n + 1)
         == Helpers(procs, roots, root, n) + if roots[n] == root && procs[n].pid != root then {procs[n].pid} else {}
  {
  }

  method Finish(name: map<Pid, string>, order: seq<Pid>, byRoot: map<Pid, Acc>) returns (apps: seq<App>)
    requires forall r :: r in order ==> r in byRoot
    ensures |apps| == |order|
    ensures forall k :: 0 <= k < |order| ==>
      && apps[k].pid == order[k]
      && SortedDistinct(byRoot[order[k]].ports, apps[k].ports)
      && apps[k].children == |byRoot[order[k]].kids|
  {
    apps := [];
    for i := 0 to |order|
      invariant |apps| == i
      invariant forall k :: 0 <= k < i ==>
        && apps[k].pid == order[k]
        && SortedDistinct(byRoot[order[k]].ports, apps[k].ports)
        && apps[k].children == |byRoot[order[k]].kids|
    {
      assert order[i] in order;
      var a := byRoot[order[i]];
      var ports := new int[|a.ports|](k requires 0 <= k < |a.ports| => a.ports[k]);
      assert ports[..] == a.ports;
      var n := DedupSortPorts(ports);
      apps := apps + [App(order[i], NameOf(name, order[i]), ports[..n], |a.kids|)];
    }
  }
}
