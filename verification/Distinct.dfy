/** Dropping blanks and repetitions from a list, keeping first occurrences in order. */
module Distinct {
  predicate NoDup<T(==)>(s: seq<T>) {
    forall i, j :: 0 <= i < j < |s| ==> s[i] != s[j]
  }

  lemma NoDupSnoc<T>(s: seq<T>, x: T)
    requires NoDup(s)
    ensures x !in s ==> NoDup(s + [x])
  {
  }

  lemma NoDupAppend<T>(s: seq<T>, t: seq<T>)
    requires NoDup(s) && NoDup(t) && forall x :: x in s ==> x !in t
    ensures NoDup(s + t)
  {
    assert forall i :: 0 <= i < |s| ==> s[i] in s;
    assert forall j :: 0 <= j < |t| ==> t[j] in t;
  }

  function Dedupe(s: seq<string>): seq<string> {
    if s == [] then []
    else
      var r, x := Dedupe(s[..|s| - 1]), s[|s| - 1];
      if x == "" || x in r then r else r + [x]
  }

  method DedupeLoop(s: seq<string>) returns (out: seq<string>)
    ensures out == Dedupe(s)
  {
    var seen: set<string> := {};
    out := [];
    for i := 0 to |s|
      invariant out == Dedupe(s[..i])
      invariant forall x :: x in seen <==> x in out
    {
      assert s[..i + 1][..i] == s[..i];
      if s[i] == "" || s[i] in seen {
        continue;
      }
      seen := seen + {s[i]};
      out := out + [s[i]];
    }
    assert s[..|s|] == s;
  }

  /** Position of the first `x` in `s`, or the length of `s`. */
  function First<T(==)>(s: seq<T>, x: T): (i: nat)
    ensures i <= |s|
    ensures i < |s| ==> s[i] == x
    ensures forall k :: 0 <= k < i ==> s[k] != x
  {
    if s == [] || s[0] == x then 0 else 1 + First(s[1..], x)
  }

  lemma FirstOfPrefix<T>(s: seq<T>, n: nat, x: T)
    requires n <= |s| && x in s[..n]
    ensures First(s[..n], x) == First(s, x)
  {
    var i := First(s[..n], x);
    var k :| 0 <= k < n && s[..n][k] == x;
    assert i <= k && s[..n][i] == x;
    assert forall j :: 0 <= j < i ==> s[j] == s[..n][j];
  }

  /** The result holds exactly the nonblank elements, each once, in the order of their first
      occurrences. */
  lemma {:induction false} DedupeMeans(s: seq<string>)
    ensures
      var r := Dedupe(s);
      && NoDup(r)
      && (forall x :: x in r <==> x in s && x != "")
      && (forall i, j :: 0 <= i < j < |r| ==> First(s, r[i]) < First(s, r[j]))
  {
    if s != [] {
      var p, x := s[..|s| - 1], s[|s| - 1];
      DedupeMeans(p);
      var q, r := Dedupe(p), Dedupe(s);
      assert s == p + [x];
      forall i | 0 <= i < |q|
        ensures First(s, q[i]) == First(p, q[i]) < |p|
      {
        assert q[i] in p;
        FirstOfPrefix(s, |s| - 1, q[i]);
      }
      if |r| > |q| {
        assert x !in p;
        assert First(s, x) >= |p|;
      }
    }
  }
}
