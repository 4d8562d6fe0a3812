/**
 Cutting a text into share links at every `scheme://`, as both the subscription parser and
 the key parser do it, on ASCII text. A regular expression `\b(s1|s2|...)://` is modelled
 by its match at one position (schemes tried in order) and the scan over positions.
 */
module Links {
  import opened Wrappers
  import opened Text

  predicate Word(c: char) {
    '0' <= c <= '9' || 'A' <= c <= 'Z' || 'a' <= c <= 'z' || c == '_'
  }

  /** What every registered scheme is: lower-case letters and digits. */
  predicate Plain(s: string) {
    s != [] && forall i :: 0 <= i < |s| ==> '0' <= s[i] <= '9' || 'a' <= s[i] <= 'z'
  }

  predicate AllPlain(order: seq<string>) {
    forall i :: 0 <= i < |order| ==> Plain(order[i])
  }

  /** A word boundary in front of position `p`. */
  predicate Boundary(text: string, p: nat)
    requires p <= |text|
  {
    (p > 0 && Word(text[p - 1])) != (p < |text| && Word(text[p]))
  }

  /** `s://` stands at position `p`, in any letter case. */
  predicate SchemeAt(text: string, s: string, p: nat) {
    && p + |s| + 3 <= |text|
    && (forall i :: 0 <= i < |s| ==> LowerChar(text[p + i]) == s[i])
    && text[p + |s|] == ':' && text[p + |s| + 1] == '/' && text[p + |s| + 2] == '/'
  }

  function FirstScheme(order: seq<string>, text: string, p: nat): (r: Option<string>)
    ensures r.Some? ==> r.value in order && SchemeAt(text, r.value, p)
    ensures r.None? ==> forall i :: 0 <= i < |order| ==> !SchemeAt(text, order[i], p)
  {
    if order == [] then None
    else if SchemeAt(text, order[0], p) then Some(order[0])
    else FirstScheme(order[1..], text, p)
  }

  /** End of the match of the expression at `p`. */
  function MatchAt(order: seq<string>, text: string, p: nat): (end: Option<nat>)
    requires p <= |text|
    ensures end.Some? ==> p + 3 <= end.value <= |text|
  {
    if !Boundary(text, p) then None
    else
      var s := FirstScheme(order, text, p);
      if s.None? then None else Some(p + |s.value| + 3)
  }

  /** Starts of the non-overlapping matches from `p` on, leftmost first. */
  function Scan(order: seq<string>, text: string, p: nat): seq<nat>
    requires p <= |text|
    decreases |text| - p
  {
    if p == |text| then []
    else
      var end := MatchAt(order, text, p);
      if end.Some? then [p] + Scan(order, text, end.value) else Scan(order, text, p + 1)
  }

  predicate Separator(c: char) {
    c in {',', ';', '\r', '\n', '\t', ' '}
  }

  function TrimSeparators(s: string): (r: string)
    ensures |r| <= |s| && r == s[..|r|]
    ensures r != [] ==> !Separator(r[|r| - 1])
  {
    if s != [] && Separator(s[|s| - 1]) then TrimSeparators(s[..|s| - 1]) else s
  }

  function Clean(s: string): string {
    TrimSeparators(Trim(s))
  }

  /** Where the link that starts at the `i`-th match ends. */
  function EndOf(text: string, starts: seq<nat>, i: nat): nat {
    if i + 1 < |starts| then starts[i + 1] else |text|
  }

  predicate Ascending(text: string, starts: seq<nat>) {
    && (forall i :: 0 <= i < |starts| ==> starts[i] < |text|)
    && (forall i :: 0 <= i < |starts| - 1 ==> starts[i] < starts[i + 1])
  }

  function Cut(text: string, starts: seq<nat>): (links: seq<string>)
    requires Ascending(text, starts)
    ensures |links| == |starts|
  {
    seq(|starts|, i requires 0 <= i < |starts| => Clean(text[starts[i]..EndOf(text, starts, i)]))
  }

  // ---------------------------------------------------------------- what the scan finds

  /** A link starts at `p`: a word boundary and some scheme with `://`. */
  predicate Start(order: seq<string>, text: string, p: nat) {
    p <= |text| && Boundary(text, p) && exists i :: 0 <= i < |order| && SchemeAt(text, order[i], p)
  }

  lemma MatchIsStart(order: seq<string>, text: string, p: nat)
    requires p <= |text|
    ensures MatchAt(order, text, p).Some? <==> Start(order, text, p)
  {
  }

  /** The first colon after `p` ends the scheme, so no other scheme there is longer. */
  lemma NotLonger(text: string, s: string, t: string, p: nat)
    requires Plain(t) && SchemeAt(text, s, p) && SchemeAt(text, t, p)
    ensures |t| <= |s|
  {
    var c := t[if |s| < |t| then |s| else |t| - 1];
    assert c != ':';
  }

  /** Because `://` must follow, at most one scheme stands at a position. */
  lemma SchemeUnique(text: string, s: string, t: string, p: nat)
    requires Plain(s) && Plain(t) && SchemeAt(text, s, p) && SchemeAt(text, t, p)
    ensures s == t
  {
    NotLonger(text, s, t, p);
    NotLonger(text, t, s, p);
    assert forall i :: 0 <= i < |s| ==> s[i] == LowerChar(text[p + i]);
  }

  lemma MatchOrder(a: seq<string>, b: seq<string>, text: string, p: nat)
    requires AllPlain(a) && AllPlain(b) && (forall s :: s in a <==> s in b) && p <= |text|
    ensures MatchAt(a, text, p) == MatchAt(b, text, p)
  {
    var s, t := FirstScheme(a, text, p), FirstScheme(b, text, p);
    assert s.Some? ==> s.value in b;
    assert t.Some? ==> t.value in a;
    if s.Some? && t.Some? {
      SchemeUnique(text, s.value, t.value, p);
    }
  }

  /** The order of the alternatives never matters. */
  lemma {:induction false} OrderIrrelevant(a: seq<string>, b: seq<string>, text: string, p: nat)
    requires AllPlain(a) && AllPlain(b) && (forall s :: s in a <==> s in b) && p <= |text|
    ensures Scan(a, text, p) == Scan(b, text, p)
    decreases |text| - p
  {
    if p < |text| {
      MatchOrder(a, b, text, p);
      var end := MatchAt(a, text, p);
      OrderIrrelevant(a, b, text, if end.Some? then end.value else p + 1);
    }
  }

  lemma SchemeIsWord(text: string, s: string, p: nat, k: nat)
    requires Plain(s) && SchemeAt(text, s, p) && k < |s|
    ensures Word(text[p + k])
  {
    assert LowerChar(text[p + k]) == s[k];
  }

  lemma NoWordNoStart(order: seq<string>, text: string, q: nat)
    requires AllPlain(order) && q < |text| && !Word(text[q])
    ensures !Start(order, text, q)
  {
    forall i | 0 <= i < |order|
      ensures !SchemeAt(text, order[i], q)
    {
      var c := order[i][0];
      assert Word(c);
    }
  }

  /** A scheme glued to a preceding word is no start; every other one is. */
  lemma StartMeans(order: seq<string>, text: string, p: nat)
    requires AllPlain(order) && p < |text|
    ensures Start(order, text, p)
       <==> (p == 0 || !Word(text[p - 1])) && exists i :: 0 <= i < |order| && SchemeAt(text, order[i], p)
  {
    forall i | 0 <= i < |order| && SchemeAt(text, order[i], p)
      ensures Word(text[p])
    {
      SchemeIsWord(text, order[i], p, 0);
    }
  }

  lemma MatchLower(order: seq<string>, text: string, p: nat)
    requires p <= |text|
    ensures MatchAt(order, Lower(text), p) == MatchAt(order, text, p)
  {
    SchemeLower(order, text, p);
  }

  lemma {:induction false} SchemeLower(order: seq<string>, text: string, p: nat)
    ensures FirstScheme(order, Lower(text), p) == FirstScheme(order, text, p)
  {
    if order != [] {
      assert SchemeAt(Lower(text), order[0], p) <==> SchemeAt(text, order[0], p);
      SchemeLower(order[1..], text, p);
    }
  }

  /** Letter case decides nothing: a text and its lower-cased copy are cut at the same places. */
  lemma {:induction false} CaseIrrelevant(order: seq<string>, text: string, p: nat)
    requires p <= |text|
    ensures Scan(order, Lower(text), p) == Scan(order, text, p)
    decreases |text| - p
  {
    if p < |text| {
      MatchLower(order, text, p);
      var end := MatchAt(order, text, p);
      CaseIrrelevant(order, text, if end.Some? then end.value else p + 1);
    }
  }

  /** No link starts inside the `scheme://` of another: `ss://` is not found in `vless://`. */
  lemma NoStartInside(order: seq<string>, text: string, s: string, p: nat, q: nat)
    requires AllPlain(order) && Plain(s) && SchemeAt(text, s, p) && p < q < p + |s| + 3
    ensures !Start(order, text, q)
  {
    if q < p + |s| {
      SchemeIsWord(text, s, p, q - p);
      SchemeIsWord(text, s, p, q - p - 1);
    } else {
      NoWordNoStart(order, text, q);
    }
  }

  /** The scan finds every start of a link, in order, and nothing else. */
  lemma {:induction false} ScanMeans(order: seq<string>, text: string, p: nat)
    requires AllPlain(order) && p <= |text|
    ensures
      var r := Scan(order, text, p);
      && Ascending(text, r)
      && (r != [] ==> p <= r[0])
      && (forall q: nat :: q in r <==> p <= q && Start(order, text, q))
    decreases |text| - p
  {
    if p == |text| {
      forall q: nat | p <= q
        ensures !Start(order, text, q)
      {
      }
    } else {
      MatchIsStart(order, text, p);
      var end := MatchAt(order, text, p);
      var next := if end.Some? then end.value else p + 1;
      ScanMeans(order, text, next);
      forall q: nat | p < q < next
        ensures !Start(order, text, q)
      {
        NoStartInside(order, text, FirstScheme(order, text, p).value, p, q);
      }
    }
  }

  // ---------------------------------------------------------------- the two splitters

  function SplitForSubscription(order: seq<string>, text: string): seq<string>
    requires AllPlain(order)
  {
    ScanMeans(order, text, 0);
    Cut(text, Scan(order, text, 0))
  }

  /** Without any start the whole text is passed on, for the parser to report. */
  function SplitForKeys(order: seq<string>, text: string): seq<string>
    requires AllPlain(order)
  {
    ScanMeans(order, text, 0);
    var starts := Scan(order, text, 0);
    if starts == [] then [text] else Cut(text, starts)
  }

  /** The two splitters agree exactly on the texts in which some link starts. */
  lemma SplittersAgree(a: seq<string>, b: seq<string>, text: string)
    requires AllPlain(a) && AllPlain(b) && forall s :: s in a <==> s in b
    ensures SplitForSubscription(a, text) == SplitForKeys(b, text) <==> exists p :: Start(a, text, p)
  {
    OrderIrrelevant(a, b, text, 0);
    ScanMeans(a, text, 0);
    var starts := Scan(a, text, 0);
    if starts != [] {
      assert starts[0] in starts;
    }
  }

  // ---------------------------------------------------------------- links

  /** One link: it starts at its first character and nowhere else, and ends in neither a
      separator nor a space. */
  predicate Link(order: seq<string>, s: string) {
    && s != [] && Start(order, s, 0)
    && !Separator(s[|s| - 1]) && !IsSpace(s[|s| - 1])
    && forall q :: 0 < q <= |s| ==> !Start(order, s, q)
  }

  /** A match is decided by the text it covers and the character in front of it. */
  lemma SchemeMoves(text: string, part: string, s: string, from: nat, q: nat)
    requires from + |part| <= |text| && forall i :: 0 <= i < |part| ==> part[i] == text[from + i]
    ensures SchemeAt(part, s, q) ==> SchemeAt(text, s, from + q)
    ensures SchemeAt(text, s, from + q) && q + |s| + 3 <= |part| ==> SchemeAt(part, s, q)
  {
    if SchemeAt(text, s, from + q) && q + |s| + 3 <= |part| {
      forall i | 0 <= i < |s|
        ensures LowerChar(part[q + i]) == s[i]
      {
        assert LowerChar(text[from + q + i]) == s[i];
      }
    }
    if SchemeAt(part, s, q) {
      forall i | 0 <= i < |s|
        ensures LowerChar(text[from + q + i]) == s[i]
      {
        assert LowerChar(part[q + i]) == s[i];
      }
    }
  }

  /** Cleaning a text that starts with no space cuts its end: separators and spaces go, and
      what is left ends in neither. */
  lemma CleanCuts(s: string)
    requires s != [] && !IsSpace(s[0])
    ensures var r := Clean(s); |r| <= |s| && r == s[..|r|]
    ensures var r := Clean(s); forall i :: |r| <= i < |s| ==> Separator(s[i]) || IsSpace(s[i])
  {
    var t := TrimRight(s);
    TrimRightTail(s);
    TrimSeparatorsGone(t);
  }

  lemma {:induction false} TrimRightTail(s: string)
    ensures var r := TrimRight(s); |r| <= |s| && r == s[..|r|] && forall i :: |r| <= i < |s| ==> IsSpace(s[i])
  {
    if s != [] && IsSpace(s[|s| - 1]) {
      TrimRightTail(s[..|s| - 1]);
    }
  }

  lemma {:induction false} TrimSeparatorsGone(s: string)
    ensures var r := TrimSeparators(s); forall i :: |r| <= i < |s| ==> Separator(s[i])
  {
    if s != [] && Separator(s[|s| - 1]) {
      TrimSeparatorsGone(s[..|s| - 1]);
    }
  }

  /** A link followed by separators is cleaned to the link. */
  lemma CleanLink(order: seq<string>, link: string, tail: string)
    requires AllPlain(order) && Link(order, link)
    requires forall i :: 0 <= i < |tail| ==> Separator(tail[i])
    ensures Clean(link + tail) == link
  {
    StartIsWord(order, link, 0);
    var s := link + tail;
    CleanCuts(s);
    var r := Clean(s);
    assert s[|link| - 1] == link[|link| - 1];
    assert forall i :: |link| <= i < |s| ==> Separator(s[i]);
    assert r[|r| - 1] == s[|r| - 1];
    assert r == link;
  }

  lemma StartIsWord(order: seq<string>, text: string, p: nat)
    requires AllPlain(order) && Start(order, text, p)
    ensures p + 4 <= |text| && Word(text[p]) && !IsSpace(text[p]) && !Separator(text[p])
  {
    var i :| 0 <= i < |order| && SchemeAt(text, order[i], p);
    assert LowerChar(text[p + 0]) == order[i][0];
  }

  // ---------------------------------------------------------------- every piece is a link

  /** The text of the `i`-th piece before it is cleaned. */
  lemma PieceStarts(order: seq<string>, text: string, i: nat)
    requires AllPlain(order) && i < |Scan(order, text, 0)|
    ensures
      var starts := Scan(order, text, 0);
      && Ascending(text, starts)
      && (forall q: nat :: starts[i] <= q < EndOf(text, starts, i) ==> (Start(order, text, q) <==> q == starts[i]))
  {
    ScanMeans(order, text, 0);
    var starts := Scan(order, text, 0);
    Increasing(text, starts);
    assert starts[i] in starts;
    forall q: nat | starts[i] < q < EndOf(text, starts, i)
      ensures !Start(order, text, q)
    {
      forall k | 0 <= k < |starts|
        ensures starts[k] != q
      {
        assert k < i ==> starts[k] < starts[i];
        assert k > i + 1 ==> starts[i + 1] < starts[k];
      }
    }
  }

  lemma Increasing(text: string, starts: seq<nat>)
    requires Ascending(text, starts)
    ensures forall i, j :: 0 <= i < j < |starts| ==> starts[i] < starts[j]
  {
    forall j | 0 <= j < |starts|
      ensures forall i :: 0 <= i < j ==> starts[i] < starts[j]
    {
      IncreasingTo(text, starts, j);
    }
  }

  lemma {:induction false} IncreasingTo(text: string, starts: seq<nat>, j: nat)
    requires Ascending(text, starts) && j < |starts|
    ensures forall i :: 0 <= i < j ==> starts[i] < starts[j]
  {
    if j > 0 {
      IncreasingTo(text, starts, j - 1);
      assert starts[j - 1] < starts[j];
    }
  }

  /** A start inside a part, away from its first character, is a start of the text. */
  lemma StartMoves(order: seq<string>, text: string, part: string, from: nat, q: nat)
    requires AllPlain(order)
    requires from + |part| <= |text| && forall i :: 0 <= i < |part| ==> part[i] == text[from + i]
    requires 0 < q <= |part| && Start(order, part, q)
    ensures Start(order, text, from + q)
  {
    var i :| 0 <= i < |order| && SchemeAt(part, order[i], q);
    SchemeMoves(text, part, order[i], from, q);
    StartIsWord(order, part, q);
    assert part[q - 1] == text[from + q - 1] && part[q] == text[from + q];
  }

  lemma PrefixOfPart(text: string, from: nat, end: nat, n: nat)
    requires from <= end <= |text| && n <= end - from
    ensures text[from..end][..n] == text[from..from + n]
  {
  }

  lemma CleanedIsLink(order: seq<string>, text: string, from: nat, end: nat)
    requires AllPlain(order) && from < end <= |text| && Start(order, text, from)
    requires forall q: nat :: from < q < end ==> !Start(order, text, q)
    requires end < |text| ==> Start(order, text, end)
    ensures
      var piece := Clean(text[from..end]);
      && piece != []
      && (Link(order, piece) <==> !IsSpace(piece[|piece| - 1]))
      && !Separator(piece[|piece| - 1])
  {
    StartIsWord(order, text, from);
    var raw := text[from..end];
    assert raw[0] == text[from];
    CleanCuts(raw);
    var piece := Clean(raw);
    PrefixOfPart(text, from, end, |piece|);
    assert forall i :: from + |piece| <= i < end ==> text[i] == raw[i - from];
    HeadSurvives(order, text, from, end, |piece|);
    forall q | 0 < q <= |piece|
      ensures !Start(order, piece, q)
    {
      if Start(order, piece, q) {
        StartIsWord(order, piece, q);
        StartMoves(order, text, piece, from, q);
      }
    }
  }

  /** Every piece either splitter returns begins with the only start it contains. It ends
      in no separator; it is a link unless it ends in a vertical tab or a form feed, which
      the first trim removes only at the very end. */
  lemma PieceIsLink(order: seq<string>, text: string, i: nat)
    requires AllPlain(order) && i < |SplitForSubscription(order, text)|
    ensures
      var piece := SplitForSubscription(order, text)[i];
      && piece != []
      && (Link(order, piece) <==> !IsSpace(piece[|piece| - 1]))
      && !Separator(piece[|piece| - 1])
  {
    ScanMeans(order, text, 0);
    PieceStarts(order, text, i);
    var starts := Scan(order, text, 0);
    Increasing(text, starts);
    assert starts[i] in starts;
    assert i + 1 < |starts| ==> starts[i + 1] in starts;
    CleanedIsLink(order, text, starts[i], EndOf(text, starts, i));
  }

  /** The `scheme://` at the head of a piece holds no separator or space, so it survives. */
  lemma HeadSurvives(order: seq<string>, text: string, from: nat, end: nat, n: nat)
    requires AllPlain(order) && Start(order, text, from) && from < end <= |text| && n <= end - from
    requires forall q: nat :: from < q < end ==> !Start(order, text, q)
    requires end < |text| ==> Start(order, text, end)
    requires forall i :: from + n <= i < end ==> Separator(text[i]) || IsSpace(text[i])
    ensures n > 0 && Start(order, text[from..from + n], 0)
  {
    var k :| 0 <= k < |order| && SchemeAt(text, order[k], from);
    var s := order[k];
    if end < from + |s| + 3 {
      NoStartInside(order, text, s, from, end);
    }
    assert text[from + |s| + 2] == '/';
    assert from + n > from + |s| + 2;
    var part := text[from..from + n];
    SchemeMoves(text, part, s, from, 0);
    StartIsWord(order, text, from);
    assert part[0] == text[from];
  }

  method CutLoop(text: string, starts: seq<nat>) returns (out: seq<string>)
    requires Ascending(text, starts)
    requires forall i :: 0 <= i < |starts| ==> Clean(text[starts[i]..EndOf(text, starts, i)]) != []
    ensures out == Cut(text, starts)
  {
    out := [];
    for i := 0 to |starts|
      invariant out == Cut(text, starts)[..i]
    {
      var end := |text|;
      if i + 1 < |starts| {
        end := starts[i + 1];
      }
      var candidate := Clean(text[starts[i]..end]);
      if candidate != "" {
        out := out + [candidate];
      }
    }
  }

  method SplitLinks(order: seq<string>, text: string, keys: bool) returns (out: seq<string>)
    requires AllPlain(order)
    ensures out == if keys then SplitForKeys(order, text) else SplitForSubscription(order, text)
  {
    var starts := Scan(order, text, 0);
    ScanMeans(order, text, 0);
    if |starts| == 0 {
      return if keys then [text] else [];
    }
    forall i | 0 <= i < |starts|
      ensures Clean(text[starts[i]..EndOf(text, starts, i)]) != []
    {
      PieceIsLink(order, text, i);
    }
    out := CutLoop(text, starts);
  }

  // ---------------------------------------------------------------- joining and splitting again

  /** Links, each followed by a run of separators. */
  function Joined(links: seq<string>, seps: seq<string>): string
    requires |links| == |seps|
  {
    if links == [] then [] else links[0] + seps[0] + Joined(links[1..], seps[1..])
  }

  /** Only separators, and at least one between two links. */
  predicate Separates(seps: seq<string>) {
    forall i :: 0 <= i < |seps| ==>
      (forall k :: 0 <= k < |seps[i]| ==> Separator(seps[i][k])) && (i < |seps| - 1 ==> seps[i] != [])
  }

  function Shifted(starts: seq<nat>, d: nat): (r: seq<nat>)
    ensures |r| == |starts| && forall i :: 0 <= i < |r| ==> r[i] == starts[i] + d
  {
    seq(|starts|, i requires 0 <= i < |starts| => starts[i] + d)
  }

  lemma {:induction false} SchemeShifts(order: seq<string>, front: string, rest: string, k: nat)
    requires k <= |rest|
    ensures FirstScheme(order, front + rest, |front| + k) == FirstScheme(order, rest, k)
  {
    if order != [] {
      SchemeMoves(front + rest, rest, order[0], |front|, k);
      SchemeShifts(order[1..], front, rest, k);
    }
  }

  lemma {:induction false} ScanShifts(order: seq<string>, front: string, rest: string, k: nat)
    requires k <= |rest| && (front != [] ==> !Word(front[|front| - 1]))
    ensures Scan(order, front + rest, |front| + k) == Shifted(Scan(order, rest, k), |front|)
    decreases |rest| - k
  {
    if k < |rest| {
      var text, p := front + rest, |front| + k;
      SchemeShifts(order, front, rest, k);
      assert k > 0 ==> text[p - 1] == rest[k - 1];
      assert text[p] == rest[k];
      assert Boundary(text, p) == Boundary(rest, k);
      var end := MatchAt(order, rest, k);
      var next := if end.Some? then end.value else k + 1;
      ScanShifts(order, front, rest, next);
      assert Scan(order, text, p)
          == (if end.Some? then [p] else []) + Scan(order, text, |front| + next);
    }
  }

  lemma {:induction false} ScanSkips(order: seq<string>, text: string, p: nat, q: nat)
    requires p <= q <= |text| && forall k :: p <= k < q ==> !Start(order, text, k)
    ensures Scan(order, text, p) == Scan(order, text, q)
    decreases q - p
  {
    if p < q {
      MatchIsStart(order, text, p);
      ScanSkips(order, text, p + 1, q);
    }
  }

  /** In a text that begins with a link and separators, the link's start is the only one
      before the rest. */
  lemma HeadStarts(order: seq<string>, link: string, sep: string, rest: string)
    requires AllPlain(order) && Link(order, link)
    requires forall k :: 0 <= k < |sep| ==> Separator(sep[k])
    requires rest != [] ==> sep != []
    ensures
      var text := link + sep + rest;
      && MatchAt(order, text, 0).Some? && MatchAt(order, text, 0).value <= |link|
      && forall q :: 0 < q < |link + sep| ==> !Start(order, text, q)
  {
    var text := link + sep + rest;
    var i :| 0 <= i < |order| && SchemeAt(link, order[i], 0);
    SchemeMoves(text, link, order[i], 0, 0);
    StartIsWord(order, link, 0);
    assert text[0] == link[0];
    assert Start(order, text, 0);
    MatchIsStart(order, text, 0);
    SchemeUnique(text, FirstScheme(order, text, 0).value, order[i], 0);
    forall q | 0 < q < |link + sep|
      ensures !Start(order, text, q)
    {
      NoLateStart(order, link, text, q);
    }
  }

  lemma NoLateStart(order: seq<string>, link: string, text: string, q: nat)
    requires AllPlain(order) && Link(order, link)
    requires |link| <= |text| && link == text[..|link|] && 0 < q
    requires |link| < |text| ==> Separator(text[|link|])
    requires q < |text| && (q > |link| ==> Separator(text[q]))
    ensures !Start(order, text, q)
  {
    if Start(order, text, q) {
      StartIsWord(order, text, q);
      var j :| 0 <= j < |order| && SchemeAt(text, order[j], q);
      var s := order[j];
      SchemeMoves(text, link, s, 0, q);
      assert text[q - 1] == link[q - 1] && text[q] == link[q];
      var d := if q <= |link| < q + |s| then |link| - q else 0;
      assert LowerChar(text[q + d]) == s[d];
      assert q + |s| + 3 <= |link| ==> Start(order, link, q);
    }
  }

  lemma HeadScan(order: seq<string>, link: string, sep: string, rest: string)
    requires AllPlain(order) && Link(order, link)
    requires forall k :: 0 <= k < |sep| ==> Separator(sep[k])
    requires rest != [] ==> sep != []
    ensures Scan(order, link + sep + rest, 0) == [0] + Shifted(Scan(order, rest, 0), |link + sep|)
  {
    var front := link + sep;
    HeadStarts(order, link, sep, rest);
    ScanSkips(order, front + rest, MatchAt(order, front + rest, 0).value, |front|);
    if rest != [] {
      assert front[|front| - 1] == sep[|sep| - 1];
      ScanShifts(order, front, rest, 0);
    }
  }

  lemma JoinedStarts(order: seq<string>, links: seq<string>, seps: seq<string>)
    requires AllPlain(order) && |links| == |seps| && links != [] && Separates(seps)
    requires Link(order, links[0])
    ensures
      var front, rest := links[0] + seps[0], Joined(links[1..], seps[1..]);
      Scan(order, Joined(links, seps), 0) == [0] + Shifted(Scan(order, rest, 0), |front|)
  {
    HeadScan(order, links[0], seps[0], Joined(links[1..], seps[1..]));
  }

  /** Any list of links, joined by any runs of newlines, spaces, commas and semicolons, is
      split into the same list again. */
  lemma {:induction false} JoinThenSplit(order: seq<string>, links: seq<string>, seps: seq<string>)
    requires AllPlain(order) && |links| == |seps| && Separates(seps)
    requires forall i :: 0 <= i < |links| ==> Link(order, links[i])
    ensures SplitForSubscription(order, Joined(links, seps)) == links
    decreases |links|
  {
    if links != [] {
      JoinedStarts(order, links, seps);
      JoinThenSplit(order, links[1..], seps[1..]);
      if |links| > 1 {
        JoinedStarts(order, links[1..], seps[1..]);
      }
      CleanLink(order, links[0], seps[0]);
      CutHead(order, links[0] + seps[0], Joined(links[1..], seps[1..]));
    }
  }

  lemma CutHead(order: seq<string>, front: string, rest: string)
    requires AllPlain(order) && front != []
    requires Scan(order, front + rest, 0) == [0] + Shifted(Scan(order, rest, 0), |front|)
    requires rest != [] ==> Scan(order, rest, 0) != [] && Scan(order, rest, 0)[0] == 0
    ensures SplitForSubscription(order, front + rest) == [Clean(front)] + SplitForSubscription(order, rest)
  {
    ScanMeans(order, front + rest, 0);
    ScanMeans(order, rest, 0);
    CutShifted(front, rest, Scan(order, rest, 0));
  }

  lemma CutShifted(front: string, rest: string, tail: seq<nat>)
    requires Ascending(rest, tail) && front != []
    requires if rest == [] then tail == [] else tail != [] && tail[0] == 0
    requires Ascending(front + rest, [0] + Shifted(tail, |front|))
    ensures Cut(front + rest, [0] + Shifted(tail, |front|)) == [Clean(front)] + Cut(rest, tail)
  {
    var text, all := front + rest, [0] + Shifted(tail, |front|);
    assert EndOf(text, all, 0) == |front|;
    assert text[0..|front|] == front;
    forall i | 0 <= i < |tail|
      ensures Cut(text, all)[i + 1] == Cut(rest, tail)[i]
    {
      PieceOfRest(front, rest, tail, i);
    }
    SameTail(Cut(text, all), Cut(rest, tail));
  }

  lemma SameTail<T>(all: seq<T>, tail: seq<T>)
    requires |all| == |tail| + 1 && forall i :: 0 <= i < |tail| ==> all[i + 1] == tail[i]
    ensures all == [all[0]] + tail
  {
  }

  lemma PieceOfRest(front: string, rest: string, tail: seq<nat>, i: nat)
    requires Ascending(rest, tail) && i < |tail|
    ensures
      var text, all := front + rest, [0] + Shifted(tail, |front|);
      && all[i + 1] <= EndOf(text, all, i + 1) <= |text|
      && tail[i] <= EndOf(rest, tail, i)
      && text[all[i + 1]..EndOf(text, all, i + 1)] == rest[tail[i]..EndOf(rest, tail, i)]
  {
    PieceShifts(front, rest, tail[i], EndOf(rest, tail, i));
  }

  lemma PieceShifts(front: string, rest: string, a: nat, b: nat)
    requires a <= b <= |rest|
    ensures (front + rest)[|front| + a..|front| + b] == rest[a..b]
  {
  }

  // ---------------------------------------------------------------- when splitting is stable

  predicate VerticalSpace(c: char) {
    c == 11 as char || c == 12 as char
  }

  /** From `k` on, where a vertical tab or form feed stands, `s` holds only separators and spaces,
      among them a comma or semicolon at `m`. */
  predicate StuckAt(s: string, k: nat, m: nat) {
    && k < m < |s| && VerticalSpace(s[k]) && (s[m] == ',' || s[m] == ';')
    && forall j :: k < j < |s| ==> Separator(s[j]) || IsSpace(s[j])
  }

  /** The two trims, first of spaces, then of separators. */
  lemma CleanParts(s: string)
    requires s != [] && !IsSpace(s[0])
    ensures
      var t, r := Trim(s), Clean(s);
      && |r| <= |t| <= |s| && r == s[..|r|] && t == s[..|t|] && t != [] && !IsSpace(t[|t| - 1])
      && (forall i :: |r| <= i < |t| ==> Separator(s[i]))
      && (forall i :: |t| <= i < |s| ==> IsSpace(s[i]))
      && (r != [] ==> !Separator(r[|r| - 1]))
  {
    var t := TrimRight(s);
    TrimRightTail(s);
    TrimRightFacts(s);
    TrimSeparatorsGone(t);
    assert forall i :: |Clean(s)| <= i < |t| ==> t[i] == s[i];
  }

  /** A cleaned piece ends in a space exactly when its raw text is stuck. */
  lemma CleanEnds(s: string)
    requires s != [] && !IsSpace(s[0]) && Clean(s) != []
    ensures IsSpace(Clean(s)[|Clean(s)| - 1]) <==> exists k: nat, m: nat :: StuckAt(s, k, m)
  {
    CleanParts(s);
    var t, r := Trim(s), Clean(s);
    if IsSpace(r[|r| - 1]) {
      assert r[|r| - 1] == s[|r| - 1] && t[|t| - 1] == s[|t| - 1];
      assert StuckAt(s, |r| - 1, |t| - 1);
    }
    if k: nat, m: nat :| StuckAt(s, k, m) {
      assert m < |t|;
      assert k < |r|;
      assert r[|r| - 1] == s[|r| - 1];
    }
  }

  /** A link starts at or before `k`, and the text from `k` to the next start, or to its end,
      is stuck. */
  predicate StuckBefore(order: seq<string>, text: string, k: nat, m: nat, end: nat) {
    && k < m < end <= |text| && StuckAt(text[..end], k, m)
    && (end < |text| ==> Start(order, text, end))
    && exists p :: 0 <= p <= k && Start(order, text, p)
  }

  /** Some link of the text is followed by a vertical tab or form feed and then, up to the next
      link, only by separators and spaces with a comma or semicolon among them. */
  ghost predicate Stuck(order: seq<string>, text: string) {
    exists k: nat, m: nat, end: nat :: StuckBefore(order, text, k, m, end)
  }

  lemma {:induction false} SegmentOf(text: string, starts: seq<nat>, k: nat, n: nat) returns (i: nat)
    requires Ascending(text, starts) && 0 < n <= |starts| && starts[0] <= k
    requires n < |starts| ==> k < starts[n]
    ensures i < |starts| && starts[i] <= k && (i + 1 < |starts| ==> k < starts[i + 1])
  {
    if starts[n - 1] <= k {
      i := n - 1;
    } else {
      i := SegmentOf(text, starts, k, n - 1);
    }
  }

  /** Some piece ends in a space exactly when the text is stuck. */
  lemma StuckPieces(order: seq<string>, text: string)
    requires AllPlain(order)
    ensures
      (exists p :: p in SplitForSubscription(order, text) && p != [] && IsSpace(p[|p| - 1])) <==> Stuck(order, text)
  {
    var pieces := SplitForSubscription(order, text);
    if p :| p in pieces && p != [] && IsSpace(p[|p| - 1]) {
      var i :| 0 <= i < |pieces| && pieces[i] == p;
      PieceStuck(order, text, i);
    }
    if k: nat, m: nat, end: nat :| StuckBefore(order, text, k, m, end) {
      var i := StuckPiece(order, text, k, m, end);
      assert pieces[i] in pieces;
    }
  }

  /** The raw text of a piece, and that it starts with a character of its scheme. */
  lemma RawPiece(order: seq<string>, text: string, i: nat)
    requires AllPlain(order) && i < |SplitForSubscription(order, text)|
    ensures
      var starts := Scan(order, text, 0);
      && Ascending(text, starts) && |starts| == |SplitForSubscription(order, text)|
      && starts[i] < EndOf(text, starts, i) <= |text|
      && Start(order, text, starts[i])
      && (EndOf(text, starts, i) < |text| ==> Start(order, text, EndOf(text, starts, i)))
      && var raw := text[starts[i]..EndOf(text, starts, i)];
         !IsSpace(raw[0]) && SplitForSubscription(order, text)[i] == Clean(raw) != []
  {
    ScanMeans(order, text, 0);
    PieceIsLink(order, text, i);
    var starts := Scan(order, text, 0);
    assert starts[i] in starts;
    assert i + 1 < |starts| ==> starts[i + 1] in starts;
    StartIsWord(order, text, starts[i]);
  }

  lemma PieceStuck(order: seq<string>, text: string, i: nat)
    requires AllPlain(order) && i < |SplitForSubscription(order, text)|
    requires var p := SplitForSubscription(order, text)[i]; p != [] && IsSpace(p[|p| - 1])
    ensures Stuck(order, text)
  {
    RawPiece(order, text, i);
    var from, end := Scan(order, text, 0)[i], EndOf(text, Scan(order, text, 0), i);
    var raw := text[from..end];
    CleanEnds(raw);
    var k: nat, m: nat :| StuckAt(raw, k, m);
    assert forall j :: from + k <= j < end ==> text[..end][j] == raw[j - from];
    assert StuckAt(text[..end], from + k, from + m);
    assert StuckBefore(order, text, from + k, from + m, end);
  }

  lemma StuckPiece(order: seq<string>, text: string, k: nat, m: nat, end: nat) returns (i: nat)
    requires AllPlain(order) && StuckBefore(order, text, k, m, end)
    ensures i < |SplitForSubscription(order, text)|
    ensures var p := SplitForSubscription(order, text)[i]; p != [] && IsSpace(p[|p| - 1])
  {
    i := StuckSegment(order, text, k, m, end);
    RawPiece(order, text, i);
    var from := Scan(order, text, 0)[i];
    var raw := text[from..end];
    StuckMoves(text, from, end, k, m);
    CleanEnds(raw);
  }

  lemma StuckMoves(text: string, from: nat, end: nat, k: nat, m: nat)
    requires from <= k < end <= |text| && StuckAt(text[..end], k, m)
    ensures StuckAt(text[from..end], k - from, m - from)
  {
    var raw := text[from..end];
    assert forall j :: 0 <= j < |raw| ==> raw[j] == text[..end][from + j];
  }

  lemma StuckSegment(order: seq<string>, text: string, k: nat, m: nat, end: nat) returns (i: nat)
    requires AllPlain(order) && StuckBefore(order, text, k, m, end)
    ensures
      var starts := Scan(order, text, 0);
      i < |starts| && starts[i] <= k && EndOf(text, starts, i) == end
  {
    ScanMeans(order, text, 0);
    var starts := Scan(order, text, 0);
    var p :| 0 <= p <= k && Start(order, text, p);
    assert p in starts;
    Increasing(text, starts);
    i := SegmentOf(text, starts, k, |starts|);
    assert forall j :: k < j < end ==> text[j] == text[..end][j];
    EndOfSegment(order, text, starts, k, end, i);
  }

  /** Nothing stuck can be a start, so the segment reaches to the given end. */
  lemma EndOfSegment(order: seq<string>, text: string, starts: seq<nat>, k: nat, end: nat, i: nat)
    requires AllPlain(order) && starts == Scan(order, text, 0) && Ascending(text, starts)
    requires i < |starts| && starts[i] <= k < end <= |text| && (i + 1 < |starts| ==> k < starts[i + 1])
    requires forall j :: k < j < end ==> Separator(text[j]) || IsSpace(text[j])
    requires end < |text| ==> Start(order, text, end)
    ensures EndOf(text, starts, i) == end
  {
    ScanMeans(order, text, 0);
    Increasing(text, starts);
    var e := EndOf(text, starts, i);
    if i + 1 < |starts| {
      assert starts[i + 1] in starts;
      StartIsWord(order, text, e);
    }
    if end < |text| {
      assert end in starts;
      var q :| 0 <= q < |starts| && starts[q] == end;
      assert q > i;
    }
  }

  /** Splitting is stable: the pieces of any text that is not stuck, joined by any separators, are
      split into the same pieces. */
  lemma SplitIsStable(order: seq<string>, text: string, seps: seq<string>)
    requires AllPlain(order) && Separates(seps) && |seps| == |SplitForSubscription(order, text)|
    requires !Stuck(order, text)
    ensures
      var links := SplitForSubscription(order, text);
      SplitForSubscription(order, Joined(links, seps)) == links
  {
    var links := SplitForSubscription(order, text);
    StuckPieces(order, text);
    forall i | 0 <= i < |links|
      ensures Link(order, links[i])
    {
      PieceIsLink(order, text, i);
      assert links[i] in links;
    }
    JoinThenSplit(order, links, seps);
  }
}
