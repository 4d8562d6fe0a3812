/**
 The tokenish padding generator: random base62 text adjusted until its Huffman-encoded
 length (section 5.2 and Appendix B of RFC 7541) is near a target. The draw of random
 characters is a parameter, so statements over all draws are statements over all
 random sources.
 */
module Padding {
  const ROUNDS := 150
  const TOLERANCE := 2

  predicate Base62(c: char) {
    '0' <= c <= '9' || 'A' <= c <= 'Z' || 'a' <= c <= 'z'
  }

  /** Bits of the Huffman code of a base62 character. */
  function CodeBits(c: char): (n: nat)
    ensures 5 <= n <= 8
  {
    if c in ['0', '1', '2', 'a', 'c', 'e', 'i', 'o', 's', 't'] then 5
    else if '3' <= c <= '9' || c in ['A', 'b', 'd', 'f', 'g', 'h', 'l', 'm', 'n', 'p', 'r', 'u'] then 6
    else if c == 'X' || c == 'Z' then 8
    else 7
  }

  function Bits(s: string): nat {
    if s == [] then 0 else Bits(s[..|s| - 1]) + CodeBits(s[|s| - 1])
  }

  function EncodedLength(s: string): nat {
    (Bits(s) + 7) / 8
  }

  /** Characters drawn for a target: the ceiling of 5 * target / 4, but at least one. */
  function DrawSize(target: int): (n: nat)
    ensures n >= 1
  {
    var n := (5 * target + 3) / 4;
    if n < 1 then 1 else n
  }

  predicate Near(s: string, target: int) {
    -TOLERANCE <= EncodedLength(s) - target <= TOLERANCE
  }

  function Other(c: char): char {
    if c == 'X' then 'Z' else 'X'
  }

  /** The result of at most `rounds` adjustments of `s`. */
  function Adjusted(s: string, adjust: char, target: int, rounds: nat): string
    decreases rounds
  {
    var diff := EncodedLength(s) - target;
    if rounds == 0 || -TOLERANCE <= diff <= TOLERANCE then s
    else if diff < 0 then Adjusted(s + [adjust], Other(adjust), target, rounds - 1)
    else if |s| <= 1 then s
    else Adjusted(s[..|s| - 1], adjust, target, rounds - 1)
  }

  function Tokenish(target: int, draw: string): string {
    Adjusted(draw, 'X', target, ROUNDS)
  }

  method TokenishPadding(target: int, draw: string) returns (s: string)
    requires |draw| == DrawSize(target)
    ensures s == Tokenish(target, draw)
  {
    s := draw;
    var adjust := 'X';
    for i := 0 to ROUNDS
      invariant Adjusted(s, adjust, target, ROUNDS - i) == Tokenish(target, draw)
    {
      var diff := EncodedLength(s) - target;
      if diff <= TOLERANCE && diff >= -TOLERANCE {
        return;
      }
      if diff < 0 {
        s := s + [adjust];
        adjust := if adjust == 'X' then 'Z' else 'X';
        continue;
      }
      if |s| <= 1 {
        return;
      }
      s := s[..|s| - 1];
    }
  }

  // ---------------------------------------------------------------- one adjustment

  /** An append adds exactly one encoded byte. */
  lemma AppendAddsOne(s: string, adjust: char)
    requires adjust == 'X' || adjust == 'Z'
    ensures EncodedLength(s + [adjust]) == EncodedLength(s) + 1
  {
    BitsSnoc(s, adjust);
    EightBits();
  }

  /** A removal drops at most one encoded byte, and never adds one. */
  lemma RemovalDropsAtMostOne(s: string)
    requires s != []
    ensures EncodedLength(s) - 1 <= EncodedLength(s[..|s| - 1]) <= EncodedLength(s)
  {
  }

  lemma {:induction false} BitsBound(s: string)
    ensures 5 * |s| <= Bits(s) <= 8 * |s|
  {
    if s != [] {
      BitsBound(s[..|s| - 1]);
    }
  }

  lemma EncodedLengthBound(s: string)
    ensures 5 * |s| <= 8 * EncodedLength(s)
    ensures EncodedLength(s) <= |s|
  {
    BitsBound(s);
  }

  // ---------------------------------------------------------------- which rounds suffice

  /** Too short: every round gains one byte, so the deficit is the number of rounds. */
  lemma {:induction false} Growing(s: string, adjust: char, target: int, rounds: nat)
    requires adjust == 'X' || adjust == 'Z'
    requires target - TOLERANCE - rounds <= EncodedLength(s) <= target + TOLERANCE
    ensures Near(Adjusted(s, adjust, target, rounds), target)
    decreases rounds
  {
    if rounds > 0 && !Near(s, target) {
      AppendAddsOne(s, adjust);
      Growing(s + [adjust], Other(adjust), target, rounds - 1);
    }
  }

  /** Too long: a removal may drop no byte at all (a five-bit code), but it always drops a
      character, and a text has at most as many encoded bytes as characters. */
  lemma {:induction false} Shrinking(s: string, adjust: char, target: int, rounds: nat)
    requires target >= -1
    requires target - TOLERANCE <= EncodedLength(s)
    requires |s| <= target + TOLERANCE + rounds
    ensures Near(Adjusted(s, adjust, target, rounds), target)
    decreases rounds
  {
    EncodedLengthBound(s);
    if rounds > 0 && !Near(s, target) {
      RemovalDropsAtMostOne(s);
      Shrinking(s[..|s| - 1], adjust, target, rounds - 1);
    }
  }

  /** For every draw the result is within tolerance when -1 <= target <= 608. */
  lemma NearForEveryDraw(target: int, draw: string)
    requires |draw| == DrawSize(target) && -1 <= target <= 608
    ensures Near(Tokenish(target, draw), target)
  {
    EncodedLengthBound(draw);
    if EncodedLength(draw) <= target + TOLERANCE {
      Growing(draw, 'X', target, ROUNDS);
    } else {
      Shrinking(draw, 'X', target, ROUNDS);
    }
  }

  // ---------------------------------------------------------------- where it fails

  /** The draw the generator falls back to when the random source fails. */
  function AllX(n: nat): (s: string)
    ensures |s| == n
  {
    if n == 0 then [] else AllX(n - 1) + ['X']
  }

  lemma EightBits()
    ensures CodeBits('X') == 8 && CodeBits('Z') == 8
  {
  }

  lemma BitsSnoc(s: string, c: char)
    ensures Bits(s + [c]) == Bits(s) + CodeBits(c)
  {
    assert (s + [c])[..|s|] == s;
  }

  lemma {:induction false} AllXLength(n: nat)
    ensures Bits(AllX(n)) == 8 * n
  {
    if n > 0 {
      AllXLength(n - 1);
      BitsSnoc(AllX(n - 1), 'X');
      EightBits();
    }
  }

  lemma {:induction false} AllXShrinks(n: nat, adjust: char, target: int, rounds: nat)
    requires target >= 1 && n > target + TOLERANCE + rounds
    ensures Adjusted(AllX(n), adjust, target, rounds) == AllX(n - rounds)
    decreases rounds
  {
    AllXLength(n);
    assert EncodedLength(AllX(n)) == n;
    if rounds > 0 {
      assert AllX(n)[..n - 1] == AllX(n - 1);
      AllXShrinks(n - 1, adjust, target, rounds - 1);
    }
  }

  lemma {:induction false} NeverBelowOne(s: string, adjust: char, target: int, rounds: nat)
    requires s != [] && target < -1
    ensures !Near(Adjusted(s, adjust, target, rounds), target)
    decreases rounds
  {
    EncodedLengthBound(s);
    if rounds > 0 && |s| > 1 {
      NeverBelowOne(s[..|s| - 1], adjust, target, rounds - 1);
    }
  }

  predicate Drawn(target: int, draw: string) {
    |draw| == DrawSize(target) && forall i :: 0 <= i < |draw| ==> Base62(draw[i])
  }

  lemma {:induction false} AllXIsBase62(n: nat)
    ensures forall i :: 0 <= i < n ==> AllX(n)[i] == 'X'
  {
    if n > 0 {
      AllXIsBase62(n - 1);
    }
  }

  lemma MissedByAllX(n: nat, target: int, rounds: nat)
    requires target >= 1 && n > target + TOLERANCE + rounds
    ensures !Near(Adjusted(AllX(n), 'X', target, rounds), target)
  {
    AllXShrinks(n, 'X', target, rounds);
    AllXLength(n - rounds);
  }

  /** Outside -1..608 some draw misses the tolerance: any draw below, a run of X above. */
  lemma MissedBySomeDraw(target: int, n: nat)
    requires n == DrawSize(target)
    requires !(-1 <= target <= 608)
    ensures !Near(Tokenish(target, AllX(n)), target)
  {
    if target < -1 {
      NeverBelowOne(AllX(n), 'X', target, ROUNDS);
    } else {
      MissedByAllX(n, target, ROUNDS);
    }
  }

  ghost predicate AlwaysNear(target: int) {
    forall draw :: Drawn(target, draw) ==> Near(Tokenish(target, draw), target)
  }

  /** The exact range of targets the generator meets whatever it draws. The default padding
      range reaches to 1000 bytes, so above 608 the tolerance is met only by luck. */
  lemma GuaranteedTargets(target: int)
    ensures AlwaysNear(target) <==> -1 <= target <= 608
  {
    if -1 <= target <= 608 {
      forall draw | Drawn(target, draw)
        ensures Near(Tokenish(target, draw), target)
      {
        NearForEveryDraw(target, draw);
      }
    } else {
      AllXIsBase62(DrawSize(target));
      assert Drawn(target, AllX(DrawSize(target)));
      MissedBySomeDraw(target, DrawSize(target));
    }
  }

  // ---------------------------------------------------------------- what the result looks like

  /** `X`, `Z` in turn. */
  function Alternating(first: char, n: nat): (s: string)
    ensures |s| == n
    decreases n
  {
    if n == 0 then [] else [first] + Alternating(Other(first), n - 1)
  }

  lemma AlternatingCons(s: string, first: char, n: nat)
    ensures s + [first] + Alternating(Other(first), n) == s + Alternating(first, n + 1)
  {
  }

  /** Rounds spent on growing: one for every missing byte. */
  function Missing(s: string, target: int, rounds: nat): nat {
    var missing := target - TOLERANCE - EncodedLength(s);
    if missing <= 0 then 0 else if missing < rounds then missing else rounds
  }

  lemma {:induction false} GrowingExact(s: string, adjust: char, target: int, rounds: nat)
    requires adjust == 'X' || adjust == 'Z'
    requires EncodedLength(s) <= target + TOLERANCE
    ensures Adjusted(s, adjust, target, rounds) == s + Alternating(adjust, Missing(s, target, rounds))
    decreases rounds
  {
    if rounds == 0 || Near(s, target) {
      assert s + [] == s;
    } else {
      AppendAddsOne(s, adjust);
      var k := Missing(s, target, rounds);
      assert Missing(s + [adjust], target, rounds - 1) == k - 1;
      GrowingExact(s + [adjust], Other(adjust), target, rounds - 1);
      AlternatingCons(s, adjust, k - 1);
    }
  }

  /** `r` is the longest prefix of `s` that is not too long, unless the rounds end before it or
      only one character is left. */
  predicate CutDown(r: string, s: string, target: int, rounds: nat) {
    && |r| <= |s| && r == s[..|r|] && |s| - |r| <= rounds
    && (forall k :: |r| < k <= |s| ==> EncodedLength(s[..k]) > target + TOLERANCE)
    && (EncodedLength(r) <= target + TOLERANCE || |s| - |r| == rounds || |r| <= 1)
  }

  lemma {:induction false} ShrinkingExact(s: string, adjust: char, target: int, rounds: nat)
    requires EncodedLength(s) >= target - TOLERANCE
    ensures CutDown(Adjusted(s, adjust, target, rounds), s, target, rounds)
    decreases rounds
  {
    assert s[..|s|] == s;
    if rounds > 0 && !Near(s, target) && |s| > 1 {
      var p := s[..|s| - 1];
      RemovalDropsAtMostOne(s);
      ShrinkingExact(p, adjust, target, rounds - 1);
      assert forall k :: 0 <= k <= |p| ==> p[..k] == s[..k];
    }
  }

  /** The result for every draw, target and number of rounds: the draw itself where it is near;
      a short draw followed by one of X and Z in turn for every missing byte; a long draw cut
      down to its longest prefix that is not too long. */
  lemma ResultExact(target: int, draw: string, rounds: nat)
    ensures
      var r, diff := Adjusted(draw, 'X', target, rounds), EncodedLength(draw) - target;
      && (Near(draw, target) ==> r == draw)
      && (diff < -TOLERANCE ==> r == draw + Alternating('X', Missing(draw, target, rounds)))
      && (diff > TOLERANCE ==> CutDown(r, draw, target, rounds))
  {
    if EncodedLength(draw) >= target - TOLERANCE {
      ShrinkingExact(draw, 'X', target, rounds);
    } else {
      GrowingExact(draw, 'X', target, rounds);
    }
  }
}
