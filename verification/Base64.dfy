/**
 Base64 in the four dialects subscription panels use (sections 4 and 5 of RFC 4648, with
 and without the padding of section 3.2), as Go's non-strict decoder reads them: line
 breaks are skipped and left-over bits of a final group are ignored.
 */
module Base64 {
  import opened Wrappers

  type Byte = n: nat | n < 256

  datatype Dialect = Dialect(url: bool, padded: bool)

  const STD := Dialect(false, true)
  const RAW_STD := Dialect(false, false)
  const URL := Dialect(true, true)
  const RAW_URL := Dialect(true, false)

  /** The six-bit value of a character, or None outside the alphabet. */
  function Value(url: bool, c: char): (v: Option<nat>)
    ensures v.Some? ==> v.value < 64
    ensures v.Some? ==> c != '=' && c != '\n' && c != '\r'
  {
    if 'A' <= c <= 'Z' then Some(c as int - 'A' as int)
    else if 'a' <= c <= 'z' then Some(c as int - 'a' as int + 26)
    else if '0' <= c <= '9' then Some(c as int - '0' as int + 52)
    else if c == (if url then '-' else '+') then Some(62)
    else if c == (if url then '_' else '/') then Some(63)
    else None
  }

  function Letter(url: bool, v: nat): (c: char)
    requires v < 64
    ensures Value(url, c) == Some(v)
  {
    if v < 26 then ('A' as int + v) as char
    else if v < 52 then ('a' as int + v - 26) as char
    else if v < 62 then ('0' as int + v - 52) as char
    else if v == 62 then if url then '-' else '+'
    else if url then '_' else '/'
  }

  /** The bytes of a group of six-bit values: one byte fewer than values. */
  function Bytes(v: seq<nat>): (b: seq<Byte>)
    requires 2 <= |v| <= 4 && forall i :: 0 <= i < |v| ==> v[i] < 64
    ensures |b| == |v| - 1
  {
    [v[0] * 4 + v[1] / 16]
    + (if |v| > 2 then [v[1] % 16 * 16 + v[2] / 4] else [])
    + (if |v| > 3 then [v[2] % 4 * 64 + v[3]] else [])
  }

  /** Number of leading characters of the alphabet, at most four. */
  function GroupSize(url: bool, s: string): (n: nat)
    ensures n <= 4 && n <= |s|
    ensures forall i :: 0 <= i < n ==> Value(url, s[i]).Some?
    ensures n < 4 && n < |s| ==> Value(url, s[n]).None?
  {
    if |s| == 0 || Value(url, s[0]).None? then 0
    else if |s| == 1 || Value(url, s[1]).None? then 1
    else if |s| == 2 || Value(url, s[2]).None? then 2
    else if |s| == 3 || Value(url, s[3]).None? then 3
    else 4
  }

  function Values(url: bool, s: string): (v: seq<nat>)
    requires forall i :: 0 <= i < |s| ==> Value(url, s[i]).Some?
    ensures |v| == |s| && forall i :: 0 <= i < |v| ==> v[i] < 64
  {
    seq(|s|, i requires 0 <= i < |s| => Value(url, s[i]).value)
  }

  function Pads(k: nat): (s: string)
    ensures |s| == k && forall i :: 0 <= i < k ==> s[i] == '='
  {
    seq(k, _ => '=')
  }

  function DecodeGroups(d: Dialect, s: string): Option<seq<Byte>> {
    if s == [] then Some([])
    else
      var n := GroupSize(d.url, s);
      if n == 4 then
        match DecodeGroups(d, s[4..])
        case Some(rest) => Some(Bytes(Values(d.url, s[..4])) + rest)
        case None => None
      else if n < 2 then None
      else if d.padded then
        if |s| == 4 && s[n..] == Pads(4 - n) then Some(Bytes(Values(d.url, s[..n]))) else None
      else
        if n == |s| then Some(Bytes(Values(d.url, s[..n]))) else None
  }

  /** `s` without the characters of `drop`. */
  function Without(s: string, drop: set<char>): string {
    if s == [] then []
    else Without(s[..|s| - 1], drop) + if s[|s| - 1] in drop then [] else [s[|s| - 1]]
  }

  function Decode(d: Dialect, s: string): Option<seq<Byte>> {
    DecodeGroups(d, Without(s, {'\n', '\r'}))
  }

  // ---------------------------------------------------------------- dialects agree

  lemma {:induction false} GroupsAgree(a: Dialect, b: Dialect, s: string)
    requires DecodeGroups(a, s).Some? && DecodeGroups(b, s).Some?
    ensures DecodeGroups(a, s) == DecodeGroups(b, s)
  {
    if s != [] {
      var n, m := GroupSize(a.url, s), GroupSize(b.url, s);
      assert n == m;
      if n == 4 {
        GroupsAgree(a, b, s[4..]);
      }
      assert Values(a.url, s[..n]) == Values(b.url, s[..n]);
    }
  }

  /** Any two dialects that accept a text read the same bytes from it. */
  lemma DialectsAgree(a: Dialect, b: Dialect, s: string)
    requires Decode(a, s).Some? && Decode(b, s).Some?
    ensures Decode(a, s) == Decode(b, s)
  {
    GroupsAgree(a, b, Without(s, {'\n', '\r'}));
  }

  /** The loop over the dialects: the first decoding that `looksRight`. */
  function FirstAccepted(order: seq<Dialect>, s: string, looksRight: seq<Byte> -> bool): Option<seq<Byte>> {
    if order == [] then None
    else
      var r := Decode(order[0], s);
      if r.Some? && looksRight(r.value) then r else FirstAccepted(order[1..], s, looksRight)
  }

  method Compact(text: string, drop: set<char>) returns (r: string)
    ensures r == Without(text, drop)
  {
    r := "";
    for i := 0 to |text|
      invariant r == Without(text[..i], drop)
    {
      assert text[..i + 1][..i] == text[..i];
      if text[i] !in drop {
        r := r + [text[i]];
      }
    }
    assert text[..|text|] == text;
  }

  method TryAll(order: seq<Dialect>, s: string, looksRight: seq<Byte> -> bool) returns (r: Option<seq<Byte>>)
    ensures r == FirstAccepted(order, s, looksRight)
  {
    for i := 0 to |order|
      invariant FirstAccepted(order[i..], s, looksRight) == FirstAccepted(order, s, looksRight)
    {
      assert order[i..][1..] == order[i + 1..];
      r := Decode(order[i], s);
      if r.Some? && looksRight(r.value) {
        return;
      }
    }
    r := None;
  }

  const BLANKS := {'\n', '\r', ' ', '\t'}

  method DecodeBase64(text: string, looksRight: seq<Byte> -> bool) returns (r: Option<seq<Byte>>)
    ensures r == FirstAccepted([STD, RAW_STD, URL, RAW_URL], Without(text, BLANKS), looksRight)
  {
    var compact := Compact(text, BLANKS);
    r := TryAll([STD, RAW_STD, URL, RAW_URL], compact, looksRight);
  }

  lemma {:induction false} FirstAcceptedMeans(order: seq<Dialect>, s: string, looksRight: seq<Byte> -> bool)
    ensures
      var r := FirstAccepted(order, s, looksRight);
      && (r.Some? ==> exists d :: d in order && Decode(d, s) == r && looksRight(r.value))
      && (r.None? ==> forall d :: d in order && Decode(d, s).Some? ==> !looksRight(Decode(d, s).value))
  {
    if order != [] {
      FirstAcceptedMeans(order[1..], s, looksRight);
      var r := FirstAccepted(order[1..], s, looksRight);
      if r.Some? {
        var d :| d in order[1..] && Decode(d, s) == r && looksRight(r.value);
        assert d in order;
      }
      assert order[0] in order;
      forall d | d in order
        ensures d == order[0] || d in order[1..]
      {
      }
    }
  }

  /** The order in which the dialects are tried never matters. */
  lemma TrialOrderIrrelevant(a: seq<Dialect>, b: seq<Dialect>, s: string, looksRight: seq<Byte> -> bool)
    requires forall d :: d in a <==> d in b
    ensures FirstAccepted(a, s, looksRight) == FirstAccepted(b, s, looksRight)
  {
    FirstAcceptedMeans(a, s, looksRight);
    FirstAcceptedMeans(b, s, looksRight);
    var ra, rb := FirstAccepted(a, s, looksRight), FirstAccepted(b, s, looksRight);
    if ra.Some? && rb.Some? {
      var da :| da in a && Decode(da, s) == ra && looksRight(ra.value);
      var db :| db in b && Decode(db, s) == rb && looksRight(rb.value);
      DialectsAgree(da, db, s);
    }
  }

  // ---------------------------------------------------------------- what is accepted

  predicate InAlphabet(url: bool, s: string) {
    forall i :: 0 <= i < |s| ==> Value(url, s[i]).Some?
  }

  lemma AlphabetSplit(url: bool, s: string)
    requires |s| >= 4
    ensures InAlphabet(url, s) <==> GroupSize(url, s) == 4 && InAlphabet(url, s[4..])
  {
    assert s == s[..4] + s[4..];
  }

  /** The unpadded dialects accept exactly the alphabet texts without a stray last character. */
  lemma {:induction false} RawAccepts(url: bool, s: string)
    ensures DecodeGroups(Dialect(url, false), s).Some? <==> InAlphabet(url, s) && |s| % 4 != 1
  {
    if |s| >= 4 {
      AlphabetSplit(url, s);
      if GroupSize(url, s) == 4 {
        RawAccepts(url, s[4..]);
      }
    }
  }

  predicate PaddedBy(url: bool, s: string, k: nat) {
    && k <= |s|
    && (forall i :: 0 <= i < |s| - k ==> Value(url, s[i]).Some?)
    && (forall i :: |s| - k <= i < |s| ==> s[i] == '=')
  }

  /** Whole groups of the alphabet, the last one padded by at most two `=`. */
  predicate WholeGroups(url: bool, s: string) {
    |s| % 4 == 0 && exists k :: 0 <= k <= 2 && PaddedBy(url, s, k)
  }

  lemma PadsFit(url: bool, s: string, k: nat)
    requires k <= 2 && k <= |s| && GroupSize(url, s) == 4
    ensures PaddedBy(url, s, k) <==> PaddedBy(url, s[4..], k)
  {
    var t := s[4..];
    assert forall i :: 0 <= i < |t| ==> t[i] == s[i + 4];
    if PaddedBy(url, s, k) {
      assert Value(url, s[3]).Some?;
      assert |s| - k >= 4;
    }
    if PaddedBy(url, t, k) {
      forall i | 0 <= i < |s|
        ensures if i < |s| - k then Value(url, s[i]).Some? else s[i] == '='
      {
        assert i >= 4 ==> s[i] == t[i - 4];
      }
    }
  }

  /** A last group short of four characters. */
  lemma PaddedTail(url: bool, s: string, k: nat)
    requires s != [] && |s| % 4 == 0 && GroupSize(url, s) < 4 && k <= 2
    requires PaddedBy(url, s, k)
    ensures |s| == 4 && GroupSize(url, s) == 4 - k
  {
    var c := if k == 0 then '=' else s[|s| - k];
    assert Value(url, c).None?;
  }

  lemma PaddedLast(url: bool, s: string)
    requires s != [] && GroupSize(url, s) < 4
    ensures DecodeGroups(Dialect(url, true), s).Some?
       <==> WholeGroups(url, s)
  {
    var n := GroupSize(url, s);
    if DecodeGroups(Dialect(url, true), s).Some? {
      assert forall i :: n <= i < 4 ==> s[i] == s[n..][i - n];
      assert PaddedBy(url, s, 4 - n);
    }
    if WholeGroups(url, s) {
      var k :| 0 <= k <= 2 && PaddedBy(url, s, k);
      PaddedTail(url, s, k);
      assert s[n..] == Pads(k);
    }
  }

  lemma WholeGroupsShift(url: bool, s: string)
    requires GroupSize(url, s) == 4
    ensures WholeGroups(url, s) <==> WholeGroups(url, s[4..])
  {
    if WholeGroups(url, s) {
      var k :| 0 <= k <= 2 && PaddedBy(url, s, k);
      PadsFit(url, s, k);
    }
    if WholeGroups(url, s[4..]) {
      var k :| 0 <= k <= 2 && PaddedBy(url, s[4..], k);
      PadsFit(url, s, k);
    }
  }

  /** The padded dialects accept exactly whole groups, the last one padded by up to two `=`. */
  lemma {:induction false} PaddedAccepts(url: bool, s: string)
    ensures DecodeGroups(Dialect(url, true), s).Some?
       <==> WholeGroups(url, s)
  {
    if s == [] {
      assert PaddedBy(url, s, 0);
    } else if GroupSize(url, s) == 4 {
      PaddedAccepts(url, s[4..]);
      WholeGroupsShift(url, s);
    } else {
      PaddedLast(url, s);
    }
  }

  // ---------------------------------------------------------------- encoding

  function EncodeGroup(url: bool, b: seq<Byte>): (s: string)
    requires 1 <= |b| <= 3
    ensures |s| == |b| + 1
  {
    if |b| == 1 then [Letter(url, b[0] / 4), Letter(url, b[0] % 4 * 16)]
    else if |b| == 2 then
      [Letter(url, b[0] / 4), Letter(url, b[0] % 4 * 16 + b[1] / 16), Letter(url, b[1] % 16 * 4)]
    else
      [Letter(url, b[0] / 4), Letter(url, b[0] % 4 * 16 + b[1] / 16),
       Letter(url, b[1] % 16 * 4 + b[2] / 64), Letter(url, b[2] % 64)]
  }

  /** Unpadded encoding. */
  function Encode(url: bool, b: seq<Byte>): string {
    if b == [] then []
    else if |b| <= 3 then EncodeGroup(url, b)
    else EncodeGroup(url, b[..3]) + Encode(url, b[3..])
  }

  lemma Recombine(x: Byte, y: Byte)
    ensures x / 4 * 4 + x % 4 * 16 / 16 == x
    ensures x / 4 * 4 + (x % 4 * 16 + y / 16) / 16 == x
    ensures (x % 4 * 16 + y / 16) % 16 * 16 + y % 16 * 4 / 4 == y
  {
  }

  lemma RecombineLast(x: Byte, y: Byte, z: Byte)
    ensures (x % 4 * 16 + y / 16) % 16 * 16 + (y % 16 * 4 + z / 64) / 4 == y
    ensures (y % 16 * 4 + z / 64) % 4 * 64 + z % 64 == z
  {
  }

  lemma GroupRoundTrip(url: bool, b: seq<Byte>)
    requires 1 <= |b| <= 3
    ensures var s := EncodeGroup(url, b); GroupSize(url, s) == |s| && Bytes(Values(url, s)) == b
  {
    Recombine(b[0], if |b| > 1 then b[1] else 0);
    if |b| > 2 {
      RecombineLast(b[0], b[1], b[2]);
    }
  }

  /** Decoding an encoded payload returns it. */
  lemma {:induction false} EncodeRoundTrip(url: bool, b: seq<Byte>)
    ensures DecodeGroups(Dialect(url, false), Encode(url, b)) == Some(b)
  {
    if b == [] {
      return;
    }
    if |b| <= 3 {
      GroupRoundTrip(url, b);
      var s := Encode(url, b);
      assert s[..|s|] == s;
      if |b| == 3 {
        assert s[4..] == [] && s[..4] == s;
        assert DecodeGroups(Dialect(url, false), s[4..]) == Some([]);
        assert b + [] == b;
      }
    } else {
      var g, rest := EncodeGroup(url, b[..3]), Encode(url, b[3..]);
      GroupRoundTrip(url, b[..3]);
      EncodeRoundTrip(url, b[3..]);
      assert (g + rest)[..4] == g && (g + rest)[4..] == rest;
      assert forall i :: 0 <= i < 4 ==> (g + rest)[i] == g[i];
      assert GroupSize(url, g + rest) == 4;
      assert b == b[..3] + b[3..];
    }
  }

  lemma {:induction false} NothingDropped(s: string, drop: set<char>)
    requires forall i :: 0 <= i < |s| ==> s[i] !in drop
    ensures Without(s, drop) == s
  {
    if s != [] {
      NothingDropped(s[..|s| - 1], drop);
      assert s == s[..|s| - 1] + [s[|s| - 1]];
    }
  }

  /** The unpadded dialects read back what the encoder of the same alphabet wrote. */
  lemma RoundTrip(url: bool, b: seq<Byte>)
    ensures Decode(Dialect(url, false), Encode(url, b)) == Some(b)
  {
    var s := Encode(url, b);
    EncodeRoundTrip(url, b);
    RawAccepts(url, s);
    NothingDropped(s, {'\n', '\r'});
  }

  // ---------------------------------------------------------------- exactly what is decoded

  /** The value of the last of `n` characters without the bits that no byte takes. */
  function Cut(n: nat, v: nat): nat {
    if n % 4 == 2 then v / 16 * 16 else if n % 4 == 3 then v / 4 * 4 else v
  }

  /** `t` is `s`, apart from left-over bits of the last character. */
  predicate SameBits(url: bool, s: string, t: string)
    requires InAlphabet(url, s) && InAlphabet(url, t)
  {
    && |s| == |t| && (forall i :: 0 <= i < |s| - 1 ==> s[i] == t[i])
    && (s != [] ==> Value(url, t[|t| - 1]).value == Cut(|s|, Value(url, s[|s| - 1]).value))
  }

  lemma LetterOf(url: bool, c: char)
    requires Value(url, c).Some?
    ensures Letter(url, Value(url, c).value) == c
  {
  }

  lemma SplitFirst(x: nat, y: nat)
    requires x < 64 && y < 64
    ensures (x * 4 + y / 16) / 4 == x && (x * 4 + y / 16) % 4 * 16 == y / 16 * 16
  {
  }

  lemma SplitSecond(x: nat, y: nat)
    requires x < 64 && y < 64
    ensures (x % 16 * 16 + y / 4) / 16 == x % 16 && (x % 16 * 16 + y / 4) % 16 * 4 == y / 4 * 4
  {
  }

  lemma SplitThird(x: nat, y: nat)
    requires x < 64 && y < 64
    ensures (x % 4 * 64 + y) / 64 == x % 4 && (x % 4 * 64 + y) % 64 == y
  {
  }

  lemma JoinSecond(x: nat, y: nat, z: nat)
    requires x < 64 && y < 64 && z < 64
    ensures (x * 4 + y / 16) % 4 * 16 + (y % 16 * 16 + z / 4) / 16 == y
    ensures (y % 16 * 16 + z / 4) % 16 * 4 == z / 4 * 4
  {
    SplitFirst(x, y);
    SplitSecond(y, z);
    assert y / 16 * 16 + y % 16 == y;
  }

  lemma JoinThird(x: nat, y: nat, z: nat)
    requires x < 64 && y < 64 && z < 64
    ensures (x % 16 * 16 + y / 4) % 16 * 4 + (y % 4 * 64 + z) / 64 == y
    ensures (y % 4 * 64 + z) % 64 == z
  {
    SplitSecond(x, y);
    SplitThird(y, z);
    assert y / 4 * 4 + y % 4 == y;
  }

  lemma BackTwo(url: bool, b: seq<Byte>, x: nat, y: nat)
    requires x < 64 && y < 64 && b == [x * 4 + y / 16]
    ensures EncodeGroup(url, b) == [Letter(url, x), Letter(url, y / 16 * 16)]
  {
    SplitFirst(x, y);
  }

  lemma BackThree(url: bool, b: seq<Byte>, x: nat, y: nat, z: nat)
    requires x < 64 && y < 64 && z < 64 && b == [x * 4 + y / 16, y % 16 * 16 + z / 4]
    ensures EncodeGroup(url, b) == [Letter(url, x), Letter(url, y), Letter(url, z / 4 * 4)]
  {
    SplitFirst(x, y);
    JoinSecond(x, y, z);
  }

  /** The four letters of a group of three bytes, by their values. */
  lemma EncodeThree(url: bool, b: seq<Byte>, x: nat, y: nat, z: nat, w: nat)
    requires |b| == 3 && x < 64 && y < 64 && z < 64 && w < 64
    requires b[0] / 4 == x && b[0] % 4 * 16 + b[1] / 16 == y && b[1] % 16 * 4 + b[2] / 64 == z && b[2] % 64 == w
    ensures EncodeGroup(url, b) == [Letter(url, x), Letter(url, y), Letter(url, z), Letter(url, w)]
  {
  }

  lemma BackFour(url: bool, x: nat, y: nat, z: nat, w: nat)
    requires x < 64 && y < 64 && z < 64 && w < 64
    ensures EncodeGroup(url, [x * 4 + y / 16, y % 16 * 16 + z / 4, z % 4 * 64 + w])
         == [Letter(url, x), Letter(url, y), Letter(url, z), Letter(url, w)]
  {
    SplitFirst(x, y);
    JoinSecond(x, y, z);
    JoinThird(y, z, w);
    EncodeThree(url, [x * 4 + y / 16, y % 16 * 16 + z / 4, z % 4 * 64 + w], x, y, z, w);
  }

  /** Encoding the bytes of a group of values gives the letters of the values, the last one cut. */
  lemma BytesBack(url: bool, v: seq<nat>)
    requires 2 <= |v| <= 4 && forall i :: 0 <= i < |v| ==> v[i] < 64
    ensures
      EncodeGroup(url, Bytes(v))
        == if |v| == 2 then [Letter(url, v[0]), Letter(url, v[1] / 16 * 16)]
           else if |v| == 3 then [Letter(url, v[0]), Letter(url, v[1]), Letter(url, v[2] / 4 * 4)]
           else [Letter(url, v[0]), Letter(url, v[1]), Letter(url, v[2]), Letter(url, v[3])]
  {
    if |v| == 2 {
      BackTwo(url, Bytes(v), v[0], v[1]);
    } else if |v| == 3 {
      BackThree(url, Bytes(v), v[0], v[1], v[2]);
    } else {
      BackFour(url, v[0], v[1], v[2], v[3]);
    }
  }

  lemma GroupBack(url: bool, s: string)
    requires 2 <= |s| <= 4 && InAlphabet(url, s)
    ensures
      var t := EncodeGroup(url, Bytes(Values(url, s)));
      InAlphabet(url, t) && SameBits(url, s, t)
  {
    var v := Values(url, s);
    BytesBack(url, v);
    forall i | 0 <= i < |s|
      ensures Letter(url, v[i]) == s[i]
    {
      LetterOf(url, s[i]);
    }
  }

  /** Decoding loses only the left-over bits: encoding what was decoded gives the text back apart
      from them. So the bytes of every accepted text, canonical or not, are determined. */
  lemma {:induction false} EncodeDecoded(url: bool, s: string)
    requires DecodeGroups(Dialect(url, false), s).Some?
    ensures
      var t := Encode(url, DecodeGroups(Dialect(url, false), s).value);
      InAlphabet(url, s) && InAlphabet(url, t) && SameBits(url, s, t)
  {
    RawAccepts(url, s);
    if s == [] {
      return;
    }
    if |s| < 4 {
      assert s[..|s|] == s;
      GroupBack(url, s);
    } else {
      AlphabetSplit(url, s);
      var g, rest := Bytes(Values(url, s[..4])), DecodeGroups(Dialect(url, false), s[4..]).value;
      GroupBack(url, s[..4]);
      EncodeDecoded(url, s[4..]);
      EncodeFront(url, g, rest);
      JoinSame(url, s, EncodeGroup(url, g), Encode(url, rest));
    }
  }

  lemma EncodeFront(url: bool, g: seq<Byte>, rest: seq<Byte>)
    requires |g| == 3
    ensures Encode(url, g + rest) == EncodeGroup(url, g) + Encode(url, rest)
  {
    if rest == [] {
      assert g + rest == g;
      assert Encode(url, g) + [] == Encode(url, g);
    } else {
      assert (g + rest)[..3] == g && (g + rest)[3..] == rest;
    }
  }

  lemma JoinSame(url: bool, s: string, a: string, b: string)
    requires |s| >= 4 && InAlphabet(url, s) && InAlphabet(url, a) && InAlphabet(url, b)
    requires SameBits(url, s[..4], a) && SameBits(url, s[4..], b)
    ensures InAlphabet(url, a + b) && SameBits(url, s, a + b)
  {
    LetterOf(url, s[3]);
    LetterOf(url, a[3]);
    assert a[3] == s[3];
    assert forall i :: 4 <= i < |s| ==> s[i] == s[4..][i - 4] && (i - 4 < |b| ==> (a + b)[i] == b[i - 4]);
  }

  /** A padded dialect reads what the unpadded one reads from the text without its padding. */
  lemma {:induction false} PaddedIsRaw(url: bool, s: string, k: nat)
    requires DecodeGroups(Dialect(url, true), s).Some? && k <= 2 && PaddedBy(url, s, k)
    ensures DecodeGroups(Dialect(url, false), s[..|s| - k]) == DecodeGroups(Dialect(url, true), s)
  {
    var t := s[..|s| - k];
    if s == [] {
      assert t == [];
      return;
    }
    var n := GroupSize(url, s);
    if n == 4 {
      PadsFit(url, s, k);
      PaddedIsRaw(url, s[4..], k);
      assert |t| >= 4 && t[..4] == s[..4] && t[4..] == s[4..][..|s[4..]| - k];
      assert GroupSize(url, t) == 4;
    } else {
      PaddedAccepts(url, s);
      PaddedTail(url, s, k);
      assert t == s[..n] && GroupSize(url, t) == n && t[..n] == t;
    }
  }

  lemma {:induction false} WithoutAppend(a: string, b: string, drop: set<char>)
    ensures Without(a + b, drop) == Without(a, drop) + Without(b, drop)
  {
    if b == [] {
      assert a + b == a;
    } else {
      var n := |b| - 1;
      assert a + b == (a + b[..n]) + [b[n]];
      assert (a + b)[..|a + b| - 1] == a + b[..n];
      WithoutAppend(a, b[..n], drop);
    }
  }

  /** Line breaks decide nothing, wherever they stand. */
  lemma LineBreaksIgnored(d: Dialect, a: string, c: char, b: string)
    requires c == '\n' || c == '\r'
    ensures Decode(d, a + [c] + b) == Decode(d, a + b)
  {
    var drop := {'\n', '\r'};
    WithoutAppend(a + [c], b, drop);
    WithoutAppend(a, [c], drop);
    WithoutAppend(a, b, drop);
    assert Without([c], drop) == [];
    assert Without(a, drop) + [] == Without(a, drop);
  }

  lemma OneGroup(d: Dialect, s: string, v: seq<nat>, b: seq<Byte>)
    requires 2 <= |v| <= 4 && |v| <= |s| && forall i :: 0 <= i < |v| ==> v[i] < 64
    requires forall i :: 0 <= i < |v| ==> Value(d.url, s[i]) == Some(v[i])
    requires if d.padded then |s| == 4 && s[|v|..] == Pads(4 - |v|) else |s| == |v|
    requires Bytes(v) == b
    ensures DecodeGroups(d, s) == Some(b)
  {
    assert GroupSize(d.url, s) == |v|;
    assert Values(d.url, s[..|v|]) == v;
    if |v| == 4 {
      assert s[4..] == [];
      assert b + [] == b;
    }
  }

  /** The test vectors of section 10 of RFC 4648 for one, two and three bytes. */
  lemma TestVectors()
    ensures DecodeGroups(STD, "Zg==") == Some([102])
    ensures DecodeGroups(STD, "Zm8=") == Some([102, 111])
    ensures DecodeGroups(STD, "Zm9v") == Some([102, 111, 111])
  {
    assert "Zg=="[2..] == Pads(2) && "Zm8="[3..] == Pads(1) && "Zm9v"[4..] == Pads(0);
    OneGroup(STD, "Zg==", [25, 32], [102]);
    OneGroup(STD, "Zm8=", [25, 38, 60], [102, 111]);
    OneGroup(STD, "Zm9v", [25, 38, 61, 47], [102, 111, 111]);
  }

  /** The letters in which the two alphabets differ. */
  lemma AlphabetsDiffer()
    ensures DecodeGroups(RAW_STD, "+/+/") == Some([251, 255, 191]) == DecodeGroups(RAW_URL, "-_-_")
    ensures DecodeGroups(RAW_URL, "+/+/").None? && DecodeGroups(RAW_STD, "-_-_").None?
  {
    OneGroup(RAW_STD, "+/+/", [62, 63, 62, 63], [251, 255, 191]);
    OneGroup(RAW_URL, "-_-_", [62, 63, 62, 63], [251, 255, 191]);
  }
}
