/**
 [proxy] and [direct] rule lists: the three shapes of an entry, how a list is
 classified, and what it means for one entry to match a host.
 */
module Rules {
  import opened Wrappers
  import opened Text

  // ---------------------------------------------------------------- IPv4 literals

  /** An IPv4 address as a number, first octet most significant. */
  type Address = a: nat | a < 0x1_0000_0000

  datatype Cidr = Cidr(net: Address, bits: nat)

  predicate OctetText(f: string) {
    AllDigits(f) && |f| <= 3 && Decimal(f) <= 255
  }

  /** How net.ParseIP reads an octet: no leading zeros. */
  predicate CanonicalOctet(f: string) {
    OctetText(f) && (|f| > 1 ==> f[0] != '0')
  }

  function Word(a: nat, b: nat, c: nat, d: nat): Address
    requires a < 256 && b < 256 && c < 256 && d < 256
  {
    a * 0x100_0000 + b * 0x1_0000 + c * 0x100 + d
  }

  /** net.ParseIP on a host without a colon. */
  function ParseIPv4(host: string): Option<Address> {
    var f := Split(host, '.');
    if |f| == 4 && CanonicalOctet(f[0]) && CanonicalOctet(f[1]) && CanonicalOctet(f[2]) && CanonicalOctet(f[3]) then
      Some(Word(Decimal(f[0]), Decimal(f[1]), Decimal(f[2]), Decimal(f[3])))
    else None
  }

  /** `a` without its lowest `k` bits. */
  function Shift(a: nat, k: nat): nat {
    if k == 0 then a else Shift(a / 2, k - 1)
  }

  /** What is left of an address under a mask of `bits` leading ones. */
  function Prefix(a: Address, bits: nat): nat
    requires bits <= 32
  {
    Shift(a, 32 - bits)
  }

  function Pow2(n: nat): nat {
    if n == 0 then 1 else 2 * Pow2(n - 1)
  }

  lemma {:induction false} ShiftOut(a: nat, k: nat)
    requires a < Pow2(k)
    ensures Shift(a, k) == 0
  {
    if k > 0 {
      ShiftOut(a / 2, k - 1);
    }
  }

  /** The empty mask leaves nothing. */
  lemma NoBits(a: Address, bits: nat)
    requires bits == 0
    ensures Prefix(a, bits) == 0
  {
    assert Pow2(8) == 0x100;
    assert Pow2(16) == 0x1_0000;
    assert Pow2(24) == 0x100_0000;
    assert Pow2(32) == 0x1_0000_0000;
    ShiftOut(a, 32);
  }

  /** net.ParseCIDR restricted to IPv4 text. */
  function ParseCidr(e: string): Option<Cidr> {
    var i := Index(e, '/');
    if i < 0 then None
    else
      var bits := e[i + 1..];
      var ip := ParseIPv4(e[..i]);
      if ip.None? || !AllDigits(bits) || Decimal(bits) > 32 then None
      else Some(Cidr(ip.value, Decimal(bits)))
  }

  /** The address and the network have the same masked value. */
  predicate Contains(n: Cidr, ip: Address)
    requires n.bits <= 32
  {
    Prefix(ip, n.bits) == Prefix(n.net, n.bits)
  }

  /** Four canonical octets written with dots are read back as the word they denote. */
  lemma QuadParses(f: seq<string>)
    requires |f| == 4 && CanonicalOctet(f[0]) && CanonicalOctet(f[1]) && CanonicalOctet(f[2]) && CanonicalOctet(f[3])
    ensures ParseIPv4(Join(f, '.')) == Some(Word(Decimal(f[0]), Decimal(f[1]), Decimal(f[2]), Decimal(f[3])))
  {
    SplitJoin(f, '.');
  }

  lemma {:induction false} JoinChars(f: seq<string>, sep: char, c: char)
    requires |f| >= 1 && c in Join(f, sep)
    ensures c == sep || exists i :: 0 <= i < |f| && c in f[i]
  {
    if |f| > 1 && c !in f[0] && c != sep {
      JoinChars(f[1..], sep, c);
      var i :| 0 <= i < |f[1..]| && c in f[1..][i];
      assert c in f[i + 1];
    }
  }

  /** A canonical quad with a prefix length is read back as that network. */
  lemma CidrParses(f: seq<string>, bits: string)
    requires |f| == 4 && CanonicalOctet(f[0]) && CanonicalOctet(f[1]) && CanonicalOctet(f[2]) && CanonicalOctet(f[3])
    requires AllDigits(bits) && Decimal(bits) <= 32
    ensures ParseCidr(Join(f, '.') + ['/'] + bits)
         == Some(Cidr(Word(Decimal(f[0]), Decimal(f[1]), Decimal(f[2]), Decimal(f[3])), Decimal(bits)))
  {
    QuadParses(f);
    var q := Join(f, '.');
    var e := q + ['/'] + bits;
    if '/' in q {
      JoinChars(f, '.', '/');
    }
    IndexFromIs(e, '/', 0, |q|);
    assert e[..|q|] == q && e[|q| + 1..] == bits;
  }

  // ---------------------------------------------------------------- entries

  /** The form in which an entry is compared: trimmed and lower case. */
  function Norm(raw: string): string {
    Lower(Trim(raw))
  }

  /** path.Match for patterns whose only special characters are '*' and '?'. */
  predicate PathMatch(pat: string, s: string)
    decreases |pat| + |s|
  {
    if pat == "" then s == ""
    else if pat[0] == '*' then
      PathMatch(pat[1..], s) || (s != "" && s[0] != '/' && PathMatch(pat, s[1..]))
    else
      s != "" && (if pat[0] == '?' then s[0] != '/' else pat[0] == s[0]) && PathMatch(pat[1..], s[1..])
  }

  predicate DomainHit(d: string, host: string) {
    host == d || HasSuffix(host, "." + d)
  }

  predicate GlobHit(g: string, host: string) {
    PathMatch(g, host) || (g == "*.ru" && host == "ru")
  }

  predicate NetHit(n: Cidr, host: string) {
    n.bits <= 32 && ParseIPv4(host).Some? && Contains(n, ParseIPv4(host).value)
  }

  /** The entry `e`, already normalised, matches the host: a CIDR matches literal addresses, a
      wildcard matches as a glob, any other entry matches itself and its subdomains. */
  predicate EntryMatches(e: string, host: string) {
    if e == "" then false
    else if '/' in e then
      ParseCidr(e).Some? && NetHit(ParseCidr(e).value, host)
    else if '*' in e then GlobHit(e, host)
    else DomainHit(e, host)
  }

  /** Some entry of the list matches: what a rule list means. */
  ghost predicate ListMatches(rules: seq<string>, host: string) {
    exists i :: 0 <= i < |rules| && EntryMatches(Norm(rules[i]), host)
  }

  // ---------------------------------------------------------------- classification

  datatype Classes = Classes(domains: seq<string>, globs: seq<string>, cidrs: seq<string>, nets: seq<Cidr>)

  const NO_RULES := Classes([], [], [], [])

  /** Classification of one more entry. */
  function Classify1(cl: Classes, raw: string): Classes {
    var e := Norm(raw);
    if e == "" then cl
    else if '/' in e then
      var n := ParseCidr(e);
      if n.Some? then cl.(cidrs := cl.cidrs + [e], nets := cl.nets + [n.value]) else cl
    else if '*' in e then cl.(globs := cl.globs + [e])
    else if e in cl.domains then cl
    else cl.(domains := cl.domains + [e])
  }

  function Classify(rules: seq<string>): Classes {
    if rules == [] then NO_RULES
    else Classify1(Classify(rules[..|rules| - 1]), rules[|rules| - 1])
  }

  /** classifyRules: one pass over the list with a set of the domains seen so far. */
  method ClassifyRules(rules: seq<string>) returns (cl: Classes)
    ensures cl == Classify(rules)
  {
    cl := NO_RULES;
    var seenDomain: set<string> := {};
    for i := 0 to |rules|
      invariant cl == Classify(rules[..i])
      invariant seenDomain == set d | d in cl.domains
    {
      assert rules[..i + 1][..i] == rules[..i];
      var e := Norm(rules[i]);
      if e == "" {
        continue;
      }
      if '/' in e {
        var n := ParseCidr(e);
        if n.Some? {
          cl := cl.(cidrs := cl.cidrs + [e], nets := cl.nets + [n.value]);
        }
      } else if '*' in e {
        cl := cl.(globs := cl.globs + [e]);
      } else if e !in seenDomain {
        seenDomain := seenDomain + {e};
        cl := cl.(domains := cl.domains + [e]);
      }
    }
    assert rules[..|rules|] == rules;
  }

  predicate AnyDomain(domains: seq<string>, host: string) {
    exists i :: 0 <= i < |domains| && DomainHit(domains[i], host)
  }

  predicate AnyGlob(globs: seq<string>, host: string) {
    exists i :: 0 <= i < |globs| && GlobHit(globs[i], host)
  }

  predicate AnyNet(nets: seq<Cidr>, host: string) {
    exists i :: 0 <= i < |nets| && NetHit(nets[i], host)
  }

  /** The host matches one of the classified entries. */
  predicate ClassesMatch(cl: Classes, host: string) {
    AnyDomain(cl.domains, host) || AnyGlob(cl.globs, host) || AnyNet(cl.nets, host)
  }

  lemma AnyDomainAppend(s: seq<string>, e: string, host: string)
    ensures AnyDomain(s + [e], host) <==> AnyDomain(s, host) || DomainHit(e, host)
  {
    assert forall i :: 0 <= i < |s| ==> (s + [e])[i] == s[i];
    assert (s + [e])[|s|] == e;
  }

  lemma AnyGlobAppend(s: seq<string>, e: string, host: string)
    ensures AnyGlob(s + [e], host) <==> AnyGlob(s, host) || GlobHit(e, host)
  {
    assert forall i :: 0 <= i < |s| ==> (s + [e])[i] == s[i];
    assert (s + [e])[|s|] == e;
  }

  lemma AnyNetAppend(s: seq<Cidr>, e: Cidr, host: string)
    ensures AnyNet(s + [e], host) <==> AnyNet(s, host) || NetHit(e, host)
  {
    assert forall i :: 0 <= i < |s| ==> (s + [e])[i] == s[i];
    assert (s + [e])[|s|] == e;
  }

  /** Every class holds only normalised, nonempty entries of its own shape; domains are distinct. */
  predicate WellClassified(cl: Classes) {
    && |cl.cidrs| == |cl.nets|
    && (forall i :: 0 <= i < |cl.nets| ==> ParseCidr(cl.cidrs[i]) == Some(cl.nets[i]) && cl.nets[i].bits <= 32)
    && (forall g :: g in cl.globs ==> '*' in g && '/' !in g && Lower(g) == g)
    && (forall d :: d in cl.domains ==> d != "" && '*' !in d && '/' !in d && Lower(d) == d)
    && (forall i, j :: 0 <= i < j < |cl.domains| ==> cl.domains[i] != cl.domains[j])
  }

  lemma Classify1Well(cl: Classes, raw: string)
    requires WellClassified(cl)
    ensures WellClassified(Classify1(cl, raw))
  {
    LowerIdempotent(Trim(raw));
  }

  lemma Classify1Means(cl: Classes, raw: string, host: string)
    ensures ClassesMatch(Classify1(cl, raw), host) <==> ClassesMatch(cl, host) || EntryMatches(Norm(raw), host)
  {
    var e := Norm(raw);
    if e == "" {
    } else if '/' in e {
      if ParseCidr(e).Some? {
        AnyNetAppend(cl.nets, ParseCidr(e).value, host);
      }
    } else if '*' in e {
      AnyGlobAppend(cl.globs, e, host);
    } else if e !in cl.domains {
      AnyDomainAppend(cl.domains, e, host);
    }
  }

  lemma ListMatchesLast(rules: seq<string>, host: string)
    requires rules != []
    ensures
      var n := |rules| - 1;
      ListMatches(rules, host) <==> ListMatches(rules[..n], host) || EntryMatches(Norm(rules[n]), host)
  {
    var n := |rules| - 1;
    assert forall i :: 0 <= i < n ==> rules[..n][i] == rules[i];
  }

  /** Classifying a list loses and adds nothing: its classes match exactly the hosts some entry matches. */
  lemma {:induction false} ClassifyMeans(rules: seq<string>, host: string)
    ensures WellClassified(Classify(rules))
    ensures ClassesMatch(Classify(rules), host) <==> ListMatches(rules, host)
  {
    if rules != [] {
      var n := |rules| - 1;
      ClassifyMeans(rules[..n], host);
      Classify1Well(Classify(rules[..n]), rules[n]);
      Classify1Means(Classify(rules[..n]), rules[n], host);
      ListMatchesLast(rules, host);
    }
  }
}
