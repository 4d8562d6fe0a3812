/**
 The INI rules format: the printer Config.INI, the parser ParseINI, and the proof
 that printing and parsing again is the identity on configs the format can express.
 */
module Ini {
  import opened Wrappers
  import opened Text
  import opened Rules
  import opened ProxyConfig

  datatype Section = NoSection | Settings | ProxyRules | DirectRules

  datatype Key = KMode | KHost | KPort | KService | KPacPort | KBypass

  datatype Fault =
    | MalformedHeader | UnknownSection | OutsideSection | NotKeyValue | UnknownKey
    | BadMode | BadPort | BadPacPort | BadBool | BadRule | LineTooLong | MissingMode

  /** The offending line, counted from 1; 0 when the fault is not in a line. */
  datatype IniError = IniError(line: nat, fault: Fault)

  datatype State = State(cfg: Config, section: Section, haveMode: bool, haveBypass: bool)

  const START := State(ZERO, NoSection, false, false)

  const MAX_LINE := 65535

  // ---------------------------------------------------------------- scalar fields

  function KeyText(k: Key): string {
    match k
    case KMode => "mode"
    case KHost => "host"
    case KPort => "port"
    case KService => "service"
    case KPacPort => "pac_port"
    case KBypass => "bypass_plain_hostnames"
  }

  function KeyOf(t: string): Option<Key> {
    if t == KeyText(KMode) then Some(KMode)
    else if t == KeyText(KHost) then Some(KHost)
    else if t == KeyText(KPort) then Some(KPort)
    else if t == KeyText(KService) then Some(KService)
    else if t == KeyText(KPacPort) then Some(KPacPort)
    else if t == KeyText(KBypass) then Some(KBypass)
    else None
  }

  function SectionName(s: Section): string {
    match s
    case NoSection => ""
    case Settings => "settings"
    case ProxyRules => "proxy"
    case DirectRules => "direct"
  }

  function SectionOf(t: string): Option<Section> {
    if t == SectionName(Settings) then Some(Settings)
    else if t == SectionName(ProxyRules) then Some(ProxyRules)
    else if t == SectionName(DirectRules) then Some(DirectRules)
    else None
  }

  function ModeText(m: Mode): string {
    match m
    case Unset => ""
    case Off => "off"
    case Exclude => "exclude"
    case Include => "include"
  }

  function ModeOf(t: string): Option<Mode> {
    if t == ModeText(Off) then Some(Off)
    else if t == ModeText(Exclude) then Some(Exclude)
    else if t == ModeText(Include) then Some(Include)
    else None
  }

  predicate Int64(n: int) {
    -0x8000_0000_0000_0000 <= n < 0x8000_0000_0000_0000
  }

  /** The "%d" verb. */
  function Itoa(n: int): string {
    if n < 0 then "-" + Digits(-n) else Digits(n)
  }

  /** strconv.Atoi: an optional sign, digits, and the range of int. */
  function Atoi(t: string): Option<int> {
    var digits := if t != "" && (t[0] == '-' || t[0] == '+') then t[1..] else t;
    if !AllDigits(digits) then None
    else
      var n: int := if t[0] == '-' then 0 - Decimal(digits) else Decimal(digits);
      if Int64(n) then Some(n) else None
  }

  /** strconv.ParseBool. */
  function ParseBool(t: string): Option<bool> {
    if t in ["1", "t", "T", "TRUE", "true", "True"] then Some(true)
    else if t in ["0", "f", "F", "FALSE", "false", "False"] then Some(false)
    else None
  }

  function BoolText(b: bool): string {
    if b then "true" else "false"
  }

  // ---------------------------------------------------------------- the parser

  /** bufio.ScanLines: pieces ended by a newline. */
  function Lines(data: string): seq<string> {
    var parts := Split(data, '\n');
    if parts[|parts| - 1] == "" then parts[..|parts| - 1] else parts
  }

  function DropCR(line: string): string {
    if line != "" && line[|line| - 1] == '\r' then line[..|line| - 1] else line
  }

  function StripComment(line: string): string
    decreases |line|
  {
    if line == "" || line[0] == '#' || line[0] == ';' then ""
    else [line[0]] + StripComment(line[1..])
  }

  function SetKey(st: State, k: Key, val: string): Result<State, Fault> {
    match k
    case KMode =>
      var m := ModeOf(Lower(val));
      if m.Some? then Ok(st.(cfg := st.cfg.(mode := m.value), haveMode := true)) else Err(BadMode)
    case KHost => Ok(st.(cfg := st.cfg.(host := val)))
    case KPort =>
      var n := Atoi(val);
      if n.Some? then Ok(st.(cfg := st.cfg.(port := n.value))) else Err(BadPort)
    case KService => Ok(st.(cfg := st.cfg.(service := val)))
    case KPacPort =>
      var n := Atoi(val);
      if n.Some? then Ok(st.(cfg := st.cfg.(pacPort := n.value))) else Err(BadPacPort)
    case KBypass =>
      var b := ParseBool(val);
      if b.Some? then Ok(st.(cfg := st.cfg.(bypassPlain := b.value), haveBypass := true)) else Err(BadBool)
  }

  /** A nonempty, trimmed line without comment. */
  function Content(st: State, line: string): Result<State, Fault>
    requires line != ""
  {
    if line[0] == '[' then
      if line[|line| - 1] != ']' then Err(MalformedHeader)
      else
        var s := SectionOf(Lower(Trim(line[1..|line| - 1])));
        if s.Some? then Ok(st.(section := s.value)) else Err(UnknownSection)
    else
      match st.section
      case NoSection => Err(OutsideSection)
      case Settings =>
        var eq := Index(line, '=');
        if eq < 0 then Err(NotKeyValue)
        else
          var k := KeyOf(Lower(Trim(line[..eq])));
          if k.Some? then SetKey(st, k.value, Trim(line[eq + 1..])) else Err(UnknownKey)
      case ProxyRules =>
        if EntrySyntaxOk(line) then Ok(st.(cfg := st.cfg.(proxy := st.cfg.proxy + [line]))) else Err(BadRule)
      case DirectRules =>
        if EntrySyntaxOk(line) then Ok(st.(cfg := st.cfg.(direct := st.cfg.direct + [line]))) else Err(BadRule)
  }

  function StepText(st: State, text: string): Result<State, Fault> {
    var line := Trim(StripComment(text));
    if line == "" then Ok(st) else Content(st, line)
  }

  /** The scanner's buffer must hold the line with its carriage return and newline; the carriage
      return is dropped afterwards. */
  function StepLine(st: State, raw: string): Result<State, Fault> {
    if |raw| > MAX_LINE then Err(LineTooLong) else StepText(st, DropCR(raw))
  }

  /** The lines from number `n` on. */
  function Fold(st: State, lines: seq<string>, n: nat): Result<State, IniError>
    decreases |lines|
  {
    if lines == [] then Ok(st)
    else
      match StepLine(st, lines[0])
      case Err(f) => Err(IniError(if f == LineTooLong then 0 else n, f))
      case Ok(t) => Fold(t, lines[1..], n + 1)
  }

  function Finish(st: State): Result<Config, IniError> {
    if !st.haveMode then Err(IniError(0, MissingMode))
    else if !st.haveBypass then Ok(st.cfg.(bypassPlain := true))
    else Ok(st.cfg)
  }

  function Parse(data: string): Result<Config, IniError> {
    match Fold(START, Lines(data), 1)
    case Err(e) => Err(e)
    case Ok(st) => Finish(st)
  }

  /** ParseINI: one pass over the lines. */
  method ParseINI(data: string) returns (r: Result<Config, IniError>)
    ensures r == Parse(data)
  {
    var lines := Lines(data);
    var st := START;
    var i := 0;
    assert lines[0..] == lines;
    while i < |lines|
      invariant 0 <= i <= |lines|
      invariant Fold(START, lines, 1) == Fold(st, lines[i..], i + 1)
    {
      assert lines[i..][1..] == lines[i + 1..];
      var step := StepLine(st, lines[i]);
      if step.Err? {
        return Err(IniError(if step.error == LineTooLong then 0 else i + 1, step.error));
      }
      st := step.value;
      i := i + 1;
    }
    if !st.haveMode {
      return Err(IniError(0, MissingMode));
    }
    if !st.haveBypass {
      st := st.(cfg := st.cfg.(bypassPlain := true));
    }
    return Ok(st.cfg);
  }

  // ---------------------------------------------------------------- the printer

  function ValueText(c: Config, k: Key): string {
    match k
    case KMode => ModeText(c.mode)
    case KHost => c.host
    case KPort => Itoa(c.port)
    case KService => c.service
    case KPacPort => Itoa(c.pacPort)
    case KBypass => BoolText(c.bypassPlain)
  }

  function KeyLine(k: Key, val: string): string {
    KeyText(k) + " = " + val
  }

  function Header(s: Section): string {
    "[" + SectionName(s) + "]"
  }

  const KEYS := [KMode, KHost, KPort, KService, KPacPort, KBypass]

  function SettingLines(c: Config): (ls: seq<string>)
    ensures |ls| == 6
  {
    seq(6, i requires 0 <= i < 6 => KeyLine(KEYS[i], ValueText(c, KEYS[i])))
  }

  /** The rules a file keeps: trimmed, blank ones left out. */
  function Kept(rules: seq<string>): seq<string> {
    if rules == [] then []
    else
      var e := Trim(rules[|rules| - 1]);
      Kept(rules[..|rules| - 1]) + if e == "" then [] else [e]
  }

  function RuleLines(s: Section, rules: seq<string>): seq<string> {
    if rules == [] then [] else ["", Header(s)] + Kept(rules)
  }

  function IniLines(c: Config): seq<string> {
    [Header(Settings)] + SettingLines(c) + RuleLines(ProxyRules, c.proxy) + RuleLines(DirectRules, c.direct)
  }

  function Unlines(lines: seq<string>): string {
    if lines == [] then "" else lines[0] + ['\n'] + Unlines(lines[1..])
  }

  function Print(c: Config): string {
    Unlines(IniLines(c))
  }

  lemma {:induction false} UnlinesAppend(a: seq<string>, b: seq<string>)
    ensures Unlines(a + b) == Unlines(a) + Unlines(b)
  {
    if a == [] {
      assert a + b == b;
    } else {
      assert (a + b)[1..] == a[1..] + b;
      UnlinesAppend(a[1..], b);
    }
  }

  lemma UnlinesSnoc(lines: seq<string>, l: string)
    ensures Unlines(lines + [l]) == Unlines(lines) + l + "\n"
  {
    UnlinesAppend(lines, [l]);
    assert [l][1..] == [];
    assert Unlines([l]) == l + "\n";
  }

  lemma KeptNext(rules: seq<string>, i: nat)
    requires i < |rules|
    ensures Kept(rules[..i + 1]) == Kept(rules[..i]) + if Trim(rules[i]) == "" then [] else [Trim(rules[i])]
  {
    assert rules[..i + 1][..i] == rules[..i];
  }

  /** Writes one line to the builder. */
  method WriteLine(b: string, l: string, ghost lines: seq<string>) returns (r: string)
    requires b == Unlines(lines)
    ensures r == Unlines(lines + [l])
  {
    UnlinesSnoc(lines, l);
    r := b + l + "\n";
  }

  /** One rule section of Config.INI. */
  method PrintRules(s: Section, rules: seq<string>) returns (b: string)
    ensures b == Unlines(RuleLines(s, rules))
  {
    b := "";
    if |rules| > 0 {
      b := WriteLine(b, "", []);
      b := WriteLine(b, Header(s), [""]);
      ghost var lines := ["", Header(s)];
      assert [""] + [Header(s)] == lines && [] + [""] == [""];
      for i := 0 to |rules|
        invariant lines == ["", Header(s)] + Kept(rules[..i])
        invariant b == Unlines(lines)
      {
        KeptNext(rules, i);
        var e := Trim(rules[i]);
        if e == "" {
          continue;
        }
        b := WriteLine(b, e, lines);
        lines := lines + [e];
      }
      assert rules[..|rules|] == rules;
    }
  }

  /** Config.INI. */
  method PrintINI(c: Config) returns (b: string)
    ensures b == Print(c)
  {
    b := Header(Settings) + "\n";
    ghost var lines := [Header(Settings)];
    assert lines[1..] == [];
    for i := 0 to |KEYS|
      invariant lines == [Header(Settings)] + SettingLines(c)[..i]
      invariant b == Unlines(lines)
    {
      var line := KeyLine(KEYS[i], ValueText(c, KEYS[i]));
      b := b + line + "\n";
      UnlinesSnoc(lines, line);
      lines := lines + [line];
    }
    assert SettingLines(c)[..6] == SettingLines(c);
    var p := PrintRules(ProxyRules, c.proxy);
    var d := PrintRules(DirectRules, c.direct);
    UnlinesAppend(lines, RuleLines(ProxyRules, c.proxy));
    UnlinesAppend(lines + RuleLines(ProxyRules, c.proxy), RuleLines(DirectRules, c.direct));
    b := b + p + d;
  }

  // ---------------------------------------------------------------- reading back what was printed

  predicate Clean(t: string) {
    '#' !in t && ';' !in t && '\n' !in t
  }

  /** A field or rule the format can carry on one line. */
  predicate Plain(t: string) {
    Trimmed(t) && Clean(t)
  }

  /** A line bufio.Scanner delivers unchanged. */
  predicate OneLine(l: string) {
    '\n' !in l && (l == "" || l[|l| - 1] != '\r')
  }

  /** An entry that is read back as a rule. */
  predicate RuleLineOk(e: string) {
    Plain(e) && e != "" && e[0] != '[' && EntrySyntaxOk(e) && |e| <= MAX_LINE
  }

  /** What a config needs for its text to carry it; rules may be untrimmed or blank. */
  predicate Printable(c: Config) {
    Writable(c) && |c.host| <= MAX_LINE - 7 && |c.service| <= MAX_LINE - 10
  }

  /** The same but for the length of the two free fields. */
  predicate Writable(c: Config) {
    && c.mode != Unset
    && Plain(c.host) && Plain(c.service)
    && Int64(c.port) && Int64(c.pacPort)
    && (forall r :: r in c.proxy && Trim(r) != "" ==> RuleLineOk(Trim(r)))
    && (forall r :: r in c.direct && Trim(r) != "" ==> RuleLineOk(Trim(r)))
  }

  lemma {:induction false} CleanHasNoComment(t: string)
    requires Clean(t)
    ensures StripComment(t) == t
    decreases |t|
  {
    if t != "" {
      CleanHasNoComment(t[1..]);
    }
  }

  lemma {:induction false} SplitUnlines(lines: seq<string>)
    requires forall l :: l in lines ==> '\n' !in l
    ensures Split(Unlines(lines), '\n') == lines + [""]
  {
    if lines != [] {
      var rest := lines[1..];
      assert lines == [lines[0]] + rest;
      SplitUnlines(rest);
      SplitHead(lines[0], Unlines(rest), '\n');
      assert [lines[0]] + (rest + [""]) == lines + [""];
    } else {
      assert Index("", '\n') < 0;
    }
  }

  lemma LinesUnlines(lines: seq<string>)
    requires forall l :: l in lines ==> OneLine(l)
    ensures Lines(Unlines(lines)) == lines
  {
    SplitUnlines(lines);
    var parts := Split(Unlines(lines), '\n');
    assert parts[|parts| - 1] == "";
    assert forall i :: 0 <= i < |lines| ==> lines[i] in lines;
  }

  lemma {:induction false} FoldAppend(st: State, a: seq<string>, b: seq<string>, n: nat)
    requires Fold(st, a, n).Ok?
    ensures Fold(st, a + b, n) == Fold(Fold(st, a, n).value, b, n + |a|)
    decreases |a|
  {
    if a == [] {
      assert a + b == b;
    } else {
      assert (a + b)[1..] == a[1..] + b;
      FoldAppend(StepLine(st, a[0]).value, a[1..], b, n + 1);
    }
  }

  lemma Fold1(st: State, line: string, n: nat)
    requires StepLine(st, line).Ok?
    ensures Fold(st, [line], n) == Ok(StepLine(st, line).value)
  {
    assert [line][1..] == [];
  }

  // one printed line at a time

  lemma SectionNameOk(s: Section)
    requires s != NoSection
    ensures var t := SectionName(s); 0 < |t| <= 8 && forall i :: 0 <= i < |t| ==> 'a' <= t[i] <= 'z'
  {
  }

  lemma SmallLetters(t: string)
    requires forall i :: 0 <= i < |t| ==> 'a' <= t[i] <= 'z'
    ensures Lower(t) == t && Plain(t)
  {
  }

  lemma HeaderStep(st: State, s: Section)
    requires s != NoSection
    ensures StepLine(st, Header(s)) == Ok(st.(section := s))
  {
    var h, name := Header(s), SectionName(s);
    SectionNameOk(s);
    SmallLetters(name);
    assert h[0] == '[' && h[|h| - 1] == ']' && h[1..|h| - 1] == name;
    CleanHasNoComment(h);
    TrimOfTrimmed(h);
    TrimOfTrimmed(name);
  }

  lemma RuleStep(st: State, e: string)
    requires RuleLineOk(e) && (st.section == ProxyRules || st.section == DirectRules)
    ensures StepLine(st, e) ==
      Ok(if st.section == ProxyRules then st.(cfg := st.cfg.(proxy := st.cfg.proxy + [e]))
         else st.(cfg := st.cfg.(direct := st.cfg.direct + [e])))
  {
    CleanHasNoComment(e);
    TrimOfTrimmed(e);
  }

  lemma {:induction false} FoldRules(st: State, es: seq<string>, n: nat)
    requires forall e :: e in es ==> RuleLineOk(e)
    requires st.section == ProxyRules || st.section == DirectRules
    ensures Fold(st, es, n) ==
      Ok(if st.section == ProxyRules then st.(cfg := st.cfg.(proxy := st.cfg.proxy + es))
         else st.(cfg := st.cfg.(direct := st.cfg.direct + es)))
    decreases |es|
  {
    if es == [] {
      assert st.cfg.proxy + es == st.cfg.proxy && st.cfg.direct + es == st.cfg.direct;
    } else {
      RuleStep(st, es[0]);
      var t := StepLine(st, es[0]).value;
      FoldRules(t, es[1..], n + 1);
      assert st.cfg.proxy + [es[0]] + es[1..] == st.cfg.proxy + es;
      assert st.cfg.direct + [es[0]] + es[1..] == st.cfg.direct + es;
    }
  }

  lemma {:induction false} KeptFrom(rules: seq<string>, e: string)
    requires e in Kept(rules)
    ensures e != "" && Trimmed(e) && exists r :: r in rules && e == Trim(r)
  {
    var n := |rules| - 1;
    if e in Kept(rules[..n]) {
      KeptFrom(rules[..n], e);
    } else {
      TrimFacts(rules[n]);
      assert rules[n] in rules;
    }
  }

  lemma {:induction false} KeptAll(rules: seq<string>)
    requires forall r :: r in rules ==> r != "" && Trimmed(r)
    ensures Kept(rules) == rules
  {
    if rules != [] {
      var p, e := rules[..|rules| - 1], rules[|rules| - 1];
      assert rules == p + [e];
      assert e in rules && forall r :: r in p ==> r in rules;
      KeptAll(p);
      TrimOfTrimmed(e);
    }
  }

  lemma AtoiItoa(n: int)
    requires Int64(n)
    ensures Atoi(Itoa(n)) == Some(n)
  {
    var m := if n < 0 then -n else n;
    DecimalOfDigits(m);
    assert IsDigit(Digits(m)[0]);
    if n < 0 {
      assert Itoa(n)[1..] == Digits(m);
    }
  }

  /** Values read back from their text. */
  lemma ValueReadBack(st: State, c: Config, k: Key)
    requires Printable(c)
    ensures
      SetKey(st, k, ValueText(c, k)) ==
      match k
      case KMode => Ok(st.(cfg := st.cfg.(mode := c.mode), haveMode := true))
      case KHost => Ok(st.(cfg := st.cfg.(host := c.host)))
      case KPort => Ok(st.(cfg := st.cfg.(port := c.port)))
      case KService => Ok(st.(cfg := st.cfg.(service := c.service)))
      case KPacPort => Ok(st.(cfg := st.cfg.(pacPort := c.pacPort)))
      case KBypass => Ok(st.(cfg := st.cfg.(bypassPlain := c.bypassPlain), haveBypass := true))
  {
    match k
    case KMode =>
      var t := ModeText(c.mode);
      assert Lower(t) == t;
    case KPort => AtoiItoa(c.port);
    case KPacPort => AtoiItoa(c.pacPort);
    case _ =>
  }

  predicate KeyTextOk(t: string) {
    Plain(t) && 4 <= |t| <= 22 && '=' !in t && t[0] != '[' && Lower(t) == t
  }

  lemma KeyFacts(k: Key)
    ensures KeyTextOk(KeyText(k))
  {
    var t := KeyText(k);
    assert forall i :: 0 <= i < |t| ==> 'a' <= t[i] <= 'z' || t[i] == '_';
  }

  lemma KeyReadBack(k: Key)
    ensures KeyOf(KeyText(k)) == Some(k)
  {
    var t := KeyText(k);
    assert t[0] == 'm' || t[0] == 'h' || t[0] == 'p' || t[0] == 's' || t[0] == 'b';
  }

  lemma TrimAroundEquals(key: string, val: string)
    requires Trimmed(key) && key != "" && Trimmed(val)
    ensures Trim(key + " ") == key && Trim(" " + val) == val
    ensures Trim(key + " = " + val) == if val == "" then key + " =" else key + " = " + val
  {
    var a := key + " ";
    assert a[..|a| - 1] == key && a[|a| - 1] == ' ' && a[0] == key[0];
    assert TrimLeft(a) == a;
    assert TrimRight(key) == key;
    var b := " " + val;
    assert b[1..] == val && b[0] == ' ';
    assert TrimLeft(val) == val;
    assert TrimRight(val) == val;
    var c := key + " = " + val;
    assert c[0] == key[0];
    assert TrimLeft(c) == c;
    if val == "" {
      var d := key + " =";
      assert c[..|c| - 1] == d && d[|d| - 1] == '=';
      assert TrimRight(d) == d;
    } else {
      assert c[|c| - 1] == val[|val| - 1];
    }
  }

  lemma KeyLineParts(key: string, rest: string, line: string)
    requires '=' !in key && line == (key + " ") + ['='] + rest
    ensures var eq := Index(line, '='); eq == |key| + 1 && line[..eq] == key + " " && line[eq + 1..] == rest
  {
    var front := key + " ";
    assert forall j :: 0 <= j < |front| ==> line[j] == front[j] && front[j] in front;
    assert '=' !in front;
    IndexFromIs(line, '=', 0, |front|);
  }

  /** Cutting a key line at its first equals sign. */
  lemma CutKeyLine(key: string, val: string, line: string)
    requires KeyTextOk(key) && Trimmed(val)
    requires line == if val == "" then key + " =" else key + " = " + val
    ensures
      var eq := Index(line, '=');
      eq >= 0 && Trim(line[..eq]) == key && Trim(line[eq + 1..]) == val
  {
    TrimAroundEquals(key, val);
    var rest := if val == "" then "" else " " + val;
    assert line == (key + " ") + ['='] + rest;
    KeyLineParts(key, rest, line);
  }

  lemma ContentOfKeyLine(st: State, k: Key, val: string, line: string)
    requires st.section == Settings && Trimmed(val)
    requires line == if val == "" then KeyText(k) + " =" else KeyText(k) + " = " + val
    ensures Content(st, line) == SetKey(st, k, val)
  {
    KeyFacts(k);
    KeyReadBack(k);
    var key := KeyText(k);
    assert line[0] == key[0];
    CutKeyLine(key, val, line);
  }

  lemma KeyStep(st: State, k: Key, val: string)
    requires st.section == Settings && Plain(val) && |KeyLine(k, val)| <= MAX_LINE
    ensures StepLine(st, KeyLine(k, val)) == SetKey(st, k, val)
  {
    KeyFacts(k);
    var raw := KeyLine(k, val);
    assert Clean(raw);
    CleanHasNoComment(raw);
    TrimAroundEquals(KeyText(k), val);
    ContentOfKeyLine(st, k, val, Trim(raw));
  }

  lemma ItoaPlain(n: int)
    requires Int64(n)
    ensures Plain(Itoa(n)) && |Itoa(n)| <= 20
  {
    var m := if n < 0 then -n else n;
    assert Pow10(9) == 1_000_000_000;
    assert Pow10(18) == 1_000_000_000_000_000_000;
    assert Pow10(19) == 10_000_000_000_000_000_000;
    DigitsShort(m, 19);
    var d := Digits(m);
    assert IsDigit(d[0]) && IsDigit(d[|d| - 1]);
  }

  lemma {:induction false} DigitsShort(n: nat, k: nat)
    requires k >= 1 && n < Pow10(k)
    ensures |Digits(n)| <= k
  {
    if n >= 10 {
      DigitsShort(n / 10, k - 1);
    }
  }

  function Pow10(k: nat): nat {
    if k == 0 then 1 else 10 * Pow10(k - 1)
  }

  lemma ValuePlain(c: Config, k: Key)
    requires Writable(c)
    ensures Plain(ValueText(c, k))
    ensures Printable(c) ==> |KeyLine(k, ValueText(c, k))| <= MAX_LINE
  {
    KeyFacts(k);
    match k
    case KPort => ItoaPlain(c.port);
    case KPacPort => ItoaPlain(c.pacPort);
    case _ =>
  }

  /** The state after the first `i` setting lines. */
  function AfterKeys(c: Config, i: nat): State
    requires i <= 6
  {
    State(Config(
            if i > 0 then c.mode else Unset,
            if i > 1 then c.host else "",
            if i > 2 then c.port else 0,
            if i > 3 then c.service else "",
            if i > 4 then c.pacPort else 0,
            if i > 5 then c.bypassPlain else false,
            [], []),
          Settings, i > 0, i > 5)
  }

  lemma {:induction false} FoldSettings(c: Config, i: nat, n: nat)
    requires Printable(c) && i <= 6
    ensures Fold(AfterKeys(c, i), SettingLines(c)[i..], n) == Ok(AfterKeys(c, 6))
    decreases 6 - i
  {
    if i < 6 {
      var k := KEYS[i];
      ValuePlain(c, k);
      KeyStep(AfterKeys(c, i), k, ValueText(c, k));
      ValueReadBack(AfterKeys(c, i), c, k);
      assert SettingLines(c)[i..][1..] == SettingLines(c)[i + 1..];
      FoldSettings(c, i + 1, n + 1);
    }
  }

  /** The state after the lines of one rule section. */
  function AfterRules(st: State, s: Section, rules: seq<string>): State
    requires s == ProxyRules || s == DirectRules
  {
    var t := if rules == [] then st else st.(section := s);
    if s == ProxyRules then t.(cfg := t.cfg.(proxy := t.cfg.proxy + Kept(rules)))
    else t.(cfg := t.cfg.(direct := t.cfg.direct + Kept(rules)))
  }

  lemma KeptOk(rules: seq<string>)
    requires forall r :: r in rules && Trim(r) != "" ==> RuleLineOk(Trim(r))
    ensures forall e :: e in Kept(rules) ==> RuleLineOk(e)
  {
    forall e | e in Kept(rules)
      ensures RuleLineOk(e)
    {
      KeptFrom(rules, e);
    }
  }

  lemma BlankStep(st: State)
    ensures StepLine(st, "") == Ok(st)
  {
  }

  lemma FoldRuleLines(st: State, s: Section, rules: seq<string>, n: nat)
    requires s == ProxyRules || s == DirectRules
    requires forall r :: r in rules && Trim(r) != "" ==> RuleLineOk(Trim(r))
    ensures Fold(st, RuleLines(s, rules), n) == Ok(AfterRules(st, s, rules))
  {
    if rules == [] {
      assert st.cfg.proxy + [] == st.cfg.proxy && st.cfg.direct + [] == st.cfg.direct;
    } else {
      var t := st.(section := s);
      BlankStep(st);
      HeaderStep(st, s);
      var lines := RuleLines(s, rules);
      assert lines[1..] == [Header(s)] + Kept(rules);
      assert lines[1..][1..] == Kept(rules);
      KeptOk(rules);
      FoldRules(t, Kept(rules), n + 2);
    }
  }

  lemma SettingLineOk(c: Config, k: Key)
    requires Writable(c)
    ensures OneLine(KeyLine(k, ValueText(c, k)))
  {
    ValuePlain(c, k);
    KeyFacts(k);
    var l, val := KeyLine(k, ValueText(c, k)), ValueText(c, k);
    if val != "" {
      assert l[|l| - 1] == val[|val| - 1];
    }
  }

  lemma RuleLinesOk(s: Section, rules: seq<string>, l: string)
    requires forall r :: r in rules && Trim(r) != "" ==> RuleLineOk(Trim(r))
    requires l in RuleLines(s, rules)
    ensures OneLine(l)
  {
    if l in Kept(rules) {
      KeptFrom(rules, l);
    } else {
      assert l == "" || l == Header(s);
      assert Header(s)[|Header(s)| - 1] == ']';
    }
  }

  lemma PrintedLinesOk(c: Config, l: string)
    requires Writable(c) && l in IniLines(c)
    ensures OneLine(l)
  {
    if l in SettingLines(c) {
      var i :| 0 <= i < 6 && SettingLines(c)[i] == l;
      SettingLineOk(c, KEYS[i]);
    } else if l in RuleLines(ProxyRules, c.proxy) {
      RuleLinesOk(ProxyRules, c.proxy, l);
    } else if l in RuleLines(DirectRules, c.direct) {
      RuleLinesOk(DirectRules, c.direct, l);
    } else {
      assert l == Header(Settings);
    }
  }

  lemma FoldHead(c: Config)
    requires Printable(c)
    ensures Fold(START, [Header(Settings)] + SettingLines(c), 1) == Ok(AfterKeys(c, 6))
  {
    var a, b := [Header(Settings)], SettingLines(c);
    HeaderStep(START, Settings);
    Fold1(START, Header(Settings), 1);
    assert b[0..] == b;
    FoldSettings(c, 0, 2);
    FoldAppend(START, a, b, 1);
  }

  lemma FoldThree(st0: State, a: seq<string>, st1: State, b: seq<string>, st2: State, c: seq<string>, st3: State, n: nat)
    requires Fold(st0, a, n) == Ok(st1)
    requires Fold(st1, b, n + |a|) == Ok(st2)
    requires Fold(st2, c, n + |a| + |b|) == Ok(st3)
    ensures Fold(st0, a + b + c, n) == Ok(st3)
  {
    FoldAppend(st0, a, b, n);
    FoldAppend(st0, a + b, c, n);
  }

  /** The state after all printed lines. */
  function AfterAll(c: Config): State {
    AfterRules(AfterRules(AfterKeys(c, 6), ProxyRules, c.proxy), DirectRules, c.direct)
  }

  lemma AfterAllCfg(c: Config)
    ensures AfterAll(c).haveMode && AfterAll(c).haveBypass
    ensures AfterAll(c).cfg == c.(proxy := Kept(c.proxy), direct := Kept(c.direct))
  {
    assert [] + Kept(c.proxy) == Kept(c.proxy) && [] + Kept(c.direct) == Kept(c.direct);
  }

  /** The lines of the printed text, folded from the start. */
  lemma FoldPrinted(c: Config, head: seq<string>, p: seq<string>, d: seq<string>)
    requires Printable(c)
    requires head == [Header(Settings)] + SettingLines(c)
    requires p == RuleLines(ProxyRules, c.proxy) && d == RuleLines(DirectRules, c.direct)
    ensures Fold(START, head + p + d, 1) == Ok(AfterAll(c))
  {
    var st := AfterKeys(c, 6);
    var st1 := AfterRules(st, ProxyRules, c.proxy);
    FoldHead(c);
    FoldRuleLines(st, ProxyRules, c.proxy, 1 + |head|);
    FoldRuleLines(st1, DirectRules, c.direct, 1 + |head| + |p|);
    FoldThree(START, head, st, p, st1, d, AfterAll(c), 1);
  }

  /** Parsing the printed text gives the config back, its rules trimmed and without blank ones. */
  lemma PrintThenParse(c: Config)
    requires Printable(c)
    ensures Parse(Print(c)) == Ok(c.(proxy := Kept(c.proxy), direct := Kept(c.direct)))
  {
    forall l | l in IniLines(c)
      ensures OneLine(l)
    {
      PrintedLinesOk(c, l);
    }
    LinesUnlines(IniLines(c));
    FoldPrinted(c, [Header(Settings)] + SettingLines(c), RuleLines(ProxyRules, c.proxy), RuleLines(DirectRules, c.direct));
    AfterAllCfg(c);
  }

  /** The round trip is the identity when the rules are already trimmed and nonblank. */
  lemma RoundTrip(c: Config)
    requires Printable(c)
    requires forall r :: r in c.proxy || r in c.direct ==> r != "" && Trimmed(r)
    ensures Parse(Print(c)) == Ok(c)
  {
    PrintThenParse(c);
    KeptAll(c.proxy);
    KeptAll(c.direct);
  }

  lemma {:induction false} KeptMatches(rules: seq<string>, host: string)
    ensures ListMatches(Kept(rules), host) <==> ListMatches(rules, host)
  {
    if rules != [] {
      var n := |rules| - 1;
      var e := Trim(rules[n]);
      KeptMatches(rules[..n], host);
      ListMatchesLast(rules, host);
      TrimFacts(rules[n]);
      TrimOfTrimmed(e);
      if e != "" {
        var kept := Kept(rules);
        assert kept[..|kept| - 1] == Kept(rules[..n]);
        ListMatchesLast(kept, host);
      }
    }
  }

  /** Untrimmed or blank rules are not read back verbatim, yet the config that is read back
      routes every host as the original does. */
  lemma RoundTripRoutesAlike(c: Config, host: string)
    requires Printable(c)
    ensures
      var r := Parse(Print(c));
      && r.Ok?
      && (ListMatches(r.value.proxy, host) <==> ListMatches(c.proxy, host))
      && (ListMatches(r.value.direct, host) <==> ListMatches(c.direct, host))
      && r.value.bypassPlain == c.bypassPlain && r.value.mode == c.mode
  {
    PrintThenParse(c);
    KeptMatches(c.proxy, host);
    KeptMatches(c.direct, host);
  }
}
