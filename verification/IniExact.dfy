/**
 Exactly which configs survive being printed and parsed again, and that parsing
 produces only such configs.
 */
module IniExact {
  import opened Wrappers
  import opened Text
  import opened Rules
  import opened ProxyConfig
  import opened Ini

  /** What a config read from a file looks like. */
  predicate WellFormed(c: Config) {
    && Plain(c.host) && Plain(c.service) && Int64(c.port) && Int64(c.pacPort)
    && (forall r :: r in c.proxy ==> RuleLineOk(r))
    && (forall r :: r in c.direct ==> RuleLineOk(r))
  }

  predicate Inv(st: State) {
    WellFormed(st.cfg) && (st.haveMode ==> st.cfg.mode != Unset)
  }

  lemma {:induction false} StripCommentKeeps(line: string)
    ensures |StripComment(line)| <= |line|
    ensures forall c :: c in StripComment(line) ==> c in line && c != '#' && c != ';'
    decreases |line|
  {
    if line != "" {
      StripCommentKeeps(line[1..]);
    }
  }

  lemma TrimShort(s: string)
    ensures |Trim(s)| <= |s|
  {
    TrimLeftFacts(s);
    TrimRightFacts(TrimLeft(s));
  }

  lemma PartPlain(line: string, part: string)
    requires Clean(line) && forall c :: c in part ==> c in line
    ensures Plain(Trim(part))
  {
    TrimFacts(part);
  }

  lemma SetKeyKeeps(st: State, k: Key, val: string)
    requires Inv(st) && Plain(val) && SetKey(st, k, val).Ok?
    ensures Inv(SetKey(st, k, val).value)
  {
  }

  lemma AddRuleKeeps(st: State, e: string)
    requires Inv(st) && RuleLineOk(e)
    ensures Inv(st.(cfg := st.cfg.(proxy := st.cfg.proxy + [e])))
    ensures Inv(st.(cfg := st.cfg.(direct := st.cfg.direct + [e])))
  {
  }

  lemma SettingKeeps(st: State, line: string)
    requires Inv(st) && Plain(line) && line != "" && line[0] != '[' && st.section == Settings
    requires Content(st, line).Ok?
    ensures Inv(Content(st, line).value)
  {
    var eq := Index(line, '=');
    var val := line[eq + 1..];
    PartPlain(line, val);
    var k := KeyOf(Lower(Trim(line[..eq]))).value;
    assert Content(st, line) == SetKey(st, k, Trim(val));
    SetKeyKeeps(st, k, Trim(val));
  }

  lemma HeaderKeeps(st: State, line: string)
    requires Inv(st) && line != "" && line[0] == '[' && Content(st, line).Ok?
    ensures Inv(Content(st, line).value)
  {
    assert Content(st, line).value == st.(section := Content(st, line).value.section);
  }

  lemma ContentKeeps(st: State, line: string)
    requires Inv(st) && Plain(line) && line != "" && |line| <= MAX_LINE && Content(st, line).Ok?
    ensures Inv(Content(st, line).value)
  {
    if line[0] == '[' {
      HeaderKeeps(st, line);
    } else if st.section == Settings {
      SettingKeeps(st, line);
    } else {
      AddRuleKeeps(st, line);
    }
  }

  lemma StepKeeps(st: State, raw: string)
    requires Inv(st) && '\n' !in raw && StepLine(st, raw).Ok?
    ensures Inv(StepLine(st, raw).value) && |raw| <= MAX_LINE
  {
    TextKeeps(st, DropCR(raw));
  }

  lemma TextKeeps(st: State, text: string)
    requires Inv(st) && '\n' !in text && |text| <= MAX_LINE && StepText(st, text).Ok?
    ensures Inv(StepText(st, text).value)
  {
    StripCommentKeeps(text);
    var line := StripComment(text);
    PartPlain(line, line);
    TrimShort(line);
    if Trim(line) != "" {
      ContentKeeps(st, Trim(line));
    }
  }

  lemma {:induction false} FoldKeeps(st: State, lines: seq<string>, n: nat)
    requires Inv(st) && (forall l :: l in lines ==> '\n' !in l) && Fold(st, lines, n).Ok?
    ensures Inv(Fold(st, lines, n).value)
    ensures forall l :: l in lines ==> |l| <= MAX_LINE
    decreases |lines|
  {
    if lines != [] {
      assert lines == [lines[0]] + lines[1..];
      StepKeeps(st, lines[0]);
      FoldKeeps(StepLine(st, lines[0]).value, lines[1..], n + 1);
    }
  }

  lemma LinesHaveNoNewline(data: string)
    ensures forall l :: l in Lines(data) ==> '\n' !in l
  {
    var parts := Split(data, '\n');
    forall i | 0 <= i < |Lines(data)|
      ensures '\n' !in Lines(data)[i]
    {
      assert parts[i] in parts;
    }
  }

  /** Parsing yields only well-formed configs with a mode. */
  lemma ParsedIsWellFormed(data: string)
    requires Parse(data).Ok?
    ensures WellFormed(Parse(data).value) && Parse(data).value.mode != Unset
  {
    LinesHaveNoNewline(data);
    FoldKeeps(START, Lines(data), 1);
  }

  /** A config is read back exactly as printed if and only if it has a mode, its fields and
      rules are trimmed texts without comment signs and newlines, its rules are
      nonblank, valid and not in brackets, and every line fits the scanner's buffer. */
  lemma RoundTripIff(c: Config)
    ensures Parse(Print(c)) == Ok(c)
       <==> c.mode != Unset && WellFormed(c) && |c.host| <= MAX_LINE - 7 && |c.service| <= MAX_LINE - 10
  {
    if Parse(Print(c)) == Ok(c) {
      ParsedIsWellFormed(Print(c));
      RulesTrimmed(c);
      LinesFit(c);
    }
    if c.mode != Unset && WellFormed(c) && |c.host| <= MAX_LINE - 7 && |c.service| <= MAX_LINE - 10 {
      RulesTrimmed(c);
      RoundTrip(c);
    }
  }

  lemma RulesTrimmed(c: Config)
    requires WellFormed(c)
    ensures forall r :: r in c.proxy || r in c.direct ==> r != "" && Trimmed(r) && Trim(r) == r
  {
    forall r | r in c.proxy || r in c.direct
      ensures r != "" && Trimmed(r) && Trim(r) == r
    {
      TrimOfTrimmed(r);
    }
  }

  lemma SettingIn(c: Config, i: nat)
    requires i < 6
    ensures KeyLine(KEYS[i], ValueText(c, KEYS[i])) in IniLines(c)
  {
    assert SettingLines(c)[i] in SettingLines(c);
  }

  lemma SettingFits(c: Config, i: nat)
    requires i < 6 && Writable(c) && Parse(Print(c)).Ok?
    ensures |KeyText(KEYS[i])| + 3 + |ValueText(c, KEYS[i])| <= MAX_LINE
  {
    var lines := IniLines(c);
    forall l | l in lines
      ensures OneLine(l)
    {
      PrintedLinesOk(c, l);
    }
    LinesUnlines(lines);
    FoldKeeps(START, lines, 1);
    SettingIn(c, i);
  }

  lemma FreeKeys()
    ensures KEYS[1] == KHost && |KeyText(KHost)| == 4 && KEYS[3] == KService && |KeyText(KService)| == 7
  {
  }

  lemma LinesFit(c: Config)
    requires Writable(c) && Parse(Print(c)).Ok?
    ensures |c.host| <= MAX_LINE - 7 && |c.service| <= MAX_LINE - 10
  {
    FreeKeys();
    SettingFits(c, 1);
    SettingFits(c, 3);
  }

  /** Whatever text is parsed, printing the result and parsing again changes nothing, except
      when a host or service fills its line so far that the printed line is too long. */
  lemma ParsePrintParse(data: string)
    requires Parse(data).Ok?
    ensures
      var c := Parse(data).value;
      Parse(Print(c)) == Ok(c) <==> |c.host| <= MAX_LINE - 7 && |c.service| <= MAX_LINE - 10
  {
    ParsedIsWellFormed(data);
    RoundTripIff(Parse(data).value);
  }
}
