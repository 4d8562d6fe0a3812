/**
 What a rules file means, said of its lines without the parser's state: the last line that
 sets a key gives its value, a section's entries are its lines in order, and the first line
 at fault is the one reported.
 */
module IniMeans {
  import opened Wrappers
  import opened Text
  import opened ProxyConfig
  import opened Ini

  /** A line without its comment and surrounding blanks. */
  function Body(raw: string): string {
    Trim(StripComment(DropCR(raw)))
  }

  predicate IsHeading(b: string) {
    b != "" && b[0] == '['
  }

  /** The section a heading opens. */
  function Opens(b: string): Option<Section> {
    if IsHeading(b) && b[|b| - 1] == ']' then SectionOf(Lower(Trim(b[1..|b| - 1]))) else None
  }

  /** The section that line `n` stands in: that of the last heading before it. */
  function SectionAt(lines: seq<string>, n: nat): Section
    requires n <= |lines|
  {
    if n == 0 then NoSection
    else if Opens(Body(lines[n - 1])).Some? then Opens(Body(lines[n - 1])).value
    else SectionAt(lines, n - 1)
  }

  /** Line `i` has content and is no heading. */
  predicate IsEntry(lines: seq<string>, i: nat, s: Section)
    requires i < |lines|
  {
    SectionAt(lines, i) == s && Body(lines[i]) != "" && !IsHeading(Body(lines[i]))
  }

  /** Line `i` gives the key `k` a value. */
  predicate Sets(lines: seq<string>, i: nat, k: Key)
    requires i < |lines|
  {
    var b := Body(lines[i]);
    IsEntry(lines, i, Settings) && '=' in b && KeyOf(Lower(Trim(b[..Index(b, '=')]))) == Some(k)
  }

  /** The value given to `k` by the last of the first `n` lines that gives it one. */
  function LastValue(lines: seq<string>, n: nat, k: Key): Option<string>
    requires n <= |lines|
  {
    if n == 0 then None
    else if Sets(lines, n - 1, k) then
      var b := Body(lines[n - 1]);
      Some(Trim(b[Index(b, '=') + 1..]))
    else LastValue(lines, n - 1, k)
  }

  /** The entries of a section among the first `n` lines. */
  function Entries(lines: seq<string>, n: nat, s: Section): seq<string>
    requires n <= |lines|
  {
    if n == 0 then []
    else Entries(lines, n - 1, s) + if IsEntry(lines, n - 1, s) then [Body(lines[n - 1])] else []
  }

  /** The field of `k` is what `val` says. */
  predicate Says(c: Config, k: Key, val: string) {
    match k
    case KMode => ModeOf(Lower(val)) == Some(c.mode)
    case KHost => c.host == val
    case KPort => Atoi(val) == Some(c.port)
    case KService => c.service == val
    case KPacPort => Atoi(val) == Some(c.pacPort)
    case KBypass => ParseBool(val) == Some(c.bypassPlain)
  }

  predicate IsZero(c: Config, k: Key) {
    match k
    case KMode => c.mode == Unset
    case KHost => c.host == ""
    case KPort => c.port == 0
    case KService => c.service == ""
    case KPacPort => c.pacPort == 0
    case KBypass => !c.bypassPlain
  }

  predicate FieldRead(st: State, k: Key, val: Option<string>) {
    if val.Some? then Says(st.cfg, k, val.value) else IsZero(st.cfg, k)
  }

  /** The parser's state after the first `n` lines. */
  ghost predicate Reads(st: State, lines: seq<string>, n: nat)
    requires n <= |lines|
  {
    && st.section == SectionAt(lines, n)
    && (forall k :: FieldRead(st, k, LastValue(lines, n, k)))
    && (st.haveMode <==> LastValue(lines, n, KMode).Some?)
    && (st.haveBypass <==> LastValue(lines, n, KBypass).Some?)
    && st.cfg.proxy == Entries(lines, n, ProxyRules)
    && st.cfg.direct == Entries(lines, n, DirectRules)
  }

  lemma SetKeyReads(st: State, k: Key, val: string, j: Key, was: Option<string>)
    requires SetKey(st, k, val).Ok? && FieldRead(st, j, was)
    ensures FieldRead(SetKey(st, k, val).value, j, if j == k then Some(val) else was)
  {
  }

  /** A line that sets nothing. */
  lemma OtherReads(st: State, lines: seq<string>, n: nat, t: State)
    requires n < |lines| && Reads(st, lines, n) && forall k :: !Sets(lines, n, k)
    requires t.section == SectionAt(lines, n + 1) && t.haveMode == st.haveMode && t.haveBypass == st.haveBypass
    requires t.cfg == st.cfg.(proxy := Entries(lines, n + 1, ProxyRules), direct := Entries(lines, n + 1, DirectRules))
    ensures Reads(t, lines, n + 1)
  {
    var m := n + 1;
    forall k
      ensures FieldRead(t, k, LastValue(lines, m, k))
    {
      assert FieldRead(st, k, LastValue(lines, n, k));
    }
  }

  lemma SetKeyKeepsRest(st: State, k: Key, val: string)
    requires SetKey(st, k, val).Ok?
    ensures
      var t := SetKey(st, k, val).value;
      && t.section == st.section && t.cfg.proxy == st.cfg.proxy && t.cfg.direct == st.cfg.direct
      && (t.haveMode <==> st.haveMode || k == KMode) && (t.haveBypass <==> st.haveBypass || k == KBypass)
  {
  }

  lemma ContentSets(st: State, b: string) returns (k: Key, val: string)
    requires b != "" && !IsHeading(b) && st.section == Settings && Content(st, b).Ok?
    ensures '=' in b && KeyOf(Lower(Trim(b[..Index(b, '=')]))) == Some(k) && val == Trim(b[Index(b, '=') + 1..])
    ensures Content(st, b) == SetKey(st, k, val)
  {
    var eq := Index(b, '=');
    k, val := KeyOf(Lower(Trim(b[..eq]))).value, Trim(b[eq + 1..]);
  }

  lemma SettingReads(st: State, lines: seq<string>, n: nat)
    requires n < |lines| && Reads(st, lines, n) && IsEntry(lines, n, Settings)
    requires Content(st, Body(lines[n])).Ok?
    ensures Reads(Content(st, Body(lines[n])).value, lines, n + 1)
  {
    var b := Body(lines[n]);
    var key, val := ContentSets(st, b);
    SetKeyKeepsRest(st, key, val);
    var t := SetKey(st, key, val).value;
    var m := n + 1;
    assert Sets(lines, n, key) && LastValue(lines, m, key) == Some(val);
    assert forall k :: k != key ==> LastValue(lines, m, k) == LastValue(lines, n, k);
    forall k
      ensures FieldRead(t, k, LastValue(lines, m, k))
    {
      SetKeyReads(st, key, val, k, LastValue(lines, n, k));
    }
  }

  lemma StepReads(st: State, lines: seq<string>, n: nat)
    requires n < |lines| && Reads(st, lines, n) && StepLine(st, lines[n]).Ok?
    ensures Reads(StepLine(st, lines[n]).value, lines, n + 1)
  {
    if IsEntry(lines, n, Settings) {
      SettingReads(st, lines, n);
    } else {
      OtherReads(st, lines, n, StepLine(st, lines[n]).value);
    }
  }

  // ---------------------------------------------------------------- faults

  /** What is wrong with line `i`, given the section it stands in. */
  function FaultAt(lines: seq<string>, i: nat): Option<Fault>
    requires i < |lines|
  {
    var b := Body(lines[i]);
    if |lines[i]| > MAX_LINE then Some(LineTooLong)
    else if b == "" then None
    else if IsHeading(b) then
      if b[|b| - 1] != ']' then Some(MalformedHeader)
      else if Opens(b).None? then Some(UnknownSection)
      else None
    else
      match SectionAt(lines, i)
      case NoSection => Some(OutsideSection)
      case Settings => SettingFault(b)
      case _ => if EntrySyntaxOk(b) then None else Some(BadRule)
  }

  function SettingFault(b: string): Option<Fault> {
    if '=' !in b then Some(NotKeyValue)
    else
      var val := Trim(b[Index(b, '=') + 1..]);
      var k := KeyOf(Lower(Trim(b[..Index(b, '=')])));
      if k.None? then Some(UnknownKey) else ValueFault(k.value, val)
  }

  /** A value that the field of `k` cannot take. */
  function ValueFault(k: Key, val: string): Option<Fault> {
    match k
    case KMode => if ModeOf(Lower(val)).None? then Some(BadMode) else None
    case KPort => if Atoi(val).None? then Some(BadPort) else None
    case KPacPort => if Atoi(val).None? then Some(BadPacPort) else None
    case KBypass => if ParseBool(val).None? then Some(BadBool) else None
    case _ => None
  }

  function FaultOf(r: Result<State, Fault>): Option<Fault> {
    if r.Err? then Some(r.error) else None
  }

  lemma SettingStepFault(st: State, b: string)
    requires b != "" && !IsHeading(b) && st.section == Settings
    ensures SettingFault(b) == FaultOf(Content(st, b))
  {
    var eq := Index(b, '=');
    if eq >= 0 && KeyOf(Lower(Trim(b[..eq]))).Some? {
      var k, val := KeyOf(Lower(Trim(b[..eq]))).value, Trim(b[eq + 1..]);
      assert Content(st, b) == SetKey(st, k, val);
      assert FaultOf(SetKey(st, k, val)) == ValueFault(k, val);
    }
  }

  lemma StepFault(st: State, lines: seq<string>, n: nat)
    requires n < |lines| && st.section == SectionAt(lines, n)
    ensures FaultAt(lines, n) == FaultOf(StepLine(st, lines[n]))
  {
    var b := Body(lines[n]);
    if |lines[n]| <= MAX_LINE && b != "" {
      assert StepLine(st, lines[n]) == Content(st, b);
      if IsEntry(lines, n, Settings) {
        SettingStepFault(st, b);
      }
    }
  }

  /** Line `i` is the first one at fault. */
  predicate FirstFault(lines: seq<string>, i: int) {
    0 <= i < |lines| && FaultAt(lines, i).Some? && forall j :: 0 <= j < i ==> FaultAt(lines, j).None?
  }

  predicate NoFault(lines: seq<string>, n: nat)
    requires n <= |lines|
  {
    forall j :: 0 <= j < n ==> FaultAt(lines, j).None?
  }

  /** What reading all the lines comes to: a state that reads them, or the first fault. */
  ghost predicate ReadsAll(lines: seq<string>, r: Result<State, IniError>) {
    match r
    case Ok(t) => Reads(t, lines, |lines|) && NoFault(lines, |lines|)
    case Err(e) =>
      exists i :: FirstFault(lines, i) && Some(e.fault) == FaultAt(lines, i) && e.line == if e.fault == LineTooLong then 0 else i + 1
  }

  lemma StopsAt(st: State, lines: seq<string>, n: nat)
    requires n < |lines| && st.section == SectionAt(lines, n) && NoFault(lines, n) && StepLine(st, lines[n]).Err?
    ensures ReadsAll(lines, Fold(st, lines[n..], n + 1))
  {
    StepFault(st, lines, n);
    assert FirstFault(lines, n);
  }

  lemma {:induction false} FoldReads(st: State, lines: seq<string>, n: nat)
    requires n <= |lines| && Reads(st, lines, n) && NoFault(lines, n)
    ensures ReadsAll(lines, Fold(st, lines[n..], n + 1))
    decreases |lines| - n
  {
    if n < |lines| {
      if StepLine(st, lines[n]).Err? {
        StopsAt(st, lines, n);
      } else {
        var t := StepLine(st, lines[n]).value;
        StepReads(st, lines, n);
        StepFault(st, lines, n);
        FoldReads(t, lines, n + 1);
        assert lines[n..][1..] == lines[n + 1..];
      }
    }
  }

  lemma FirstFaultUnique(lines: seq<string>, i: int, j: int)
    requires FirstFault(lines, i) && FirstFault(lines, j)
    ensures i == j
  {
  }

  lemma ReportMeans(lines: seq<string>, r: Result<State, IniError>)
    requires ReadsAll(lines, r)
    ensures r.Ok? <==> NoFault(lines, |lines|)
    ensures forall i :: FirstFault(lines, i) ==>
              var f := FaultAt(lines, i).value;
              r == Err(IniError(if f == LineTooLong then 0 else i + 1, f))
  {
    if r.Err? {
      var k :| FirstFault(lines, k) && Some(r.error.fault) == FaultAt(lines, k)
        && r.error.line == if r.error.fault == LineTooLong then 0 else k + 1;
      forall i | FirstFault(lines, i)
        ensures i == k
      {
        FirstFaultUnique(lines, i, k);
      }
    }
  }

  /** Which texts are accepted, and what is reported about the others: the first line at fault,
      by number and kind, else the missing mode. */
  lemma AcceptedIff(data: string)
    ensures
      var lines := Lines(data);
      && (Parse(data).Ok? <==> NoFault(lines, |lines|) && LastValue(lines, |lines|, KMode).Some?)
      && (forall i :: FirstFault(lines, i) ==>
            var f := FaultAt(lines, i).value;
            Parse(data) == Err(IniError(if f == LineTooLong then 0 else i + 1, f)))
      && (NoFault(lines, |lines|) && Parse(data).Err? ==> Parse(data) == Err(IniError(0, MissingMode)))
  {
    var lines := Lines(data);
    assert lines[0..] == lines;
    FoldReads(START, lines, 0);
    ReportMeans(lines, Fold(START, lines, 1));
  }

  /** The field of `k`, given the last value that the text has for it. A key without one is empty
      or zero, except that bare host names then bypass the proxy; the mode must have one. */
  predicate FieldMeans(c: Config, k: Key, val: Option<string>) {
    if val.Some? then Says(c, k, val.value)
    else if k == KBypass then c.bypassPlain
    else k != KMode && IsZero(c, k)
  }

  lemma FinishField(st: State, c: Config, k: Key, val: Option<string>)
    requires Finish(st) == Ok(c) && FieldRead(st, k, val)
    requires k == KMode ==> val.Some?
    requires k == KBypass ==> (st.haveBypass <==> val.Some?)
    ensures FieldMeans(c, k, val)
  {
    assert st.haveBypass ==> c == st.cfg;
    assert !st.haveBypass ==> c == st.cfg.(bypassPlain := true);
  }

  /** What an accepted text says: every key has the value of the last line that sets it, or its
      default; the rules are the entries of their sections in order. */
  lemma AcceptedMeans(data: string, c: Config)
    requires Parse(data) == Ok(c)
    ensures
      var lines := Lines(data);
      && (forall k :: FieldMeans(c, k, LastValue(lines, |lines|, k)))
      && c.proxy == Entries(lines, |lines|, ProxyRules)
      && c.direct == Entries(lines, |lines|, DirectRules)
  {
    var lines := Lines(data);
    assert lines[0..] == lines;
    FoldReads(START, lines, 0);
    var st, n := Fold(START, lines, 1).value, |lines|;
    forall k
      ensures FieldMeans(c, k, LastValue(lines, n, k))
    {
      FinishField(st, c, k, LastValue(lines, n, k));
    }
  }
}
