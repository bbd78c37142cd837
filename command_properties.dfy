/** Properties of the command-driven keyboard: the command syntax and the section dwell. */
module CommandProperties {
  import opened KeyboardTables
  import opened SelectionEngine
  import opened CommandKeyboard

  /** Every command's canonical spelling parses back to it. */
  lemma ParseFormatRoundTrip(c: Command)
    requires c != Invalid && (c.LetterCmd? ==> c.index < 7)
    ensures ParseCommand(FormatCommand(c)) == c
  {
    match c
    case SectionCmd(s) =>
    case LetterCmd(s, i) =>
      var cmd := FormatCommand(c);
      assert IsLetterCommand(cmd) && !IsExit(cmd);
    case _ =>
  }

  /**
   * A string is a letter command exactly when it matches the pattern, and
   * then it is the canonical spelling of that command, possibly followed by
   * one line feed.
   */
  lemma LetterCommandIff(cmd: string)
    ensures ParseCommand(cmd).LetterCmd? <==> IsLetterCommand(cmd)
    ensures ParseCommand(cmd).LetterCmd? ==> FormatCommand(ParseCommand(cmd)) == cmd[..2]
  {
    if IsLetterCommand(cmd) {
      assert !IsExit(cmd);
      var c := ParseCommand(cmd);
      assert FormatCommand(c) == [cmd[0], cmd[1]];
    }
  }

  /**
   * "exit" is recognised in any letter case and is the only command that
   * quits: from any state it quits and changes nothing else, and no other
   * command emits Quit.
   */
  lemma ExitIff(e: Legacy, cmd: string)
    ensures ParseCommand(cmd) == ExitCmd <==> IsExit(cmd)
    ensures IsExit(cmd) ==> LegacyStep(e, ParseCommand(cmd)) == LegacyOutcome(e, [Quit])
    ensures Quit in LegacyStep(e, ParseCommand(cmd)).events <==> IsExit(cmd)
  {
  }

  lemma LegacyInitialValid()
    ensures LegacyValid(LegacyInitial())
  {
    forall s ensures s in LegacyInitial().counters {
      assert s == Sections[0] || s == Sections[1] || s == Sections[2] || s == Sections[3];
    }
  }

  /** Every command keeps the four section counters in 0..3. */
  lemma LegacyStepValid(e: Legacy, c: Command)
    requires LegacyValid(e)
    ensures LegacyValid(LegacyStep(e, c).state)
  {
  }

  /**
   * A section command raises that section's counter; the fourth one opens
   * the section and clears that counter only; any other shows MAIN, even
   * when a letter panel was open. Text and other counters are kept.
   */
  lemma SectionDwell(e: Legacy, s: Section)
    requires LegacyValid(e)
    ensures var r := LegacyStep(e, SectionCmd(s)).state;
            && r.text == e.text
            && (forall o :: o != s ==> r.counters[o] == e.counters[o])
            && (e.counters[s] == LegacyThreshold - 1 ==> r.panel == Secondary(s) && r.counters[s] == 0)
            && (e.counters[s] < LegacyThreshold - 1 ==> r.panel == Main && r.counters[s] == e.counters[s] + 1)
  {
  }

  /**
   * One command edits the text in one of four ways: kept, one letter of the
   * open section appended, last character dropped, or spoken and cleared.
   */
  lemma LegacyTextEdits(e: Legacy, c: Command)
    ensures var r := LegacyStep(e, c);
            || (r.state.text == e.text && (r.events == [] || r.events == [Quit]))
            || (exists i :: e.panel.Secondary? && 0 <= i < |Letters(e.panel.section)| &&
                  r.state.text == e.text + [Letters(e.panel.section)[i]] && r.state.panel == Main && r.events == [])
            || (e.text != "" && r.state.text == e.text[..|e.text| - 1] && r.events == [])
            || (e.text != "" && r.state.text == "" && r.events == [Speak(e.text)] && r.state.panel == Main)
  {
    if c.LetterCmd? && e.panel == Secondary(c.of) && c.index < |Letters(c.of)| {
      assert LegacyStep(e, c).state.text == e.text + [Letters(e.panel.section)[c.index]];
    }
  }

  /** A stream of commands. */
  function LegacyRun(e: Legacy, cmds: seq<string>): LegacyOutcome
    decreases |cmds|
  {
    if cmds == [] then LegacyOutcome(e, [])
    else
      var first := LegacyStep(e, ParseCommand(cmds[0]));
      var rest := LegacyRun(first.state, cmds[1..]);
      LegacyOutcome(rest.state, first.events + rest.events)
  }

  /**
   * From a fresh keyboard, any section's digit four times, then that
   * section's letter command, types that letter and returns to MAIN
   * ("1" four times then "1a" types "s").
   */
  lemma TypeLetterFromStart(s: Section, i: nat)
    requires i < |Letters(s)|
    ensures var d := [DigitOfSection(s)];
            var r := LegacyRun(LegacyInitial(), [d, d, d, d, FormatCommand(LetterCmd(s, i))]);
            r.state.text == [Letters(s)[i]] && r.state.panel == Main && r.events == []
  {
    var d := [DigitOfSection(s)];
    var l := FormatCommand(LetterCmd(s, i));
    var cmds := [d, d, d, d, l];
    ParseFormatRoundTrip(SectionCmd(s));
    ParseFormatRoundTrip(LetterCmd(s, i));
    var e0 := LegacyInitial();
    var e1 := SelectSection(e0, s);
    var e2 := SelectSection(e1, s);
    var e3 := SelectSection(e2, s);
    var e4 := SelectSection(e3, s);
    assert e4.panel == Secondary(s) && e4.text == "";
    assert cmds[1..] == [d, d, d, l];
    assert cmds[1..][1..] == [d, d, l];
    assert cmds[1..][1..][1..] == [d, l];
    assert cmds[1..][1..][1..][1..] == [l];
    assert cmds[1..][1..][1..][1..][1..] == [];
    var step := LegacyStep(e4, LetterCmd(s, i));
    assert ParseCommand([l][0]) == LetterCmd(s, i) && [l][1..] == [];
    assert step.events == [] && step.state.text == [Letters(s)[i]] && step.state.panel == Main;
    var last := LegacyRun(e4, [l]);
    assert last == LegacyOutcome(step.state, step.events + LegacyRun(step.state, []).events);
    assert last.state.text == [Letters(s)[i]] && last.state.panel == Main && last.events == [];
    assert LegacyRun(e3, [d, l]) == last;
    assert LegacyRun(e2, [d, d, l]) == last;
    assert LegacyRun(e1, [d, d, d, l]) == last;
    assert LegacyRun(e0, cmds) == last;
  }
}
