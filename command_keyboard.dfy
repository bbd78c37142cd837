/**
 * The earlier command-driven keyboard (UI_Version_2.py at the repository
 * root): commands "1".."4" dwell on a section, "5".."8" are the side
 * buttons, "<section><letter>" such as "1a" types a letter of the open
 * section, "exit" quits.
 */
module CommandKeyboard {
  import opened KeyboardTables
  import opened SelectionEngine

  datatype Command =
    | SectionCmd(section: Section)
    | NumCmd | ReturnCmd | DeleteCmd | ConfirmCmd
    | LetterCmd(of: Section, index: nat)
    | ExitCmd
    | Invalid

  /** The section of command digits 1..4: top, right, bottom, left. */
  function SectionOfDigit(d: char): Section
    requires '1' <= d <= '4'
  {
    if d == '1' then Top else if d == '2' then Right else if d == '3' then Bottom else Left
  }

  function DigitOfSection(s: Section): char
  {
    match s
    case Top => '1'
    case Right => '2'
    case Bottom => '3'
    case Left => '4'
  }

  function LowerAscii(c: char): char
  {
    if 'A' <= c <= 'Z' then (c as int + 32) as char else c
  }

  /** "exit" in any mix of upper and lower case. */
  predicate IsExit(cmd: string)
  {
    |cmd| == 4 && LowerAscii(cmd[0]) == 'e' && LowerAscii(cmd[1]) == 'x'
    && LowerAscii(cmd[2]) == 'i' && LowerAscii(cmd[3]) == 't'
  }

  /**
   * The pattern `^[1-4][a-g]$`: a section digit and a letter a..g, where
   * `$` also accepts one trailing line feed.
   */
  predicate IsLetterCommand(cmd: string)
  {
    (|cmd| == 2 || (|cmd| == 3 && cmd[2] == '\n'))
    && '1' <= cmd[0] <= '4' && 'a' <= cmd[1] <= 'g'
  }

  /** The branches of process_command, in order. */
  function ParseCommand(cmd: string): (c: Command)
    ensures c.LetterCmd? ==> c.index < 7
  {
    if IsExit(cmd) then ExitCmd
    else if cmd == "1" || cmd == "2" || cmd == "3" || cmd == "4" then SectionCmd(SectionOfDigit(cmd[0]))
    else if cmd == "5" then NumCmd
    else if cmd == "6" then ReturnCmd
    else if cmd == "7" then DeleteCmd
    else if cmd == "8" then ConfirmCmd
    else if IsLetterCommand(cmd) then LetterCmd(SectionOfDigit(cmd[0]), (cmd[1] as int - 'a' as int) as nat)
    else Invalid
  }

  /** The canonical spelling of a command. */
  function FormatCommand(c: Command): string
    requires c != Invalid && (c.LetterCmd? ==> c.index < 7)
  {
    match c
    case SectionCmd(s) => [DigitOfSection(s)]
    case NumCmd => "5"
    case ReturnCmd => "6"
    case DeleteCmd => "7"
    case ConfirmCmd => "8"
    case LetterCmd(s, i) => [DigitOfSection(s), ('a' as int + i) as char]
    case ExitCmd => "exit"
  }

  /** The dwell threshold of select_option. */
  const LegacyThreshold: int := 4

  /** Panel, text and the four section counters. */
  datatype Legacy = Legacy(panel: Panel, text: string, counters: map<Section, int>)

  datatype LegacyOutcome = LegacyOutcome(state: Legacy, events: seq<Event>)

  function LegacyInitial(): Legacy
  {
    Legacy(Main, "", map s | s in Sections :: 0)
  }

  /**
   * All four counters present and in 0..3, so the MAIN redraw always finds
   * a highlight colour (there are colours for 1..4 only).
   */
  ghost predicate LegacyValid(e: Legacy)
  {
    && (forall s :: s in e.counters)
    && forall s :: 0 <= e.counters[s] < LegacyThreshold
  }

  function CounterOf(e: Legacy, s: Section): int
  {
    if s in e.counters then e.counters[s] else 0
  }

  /** select_option: the fourth dwell opens the section and clears only its counter; any other dwell shows MAIN. */
  function SelectSection(e: Legacy, s: Section): Legacy
  {
    var c := CounterOf(e, s) + 1;
    if c >= LegacyThreshold then e.(counters := e.counters[s := 0], panel := Secondary(s))
    else e.(counters := e.counters[s := c], panel := Main)
  }

  /** process_command on the parsed command. */
  function LegacyStep(e: Legacy, c: Command): LegacyOutcome
  {
    match c
    case ExitCmd => LegacyOutcome(e, [Quit])
    case SectionCmd(s) => LegacyOutcome(SelectSection(e, s), [])
    case NumCmd => LegacyOutcome(e.(panel := Num), [])
    case ReturnCmd => LegacyOutcome(e.(counters := map s | s in e.counters :: 0, panel := Main), [])
    case DeleteCmd =>
      LegacyOutcome(if e.text != "" then e.(text := e.text[..|e.text| - 1]) else e, [])
    case ConfirmCmd =>
      if e.text != "" then LegacyOutcome(e.(text := "", panel := Main), [Speak(e.text)])
      else LegacyOutcome(e, [])
    case LetterCmd(s, i) =>
      if e.panel == Secondary(s) && i < |Letters(s)| then
        LegacyOutcome(e.(text := e.text + [Letters(s)[i]], panel := Main), [])
      else LegacyOutcome(e, [])
    case Invalid => LegacyOutcome(e, [])
  }

  /** The command-driven keyboard object. */
  class LegacyKeyboard {
    var panel: Panel
    var text: string
    var counters: map<Section, int>
    var events: seq<Event>

    function Model(): Legacy
      reads this
    {
      Legacy(panel, text, counters)
    }

    constructor ()
      ensures Model() == LegacyInitial() && events == []
    {
      panel := Main;
      text := "";
      counters := map s | s in Sections :: 0;
      events := [];
    }

    /** select_option. */
    method SelectOption(s: Section)
      modifies this
      ensures Model() == SelectSection(old(Model()), s) && events == old(events)
    {
      counters := counters[s := CounterOf(Model(), s) + 1];
      if counters[s] >= LegacyThreshold {
        counters := counters[s := 0];
        panel := Secondary(s);
      } else {
        panel := Main;
      }
    }

    /** The RETURN side button: every section counter back to 0, one at a time, then MAIN. */
    method ReturnToMain()
      modifies this
      ensures Model() == LegacyStep(old(Model()), ReturnCmd).state && events == old(events)
    {
      var pending := counters.Keys;
      while pending != {}
        invariant pending <= counters.Keys && counters.Keys == old(counters).Keys
        invariant forall s :: s in counters && s !in pending ==> counters[s] == 0
        invariant text == old(text) && events == old(events)
        decreases pending
      {
        var s :| s in pending;
        counters := counters[s := 0];
        pending := pending - {s};
      }
      panel := Main;
    }

    /** process_command. */
    method ProcessCommand(cmd: string)
      modifies this
      ensures Model() == LegacyStep(old(Model()), ParseCommand(cmd)).state
      ensures events == old(events) + LegacyStep(old(Model()), ParseCommand(cmd)).events
    {
      match ParseCommand(cmd)
      case ExitCmd => events := events + [Quit];
      case SectionCmd(s) => SelectOption(s);
      case NumCmd => panel := Num;
      case ReturnCmd => ReturnToMain();
      case DeleteCmd =>
        if text != "" {
          text := text[..|text| - 1];
        }
      case ConfirmCmd =>
        if text != "" {
          events := events + [Speak(text)];
          text := "";
          panel := Main;
        }
      case LetterCmd(s, i) =>
        if panel == Secondary(s) && i < |Letters(s)| {
          text := text + [Letters(s)[i]];
          panel := Main;
        }
      case Invalid =>
    }
  }
}
