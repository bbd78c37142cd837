/**
 * The dwell-selection state machine of the 20-sector gaze keyboard, as a
 * pure step function over the engine state. One function covers the four
 * near-identical engines; `Variant` names the places where they differ.
 */
module SelectionEngine {
  import opened Wrappers
  import opened KeyboardTables
  import opened Counters

  /** The four 20-sector engines. */
  datatype Variant =
    | Canonical   // eye-tracking/UI_Version_2.py: decays on every unusable label
    | Keyboard    // kt_UI/AAC_Keyboard.kt: ignores non-integer and out-of-range labels
    | FullTables  // kt_UI/UI.kt: explicit secondary range tables, DELETE/CONFIRM everywhere
    | Simplified  // UI.kt: no dwell in secondary panels, no decay at all

  /** The five calibration marker words. */
  datatype CalibPoint = CenterPoint | TopMid | LeftMid | BottomMid | RightMid

  /**
   * A received label as the engines tell it apart: the word "exit", a
   * calibration marker word, a string that parses as an integer, or any
   * other string.
   */
  datatype Token = Exit | Calibration(point: CalibPoint) | Int(n: int) | NotInt

  /** What the engine asks of the outside world: speak a text, or quit the window. */
  datatype Event = Speak(words: string) | Quit

  /** The mutable selection state: panel, dwell counters and text buffer. */
  datatype Engine = Engine(panel: Panel, text: string, counters: Counts)

  datatype Outcome = Outcome(engine: Engine, events: seq<Event>)

  /** The state after construction: MAIN, empty text, every counter 0. */
  function Initial(): Engine
  {
    Engine(Main, "", map k | k in AllKeys() :: 0)
  }

  /** Every counter exists and lies in [0, Threshold - 1] between commands. */
  ghost predicate Valid(e: Engine)
  {
    e.counters.Keys == AllKeys() && Bounded(e.counters)
  }

  /** MAX_DISPLAY_CHARS: 6 in kt_UI/UI.kt, 7 elsewhere. */
  function MaxDisplayChars(v: Variant): nat
  {
    if v == FullTables then 6 else 7
  }

  /** get_display_text: the text, or its last maxChars characters when longer. */
  function DisplayText(text: string, maxChars: nat): string
  {
    if |text| <= maxChars then text else text[|text| - maxChars..]
  }

  /** get_center_circle_text: "." in NUM, the display text elsewhere. */
  function CenterCircleText(v: Variant, e: Engine): string
  {
    if e.panel == Num then "." else DisplayText(e.text, MaxDisplayChars(v))
  }

  /** dim_current_selection: lower the first highest positive counter of the panel by one, floor 0. */
  function Dim(e: Engine): Engine
  {
    var cands := Candidates(e.panel);
    match FirstMax(e.counters, cands)
    case None => e
    case Some(i) =>
      var k := cands[i];
      e.(counters := e.counters[k := if Count(e.counters, k) - 1 > 0 then Count(e.counters, k) - 1 else 0])
  }

  /** A ring sector that no row of the panel's table holds: decay, except in UI.kt. */
  function Unmatched(v: Variant, e: Engine): Engine
  {
    if v == Simplified then e else Dim(e)
  }

  /** A label that is not an integer, or an integer outside 1..25: decay only in the Python engine. */
  function Noise(v: Variant, e: Engine): Engine
  {
    if v == Canonical then Dim(e) else e
  }

  function Increment(e: Engine, k: Key): Engine
  {
    e.(counters := Bump(e.counters, k))
  }

  function Reached(e: Engine, k: Key): bool
  {
    Count(e.counters, k) >= Threshold
  }

  /** reset_all_counters. */
  function ResetAll(e: Engine): Engine
  {
    e.(counters := Zeroed(e.counters))
  }

  /**
   * What a button or section does to its own counter when it reaches the
   * threshold: UI.kt resets every counter, the others zero only that one.
   */
  function ClearOwn(v: Variant, e: Engine, k: Key): Engine
  {
    if v == Simplified then ResetAll(e) else e.(counters := e.counters[k := 0])
  }

  /** add_character: append, reset every counter, back to MAIN. */
  function AddCharacter(e: Engine, ch: char): Engine
  {
    Engine(Main, e.text + [ch], Zeroed(e.counters))
  }

  /** add_number: append, reset every counter, stay in the panel. */
  function AddNumber(e: Engine, digit: char): Engine
  {
    e.(text := e.text + [digit], counters := Zeroed(e.counters))
  }

  /** add_space. */
  function AddSpace(e: Engine): Engine
  {
    e.(text := e.text + " ", counters := Zeroed(e.counters))
  }

  /** add_decimal_point. */
  function AddDecimalPoint(e: Engine): Engine
  {
    e.(text := e.text + ".", counters := Zeroed(e.counters))
  }

  /** confirm_text: speak a non-empty text, clear it, reset every counter, back to MAIN. */
  function ConfirmText(e: Engine): Outcome
  {
    if e.text != "" then Outcome(Engine(Main, "", Zeroed(e.counters)), [Speak(e.text)])
    else Outcome(e, [])
  }

  /** incrementCharacterCounter: one more dwell on the i-th letter of s, committing `ch` at the threshold. */
  function IncrementCharacterCounter(e: Engine, s: Section, i: nat, ch: char): Engine
  {
    var k := LetterKey(s, i);
    var e1 := Increment(e, k);
    if Reached(e1, k) then AddCharacter(e1, ch) else e1
  }

  /**
   * The letter a secondary-panel sector dwells on, with its counter index:
   * from the per-letter lists (Python, AAC_Keyboard.kt) or from the explicit
   * range tables (kt_UI/UI.kt).
   */
  function LetterMatch(v: Variant, s: Section, sector: int): Option<(nat, char)>
  {
    if v == FullTables then
      match RangeMatch(RangeTable(s), sector)
      case None => None
      case Some(row) => Some((row.index, row.letter))
    else
      match CharTableMatch(s, sector)
      case None => None
      case Some(i) => Some((i, Letters(s)[i]))
  }

  /** process_sector_input. */
  function SectorInput(v: Variant, e: Engine, sector: int): Engine
    requires 1 <= sector <= 20
  {
    match e.panel
    case Main =>
      (match MainLookup(sector)
       case None => Unmatched(v, e)
       case Some(s) =>
         var k := SectionKey(s);
         var e1 := Increment(e, k);
         if Reached(e1, k) then ResetAll(ClearOwn(v, e1, k)).(panel := Secondary(s)) else e1)
    case Secondary(s) =>
      if v == Simplified then
        (if sector <= |Letters(s)| then AddCharacter(e, Letters(s)[sector - 1]) else e)
      else
        (match LetterMatch(v, s, sector)
         case None => Dim(e)
         case Some(m) => IncrementCharacterCounter(e, s, m.0, m.1))
    case Num =>
      match NumLookup(sector)
      case None => Unmatched(v, e)
      case Some(d) =>
        var k := DigitKey(d);
        var e1 := Increment(e, k);
        if Reached(e1, k) then AddNumber(e1, d) else e1
  }

  /** The button of codes 21..25. */
  function ButtonOf(code: int): Button
    requires 21 <= code <= 25
  {
    if code == 21 then NumButton
    else if code == 22 then ReturnButton
    else if code == 23 then DeleteButton
    else if code == 24 then ConfirmButton
    else CenterButton
  }

  /** DELETE and CONFIRM do nothing in a letter panel, except in kt_UI/UI.kt. */
  predicate Disabled(v: Variant, e: Engine, b: Button)
  {
    (b == DeleteButton || b == ConfirmButton) && e.panel.Secondary? && v != FullTables
  }

  /** process_button_input. */
  function ButtonInput(v: Variant, e: Engine, code: int): Outcome
    requires 21 <= code <= 25
  {
    var b := ButtonOf(code);
    var k := ButtonKey(b);
    if Disabled(v, e, b) then Outcome(e, [])
    else
      var e1 := Increment(e, k);
      if !Reached(e1, k) then Outcome(e1, [])
      else
        var e2 := ClearOwn(v, e1, k);
        match b
        case NumButton => Outcome(ResetAll(e2).(panel := Num), [])
        case ReturnButton => Outcome(ResetAll(e2).(panel := Main), [])
        case DeleteButton =>
          if e2.text != "" then Outcome(e2.(text := e2.text[..|e2.text| - 1]), [])
          else Outcome(e2, [Speak("No")])
        case ConfirmButton =>
          if e2.text != "" then ConfirmText(e2) else Outcome(e2, [Speak("Yes")])
        case CenterButton =>
          Outcome(if e2.panel == Num then AddDecimalPoint(e2) else AddSpace(e2), [])
  }

  /** process_command: one received label. */
  function ProcessCommand(v: Variant, e: Engine, t: Token): Outcome
  {
    match t
    case Exit => Outcome(e, if v == Canonical then [Quit] else [])
    case Calibration(_) => Outcome(e, [])
    case NotInt => Outcome(Noise(v, e), [])
    case Int(n) =>
      if 1 <= n <= 20 then Outcome(SectorInput(v, e, n), [])
      else if 21 <= n <= 25 then ButtonInput(v, e, n)
      else Outcome(Noise(v, e), [])
  }

  /** A stream of labels processed one at a time, in order; the events are concatenated. */
  function Run(v: Variant, e: Engine, ts: seq<Token>): Outcome
    decreases |ts|
  {
    if ts == [] then Outcome(e, [])
    else
      var first := ProcessCommand(v, e, ts[0]);
      var rest := Run(v, first.engine, ts[1..]);
      Outcome(rest.engine, first.events + rest.events)
  }
}
