/**
 * The keyboard object of the four 20-sector engines: panel, text and
 * counters are fields its methods update in place, and each method is
 * proved to perform exactly the step `SelectionEngine` specifies.
 */
module KeyboardView {
  import opened Wrappers
  import opened KeyboardTables
  import opened Counters
  import opened SelectionEngine

  /** The `for ..., sectors in mapping.items(): if sector in sectors` search of the MAIN and NUM tables. */
  method FindInTable<K>(table: seq<(K, seq<int>)>, x: int) returns (r: Option<K>)
    ensures r == FirstMatch(table, x)
  {
    var i := 0;
    while i < |table|
      invariant 0 <= i <= |table|
      invariant FirstMatch(table, x) == FirstMatchFrom(table, i, x)
      decreases |table| - i
    {
      if x in table[i].1 {
        return Some(table[i].0);
      }
      i := i + 1;
    }
    return None;
  }

  /** The `for i, char in enumerate(chars)` search of a letter panel against the per-letter lists. */
  method FindLetter(s: Section, x: int) returns (r: Option<nat>)
    ensures r == CharTableMatch(s, x)
  {
    var chars := Letters(s);
    var i := 0;
    while i < |chars|
      invariant 0 <= i <= |chars|
      invariant CharTableMatch(s, x) == CharTableMatchFrom(chars, i, x)
      decreases |chars| - i
    {
      if chars[i] in CharTable && x in CharTable[chars[i]] {
        return Some(i);
      }
      i := i + 1;
    }
    return None;
  }

  class Keyboard {
    const variant: Variant
    var panel: Panel
    var text: string
    var counters: Counts
    /** Everything handed to speech output or to the window so far, oldest first. */
    var events: seq<Event>

    function Model(): Engine
      reads this
    {
      Engine(panel, text, counters)
    }

    constructor (v: Variant)
      ensures variant == v && Model() == Initial() && events == []
    {
      variant := v;
      panel := Main;
      text := "";
      counters := map k | k in AllKeys() :: 0;
      events := [];
    }

    /** reset_all_counters: every counter, one at a time, back to 0. */
    method ResetAllCounters()
      modifies this
      ensures counters == Zeroed(old(counters))
      ensures panel == old(panel) && text == old(text) && events == old(events)
    {
      var pending := counters.Keys;
      while pending != {}
        invariant pending <= counters.Keys && counters.Keys == old(counters).Keys
        invariant forall k :: k in counters && k !in pending ==> counters[k] == 0
        invariant panel == old(panel) && text == old(text) && events == old(events)
        decreases pending
      {
        var k :| k in pending;
        counters := counters[k := 0];
        pending := pending - {k};
      }
    }

    /** dim_current_selection: the running-maximum scan, then lower the winner by one, floor 0. */
    method DimCurrentSelection()
      modifies this
      ensures Model() == Dim(old(Model())) && events == old(events)
    {
      var cands := Candidates(panel);
      var best := FindFirstMax(counters, cands);
      if best.Some? {
        var k := cands[best.value];
        var c := Count(counters, k);
        counters := counters[k := if c - 1 > 0 then c - 1 else 0];
      }
    }

    /** add_character. */
    method AddCharacter(ch: char)
      modifies this
      ensures Model() == SelectionEngine.AddCharacter(old(Model()), ch) && events == old(events)
    {
      text := text + [ch];
      ResetAllCounters();
      panel := Main;
    }

    /** add_number. */
    method AddNumber(digit: char)
      modifies this
      ensures Model() == SelectionEngine.AddNumber(old(Model()), digit) && events == old(events)
    {
      text := text + [digit];
      ResetAllCounters();
    }

    /** add_space. */
    method AddSpace()
      modifies this
      ensures Model() == SelectionEngine.AddSpace(old(Model())) && events == old(events)
    {
      text := text + " ";
      ResetAllCounters();
    }

    /** add_decimal_point. */
    method AddDecimalPoint()
      modifies this
      ensures Model() == SelectionEngine.AddDecimalPoint(old(Model())) && events == old(events)
    {
      text := text + ".";
      ResetAllCounters();
    }

    /** confirm_text. */
    method ConfirmText()
      modifies this
      ensures Model() == SelectionEngine.ConfirmText(old(Model())).engine
      ensures events == old(events) + SelectionEngine.ConfirmText(old(Model())).events
    {
      if text != "" {
        events := events + [Speak(text)];
        text := "";
        ResetAllCounters();
        panel := Main;
      }
    }

    /** One more dwell on counter k. */
    method Raise(k: Key)
      modifies this
      ensures Model() == Increment(old(Model()), k) && events == old(events)
    {
      counters := counters[k := Count(counters, k) + 1];
    }

    /** What a section or button does to its own counter at the threshold. */
    method ClearOwnCounter(k: Key)
      modifies this
      ensures Model() == ClearOwn(variant, old(Model()), k) && events == old(events)
    {
      if variant == Simplified {
        ResetAllCounters();
      } else {
        counters := counters[k := 0];
      }
    }

    /** incrementCharacterCounter. */
    method IncrementCharacterCounter(s: Section, i: nat, ch: char)
      modifies this
      ensures Model() == SelectionEngine.IncrementCharacterCounter(old(Model()), s, i, ch) && events == old(events)
    {
      var k := LetterKey(s, i);
      Raise(k);
      if Count(counters, k) >= Threshold {
        AddCharacter(ch);
      }
    }

    /** process_sector_input. */
    method ProcessSectorInput(sector: int)
      requires 1 <= sector <= 20
      modifies this
      ensures Model() == SectorInput(variant, old(Model()), sector) && events == old(events)
    {
      match panel
      case Main =>
        var hit := FindInTable(MainTable, sector);
        if hit.Some? {
          var k := SectionKey(hit.value);
          Raise(k);
          if Count(counters, k) >= Threshold {
            ClearOwnCounter(k);
            ResetAllCounters();
            panel := Secondary(hit.value);
          }
        } else if variant != Simplified {
          DimCurrentSelection();
        }
      case Secondary(s) =>
        if variant == Simplified {
          if sector <= |Letters(s)| {
            AddCharacter(Letters(s)[sector - 1]);
          }
        } else if variant == FullTables {
          var row := RangeMatch(RangeTable(s), sector);
          if row.Some? {
            IncrementCharacterCounter(s, row.value.index, row.value.letter);
          } else {
            DimCurrentSelection();
          }
        } else {
          var i := FindLetter(s, sector);
          if i.Some? {
            IncrementCharacterCounter(s, i.value, Letters(s)[i.value]);
          } else {
            DimCurrentSelection();
          }
        }
      case Num =>
        var hit := FindInTable(NumTable, sector);
        if hit.Some? {
          var k := DigitKey(hit.value);
          Raise(k);
          if Count(counters, k) >= Threshold {
            AddNumber(hit.value);
          }
        } else if variant != Simplified {
          DimCurrentSelection();
        }
    }

    /** process_button_input. */
    method ProcessButtonInput(code: int)
      requires 21 <= code <= 25
      modifies this
      ensures Model() == ButtonInput(variant, old(Model()), code).engine
      ensures events == old(events) + ButtonInput(variant, old(Model()), code).events
    {
      var b := ButtonOf(code);
      var k := ButtonKey(b);
      if Disabled(variant, Model(), b) {
        return;
      }
      Raise(k);
      if Count(counters, k) >= Threshold {
        ClearOwnCounter(k);
        match b
        case NumButton =>
          ResetAllCounters();
          panel := Num;
        case ReturnButton =>
          ResetAllCounters();
          panel := Main;
        case DeleteButton =>
          if text != "" {
            text := text[..|text| - 1];
          } else {
            events := events + [Speak("No")];
          }
        case ConfirmButton =>
          if text != "" {
            ConfirmText();
          } else {
            events := events + [Speak("Yes")];
          }
        case CenterButton =>
          if panel == Num {
            AddDecimalPoint();
          } else {
            AddSpace();
          }
      }
    }

    /** process_command: one received label. */
    method ProcessCommand(t: Token)
      modifies this
      ensures Model() == SelectionEngine.ProcessCommand(variant, old(Model()), t).engine
      ensures events == old(events) + SelectionEngine.ProcessCommand(variant, old(Model()), t).events
    {
      match t
      case Exit =>
        if variant == Canonical {
          events := events + [Quit];
        }
      case Calibration(_) =>
      case NotInt =>
        if variant == Canonical {
          DimCurrentSelection();
        }
      case Int(n) =>
        if 1 <= n <= 20 {
          ProcessSectorInput(n);
        } else if 21 <= n <= 25 {
          ProcessButtonInput(n);
        } else if variant == Canonical {
          DimCurrentSelection();
        }
    }
  }
}
