/**
 * Properties of the 20-sector selection engine: the counter invariant every
 * label preserves, the dwell that enters a section or commits a letter or a
 * digit, the decay rule, the button rules and the differences between the
 * four engines.
 */
module SelectionProperties {
  import opened Wrappers
  import opened KeyboardTables
  import opened Counters
  import opened TableProperties
  import opened SelectionEngine

  // ---------------------------------------------------------------------
  // The counter invariant
  // ---------------------------------------------------------------------

  lemma InitialValid()
    ensures Valid(Initial())
    ensures Initial().panel == Main && Initial().text == ""
    ensures forall k :: Count(Initial().counters, k) == 0
  {
  }

  /** Below the threshold one more dwell keeps the invariant; at the threshold the counter was Threshold - 1. */
  lemma IncrementValid(e: Engine, k: Key)
    requires Valid(e) && k in AllKeys()
    ensures Increment(e, k).counters.Keys == AllKeys()
    ensures !Reached(Increment(e, k), k) ==> Valid(Increment(e, k))
    ensures Reached(Increment(e, k), k) ==> Count(e.counters, k) == Threshold - 1
  {
    var c := Increment(e, k).counters;
    forall j | j in c
      ensures !Reached(Increment(e, k), k) ==> 0 <= c[j] < Threshold
    {
      assert c[j] == Count(c, j);
    }
  }

  /** Clearing a counter that was just raised to the threshold restores the invariant. */
  lemma ClearOwnValid(v: Variant, e: Engine, k: Key)
    requires Valid(e) && k in AllKeys()
    requires Reached(Increment(e, k), k)
    ensures Valid(ClearOwn(v, Increment(e, k), k))
  {
    IncrementValid(e, k);
    var c := ClearOwn(v, Increment(e, k), k).counters;
    forall j | j in c
      ensures 0 <= c[j] < Threshold
    {
      if v != Simplified && j != k {
        assert c[j] == Count(Bump(e.counters, k), j) == Count(e.counters, j) == e.counters[j];
      }
    }
  }

  lemma DimValid(e: Engine)
    requires Valid(e)
    ensures Valid(Dim(e))
  {
  }

  /** A reset keeps the key set and leaves every counter at 0. */
  lemma ResetAllValid(e: Engine)
    requires e.counters.Keys == AllKeys()
    ensures Valid(ResetAll(e))
  {
    var c := ResetAll(e).counters;
    forall j | j in c
      ensures 0 <= c[j] < Threshold
    {
      assert c[j] == Count(c, j);
    }
  }

  /** One dwell on k, followed by its commit when it reaches the threshold, keeps the invariant. */
  lemma DwellValid(v: Variant, e: Engine, k: Key)
    requires Valid(e) && k in AllKeys()
    ensures var e1 := Increment(e, k);
            && (!Reached(e1, k) ==> Valid(e1))
            && (Reached(e1, k) ==> Valid(ResetAll(ClearOwn(v, e1, k))))
            && (Reached(e1, k) ==> Valid(ResetAll(e1)))
  {
    IncrementValid(e, k);
    var e1 := Increment(e, k);
    if Reached(e1, k) {
      ClearOwnValid(v, e, k);
      ResetAllValid(ClearOwn(v, e1, k));
      ResetAllValid(e1);
    }
  }

  lemma SectorInputValid(v: Variant, e: Engine, n: int)
    requires Valid(e) && 1 <= n <= 20
    ensures Valid(SectorInput(v, e, n))
  {
    match e.panel
    case Main => MainSectorValid(v, e, n);
    case Secondary(s) => LetterSectorValid(v, e, s, n);
    case Num => NumSectorValid(v, e, n);
  }

  lemma MainSectorValid(v: Variant, e: Engine, n: int)
    requires Valid(e) && 1 <= n <= 20 && e.panel == Main
    ensures Valid(SectorInput(v, e, n))
  {
    var r := MainLookup(n);
    if r.Some? {
      var k := SectionKey(r.value);
      DwellValid(v, e, k);
      var e1 := Increment(e, k);
      if Reached(e1, k) {
        assert SectorInput(v, e, n) == ResetAll(ClearOwn(v, e1, k)).(panel := Secondary(r.value));
      } else {
        assert SectorInput(v, e, n) == e1;
      }
    } else {
      assert SectorInput(v, e, n) == Unmatched(v, e);
    }
  }

  lemma LetterSectorValid(v: Variant, e: Engine, s: Section, n: int)
    requires Valid(e) && 1 <= n <= 20 && e.panel == Secondary(s)
    ensures Valid(SectorInput(v, e, n))
  {
    if v == Simplified {
      if n <= |Letters(s)| {
        ResetAllValid(e);
        assert SectorInput(v, e, n) == AddCharacter(e, Letters(s)[n - 1]);
      }
    } else {
      LetterDwellValid(v, e, s, n);
    }
  }

  lemma LetterDwellValid(v: Variant, e: Engine, s: Section, n: int)
    requires Valid(e) && 1 <= n <= 20 && e.panel == Secondary(s) && v != Simplified
    ensures Valid(SectorInput(v, e, n))
  {
    var r := LetterMatch(v, s, n);
    if r.Some? {
      var m := r.value;
      if v == FullTables {
        RangeMatchRing(s, n);
      }
      assert m.0 < |Letters(s)|;
      var k := LetterKey(s, m.0);
      DwellValid(v, e, k);
      assert SectorInput(v, e, n) == IncrementCharacterCounter(e, s, m.0, m.1);
    } else {
      assert SectorInput(v, e, n) == Dim(e);
    }
  }

  lemma NumSectorValid(v: Variant, e: Engine, n: int)
    requires Valid(e) && 1 <= n <= 20 && e.panel == Num
    ensures Valid(SectorInput(v, e, n))
  {
    var r := NumLookup(n);
    if r.Some? {
      NumLookupRing(n);
      var k := DigitKey(r.value);
      DwellValid(v, e, k);
      var e1 := Increment(e, k);
      if Reached(e1, k) {
        assert SectorInput(v, e, n) == AddNumber(e1, r.value);
      } else {
        assert SectorInput(v, e, n) == e1;
      }
    } else {
      assert SectorInput(v, e, n) == Unmatched(v, e);
    }
  }

  lemma ButtonInputValid(v: Variant, e: Engine, code: int)
    requires Valid(e) && 21 <= code <= 25
    ensures Valid(ButtonInput(v, e, code).engine)
  {
    var k := ButtonKey(ButtonOf(code));
    assert ButtonOf(code) in Buttons;
    IncrementValid(e, k);
    if Reached(Increment(e, k), k) {
      ClearOwnValid(v, e, k);
    }
  }

  /** Every label keeps every counter present and in [0, Threshold - 1]. */
  lemma ProcessCommandValid(v: Variant, e: Engine, t: Token)
    requires Valid(e)
    ensures Valid(ProcessCommand(v, e, t).engine)
  {
    match t
    case Int(n) =>
      if 1 <= n <= 20 {
        SectorInputValid(v, e, n);
      } else if 21 <= n <= 25 {
        ButtonInputValid(v, e, n);
      }
    case _ =>
  }

  /** A whole label stream keeps the invariant. */
  lemma {:induction false} RunValid(v: Variant, e: Engine, ts: seq<Token>)
    requires Valid(e)
    ensures Valid(Run(v, e, ts).engine)
    decreases |ts|
  {
    if ts != [] {
      ProcessCommandValid(v, e, ts[0]);
      RunValid(v, ProcessCommand(v, e, ts[0]).engine, ts[1..]);
    }
  }

  // ---------------------------------------------------------------------
  // Decay
  // ---------------------------------------------------------------------

  /**
   * Decay lowers by one the first of the panel's candidates whose counter
   * is the highest and positive, leaves every other counter alone (button
   * counters are never candidates), and does nothing when no candidate is
   * positive.
   */
  lemma DimLowersFirstHighest(e: Engine)
    ensures Dim(e).panel == e.panel && Dim(e).text == e.text
    ensures (forall j :: 0 <= j < |Candidates(e.panel)| ==> Count(e.counters, Candidates(e.panel)[j]) <= 0)
            ==> Dim(e) == e
    ensures (exists j :: 0 <= j < |Candidates(e.panel)| && Count(e.counters, Candidates(e.panel)[j]) > 0)
            ==> exists i: nat :: IsFirstHighest(e.counters, Candidates(e.panel), i)
                  && (forall k :: Count(Dim(e).counters, k) ==
                        if k == Candidates(e.panel)[i] then Count(e.counters, k) - 1 else Count(e.counters, k))
    ensures forall b :: Count(Dim(e).counters, ButtonKey(b)) == Count(e.counters, ButtonKey(b))
  {
    var cands := Candidates(e.panel);
    FirstMaxIsFirstHighest(e.counters, cands);
    if FirstMax(e.counters, cands).Some? {
      var i := FirstMax(e.counters, cands).value;
      assert IsFirstHighest(e.counters, cands, i);
      forall k ensures Count(Dim(e).counters, k) ==
                  if k == cands[i] then Count(e.counters, k) - 1 else Count(e.counters, k) {
      }
    }
  }

  // ---------------------------------------------------------------------
  // Dwelling on a ring sector
  // ---------------------------------------------------------------------

  /** Only counter k went up, by one. */
  ghost predicate RaisedOnly(before: Counts, after: Counts, k: Key)
  {
    && Count(after, k) == Count(before, k) + 1
    && forall j :: j != k ==> Count(after, j) == Count(before, j)
  }

  ghost predicate AllZero(c: Counts)
  {
    forall k :: Count(c, k) == 0
  }

  /**
   * In MAIN, a sector raises the counter of the section whose arc holds it;
   * the dwell that reaches the threshold opens that section's panel with
   * every counter back at 0. The text never changes.
   */
  lemma MainDwell(v: Variant, e: Engine, n: int)
    requires e.panel == Main && 1 <= n <= 20
    ensures var s := MainSectionOf(n); var r := SectorInput(v, e, n);
            && r.text == e.text
            && (Count(e.counters, SectionKey(s)) + 1 >= Threshold ==> r.panel == Secondary(s) && AllZero(r.counters))
            && (Count(e.counters, SectionKey(s)) + 1 < Threshold ==>
                  r.panel == Main && RaisedOnly(e.counters, r.counters, SectionKey(s)))
  {
    MainLookupRing(n);
  }

  /** Four identical ring-sector labels are four sector inputs in a row, with no event. */
  lemma RunFour(v: Variant, e: Engine, n: int)
    requires 1 <= n <= 20
    ensures var e1 := SectorInput(v, e, n); var e2 := SectorInput(v, e1, n); var e3 := SectorInput(v, e2, n);
            Run(v, e, [Int(n), Int(n), Int(n), Int(n)]) == Outcome(SectorInput(v, e3, n), [])
  {
    var e1 := SectorInput(v, e, n);
    var e2 := SectorInput(v, e1, n);
    var e3 := SectorInput(v, e2, n);
    var t := Int(n);
    assert [t, t, t, t][1..] == [t, t, t] && [t, t, t][1..] == [t, t] && [t, t][1..] == [t] && [t][1..] == [];
    assert Run(v, e3, [t]) == Outcome(SectorInput(v, e3, n), []);
    assert Run(v, e2, [t, t]) == Run(v, e3, [t]);
    assert Run(v, e1, [t, t, t]) == Run(v, e2, [t, t]);
    assert Run(v, e, [t, t, t, t]) == Run(v, e1, [t, t, t]);
  }

  /** Four identical labels from MAIN open the section of that sector, in every engine. */
  lemma FourDwellsEnterSection(v: Variant, e: Engine, n: int)
    requires e.panel == Main && 1 <= n <= 20
    requires Count(e.counters, SectionKey(MainSectionOf(n))) == 0
    ensures var r := Run(v, e, [Int(n), Int(n), Int(n), Int(n)]);
            && r.engine.panel == Secondary(MainSectionOf(n))
            && r.engine.text == e.text
            && AllZero(r.engine.counters)
            && r.events == []
  {
    var k := SectionKey(MainSectionOf(n));
    MainDwell(v, e, n);
    var e1 := SectorInput(v, e, n);
    MainDwell(v, e1, n);
    var e2 := SectorInput(v, e1, n);
    MainDwell(v, e2, n);
    var e3 := SectorInput(v, e2, n);
    MainDwell(v, e3, n);
    var e4 := SectorInput(v, e3, n);
    RunFour(v, e, n);
    assert Run(v, e, [Int(n), Int(n), Int(n), Int(n)]).engine == e4;
  }

  /**
   * In NUM, a sector raises the counter of its digit; the dwell that
   * reaches the threshold appends the digit, clears every counter and stays
   * in NUM.
   */
  lemma NumDwell(v: Variant, e: Engine, n: int)
    requires e.panel == Num && 1 <= n <= 20
    ensures var d := NumDigitOf(n); var r := SectorInput(v, e, n);
            && r.panel == Num
            && (Count(e.counters, DigitKey(d)) + 1 >= Threshold ==> r.text == e.text + [d] && AllZero(r.counters))
            && (Count(e.counters, DigitKey(d)) + 1 < Threshold ==>
                  r.text == e.text && RaisedOnly(e.counters, r.counters, DigitKey(d)))
  {
    NumLookupRing(n);
  }

  /**
   * What a sector selects in a letter panel: in kt_UI/UI.kt every sector
   * selects a letter (counter index i holds the section's list read
   * backwards); elsewhere the RIGHT and TOP sectors select the letter whose
   * list holds them and the LEFT and BOTTOM sectors select nothing.
   */
  lemma LetterMatchRing(v: Variant, s: Section, n: int)
    requires 1 <= n <= 20
    ensures v == FullTables ==>
              && LetterMatch(v, s, n).Some?
              && LetterMatch(v, s, n).value.0 < |Letters(s)|
              && LetterMatch(v, s, n).value.1 == Letters(s)[|Letters(s)| - 1 - LetterMatch(v, s, n).value.0]
    ensures v != FullTables && (s == Right || s == Top) ==>
              && LetterMatch(v, s, n).Some?
              && var i := LetterMatch(v, s, n).value.0;
                 i < |Letters(s)| && LetterMatch(v, s, n).value.1 == Letters(s)[i]
                 && n in CharTable[Letters(s)[i]]
    ensures v != FullTables && (s == Left || s == Bottom) ==> LetterMatch(v, s, n).None?
  {
    if v == FullTables {
      RangeMatchRing(s, n);
    } else if s == Right {
      RightMatchRing(n);
    } else if s == Top {
      TopMatchRing(n);
    } else {
      LeftBottomNeverMatch(s, n);
    }
  }

  /**
   * In a letter panel (dwell engines), a selected letter's counter goes up
   * and the dwell that reaches the threshold appends the letter, clears
   * every counter and returns to MAIN; a sector that selects nothing decays.
   */
  lemma LetterDwell(v: Variant, e: Engine, n: int)
    requires v != Simplified && e.panel.Secondary? && 1 <= n <= 20
    ensures var s := e.panel.section; var r := SectorInput(v, e, n);
            match LetterMatch(v, s, n)
            case None => r == Dim(e)
            case Some(m) =>
              var k := LetterKey(s, m.0);
              && (Count(e.counters, k) + 1 >= Threshold ==>
                    r.panel == Main && r.text == e.text + [m.1] && AllZero(r.counters))
              && (Count(e.counters, k) + 1 < Threshold ==>
                    r.panel == e.panel && r.text == e.text && RaisedOnly(e.counters, r.counters, k))
  {
  }

  /** Four identical labels on a letter's sector type that letter, in every dwell engine. */
  lemma FourDwellsTypeLetter(v: Variant, e: Engine, n: int, i: nat, ch: char)
    requires v != Simplified && e.panel.Secondary? && 1 <= n <= 20
    requires LetterMatch(v, e.panel.section, n) == Some((i, ch))
    requires Count(e.counters, LetterKey(e.panel.section, i)) == 0
    ensures var r := Run(v, e, [Int(n), Int(n), Int(n), Int(n)]);
            && r.engine.panel == Main
            && r.engine.text == e.text + [ch]
            && AllZero(r.engine.counters)
            && r.events == []
  {
    LetterDwell(v, e, n);
    var e1 := SectorInput(v, e, n);
    LetterDwell(v, e1, n);
    var e2 := SectorInput(v, e1, n);
    LetterDwell(v, e2, n);
    var e3 := SectorInput(v, e2, n);
    LetterDwell(v, e3, n);
    var e4 := SectorInput(v, e3, n);
    RunFour(v, e, n);
    assert Run(v, e, [Int(n), Int(n), Int(n), Int(n)]).engine == e4;
  }

  /** UI.kt's letter panels have no dwell: a sector up to the list's length types its letter at once. */
  lemma SimplifiedImmediateLetter(e: Engine, n: int)
    requires e.panel.Secondary? && 1 <= n <= 20
    ensures var s := e.panel.section; var r := SectorInput(Simplified, e, n);
            && (n <= |Letters(s)| ==> r.panel == Main && r.text == e.text + [Letters(s)[n - 1]] && AllZero(r.counters))
            && (n > |Letters(s)| ==> r == e)
  {
  }

  // ---------------------------------------------------------------------
  // Buttons
  // ---------------------------------------------------------------------

  /** Below the threshold a button label only raises that button's counter. */
  lemma ButtonBelowThreshold(v: Variant, e: Engine, code: int)
    requires 21 <= code <= 25 && !Disabled(v, e, ButtonOf(code))
    requires Count(e.counters, ButtonKey(ButtonOf(code))) + 1 < Threshold
    ensures var r := ButtonInput(v, e, code);
            && r.engine.panel == e.panel && r.engine.text == e.text && r.events == []
            && RaisedOnly(e.counters, r.engine.counters, ButtonKey(ButtonOf(code)))
  {
  }

  /** DELETE and CONFIRM are inert in a letter panel, except in kt_UI/UI.kt. */
  lemma DeleteConfirmInertInLetterPanels(v: Variant, e: Engine, code: int)
    requires code == 23 || code == 24
    requires e.panel.Secondary? && v != FullTables
    ensures ButtonInput(v, e, code) == Outcome(e, [])
  {
  }

  /** NUM and RETURN at the threshold switch panel and clear every counter; the text is kept. */
  lemma NumReturnCommit(v: Variant, e: Engine, code: int)
    requires code == 21 || code == 22
    requires Count(e.counters, ButtonKey(ButtonOf(code))) + 1 >= Threshold
    ensures var r := ButtonInput(v, e, code);
            && r.engine.panel == (if code == 21 then Num else Main)
            && r.engine.text == e.text && AllZero(r.engine.counters) && r.events == []
  {
  }

  /**
   * DELETE at the threshold drops the last character, or says "No" when
   * there is none; the panel is kept and only DELETE's counter is cleared
   * (UI.kt clears every counter).
   */
  lemma DeleteCommit(v: Variant, e: Engine)
    requires !Disabled(v, e, DeleteButton)
    requires Count(e.counters, ButtonKey(DeleteButton)) + 1 >= Threshold
    ensures var r := ButtonInput(v, e, 23);
            && r.engine.panel == e.panel
            && (e.text != "" ==> r.engine.text == e.text[..|e.text| - 1] && r.events == [])
            && (e.text == "" ==> r.engine.text == "" && r.events == [Speak("No")])
            && Count(r.engine.counters, ButtonKey(DeleteButton)) == 0
            && (v != Simplified ==> forall k :: k != ButtonKey(DeleteButton) ==> Count(r.engine.counters, k) == Count(e.counters, k))
            && (v == Simplified ==> AllZero(r.engine.counters))
  {
  }

  /**
   * CONFIRM at the threshold speaks a non-empty text, clears it, clears
   * every counter and returns to MAIN; on an empty text it says "Yes",
   * leaves panel and text alone and clears only CONFIRM's counter (UI.kt
   * clears every counter).
   */
  lemma ConfirmCommit(v: Variant, e: Engine)
    requires !Disabled(v, e, ConfirmButton)
    requires Count(e.counters, ButtonKey(ConfirmButton)) + 1 >= Threshold
    ensures var r := ButtonInput(v, e, 24);
            && (e.text != "" ==> r.engine.panel == Main && r.engine.text == "" && AllZero(r.engine.counters)
                                 && r.events == [Speak(e.text)])
            && (e.text == "" ==> r.engine.panel == e.panel && r.engine.text == "" && r.events == [Speak("Yes")]
                                 && Count(r.engine.counters, ButtonKey(ConfirmButton)) == 0
                                 && (v != Simplified ==> forall k :: k != ButtonKey(ConfirmButton) ==>
                                       Count(r.engine.counters, k) == Count(e.counters, k))
                                 && (v == Simplified ==> AllZero(r.engine.counters)))
  {
  }

  /** CENTER at the threshold appends "." in NUM and a space elsewhere, clears every counter and keeps the panel. */
  lemma CenterCommit(v: Variant, e: Engine)
    requires Count(e.counters, ButtonKey(CenterButton)) + 1 >= Threshold
    ensures var r := ButtonInput(v, e, 25);
            && r.engine.panel == e.panel
            && r.engine.text == e.text + (if e.panel == Num then "." else " ")
            && AllZero(r.engine.counters) && r.events == []
  {
  }

  // ---------------------------------------------------------------------
  // Labels that are not a sector or a button
  // ---------------------------------------------------------------------

  /** "exit" and the calibration words never touch the engine; only the Python engine quits on "exit". */
  lemma ExitAndCalibrationInert(v: Variant, e: Engine, t: Token)
    requires t.Exit? || t.Calibration?
    ensures ProcessCommand(v, e, t).engine == e
    ensures ProcessCommand(v, e, t).events == (if t.Exit? && v == Canonical then [Quit] else [])
  {
  }

  /**
   * A label that is not an integer in 1..25 decays the current panel in
   * the Python engine and is ignored by the Kotlin engines.
   */
  lemma NoiseDecaysOnlyInPython(v: Variant, e: Engine, t: Token)
    requires t.NotInt? || (t.Int? && !(1 <= t.n <= 25))
    ensures ProcessCommand(v, e, t).events == []
    ensures v == Canonical ==> ProcessCommand(v, e, t).engine == Dim(e)
    ensures v != Canonical ==> ProcessCommand(v, e, t).engine == e
  {
  }

  /**
   * UI.kt never decays: after any label either every counter is 0 or no
   * counter went down.
   */
  lemma SimplifiedNeverDecays(e: Engine, t: Token)
    ensures var r := ProcessCommand(Simplified, e, t).engine;
            AllZero(r.counters) || forall k :: Count(r.counters, k) >= Count(e.counters, k)
  {
  }

  // ---------------------------------------------------------------------
  // The text buffer and the spoken words
  // ---------------------------------------------------------------------

  /** `after` is `before` or `before` with one character appended. */
  ghost predicate KeptOrGrown(before: string, after: string)
  {
    after == before || (|after| == |before| + 1 && after[..|before|] == before)
  }

  /**
   * One label edits the text in exactly one of four ways (kept, one
   * character appended, last character dropped, spoken and cleared), and the
   * only words ever spoken are "No", "Yes" and the whole confirmed text.
   */
  ghost predicate TextEdit(before: string, r: Outcome)
  {
    || (r.engine.text == before && (r.events == [] || r.events == [Quit]
                                    || (before == "" && (r.events == [Speak("No")] || r.events == [Speak("Yes")]))))
    || (|r.engine.text| == |before| + 1 && r.engine.text[..|before|] == before && r.events == [])
    || (before != "" && r.engine.text == before[..|before| - 1] && r.events == [])
    || (before != "" && r.engine.text == "" && r.events == [Speak(before)])
  }

  /** A ring sector keeps the text or appends one character. */
  lemma SectorInputText(v: Variant, e: Engine, n: int)
    requires 1 <= n <= 20
    ensures KeptOrGrown(e.text, SectorInput(v, e, n).text)
  {
    match e.panel
    case Main => MainLookupRing(n);
    case Num => NumLookupRing(n);
    case Secondary(s) =>
  }

  /** A button keeps, grows by one, shortens by one, or speaks and clears the text. */
  lemma ButtonInputText(v: Variant, e: Engine, code: int)
    requires 21 <= code <= 25
    ensures TextEdit(e.text, ButtonInput(v, e, code))
  {
  }

  lemma TextEdits(v: Variant, e: Engine, t: Token)
    ensures TextEdit(e.text, ProcessCommand(v, e, t))
  {
    match t
    case Int(n) =>
      if 1 <= n <= 20 {
        SectorInputText(v, e, n);
      } else if 21 <= n <= 25 {
        ButtonInputText(v, e, n);
      }
    case _ =>
  }

  /** What the centre circle shows: "." in NUM, otherwise the last MAX_DISPLAY_CHARS characters of the text. */
  lemma CenterCircleTextIsTail(v: Variant, e: Engine)
    ensures e.panel == Num ==> CenterCircleText(v, e) == "."
    ensures e.panel != Num ==>
              var r := CenterCircleText(v, e);
              && |r| == (if |e.text| <= MaxDisplayChars(v) then |e.text| else MaxDisplayChars(v))
              && e.text == e.text[..|e.text| - |r|] + r
  {
  }

  // ---------------------------------------------------------------------
  // LEFT and BOTTOM letters in the Python engine and kt_UI/AAC_Keyboard.kt
  // ---------------------------------------------------------------------

  /**
   * The characters those two engines can ever add to the text: the RIGHT
   * and TOP letters (the only ones with a sector list), the digits, the
   * space and the decimal point.
   */
  const ListedAlphabet: string := Letters(Right) + Letters(Top) + Digits + " ."

  ghost predicate TextOver(text: string, alphabet: string)
  {
    forall i :: 0 <= i < |text| ==> text[i] in alphabet
  }

  /** In a LEFT or BOTTOM panel of those engines no ring sector selects a letter: every one of them decays. */
  lemma DeadPanelsAsWritten(v: Variant, e: Engine, n: int)
    requires v == Canonical || v == Keyboard
    requires e.panel == Secondary(Left) || e.panel == Secondary(Bottom)
    requires 1 <= n <= 20
    ensures SectorInput(v, e, n) == Dim(e)
    ensures SectorInput(v, e, n).text == e.text && SectorInput(v, e, n).panel == e.panel
  {
    LeftBottomNeverMatch(e.panel.section, n);
  }

  /** Appending one listed character keeps the text within the listed alphabet. */
  lemma TextOverGrown(before: string, after: string)
    requires TextOver(before, ListedAlphabet) && KeptOrGrown(before, after)
    requires |after| == |before| + 1 ==> after[|before|] in ListedAlphabet
    ensures TextOver(after, ListedAlphabet)
  {
    forall i | 0 <= i < |after|
      ensures after[i] in ListedAlphabet
    {
      if i < |before| {
        assert after[i] == after[..|before|][i];
      }
    }
  }

  /** A ring sector of those engines adds at most one listed character. */
  lemma ListedAlphabetSector(v: Variant, e: Engine, n: int)
    requires v == Canonical || v == Keyboard
    requires 1 <= n <= 20
    ensures KeptOrGrown(e.text, SectorInput(v, e, n).text)
    ensures |SectorInput(v, e, n).text| == |e.text| + 1 ==> SectorInput(v, e, n).text[|e.text|] in ListedAlphabet
  {
    SectorInputText(v, e, n);
    match e.panel
    case Main => MainLookupRing(n);
    case Num =>
      NumLookupRing(n);
      assert forall c :: c in Digits ==> c in ListedAlphabet;
    case Secondary(s) =>
      LetterMatchRing(v, s, n);
      assert forall c :: c in Letters(Right) + Letters(Top) ==> c in ListedAlphabet;
  }

  /** A button adds only a space or a decimal point, drops the last character, or clears the text. */
  lemma ButtonListed(v: Variant, e: Engine, code: int)
    requires 21 <= code <= 25
    requires TextOver(e.text, ListedAlphabet)
    ensures TextOver(ButtonInput(v, e, code).engine.text, ListedAlphabet)
  {
    var after := ButtonInput(v, e, code).engine.text;
    ButtonInputText(v, e, code);
    assert |after| == |e.text| + 1 ==> after == e.text + " " || after == e.text + ".";
    if |after| == |e.text| + 1 {
      assert after[|e.text|] in " .";
      TextOverGrown(e.text, after);
    } else if e.text != "" && after == e.text[..|e.text| - 1] {
      forall i | 0 <= i < |after|
        ensures after[i] in ListedAlphabet
      {
        assert after[i] == e.text[i];
      }
    }
  }

  /** One label of those engines keeps the text within the listed alphabet. */
  lemma ListedAlphabetStep(v: Variant, e: Engine, t: Token)
    requires v == Canonical || v == Keyboard
    requires TextOver(e.text, ListedAlphabet)
    ensures TextOver(ProcessCommand(v, e, t).engine.text, ListedAlphabet)
  {
    var after := ProcessCommand(v, e, t).engine.text;
    TextEdits(v, e, t);
    match t
    case Int(n) =>
      if 1 <= n <= 20 {
        ListedAlphabetSector(v, e, n);
        TextOverGrown(e.text, after);
      } else if 21 <= n <= 25 {
        ButtonListed(v, e, n);
      }
    case _ =>
  }

  /** ... and so does every label stream. */
  lemma {:induction false} ListedAlphabetRun(v: Variant, e: Engine, ts: seq<Token>)
    requires v == Canonical || v == Keyboard
    requires TextOver(e.text, ListedAlphabet)
    ensures TextOver(Run(v, e, ts).engine.text, ListedAlphabet)
    decreases |ts|
  {
    if ts != [] {
      ListedAlphabetStep(v, e, ts[0]);
      ListedAlphabetRun(v, ProcessCommand(v, e, ts[0]).engine, ts[1..]);
    }
  }

  /**
   * As written, the fourteen LEFT and BOTTOM letters (c w m g y p f j b q k
   * v z x) never appear in the text, whatever labels arrive.
   */
  lemma LeftBottomNeverTypedAsWritten(v: Variant, ts: seq<Token>, s: Section, k: nat)
    requires v == Canonical || v == Keyboard
    requires (s == Left || s == Bottom) && k < |Letters(s)|
    ensures Letters(s)[k] !in Run(v, Initial(), ts).engine.text
  {
    ListedAlphabetRun(v, Initial(), ts);
    LeftBottomNotListed(s, k);
    var text := Run(v, Initial(), ts).engine.text;
    forall i | 0 <= i < |text|
      ensures text[i] != Letters(s)[k]
    {
    }
  }

  lemma LeftBottomNotListed(s: Section, k: nat)
    requires (s == Left || s == Bottom) && k < |Letters(s)|
    ensures Letters(s)[k] !in ListedAlphabet
  {
    ListedAlphabetSpelled();
    LeftBottomLetter(s, k);
    LowerNotListed(Letters(s)[k]);
  }

  lemma ListedAlphabetSpelled()
    ensures ListedAlphabet == "aeioustnrdlh" + "1234567890 ."
  {
  }

  lemma LeftBottomLetter(s: Section, k: nat)
    requires (s == Left || s == Bottom) && k < |Letters(s)|
    ensures 'a' <= Letters(s)[k] <= 'z' && Letters(s)[k] !in "aeioustnrdlh"
  {
  }

  lemma LowerNotListed(c: char)
    requires 'a' <= c <= 'z' && c !in "aeioustnrdlh"
    ensures c !in "aeioustnrdlh" + "1234567890 ."
  {
    var tail := "1234567890 .";
    forall i | 0 <= i < |tail|
      ensures tail[i] != c
    {
    }
  }

  /**
   * With kt_UI/UI.kt's range tables every letter of every section has a
   * sector, and four dwells on it type that letter.
   */
  lemma EveryLetterTypeable(e: Engine, s: Section, k: nat)
    requires e.panel == Secondary(s) && k < |Letters(s)|
    requires forall i :: Count(e.counters, LetterKey(s, i)) == 0
    ensures exists n :: 1 <= n <= 20 &&
              var r := Run(FullTables, e, [Int(n), Int(n), Int(n), Int(n)]);
              r.engine.panel == Main && r.engine.text == e.text + [Letters(s)[k]]
  {
    RangeTablesReachEveryLetter(s, k);
    RangeTablesPartitionRing(s);
    var row := RangeTable(s)[|Letters(s)| - 1 - k];
    var n := row.lo;
    assert 1 <= n <= 20 by {
      RowsWithinRing(RangeTable(s), |Letters(s)| - 1 - k);
    }
    assert LetterMatch(FullTables, s, n) == Some((row.index, Letters(s)[k]));
    FourDwellsTypeLetter(FullTables, e, n, row.index, Letters(s)[k]);
  }
}
