# Gaze-driven AAC keyboard: selection engine, region classifiers, calibration, line framing

This project models the decision-making core of a gaze-controlled
communication keyboard. An eye tracker turns the user's gaze into a stream
of zone labels, and the keyboard turns those labels into text and speech.

- **Dwell-selection engine.** The keyboard shows a MAIN panel with four
  letter sections (TOP, RIGHT, BOTTOM, LEFT), one panel per section, and a
  NUM panel. Each label is one of these:
  - a ring sector 1..20;
  - a corner or centre button 21..25 (NUM, RETURN, DELETE, CONFIRM, CENTER);
  - a calibration marker word;
  - "exit";
  - garbage.

  A label raises one candidate's dwell counter. The fourth identical dwell
  (`SELECTION_THRESHOLD` = 4) commits it: it opens a panel, appends a
  character, deletes, or speaks the text. Unusable labels may instead lower
  ("decay") the highest counter.
- **Four engine variants.** Four near-identical engines differ in
  observable ways. They are modelled as one pure step function,
  `SelectionEngine.ProcessCommand`, parametrised by `Variant`:
  - `Canonical` is eye-tracking/UI_Version_2.py;
  - `Keyboard` is kt_UI/AAC_Keyboard.kt;
  - `FullTables` is kt_UI/UI.kt;
  - `Simplified` is the root UI.kt.
- **The engine as an object.** Class `KeyboardView.Keyboard` is that
  engine written the way the source writes it. Its fields are updated in
  place, and the counter reset and the running-maximum decay scan are
  loops. Every method is proved to produce exactly the state the step
  function describes.
- **Command-driven keyboard.** The earlier keyboard in the root
  UI_Version_2.py (commands "1".."8", "1a".."4g", "exit") is module
  `CommandKeyboard`. It has a parser, a step function and class
  `LegacyKeyboard`.
- **25-region classifier.** Module `RegionClassifier` maps a normalised
  gaze point to one of:
  - the centre disc "25";
  - one of twenty ring sectors with rational angular bounds;
  - one of four corners, "21".."24";
  - "outside".
- **Four-corner calibration.** Module `Calibration` covers three pieces of
  eye-tracking/calibration.py:
  - capturing one gaze sample per corner;
  - the clamp-and-rescale transform of raw gaze coordinates into the unit
    square;
  - the older nine-area classifier.
- **Line framing.** Module `LineFraming` models the receiving loop of the
  region socket. Decoded chunks are appended to a buffer. Every complete
  line is stripped and handed on, and the unfinished tail stays buffered.

Label strings reach the engines already classified as a `Token`:
`Exit`, `Calibration(point)`, `Int(n)` or `NotInt`. Speech and quitting
are `Event`s returned alongside the new state. Gaze coordinates are exact
reals. `math.degrees(math.atan2(..))` is a function parameter,
constrained where needed only by the sign facts of `Angles.Atan2Degrees`.

Facts of the code that the model keeps:

- In MAIN, sector 1 belongs to RIGHT together with 19, 20 and 2
  (eye-tracking/UI_Version_2.py:114-119).
- Beyond the outer radius, a point on x = 0.5 or y = 0.5 is "outside"
  (eye-tracking/real/gaze_tracking/trained_models/region_classifier.py:97-98).
- The words "center", "top_mid", "left_mid", "bottom_mid" and "right_mid"
  only show a display cue (eye-tracking/UI_Version_2.py:951-954). The
  coordinate transform uses the four corners
  (eye-tracking/calibration.py:73-94).
- A degenerate span divides by zero (eye-tracking/calibration.py:87-88).
  The model returns the error `CalibError.ZeroDivision` for it, beside the
  wrong-count (eye-tracking/calibration.py:74-75) and missing-corner
  (eye-tracking/calibration.py:77-80) errors.

## Model

| member | source | states |
|---|---|---|
| KeyboardTables.Candidates | eye-tracking/UI_Version_2.py:149-173 | every candidate the decay scan visits in a panel is a counter created at start-up |
| KeyboardTables.CharTableMatch | eye-tracking/UI_Version_2.py:580-591 | a letter found for a sector is a letter of the section whose per-letter list holds that sector |
| KeyboardTables.RangeMatch | kt_UI/UI.kt:702-750 | a row found for a sector is a row of the table whose range holds the sector |
| Counters.Bump | kt_UI/AAC_Keyboard.kt:596 | one more dwell raises exactly that counter by one and creates it if missing; all others keep their value |
| Counters.Zeroed | kt_UI/AAC_Keyboard.kt:713-716 | a reset keeps the key set and leaves every counter at 0 |
| Counters.FirstMax | eye-tracking/UI_Version_2.py:678-717 | the decay scan only picks a candidate whose counter is positive |
| Counters.FirstMaxIsFirstHighest | eye-tracking/UI_Version_2.py:678-717 | the scan picks nothing exactly when no candidate is positive; otherwise it picks the first candidate with the highest counter |
| Counters.FindFirstMax | kt_UI/AAC_Keyboard.kt:718-776 | the running-maximum loop (strict `>` against a maximum starting at 0) finds the first highest positive counter, or nothing when all are 0 |
| KeyboardView.FindInTable | eye-tracking/UI_Version_2.py:559-561 | the loop over the MAIN or NUM table returns the first entry whose sector list holds the sector |
| KeyboardView.FindLetter | eye-tracking/UI_Version_2.py:580-585 | the loop over a section's letters returns the first letter whose per-letter list holds the sector |
| KeyboardView.Keyboard.constructor | eye-tracking/UI_Version_2.py:105-173 | a new keyboard is in MAIN with empty text and every counter created at 0 |
| KeyboardView.Keyboard.ResetAllCounters | eye-tracking/UI_Version_2.py:544-551 | the loop sets every counter to 0, keeps the key set, and leaves panel, text and speech alone |
| KeyboardView.Keyboard.DimCurrentSelection | eye-tracking/UI_Version_2.py:678-717 | the scan and the floor-0 decrement give exactly the decayed state |
| KeyboardView.Keyboard.AddCharacter | eye-tracking/UI_Version_2.py:871-880 | the letter is appended, every counter reset, the panel set to MAIN |
| KeyboardView.Keyboard.AddNumber | eye-tracking/UI_Version_2.py:882-890 | the digit is appended and every counter reset; the panel stays |
| KeyboardView.Keyboard.AddSpace | eye-tracking/UI_Version_2.py:892-900 | a space is appended and every counter reset; the panel stays |
| KeyboardView.Keyboard.AddDecimalPoint | eye-tracking/UI_Version_2.py:902-910 | "." is appended and every counter reset; the panel stays |
| KeyboardView.Keyboard.ConfirmText | eye-tracking/UI_Version_2.py:912-922 | a non-empty text is spoken and cleared, counters reset, panel MAIN; an empty text changes nothing |
| KeyboardView.Keyboard.Raise | eye-tracking/UI_Version_2.py:562 | one more dwell on one counter, nothing else changes |
| KeyboardView.Keyboard.ClearOwnCounter | UI.kt:488-538 | at the threshold a button clears its own counter, or every counter in the root UI.kt |
| KeyboardView.Keyboard.IncrementCharacterCounter | kt_UI/UI.kt:837-843 | a letter dwell, committing the letter once its counter reaches 4 |
| KeyboardView.Keyboard.ProcessSectorInput | eye-tracking/UI_Version_2.py:553-610 | the object's sector handling produces exactly the step function's new state |
| KeyboardView.Keyboard.ProcessButtonInput | eye-tracking/UI_Version_2.py:612-676 | the object's button handling produces the step function's state and appends its speech |
| KeyboardView.Keyboard.ProcessCommand | eye-tracking/UI_Version_2.py:941-976 | the object's label handling produces the step function's state and appends its events |
| TableProperties.FirstMatchFromSpec | eye-tracking/UI_Version_2.py:559-561 | the table search finds nothing exactly when no row holds the sector; otherwise it finds the first row that does |
| TableProperties.FirstMatchFromAt | eye-tracking/UI_Version_2.py:559-561 | the search stops at the first row holding the sector |
| TableProperties.MainTableRows | eye-tracking/UI_Version_2.py:114-119 | every sector in the MAIN table is a ring sector listed under its own section: TOP 3-7, LEFT 8-13, BOTTOM 14-18, RIGHT 19, 20, 1, 2 |
| TableProperties.MainLookupRing | eye-tracking/UI_Version_2.py:557-573 | every ring sector finds its MAIN section, so the MAIN decay branch is never reached for 1..20 |
| TableProperties.NumTableRows | kt_UI/AAC_Keyboard.kt:84-95 | every sector in the NUM table is a ring sector listed under its own digit |
| TableProperties.NumLookupRing | kt_UI/AAC_Keyboard.kt:635-647 | every ring sector finds its digit, so the NUM tables partition 1..20 |
| TableProperties.CharTableMatchFromNone | eye-tracking/UI_Version_2.py:121-133 | letters with no per-letter list never match |
| TableProperties.CharTableMatchFromAt | eye-tracking/UI_Version_2.py:580-591 | the letter search stops at the first letter whose list holds the sector |
| TableProperties.LeftBottomNeverMatch | eye-tracking/UI_Version_2.py:121-133 | no LEFT or BOTTOM letter has a per-letter list, so no sector matches in those panels |
| TableProperties.RightMatchRing | eye-tracking/UI_Version_2.py:121-125 | in RIGHT, sectors 4k+1..4k+4 select vowel k |
| TableProperties.TopMatchRing | eye-tracking/UI_Version_2.py:127-133 | in TOP: s 1-3, t 4-6, n 7-9, r 10-11, d 12-15, l 16-17, h 18-20 |
| TableProperties.RangeTablesPartitionRing | kt_UI/UI.kt:702-750 | each section's range table is contiguous from 1 to 20 with counter indices 0, 1, …; row i holds the section's letters read backwards |
| TableProperties.RangeMatchFromContiguous | kt_UI/UI.kt:702-750 | with contiguous ranges, every sector from a row's start to 20 finds a row containing it |
| TableProperties.RangeMatchRing | kt_UI/UI.kt:702-750 | every ring sector selects a letter in every section, so decay is unreachable for sectors |
| TableProperties.RangeTablesReachEveryLetter | kt_UI/UI.kt:705-745 | every letter of every section is the letter of some row |
| TableProperties.RangeMatchNoEarlier | kt_UI/UI.kt:702-750 | a row's first sector selects that row |
| TableProperties.RowsIncreasing | kt_UI/UI.kt:702-750 | the ranges of earlier rows lie strictly below later ones, so no two overlap |
| TableProperties.RowsWithinRing | kt_UI/UI.kt:702-750 | every range lies within 1..20 |
| SelectionProperties.InitialValid | eye-tracking/UI_Version_2.py:149-173 | the start state is MAIN with empty text, and every counter exists and is 0 |
| SelectionProperties.IncrementValid | eye-tracking/UI_Version_2.py:562-565 | a dwell below the threshold keeps every counter in 0..3; one reaching it came from 3 |
| SelectionProperties.ClearOwnValid | eye-tracking/UI_Version_2.py:617-620 | zeroing the counter that reached the threshold restores the bound |
| SelectionProperties.DimValid | eye-tracking/UI_Version_2.py:678-717 | decay keeps every counter in 0..3 |
| SelectionProperties.ResetAllValid | eye-tracking/UI_Version_2.py:544-551 | a reset leaves every counter in 0..3 |
| SelectionProperties.DwellValid | eye-tracking/UI_Version_2.py:562-565 | a dwell, with its commit at the threshold, keeps the counter bound |
| SelectionProperties.SectorInputValid | eye-tracking/UI_Version_2.py:553-610 | every sector input keeps every counter present and in 0..3 |
| SelectionProperties.MainSectorValid | eye-tracking/UI_Version_2.py:557-573 | MAIN sector input keeps the counter bound |
| SelectionProperties.LetterSectorValid | UI.kt:468-482 | letter-panel sector input keeps the counter bound, also in the no-dwell engine |
| SelectionProperties.LetterDwellValid | eye-tracking/UI_Version_2.py:575-594 | letter dwells and their commits keep the counter bound |
| SelectionProperties.NumSectorValid | eye-tracking/UI_Version_2.py:596-610 | NUM sector input keeps the counter bound |
| SelectionProperties.ButtonInputValid | eye-tracking/UI_Version_2.py:612-676 | every button keeps the counter bound |
| SelectionProperties.ProcessCommandValid | eye-tracking/UI_Version_2.py:74 | between labels every counter lies in [0, SELECTION_THRESHOLD - 1], in every engine |
| SelectionProperties.RunValid | eye-tracking/UI_Version_2.py:941-976 | a whole label stream keeps the counter bound |
| SelectionProperties.DimLowersFirstHighest | eye-tracking/UI_Version_2.py:678-717 | decay lowers only the first highest positive candidate of the panel, by one; it never touches text, panel or button counters, and does nothing when no candidate is positive |
| SelectionProperties.MainDwell | eye-tracking/UI_Version_2.py:557-570 | in MAIN a sector raises only its section's counter; the 4th dwell opens that section with every counter 0; the text never changes |
| SelectionProperties.RunFour | eye-tracking/UI_Version_2.py:941-976 | four identical sector labels are four sector inputs and speak nothing |
| SelectionProperties.FourDwellsEnterSection | kt_UI/AAC_Keyboard.kt:593-606 | from MAIN, four identical sector labels open that sector's section with every counter 0, in every engine |
| SelectionProperties.NumDwell | eye-tracking/UI_Version_2.py:596-610 | in NUM a sector raises its digit's counter; the 4th dwell appends the digit, resets every counter and stays in NUM |
| SelectionProperties.LetterMatchRing | kt_UI/UI.kt:702-750 | in kt_UI/UI.kt every sector selects a letter, with counter index i for the list read backwards; elsewhere RIGHT and TOP sectors select the listed letter and LEFT and BOTTOM sectors select nothing |
| SelectionProperties.LetterDwell | eye-tracking/UI_Version_2.py:575-594 | in a letter panel a selected letter's 4th dwell appends it, resets every counter and returns to MAIN; below that only its counter rises; an unselected sector decays |
| SelectionProperties.FourDwellsTypeLetter | kt_UI/AAC_Keyboard.kt:618-632 | four identical labels on a letter's sector type that letter and return to MAIN |
| SelectionProperties.SimplifiedImmediateLetter | UI.kt:468-482 | in the root UI.kt a sector up to the letter count appends `letters[s-1]` at once, resets counters and returns to MAIN; a larger sector changes nothing |
| SelectionProperties.ButtonBelowThreshold | eye-tracking/UI_Version_2.py:612-676 | below the threshold a button only raises its own counter |
| SelectionProperties.DeleteConfirmInertInLetterPanels | eye-tracking/UI_Version_2.py:636-639 | DELETE and CONFIRM are complete no-ops in a letter panel, except in kt_UI/UI.kt |
| SelectionProperties.NumReturnCommit | kt_UI/UI.kt:775-791 | at the threshold NUM opens NUM and RETURN opens MAIN, each with every counter 0 and the text kept |
| SelectionProperties.DeleteCommit | eye-tracking/UI_Version_2.py:641-648 | at the threshold DELETE removes exactly the last character, or says "No" on an empty text; it keeps the panel and zeroes only its own counter (every counter in the root UI.kt) |
| SelectionProperties.ConfirmCommit | eye-tracking/UI_Version_2.py:657-663 | at the threshold CONFIRM speaks and clears a non-empty text, resets every counter and returns to MAIN; on an empty text it says "Yes", keeps panel and text and clears only CONFIRM's counter (every counter in the root UI.kt) |
| SelectionProperties.CenterCommit | eye-tracking/UI_Version_2.py:667-674 | at the threshold CENTER appends "." in NUM and a space elsewhere, resets every counter and keeps the panel |
| SelectionProperties.ExitAndCalibrationInert | eye-tracking/UI_Version_2.py:946-954 | "exit" and the calibration words never touch counters, text or panel; only the Python engine quits |
| SelectionProperties.NoiseDecaysOnlyInPython | kt_UI/AAC_Keyboard.kt:578-583 | a non-integer label, or an integer outside 1..25, decays in the Python engine and changes nothing in the Kotlin engines |
| SelectionProperties.SimplifiedNeverDecays | UI.kt:442-484 | the root UI.kt never lowers a counter except by resetting all of them |
| SelectionProperties.SectorInputText | eye-tracking/UI_Version_2.py:553-610 | a ring sector keeps the text or appends exactly one character |
| SelectionProperties.ButtonInputText | eye-tracking/UI_Version_2.py:612-676 | a button keeps the text, appends one character, drops the last one, or speaks and clears it; only "No", "Yes" and the whole text are ever spoken |
| SelectionProperties.TextEdits | eye-tracking/UI_Version_2.py:941-976 | every label edits the text in exactly one of those four ways |
| SelectionProperties.CenterCircleTextIsTail | eye-tracking/UI_Version_2.py:273-285 | the centre circle shows "." in NUM; elsewhere it shows the last min(len, MAX_DISPLAY_CHARS) characters of the text (6 in kt_UI/UI.kt, 7 elsewhere) |
| SelectionProperties.DeadPanelsAsWritten | eye-tracking/UI_Version_2.py:575-594 | in LEFT and BOTTOM every sector of the Python engine and AAC_Keyboard.kt decays and never commits |
| SelectionProperties.TextOverGrown | eye-tracking/UI_Version_2.py:871-910 | appending a listed character keeps the text within the listed alphabet |
| SelectionProperties.ListedAlphabetSector | eye-tracking/UI_Version_2.py:575-610 | a sector of those engines appends only a RIGHT or TOP letter or a digit |
| SelectionProperties.ButtonListed | eye-tracking/UI_Version_2.py:612-676 | a button appends only a space or ".", or drops or clears text |
| SelectionProperties.ListedAlphabetStep | eye-tracking/UI_Version_2.py:941-976 | one label keeps the text within the RIGHT and TOP letters, the digits, space and "." |
| SelectionProperties.ListedAlphabetRun | eye-tracking/UI_Version_2.py:941-976 | so does every label stream |
| SelectionProperties.LeftBottomNeverTypedAsWritten | eye-tracking/UI_Version_2.py:121-133 | from start-up, no label stream of those engines ever puts a LEFT or BOTTOM letter into the text |
| SelectionProperties.LeftBottomNotListed | eye-tracking/UI_Version_2.py:68-71 | no LEFT or BOTTOM letter is in the listed alphabet |
| SelectionProperties.EveryLetterTypeable | kt_UI/UI.kt:702-750 | with the range tables every letter of every section is typed by four dwells on some sector |
| CommandKeyboard.ParseCommand | UI_Version_2.py:361-400 | a parsed letter command always has a letter index a..g |
| CommandKeyboard.LegacyKeyboard.constructor | UI_Version_2.py:52-62 | a new keyboard is in MAIN with empty text and four zero section counters |
| CommandKeyboard.LegacyKeyboard.SelectOption | UI_Version_2.py:286-302 | the 4th dwell zeroes only that section's counter and opens it; a lower dwell shows MAIN |
| CommandKeyboard.LegacyKeyboard.ReturnToMain | UI_Version_2.py:324-329 | the loop zeroes all four section counters and shows MAIN |
| CommandKeyboard.LegacyKeyboard.ProcessCommand | UI_Version_2.py:361-400 | the object's command handling produces exactly the step function's state and events |
| CommandProperties.ParseFormatRoundTrip | UI_Version_2.py:363-398 | every command's canonical spelling parses back to that command |
| CommandProperties.LetterCommandIff | UI_Version_2.py:388-390 | a string is a letter command exactly when it matches `^[1-4][a-g]$`, and its first two characters spell it |
| CommandProperties.ExitIff | UI_Version_2.py:363-365 | "exit" in any letter case is the exit command; from any state it quits and changes nothing else, and a command emits Quit exactly when it is "exit" |
| CommandProperties.LegacyInitialValid | UI_Version_2.py:57-62 | the four section counters start present and at 0 |
| CommandProperties.LegacyStepValid | UI_Version_2.py:290-294 | every command keeps the section counters in 0..3, so the highlight lookup is defined |
| CommandProperties.SectionDwell | UI_Version_2.py:286-299 | a section dwell never touches the text; the 4th zeroes only its counter and opens the section; below that the panel becomes MAIN, even from a section |
| CommandProperties.LegacyTextEdits | UI_Version_2.py:304-335 | the text only grows by one letter of the open section, shrinks by one, or is spoken and cleared; no digit or space is ever appended |
| CommandProperties.TypeLetterFromStart | UI_Version_2.py:368-398 | from start-up, any section's digit four times then that section's letter command types that letter, returns to MAIN and speaks nothing |
| Angles.ModDegrees | eye-tracking/real/gaze_tracking/trained_models/region_classifier.py:46 | Python's `% 360` on a float lies in [0, 360) and differs from its input by a multiple of 360 |
| Angles.NormalisedAngleFixed | eye-tracking/real/gaze_tracking/trained_models/region_classifier.py:46 | an angle already in [0, 360) is unchanged |
| Angles.NegativeAngleWraps | eye-tracking/real/gaze_tracking/trained_models/region_classifier.py:46 | a negative atan2 angle wraps to itself plus 360 |
| RegionProperties.BoundsIncrease | eye-tracking/real/gaze_tracking/trained_models/region_classifier.py:47-86 | the 21 bucket bounds rise strictly from 0 to 360 |
| RegionProperties.SectorOfAngleIsBucket | eye-tracking/real/gaze_tracking/trained_models/region_classifier.py:47-86 | every angle in [0, 360) gets a sector k with bounds[k-1] <= angle < bounds[k] |
| RegionProperties.SectorBucketUnique | eye-tracking/real/gaze_tracking/trained_models/region_classifier.py:47-86 | an angle in bucket k gets exactly sector k, so a boundary angle goes to the later bucket |
| RegionProperties.Ordered | eye-tracking/real/gaze_tracking/trained_models/region_classifier.py:47-86 | bounds never decrease |
| RegionProperties.ClassifyPointRegions | eye-tracking/real/gaze_tracking/trained_models/region_classifier.py:33-98 | distance ≤ 0.25 gives "25"; distance in (0.25, 0.47] gives one of "1".."20"; beyond that a corner "21".."24", or "outside" exactly when x or y is 0.5 |
| RegionProperties.CornerRegions | eye-tracking/real/gaze_tracking/trained_models/region_classifier.py:88-96 | beyond the ring: upper-left "23", upper-right "24", lower-left "21", lower-right "22" |
| RegionProperties.EverySectorReached | eye-tracking/real/gaze_tracking/trained_models/region_classifier.py:47-86 | every sector 1..20 is chosen by the angle at its lower bound |
| RegionProperties.AxisSectors | eye-tracking/real/gaze_tracking/trained_models/region_classifier.py:44-86 | on the ring, the +x, +y, -x and -y axes fall in sectors 1, 5, 11 and 16 |
| RegionProperties.EveryRegionNamed | eye-tracking/real/gaze_tracking/trained_models/region_classifier.py:100-102 | every classification has its table name; only "outside" is "unknown" |
| Calibration.Clamp01 | eye-tracking/calibration.py:90-92 | the clamp lies in [0, 1], fixes values already there, and sends values below to 0 and above to 1 |
| Calibration.Captured | eye-tracking/calibration.py:61-66 | after n samples the corners are exactly the first n labels, each bound to its own sample |
| Calibration.Calibrator.constructor | eye-tracking/calibration.py:50-57 | the corners start as those loaded from the saved calibration |
| Calibration.Calibrator.Calibrate | eye-tracking/calibration.py:59-71 | the loop replaces the corners with one sample per label, in label order; it completes, and the data is saved, exactly when four samples arrive |
| CalibrationProperties.TransformErrors | eye-tracking/calibration.py:73-88 | the transform fails exactly when it should: ValueError unless there are 4 corners; KeyError when a label is missing; ZeroDivisionError on a zero-width span; otherwise it succeeds |
| CalibrationProperties.TransformInUnitSquare | eye-tracking/calibration.py:90-94 | a calibrated point always lies in the unit square |
| CalibrationProperties.TransformValue | eye-tracking/calibration.py:77-94 | the result is the clamped rescaling of x against the mean left and right edges, and of y, flipped, against the mean top and bottom edges |
| CalibrationProperties.TransformAffineInside | eye-tracking/calibration.py:82-88 | inside the span x is affine (min_x→0, max_x→1) and y is inverted (min_y→1, max_y→0) |
| CalibrationProperties.ClampRescale | eye-tracking/calibration.py:87-92 | a rescaled value inside the span is not clamped |
| CalibrationProperties.ClampRescaleFlipped | eye-tracking/calibration.py:88-92 | the flipped rescaling inside the span is not clamped and equals (hi - v)/(hi - lo) |
| CalibrationProperties.CalibratedCornersMapToUnitCorners | eye-tracking/calibration.py:82-92 | the calibrated lower-left edge point maps to (0, 0) and the upper-right one to (1, 1) |
| CalibrationProperties.TransformMonotone | eye-tracking/calibration.py:87-92 | further right is never calibrated further left; further down in raw coordinates is never calibrated further up |
| CalibrationProperties.CapturedCompleteness | eye-tracking/calibration.py:61-75 | four samples make the transform's corner precondition hold, each corner its own sample; fewer leave the transform failing with ValueError |
| CalibrationProperties.CapturedSize | eye-tracking/calibration.py:61-66 | n samples give n corners |
| CalibrationProperties.NormalisedAtan2 | eye-tracking/calibration.py:26 | the normalised angle is in (0, 180) above the x axis and in (180, 360) below it |
| CalibrationProperties.RingUpsideDownAsWritten | eye-tracking/calibration.py:26-45 | as written, "top ring" is only returned with y < 0.5, yet the "top" corners only with y > 0.5 (and the same for "bottom") |
| CalibrationProperties.RingUpsideDownWitness | eye-tracking/calibration.py:26-45 | as written, (0.45, 0.7) is "bottom ring" while (0.45, 0.9), straight beyond it, is "top-left (NUM)" |
| CalibrationProperties.UprightOrientationConsistent | eye-tracking/calibration.py:10-47 | with the ring angle taken with y up, every "top" area lies above the centre and every "bottom" area below it |
| CalibrationProperties.UprightRingQuarters | eye-tracking/calibration.py:26-34 | with y up, the ring quarters are the four 90-degree wedges around the axes |
| LineFraming.NewlineFrom | eye-tracking/UI_Version_2.py:42 | the search returns -1 or the position of a line feed at or after its start |
| LineFraming.IndexOfNewline | eye-tracking/UI_Version_2.py:42-43 | the search returns -1 or the position of a line feed |
| LineFraming.NewlineFromFirst | eye-tracking/UI_Version_2.py:42-43 | the search succeeds exactly when a line feed follows the start, and nothing before its answer is a line feed |
| LineFraming.IndexOfNewlineFirst | eye-tracking/UI_Version_2.py:42-43 | `split('\n', 1)` cuts at the first line feed, which exists exactly when `'\n' in buffer` |
| LineFraming.IndexOfNewlineAt | eye-tracking/UI_Version_2.py:42-43 | a line feed with none before it is the one found |
| LineFraming.IndexOfNewlineAppend | eye-tracking/UI_Version_2.py:41-43 | appending data does not move a line feed already in the buffer |
| LineFraming.StripAll | eye-tracking/UI_Version_2.py:44 | stripping keeps one message per line |
| LineFraming.LinesStep | eye-tracking/UI_Version_2.py:41-43 | cutting the buffer's first line before or after appending data gives the same lines and tail |
| LineFraming.LinesAppend | eye-tracking/UI_Version_2.py:41-47 | framing over concatenation: the lines of a + b are the lines of a followed by the lines of a's unfinished tail continued by b, and the tail of a + b is the tail of that continuation |
| LineFraming.StripAllAppend | eye-tracking/UI_Version_2.py:44 | stripping distributes over concatenated line lists |
| LineFraming.DrainLines | eye-tracking/UI_Version_2.py:42-47 | the inner loop hands on the stripped complete lines in order and keeps exactly the tail after the last line feed, which holds none |
| LineFraming.HandleClient | eye-tracking/UI_Version_2.py:32-47 | the messages handed on are the stripped complete lines of everything received before the peer closed, in order; the buffer keeps the unfinished tail |
| LineFramingProperties.FramingRoundTrip | eye-tracking/UI_Version_2.py:42-43 | the lines, each with its line feed back, then the tail, rebuild the received data |
| LineFramingProperties.FramesHaveNoNewline | eye-tracking/UI_Version_2.py:42-43 | no handed-on line and no tail holds a line feed |
| LineFramingProperties.FramingOfJoin | eye-tracking/UI_Version_2.py:42-43 | the converse: lines without line feeds, each sent with one, then a tail, are framed back exactly |
| LineFramingProperties.ReceivedIsPrefixConcat | eye-tracking/UI_Version_2.py:37-40 | nothing after the first empty chunk (a closed connection) is received |
| LineFramingProperties.ChunkingIndependent | eye-tracking/UI_Version_2.py:37-41 | splitting a chunk in two does not change what is received, so the messages do not depend on the chunking |
| LineFramingProperties.StripSpec | eye-tracking/UI_Version_2.py:44 | `strip()` returns a slice of the line with no white space at either end |
| LineFramingProperties.TrimLeftSpec | eye-tracking/UI_Version_2.py:44 | the left trim removes exactly the leading white space |
| LineFramingProperties.TrimRightSpec | eye-tracking/UI_Version_2.py:44 | the right trim removes exactly the trailing white space |

## Left out

- Drawing, colours and layout are left out: the tkinter and Android canvas code, character positions and highlight colours. Only the panel change they perform is kept.
- Speech output (gTTS, pygame, Android TextToSpeech) becomes a `Speak` event, and `root.quit()` a `Quit` event.
- SelectionEngine.ConfirmText: speech is taken to succeed. In eye-tracking/UI_Version_2.py:915 `self.tts` needs the network (gTTS, lines 982-983) and can raise before the text is cleared, the counters reset and the panel set to MAIN (lines 916-922); `process_command` swallows the exception (lines 975-976). A failed CONFIRM then leaves text, the other counters and the panel unchanged, with CONFIRM's counter already 0 (line 659). The model always clears.
- KeyboardView.Keyboard.ConfirmText: the same holds for the class method, which always clears a non-empty text.
- CommandKeyboard.LegacyStep: speech is taken to succeed on CONFIRM. In UI_Version_2.py:312-316 `confirm_text` calls `self.tts` before it clears the text and shows MAIN; gTTS needs the network and can raise (lines 407-408), and `process_command` (lines 361-400) has no handler, so the callback scheduled at line 354 stops with text and panel unchanged. The model always speaks, clears the text and returns to MAIN.
- CommandKeyboard.LegacyKeyboard.ProcessCommand: the same failed-speech path is not modelled; the class method always clears a non-empty text and shows MAIN on CONFIRM.
- Sockets, threads and coroutines are left out: the server thread, kt_UI/RegionReceiver.kt, the receiver class in the root UI.kt, and the terminal `command_listener`. Of the socket code, only the buffer loop of `handle_client` is modelled.
- LineFraming.HandleClient: chunks arrive already decoded. A UTF-8 character split across two chunks is not modelled, and neither is the exception branch that ends the loop on a receive error.
- Parsing of integers (`int(cmd)`, `toIntOrNull`) and lower-casing of calibration words happen before the engine: a label reaches it as a `Token`.
- CommandKeyboard.IsExit: lower-casing is ASCII only. Python's `str.lower` also folds non-ASCII letters, which cannot spell "exit".
- The calibration words' display cue (`show_calibration_point`, `showLightPoint`) and its timer are left out. The model keeps only that these words leave the engine unchanged.
- JSON loading and saving, the file check and the `input()` prompts of calibration are left out. The constructor takes the saved corners as a parameter, and `Calibrate` takes the gaze samples as a sequence.
- `math.atan2` and `math.hypot` are not computed. The angle is a function parameter constrained by its sign facts, and distances are compared squared. Floating-point rounding is not modelled: coordinates are exact reals.
- The vision, mouse-control, least-squares calibration, Raspberry Pi, demo and front-end files are not part of this model.

## Findings

| source | as written | input that shows it | evidently intended | confidence | as-written member | corrected member |
|---|---|---|---|---|---|---|
| eye-tracking/UI_Version_2.py:121-133 (also kt_UI/AAC_Keyboard.kt:97-108) | the per-letter sector lists cover only the RIGHT and TOP letters, so in the LEFT and BOTTOM panels every sector decays | label "8" four times opens LEFT; every ring-sector label there only decays, so no label stream from start-up ever types "c" | every letter of every section reachable by dwelling on its sector, as the explicit range tables of kt_UI/UI.kt do | not executed | SelectionProperties.LeftBottomNeverTypedAsWritten | SelectionProperties.EveryLetterTypeable |
| eye-tracking/calibration.py:26 | the ring angle is `atan2(-dy, dx)`, y pointing down, while the corner labels take y pointing up | (0.45, 0.7) is "bottom ring" but (0.45, 0.9), further out in the same direction, is "top-left (NUM)" | the ring measured with the same vertical orientation as the corners | not executed | CalibrationProperties.RingUpsideDownWitness | CalibrationProperties.UprightOrientationConsistent |
