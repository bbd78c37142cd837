/**
 * The static configuration of the gaze keyboard: the four letter sections,
 * the panels, the dwell-counter keys and the sector tables that map a ring
 * sector (1..20) to a candidate in each panel.
 */
module KeyboardTables {
  import opened Wrappers

  /** Number of identical labels needed to commit a candidate (SELECTION_THRESHOLD). */
  const Threshold: int := 4

  datatype Section = Top | Right | Bottom | Left

  /** The panel currently shown: MAIN, one of the four letter sections, or NUM. */
  datatype Panel = Main | Secondary(section: Section) | Num

  /** The corner and centre buttons, codes 21..25. */
  datatype Button = NumButton | ReturnButton | DeleteButton | ConfirmButton | CenterButton

  /**
   * A dwell-counter key: a MAIN section, a button, the i-th letter of a
   * section (the "RIGHT_0" style keys), or a digit (the "NUM_7" style keys).
   */
  datatype Key =
    | SectionKey(section: Section)
    | ButtonKey(button: Button)
    | LetterKey(of: Section, index: nat)
    | DigitKey(digit: char)

  /** The letters of each section, in the order of the RIGHT/TOP/LEFT/BOTTOM lists. */
  function Letters(s: Section): string
  {
    match s
    case Right => "aeiou"
    case Top => "stnrdlh"
    case Left => "cwmgypf"
    case Bottom => "jbqkvzx"
  }

  /** The NUM panel's digits in the order its counters are scanned. */
  const Digits: string := "1234567890"

  const Sections: seq<Section> := [Top, Right, Bottom, Left]
  const Buttons: seq<Button> := [NumButton, ReturnButton, DeleteButton, ConfirmButton, CenterButton]

  /** Every key the engine creates at start-up. */
  function AllKeys(): set<Key>
  {
    (set s | s in Sections :: SectionKey(s))
    + (set b | b in Buttons :: ButtonKey(b))
    + (set s, i | s in Sections && 0 <= i < |Letters(s)| :: LetterKey(s, i))
    + (set d | d in Digits :: DigitKey(d))
  }

  /** The candidates of a panel, in the order the decay loop scans them. */
  function Candidates(p: Panel): (cs: seq<Key>)
    ensures forall k :: k in cs ==> k in AllKeys()
  {
    match p
    case Main => [SectionKey(Top), SectionKey(Right), SectionKey(Bottom), SectionKey(Left)]
    case Secondary(s) => seq(|Letters(s)|, i requires 0 <= i < |Letters(s)| => LetterKey(s, i))
    case Num => seq(|Digits|, i requires 0 <= i < |Digits| => DigitKey(Digits[i]))
  }

  /** MAIN panel: which sectors select which section. */
  const MainTable: seq<(Section, seq<int>)> := [
    (Top, [3, 4, 5, 6, 7]),
    (Left, [8, 9, 10, 11, 12, 13]),
    (Bottom, [14, 15, 16, 17, 18]),
    (Right, [19, 20, 1, 2])
  ]

  /** NUM panel: which sectors select which digit. */
  const NumTable: seq<(char, seq<int>)> := [
    ('1', [1]), ('2', [2, 3, 4]), ('3', [5, 6]), ('4', [7, 8]), ('5', [9, 10]),
    ('6', [11, 12]), ('7', [13, 14]), ('8', [15, 16]), ('9', [17, 18, 19]), ('0', [20])
  ]

  /**
   * The per-letter sector lists of the Python engine and of
   * kt_UI/AAC_Keyboard.kt: only the RIGHT and TOP letters have an entry.
   */
  const CharTable: map<char, seq<int>> := map[
    'a' := [1, 2, 3, 4], 'e' := [5, 6, 7, 8], 'i' := [9, 10, 11, 12],
    'o' := [13, 14, 15, 16], 'u' := [17, 18, 19, 20],
    's' := [1, 2, 3], 't' := [4, 5, 6], 'n' := [7, 8, 9], 'r' := [10, 11],
    'd' := [12, 13, 14, 15], 'l' := [16, 17], 'h' := [18, 19, 20]
  ]

  /** One row of kt_UI/UI.kt's explicit secondary tables: sectors lo..hi select letter `letter` under counter `index`. */
  datatype RangeRow = RangeRow(lo: int, hi: int, index: nat, letter: char)

  function RangeTable(s: Section): seq<RangeRow>
  {
    match s
    case Right => [RangeRow(1, 4, 0, 'u'), RangeRow(5, 8, 1, 'o'), RangeRow(9, 12, 2, 'i'),
                   RangeRow(13, 16, 3, 'e'), RangeRow(17, 20, 4, 'a')]
    case Top => [RangeRow(1, 3, 0, 'h'), RangeRow(4, 6, 1, 'l'), RangeRow(7, 9, 2, 'd'),
                 RangeRow(10, 11, 3, 'r'), RangeRow(12, 15, 4, 'n'), RangeRow(16, 17, 5, 't'),
                 RangeRow(18, 20, 6, 's')]
    case Left => [RangeRow(1, 3, 0, 'f'), RangeRow(4, 6, 1, 'p'), RangeRow(7, 9, 2, 'y'),
                  RangeRow(10, 12, 3, 'g'), RangeRow(13, 15, 4, 'm'), RangeRow(16, 18, 5, 'w'),
                  RangeRow(19, 20, 6, 'c')]
    case Bottom => [RangeRow(1, 3, 0, 'x'), RangeRow(4, 6, 1, 'z'), RangeRow(7, 9, 2, 'v'),
                    RangeRow(10, 12, 3, 'k'), RangeRow(13, 15, 4, 'q'), RangeRow(16, 18, 5, 'b'),
                    RangeRow(19, 20, 6, 'j')]
  }

  /** The first table entry whose sector list contains x (the `for ... if sector in sectors` search). */
  function FirstMatch<K>(table: seq<(K, seq<int>)>, x: int): Option<K>
  {
    FirstMatchFrom(table, 0, x)
  }

  function FirstMatchFrom<K>(table: seq<(K, seq<int>)>, i: nat, x: int): Option<K>
    decreases |table| - i
  {
    if i >= |table| then None
    else if x in table[i].1 then Some(table[i].0)
    else FirstMatchFrom(table, i + 1, x)
  }

  /** The first letter of section s whose CharTable entry contains the sector, with its index. */
  function CharTableMatch(s: Section, sector: int): (r: Option<nat>)
    ensures r.Some? ==> r.value < |Letters(s)| && Letters(s)[r.value] in CharTable
                        && sector in CharTable[Letters(s)[r.value]]
  {
    CharTableMatchFrom(Letters(s), 0, sector)
  }

  function CharTableMatchFrom(chars: string, i: nat, sector: int): (r: Option<nat>)
    ensures r.Some? ==> i <= r.value < |chars| && chars[r.value] in CharTable && sector in CharTable[chars[r.value]]
    decreases |chars| - i
  {
    if i >= |chars| then None
    else if chars[i] in CharTable && sector in CharTable[chars[i]] then Some(i)
    else CharTableMatchFrom(chars, i + 1, sector)
  }

  /** The row of kt_UI/UI.kt's range table for section s whose range holds the sector. */
  function RangeMatch(rows: seq<RangeRow>, sector: int): (r: Option<RangeRow>)
    ensures r.Some? ==> r.value in rows && r.value.lo <= sector <= r.value.hi
  {
    RangeMatchFrom(rows, 0, sector)
  }

  function RangeMatchFrom(rows: seq<RangeRow>, i: nat, sector: int): (r: Option<RangeRow>)
    ensures r.Some? ==> r.value in rows && r.value.lo <= sector <= r.value.hi
    decreases |rows| - i
  {
    if i >= |rows| then None
    else if rows[i].lo <= sector <= rows[i].hi then Some(rows[i])
    else RangeMatchFrom(rows, i + 1, sector)
  }

  /** The section MAIN sector `sector` belongs to, or None when no list has it. */
  function MainLookup(sector: int): Option<Section>
  {
    FirstMatch(MainTable, sector)
  }

  /** The digit NUM sector `sector` selects, or None when no list has it. */
  function NumLookup(sector: int): Option<char>
  {
    FirstMatch(NumTable, sector)
  }
}
