/**
 * Properties of the static sector tables: which of them partition the
 * ring sectors 1..20, and what the lookups return.
 */
module TableProperties {
  import opened Wrappers
  import opened KeyboardTables

  /** The search returns the key of the first row holding x, and None exactly when no row holds it. */
  lemma {:induction false} FirstMatchFromSpec<K>(table: seq<(K, seq<int>)>, i: nat, x: int)
    requires i <= |table|
    ensures FirstMatchFrom(table, i, x).None? <==> forall j :: i <= j < |table| ==> x !in table[j].1
    ensures FirstMatchFrom(table, i, x).Some? ==>
              exists j :: i <= j < |table| && x in table[j].1 && FirstMatchFrom(table, i, x).value == table[j].0
                          && forall j' :: i <= j' < j ==> x !in table[j'].1
    decreases |table| - i
  {
    if i < |table| && x !in table[i].1 {
      FirstMatchFromSpec(table, i + 1, x);
    }
  }

  /** Reference layout of the MAIN ring: TOP 3-7, LEFT 8-13, BOTTOM 14-18, RIGHT 19, 20, 1, 2. */
  function MainSectionOf(n: int): Section
  {
    if 3 <= n <= 7 then Top else if 8 <= n <= 13 then Left else if 14 <= n <= 18 then Bottom else Right
  }

  /** Reference layout of the NUM ring: 1 | 2-4 | 5-6 | ... | 17-19 | 20. */
  function NumDigitOf(n: int): char
  {
    if n == 1 then '1' else if n <= 4 then '2' else if n <= 6 then '3' else if n <= 8 then '4'
    else if n <= 10 then '5' else if n <= 12 then '6' else if n <= 14 then '7' else if n <= 16 then '8'
    else if n <= 19 then '9' else '0'
  }

  /** The search stops at row j when j is the first row from i that holds x. */
  lemma {:induction false} FirstMatchFromAt<K>(table: seq<(K, seq<int>)>, i: nat, j: nat, x: int)
    requires i <= j < |table| && x in table[j].1
    requires forall j' :: i <= j' < j ==> x !in table[j'].1
    ensures FirstMatchFrom(table, i, x) == Some(table[j].0)
    decreases j - i
  {
    if i < j {
      FirstMatchFromAt(table, i + 1, j, x);
    }
  }

  /** Each sector listed in the MAIN table is a ring sector listed under its reference section. */
  lemma MainTableRows()
    ensures forall i, n :: 0 <= i < |MainTable| && n in MainTable[i].1 ==>
              1 <= n <= 20 && MainTable[i].0 == MainSectionOf(n)
  {
    forall i, n | 0 <= i < |MainTable| && n in MainTable[i].1
      ensures 1 <= n <= 20 && MainTable[i].0 == MainSectionOf(n)
    {
      assert i == 0 || i == 1 || i == 2 || i == 3;
    }
  }

  /** The MAIN search maps every ring sector to its reference section, so its decay branch is unreachable. */
  lemma MainLookupRing(n: int)
    requires 1 <= n <= 20
    ensures MainLookup(n) == Some(MainSectionOf(n))
  {
    var j := if 3 <= n <= 7 then 0 else if 8 <= n <= 13 then 1 else if 14 <= n <= 18 then 2 else 3;
    forall j' | 0 <= j' < j
      ensures n !in MainTable[j'].1
    {
      assert 0 <= j' < 3;
    }
    FirstMatchFromAt(MainTable, 0, j, n);
  }

  /** Each sector listed in the NUM table is a ring sector listed under its reference digit. */
  lemma NumTableRows()
    ensures forall i, n :: 0 <= i < |NumTable| && n in NumTable[i].1 ==>
              1 <= n <= 20 && NumTable[i].0 == NumDigitOf(n)
  {
    forall i, n | 0 <= i < |NumTable| && n in NumTable[i].1
      ensures 1 <= n <= 20 && NumTable[i].0 == NumDigitOf(n)
    {
      assert 0 <= i < 10;
    }
  }

  /** The NUM search maps every ring sector to its reference digit. */
  lemma NumLookupRing(n: int)
    requires 1 <= n <= 20
    ensures NumLookup(n) == Some(NumDigitOf(n)) && NumDigitOf(n) in Digits
  {
    var j := if n == 1 then 0 else if n <= 4 then 1 else if n <= 6 then 2 else if n <= 8 then 3
             else if n <= 10 then 4 else if n <= 12 then 5 else if n <= 14 then 6 else if n <= 16 then 7
             else if n <= 19 then 8 else 9;
    forall j' | 0 <= j' < j
      ensures n !in NumTable[j'].1
    {
      assert 0 <= j' < 9;
    }
    FirstMatchFromAt(NumTable, 0, j, n);
  }

  lemma {:induction false} CharTableMatchFromNone(chars: string, i: nat, sector: int)
    requires forall j :: i <= j < |chars| ==> chars[j] !in CharTable
    ensures CharTableMatchFrom(chars, i, sector) == None
    decreases |chars| - i
  {
    if i < |chars| {
      CharTableMatchFromNone(chars, i + 1, sector);
    }
  }

  /** The letter search stops at index j when j is the first letter from i whose entry holds the sector. */
  lemma {:induction false} CharTableMatchFromAt(chars: string, i: nat, j: nat, sector: int)
    requires i <= j < |chars| && chars[j] in CharTable && sector in CharTable[chars[j]]
    requires forall j' :: i <= j' < j ==> !(chars[j'] in CharTable && sector in CharTable[chars[j']])
    ensures CharTableMatchFrom(chars, i, sector) == Some(j)
    decreases j - i
  {
    if i < j {
      CharTableMatchFromAt(chars, i + 1, j, sector);
    }
  }

  /** No letter of LEFT or BOTTOM has a CharTable entry, so these panels never match a sector. */
  lemma LeftBottomNeverMatch(s: Section, sector: int)
    requires s == Left || s == Bottom
    ensures CharTableMatch(s, sector) == None
  {
    CharTableMatchFromNone(Letters(s), 0, sector);
  }

  /** RIGHT: sectors 4k+1..4k+4 select the k-th vowel. */
  lemma RightMatchRing(sector: int)
    requires 1 <= sector <= 20
    ensures CharTableMatch(Right, sector) == Some((sector - 1) / 4)
  {
    var j := (sector - 1) / 4;
    forall j' | 0 <= j' < j
      ensures !(Letters(Right)[j'] in CharTable && sector in CharTable[Letters(Right)[j']])
    {
      assert 0 <= j' < 4;
    }
    CharTableMatchFromAt(Letters(Right), 0, j, sector);
  }

  /** TOP: s 1-3, t 4-6, n 7-9, r 10-11, d 12-15, l 16-17, h 18-20. */
  lemma TopMatchRing(sector: int)
    requires 1 <= sector <= 20
    ensures CharTableMatch(Top, sector) ==
              Some(if sector <= 3 then 0 else if sector <= 6 then 1 else if sector <= 9 then 2
                   else if sector <= 11 then 3 else if sector <= 15 then 4 else if sector <= 17 then 5 else 6)
  {
    var j := if sector <= 3 then 0 else if sector <= 6 then 1 else if sector <= 9 then 2
             else if sector <= 11 then 3 else if sector <= 15 then 4 else if sector <= 17 then 5 else 6;
    forall j' | 0 <= j' < j
      ensures !(Letters(Top)[j'] in CharTable && sector in CharTable[Letters(Top)[j']])
    {
      assert 0 <= j' < 6;
    }
    CharTableMatchFromAt(Letters(Top), 0, j, sector);
  }

  /** kt_UI/UI.kt's ranges: each section's rows are contiguous, start at 1, end at 20, and use indices 0, 1, ... in order. */
  ghost predicate RangesPartitionRing(rows: seq<RangeRow>)
  {
    && |rows| > 0
    && rows[0].lo == 1 && rows[|rows| - 1].hi == 20
    && (forall i :: 0 <= i < |rows| ==> rows[i].lo <= rows[i].hi && rows[i].index == i)
    && (forall i :: 0 <= i < |rows| - 1 ==> rows[i + 1].lo == rows[i].hi + 1)
  }

  lemma RangeTablesPartitionRing(s: Section)
    ensures RangesPartitionRing(RangeTable(s))
    ensures |RangeTable(s)| == |Letters(s)|
    ensures forall i :: 0 <= i < |RangeTable(s)| ==>
              RangeTable(s)[i].letter == Letters(s)[|Letters(s)| - 1 - i]
  {
    var rows, letters := RangeTable(s), Letters(s);
    assert |rows| == |letters| && |rows| > 0;
    forall i | 0 <= i < |rows|
      ensures rows[i].lo <= rows[i].hi && rows[i].index == i && rows[i].letter == letters[|letters| - 1 - i]
    {
      assert i < 7;
    }
    forall i | 0 <= i < |rows| - 1
      ensures rows[i + 1].lo == rows[i].hi + 1
    {
      assert i < 6;
    }
  }

  /** With contiguous ranges, every sector 1..20 finds the unique row whose range holds it. */
  lemma {:induction false} RangeMatchFromContiguous(rows: seq<RangeRow>, i: nat, sector: int)
    requires RangesPartitionRing(rows)
    requires i < |rows| && rows[i].lo <= sector <= 20
    ensures RangeMatchFrom(rows, i, sector).Some?
    ensures var r := RangeMatchFrom(rows, i, sector).value;
            r.lo <= sector <= r.hi && exists j :: i <= j < |rows| && rows[j] == r
    decreases |rows| - i
  {
    if sector > rows[i].hi {
      RangeMatchFromContiguous(rows, i + 1, sector);
    }
  }

  /**
   * In every secondary panel of kt_UI/UI.kt, every sector 1..20 selects
   * exactly one letter counter, and that counter's letter is the section's
   * letter list read backwards.
   */
  lemma RangeMatchRing(s: Section, sector: int)
    requires 1 <= sector <= 20
    ensures RangeMatch(RangeTable(s), sector).Some?
    ensures var r := RangeMatch(RangeTable(s), sector).value;
            r.lo <= sector <= r.hi && r.index < |Letters(s)|
            && r.letter == Letters(s)[|Letters(s)| - 1 - r.index]
  {
    RangeTablesPartitionRing(s);
    RangeMatchFromContiguous(RangeTable(s), 0, sector);
  }

  /** Every letter of every section can be committed in kt_UI/UI.kt: some sector selects its row. */
  lemma RangeTablesReachEveryLetter(s: Section, k: nat)
    requires k < |Letters(s)|
    ensures var row := RangeTable(s)[|Letters(s)| - 1 - k];
            RangeMatch(RangeTable(s), row.lo) == Some(row) && row.letter == Letters(s)[k]
  {
    RangeTablesPartitionRing(s);
    var rows := RangeTable(s);
    var i := |Letters(s)| - 1 - k;
    RangeMatchNoEarlier(rows, 0, i);
  }

  lemma {:induction false} RangeMatchNoEarlier(rows: seq<RangeRow>, from: nat, i: nat)
    requires RangesPartitionRing(rows)
    requires from <= i < |rows|
    ensures RangeMatchFrom(rows, from, rows[i].lo) == Some(rows[i])
    decreases i - from
  {
    if from < i {
      RowsIncreasing(rows, from, i);
      RangeMatchNoEarlier(rows, from + 1, i);
    }
  }

  lemma {:induction false} RowsIncreasing(rows: seq<RangeRow>, j: nat, i: nat)
    requires RangesPartitionRing(rows)
    requires j < i < |rows|
    ensures rows[j].hi < rows[i].lo
    decreases i - j
  {
    if j + 1 < i {
      RowsIncreasing(rows, j + 1, i);
    }
  }

  /** Every row of a partition of the ring lies within sectors 1..20. */
  lemma RowsWithinRing(rows: seq<RangeRow>, i: nat)
    requires RangesPartitionRing(rows) && i < |rows|
    ensures 1 <= rows[i].lo <= rows[i].hi <= 20
  {
    if 0 < i {
      RowsIncreasing(rows, 0, i);
    }
    if i < |rows| - 1 {
      RowsIncreasing(rows, i, |rows| - 1);
    }
  }
}
