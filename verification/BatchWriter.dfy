/**
 The Sheets batch compiler: a ragged table of formula and literal cells becomes a list of
 rectangular range updates, each RAW or USER_ENTERED.
 */
module BatchWriter {
  import opened A1Notation
  import opened Numbers
  import opened Options

  /** A cell value: a string, or any other value the API accepts. */
  datatype Val = Str(text: string) | Other(id: int)

  datatype TableCell = TableCell(raw: Val, isFormula: bool)

  type Row = seq<TableCell>

  datatype Table = Table(headers: seq<string>, rows: seq<Row>)

  datatype InputOption = RAW | USER_ENTERED

  datatype Batch = Batch(range: string, option: InputOption, values: seq<seq<Val>>)

  // ---------------------------------------------------- what a list of batches writes

  /** The first cell of the range a batch names. */
  function Anchor(b: Batch): Option<(string, nat, nat)> {
    match ReadRange(b.range)
    case None => None
    case Some(Cell(title, c, r)) => Some((title, c, r))
    case Some(Box(title, c, r, _, _)) => Some((title, c, r))
  }

  /** The batch has a value for column `c` of row `r`: values are laid out from its first cell. */
  predicate Hit(b: Batch, r: int, c: int) {
    match Anchor(b)
    case None => false
    case Some((_, c0, r0)) => 0 <= r - r0 < |b.values| && 0 <= c - c0 < |b.values[r - r0]|
  }

  datatype Write = Write(value: Val, option: InputOption)

  function WriteAt(b: Batch, r: int, c: int): Write
    requires Hit(b, r, c)
  {
    hide ReadRange;
    var (_, c0, r0) := Anchor(b).value;
    Write(b.values[r - r0][c - c0], b.option)
  }

  /** How many batches write a position. */
  function Hits(bs: seq<Batch>, r: int, c: int): nat {
    if bs == [] then 0
    else Hits(bs[..|bs| - 1], r, c) + (if Hit(bs[|bs| - 1], r, c) then 1 else 0)
  }

  /** A position of an empty grid after the batches were applied in order. */
  function CellAfter(bs: seq<Batch>, r: int, c: int): Option<Write> {
    if bs == [] then None
    else if Hit(bs[|bs| - 1], r, c) then Some(WriteAt(bs[|bs| - 1], r, c))
    else CellAfter(bs[..|bs| - 1], r, c)
  }

  /** The batch names a box of this sheet, and its values have exactly the box's dimensions. */
  predicate Fits(b: Batch, title: string) {
    match ReadRange(b.range)
    case Some(Box(t, c0, r0, c1, r1)) =>
      && t == title && c0 <= c1 && 1 <= r0 <= r1
      && |b.values| == r1 - r0 + 1
      && forall i :: 0 <= i < |b.values| ==> |b.values[i]| == c1 - c0 + 1
    case _ => false
  }

  // ------------------------------------------------------------- what a table asks for

  predicate IsFormulaAt(row: Row, c: nat) {
    c < |row| && row[c].isFormula
  }

  function ValueAt(row: Row, c: nat): Val {
    if c < |row| then row[c].raw else Str("")
  }

  /** The sheet row of the first data row. */
  function FirstDataRow(t: Table): nat {
    if |t.headers| > 0 then 2 else 1
  }

  predicate IsHeader(t: Table, r: int, c: int) {
    r == 1 && 0 <= c < |t.headers|
  }

  predicate IsData(t: Table, cols: nat, r: int, c: int) {
    0 <= r - FirstDataRow(t) < |t.rows| && 0 <= c < cols
  }

  function DataRow(t: Table, r: int): Row
    requires 0 <= r - FirstDataRow(t) < |t.rows|
  {
    t.rows[r - FirstDataRow(t)]
  }

  predicate HasFormula(t: Table) {
    exists i, c :: 0 <= i < |t.rows| && 0 <= c < |t.rows[i]| && t.rows[i][c].isFormula
  }

  predicate IsWidth(t: Table, cols: nat) {
    && |t.headers| <= cols && (forall i :: 0 <= i < |t.rows| ==> |t.rows[i]| <= cols)
    && (|t.headers| == cols || exists i :: 0 <= i < |t.rows| && |t.rows[i]| == cols)
  }

  /** A data position gets its raw value, or "" where its row is too short for it, and a cell
      that is present is written USER_ENTERED exactly when it is a formula. */
  predicate DataWritten(w: Write, row: Row, c: nat) {
    && w.value == ValueAt(row, c)
    && (c < |row| ==> (w.option == USER_ENTERED <==> row[c].isFormula))
  }

  /** The header (when `h`), every data row of the columns `lo..done`, and the first `part`
      data rows of column `done`. */
  predicate Area(t: Table, h: bool, lo: nat, done: nat, part: nat, r: int, c: int) {
    || (h && IsHeader(t, r, c))
    || (0 <= r - FirstDataRow(t) < |t.rows| && (lo <= c < done || (c == done && r - FirstDataRow(t) < part)))
  }

  /** The batches fit their ranges, write each position of the area exactly once and no other
      position, and write there what the table asks for. */
  ghost predicate Compiles(bs: seq<Batch>, title: string, t: Table, h: bool, lo: nat, done: nat, part: nat) {
    && (forall b :: b in bs ==> Fits(b, title))
    && (forall r, c :: Exact(bs, t, h, r, c, Area(t, h, lo, done, part, r, c)))
  }

  /** A position that belongs to the area is written once and rightly, any other not at all. */
  ghost predicate Exact(bs: seq<Batch>, t: Table, h: bool, r: int, c: int, belongs: bool) {
    && Hits(bs, r, c) == (if belongs then 1 else 0)
    && (belongs ==> PositionWritten(bs, t, h, r, c))
  }

  ghost predicate PositionWritten(bs: seq<Batch>, t: Table, h: bool, r: int, c: int) {
    var w := CellAfter(bs, r, c);
    && w.Some?
    && (h && IsHeader(t, r, c) ==> w.value == Write(Str(t.headers[c]), RAW))
    && (!(h && IsHeader(t, r, c)) ==>
          0 <= r - FirstDataRow(t) < |t.rows| && 0 <= c && DataWritten(w.value, DataRow(t, r), c))
  }

  // ------------------------------------------------------------------- small lemmas

  lemma {:induction false} HitsConcat(a: seq<Batch>, b: seq<Batch>, r: int, c: int)
    ensures Hits(a + b, r, c) == Hits(a, r, c) + Hits(b, r, c)
    ensures CellAfter(a + b, r, c) == if CellAfter(b, r, c).Some? then CellAfter(b, r, c) else CellAfter(a, r, c)
  {
    if b == [] {
      assert a + b == a;
    } else {
      assert (a + b)[..|a + b| - 1] == a + b[..|b| - 1];
      HitsConcat(a, b[..|b| - 1], r, c);
    }
  }

  lemma {:induction false} UnhitIsEmpty(bs: seq<Batch>, r: int, c: int)
    ensures Hits(bs, r, c) == 0 <==> CellAfter(bs, r, c) == None
  {
    if bs != [] {
      UnhitIsEmpty(bs[..|bs| - 1], r, c);
    }
  }

  /** A list for one area followed by a list for the adjoining one compiles both. */
  lemma Joined(a: seq<Batch>, b: seq<Batch>, title: string, t: Table, h: bool, lo: nat,
               mid: nat, part: nat, done: nat, part': nat)
    requires Compiles(a, title, t, h, lo, mid, part)
    requires forall x :: x in b ==> Fits(x, title)
    requires lo <= mid <= done && (mid == done ==> part <= part') && part <= |t.rows|
    requires forall r, c :: Exact(b, t, h, r, c, Between(t, h, lo, mid, part, done, part', r, c))
    ensures Compiles(a + b, title, t, h, lo, done, part')
  {
    forall r, c ensures Exact(a + b, t, h, r, c, Area(t, h, lo, done, part', r, c)) {
      assert Exact(a, t, h, r, c, Area(t, h, lo, mid, part, r, c));
      assert Exact(b, t, h, r, c, Between(t, h, lo, mid, part, done, part', r, c));
      HitsConcat(a, b, r, c);
      UnhitIsEmpty(b, r, c);
    }
  }

  /** Positions of the larger area that the smaller one does not have. */
  predicate Between(t: Table, h: bool, lo: nat, mid: nat, part: nat, done: nat, part': nat, r: int, c: int) {
    Area(t, h, lo, done, part', r, c) && !Area(t, h, lo, mid, part, r, c)
  }

  ghost predicate IsBox(b: Batch, title: string, c0: nat, r0: nat, c1: nat, r1: nat) {
    && b.range == RangeText(Box(title, c0, r0, c1, r1)) && c0 <= c1 && 1 <= r0 <= r1
    && |b.values| == r1 - r0 + 1 && forall i :: 0 <= i < |b.values| ==> |b.values[i]| == c1 - c0 + 1
  }

  lemma BoxHitAt(b: Batch, title: string, c0: nat, r0: nat, c1: nat, r1: nat, r: int, c: int)
    requires ReadRange(b.range) == Some(Box(title, c0, r0, c1, r1))
    requires |b.values| == r1 - r0 + 1 && forall i :: 0 <= i < |b.values| ==> |b.values[i]| == c1 - c0 + 1
    ensures Hit(b, r, c) <==> r0 <= r <= r1 && c0 <= c <= c1
    ensures Hit(b, r, c) ==> WriteAt(b, r, c) == Write(b.values[r - r0][c - c0], b.option)
  {
    hide ReadRange;
    assert Anchor(b) == Some((title, c0, r0));
  }

  /** A batch whose range is printed from a box of its own dimensions hits exactly that box. */
  lemma BoxHits(b: Batch, title: string, c0: nat, r0: nat, c1: nat, r1: nat)
    requires IsBox(b, title, c0, r0, c1, r1)
    ensures Fits(b, title)
    ensures forall r, c :: Hit(b, r, c) <==> r0 <= r <= r1 && c0 <= c <= c1
    ensures forall r, c :: Hit(b, r, c) ==> WriteAt(b, r, c) == Write(b.values[r - r0][c - c0], b.option)
  {
    RangeReadsBack(Box(title, c0, r0, c1, r1));
    forall r, c ensures Hit(b, r, c) <==> r0 <= r <= r1 && c0 <= c <= c1 {
      BoxHitAt(b, title, c0, r0, c1, r1, r, c);
    }
    forall r, c | Hit(b, r, c) ensures WriteAt(b, r, c) == Write(b.values[r - r0][c - c0], b.option) {
      BoxHitAt(b, title, c0, r0, c1, r1, r, c);
    }
  }

  /** What the batch writes at a data position is what the table asks for there. */
  predicate WritesData(b: Batch, t: Table, r: int, c: int) {
    Hit(b, r, c) ==>
      0 <= r - FirstDataRow(t) < |t.rows| && 0 <= c && DataWritten(WriteAt(b, r, c), DataRow(t, r), c)
  }

  lemma BoxPrinted(title: string, c0: nat, r0: nat, c1: nat, r1: nat)
    ensures EscapeSheetTitle(title) + "!" + ColName(c0) + Dec(r0) + ":" + ColName(c1) + Dec(r1)
         == RangeText(Box(title, c0, r0, c1, r1))
  {
    var a := EscapeSheetTitle(title) + "!";
    assert a + ColName(c0) + Dec(r0) == a + CellText(c0, r0);
    var m := a + CellText(c0, r0) + ":";
    assert m + ColName(c1) + Dec(r1) == m + CellText(c1, r1);
  }

  lemma One(b: Batch, r: int, c: int)
    ensures Hits([b], r, c) == if Hit(b, r, c) then 1 else 0
    ensures CellAfter([b], r, c) == if Hit(b, r, c) then Some(WriteAt(b, r, c)) else None
  {
    assert [b][..0] == [];
  }

  /** Adding one batch that covers exactly the positions between two areas. */
  lemma Added(a: seq<Batch>, b: Batch, title: string, t: Table, h: bool, lo: nat,
              mid: nat, part: nat, done: nat, part': nat)
    requires Compiles(a, title, t, h, lo, mid, part) && Fits(b, title)
    requires lo <= mid <= done && (mid == done ==> part <= part') && part <= |t.rows|
    requires forall r, c :: Hit(b, r, c) <==> Between(t, h, lo, mid, part, done, part', r, c)
    requires forall r, c :: WritesData(b, t, r, c)
    ensures Compiles(a + [b], title, t, h, lo, done, part')
  {
    forall r, c ensures Exact([b], t, h, r, c, Between(t, h, lo, mid, part, done, part', r, c)) {
      One(b, r, c);
      assert WritesData(b, t, r, c);
    }
    Joined(a, [b], title, t, h, lo, mid, part, done, part');
  }

  // ------------------------------------------------------------------------ methods

  method ColCount(t: Table) returns (maxCols: nat)
    ensures IsWidth(t, maxCols)
  {
    maxCols := |t.headers|;
    for i := 0 to |t.rows|
      invariant |t.headers| <= maxCols && forall k :: 0 <= k < i ==> |t.rows[k]| <= maxCols
      invariant |t.headers| == maxCols || exists k :: 0 <= k < i && |t.rows[k]| == maxCols
    {
      if |t.rows[i]| > maxCols {
        maxCols := |t.rows[i]|;
      }
    }
  }

  method CheckTableHasFormulas(t: Table) returns (found: bool)
    ensures found <==> HasFormula(t)
  {
    for i := 0 to |t.rows|
      invariant forall k, c :: 0 <= k < i && 0 <= c < |t.rows[k]| ==> !t.rows[k][c].isFormula
    {
      var r := t.rows[i];
      for j := 0 to |r|
        invariant forall c :: 0 <= c < j ==> !r[c].isFormula
      {
        if r[j].isFormula {
          return true;
        }
      }
    }
    return false;
  }

  /** Every cell present in rows `from..to` of the column is a formula, or none is. */
  predicate Uniform(t: Table, col: nat, from: nat, to: nat, isFormula: bool) {
    forall i :: from <= i < to && i < |t.rows| ==> IsFormulaAt(t.rows[i], col) == isFormula
  }

  /** One run of rows `runStart..runEnd` of a column, as one batch. */
  ghost predicate IsRun(b: Batch, title: string, t: Table, col: nat, runStart: nat, runEnd: nat, isFormula: bool) {
    && runStart <= runEnd < |t.rows|
    && b.range == RangeText(Box(title, col, FirstDataRow(t) + runStart, col, FirstDataRow(t) + runEnd))
    && b.option == (if isFormula then USER_ENTERED else RAW) && |b.values| == runEnd - runStart + 1
    && (forall i :: 0 <= i < |b.values| ==> b.values[i] == [ValueAt(t.rows[runStart + i], col)])
  }

  lemma RunFits(b: Batch, title: string, t: Table, col: nat, runStart: nat, runEnd: nat, isFormula: bool)
    requires IsRun(b, title, t, col, runStart, runEnd, isFormula) && Uniform(t, col, runStart, runEnd + 1, isFormula)
    ensures Fits(b, title)
    ensures forall r, c :: Hit(b, r, c) <==> runStart <= r - FirstDataRow(t) <= runEnd && c == col
    ensures forall r, c :: WritesData(b, t, r, c)
  {
    hide ReadRange, RangeText, Anchor, Hit;
    var r0 := FirstDataRow(t) + runStart;
    BoxHits(b, title, col, r0, col, FirstDataRow(t) + runEnd);
    forall r, c ensures WritesData(b, t, r, c) {
      if Hit(b, r, c) {
        assert b.values[r - r0] == [ValueAt(t.rows[runStart + (r - r0)], col)];
      }
    }
  }

  lemma RunAdded(a: seq<Batch>, b: Batch, title: string, t: Table, col: nat, runStart: nat, runEnd: nat, isFormula: bool)
    requires Compiles(a, title, t, false, col, col, runStart)
    requires IsRun(b, title, t, col, runStart, runEnd, isFormula) && Uniform(t, col, runStart, runEnd + 1, isFormula)
    ensures Compiles(a + [b], title, t, false, col, col, runEnd + 1)
  {
    var part := runEnd + 1;
    RunFits(b, title, t, col, runStart, runEnd, isFormula);
    Added(a, b, title, t, false, col, col, runStart, col, part);
  }

  lemma NothingYet(title: string, t: Table, lo: nat)
    ensures Compiles([], title, t, false, lo, lo, 0)
  {
  }

  /** The closure that appends one run of rows of a mixed column. */
  method Flush(batches: seq<Batch>, escaped: string, ghost title: string, t: Table, col: nat, startDataRow: nat,
               runStart: nat, runEnd: nat, isFormula: bool, colA1: string) returns (out: seq<Batch>)
    requires escaped == EscapeSheetTitle(title) && colA1 == ColName(col) && startDataRow == FirstDataRow(t)
    requires runStart <= runEnd < |t.rows| && Uniform(t, col, runStart, runEnd + 1, isFormula)
    requires Compiles(batches, title, t, false, col, col, runStart)
    ensures Compiles(out, title, t, false, col, col, runEnd + 1)
  {
    hide Compiles, RangeText, ColName, Dec, Uniform, EscapeSheetTitle;
    var values := [];
    for r := runStart to runEnd + 1
      invariant |values| == r - runStart
      invariant forall i :: 0 <= i < |values| ==> values[i] == [ValueAt(t.rows[runStart + i], col)]
    {
      values := values + [[ValueAt(t.rows[r], col)]];
    }
    var opt := RAW;
    if isFormula {
      opt := USER_ENTERED;
    }
    var b := Batch(escaped + "!" + colA1 + Dec(startDataRow + runStart) + ":" + colA1 + Dec(startDataRow + runEnd),
                   opt, values);
    BoxPrinted(title, col, startDataRow + runStart, col, startDataRow + runEnd);
    RunAdded(batches, b, title, t, col, runStart, runEnd, isFormula);
    out := batches + [b];
  }

  /** Splits one mixed column into runs of rows that share an input option. */
  method BuildMixedColumnBatches(escaped: string, ghost title: string, t: Table, col: nat, startDataRow: nat)
    returns (batches: seq<Batch>)
    requires escaped == EscapeSheetTitle(title) && startDataRow == FirstDataRow(t) && |t.rows| > 0
    ensures Compiles(batches, title, t, false, col, col, |t.rows|)
  {
    batches := [];
    var colA1 := ColIndexToA1(col);
    var runStart := 0;
    var runFormula := IsFormulaAt(t.rows[0], col);
    NothingYet(title, t, col);
    for r := 1 to |t.rows|
      invariant runStart < r
      invariant Compiles(batches, title, t, false, col, col, runStart)
      invariant Uniform(t, col, runStart, r, runFormula)
    {
      var f := IsFormulaAt(t.rows[r], col);
      if f != runFormula {
        batches := Flush(batches, escaped, title, t, col, startDataRow, runStart, r - 1, runFormula, colA1);
        runStart, runFormula := r, f;
      }
    }
    batches := Flush(batches, escaped, title, t, col, startDataRow, runStart, |t.rows| - 1, runFormula, colA1);
  }

  // ------------------------------------------------------------------ column kinds

  datatype ColKind = ColRaw | ColFormula | ColMixed

  datatype ColSlice = ColSlice(startCol: nat, endCol: nat, kind: ColKind)

  /** Some of the first `n` rows has a formula cell, or a literal cell, in column `c`. */
  predicate SomeFormula(t: Table, n: nat, c: nat) {
    exists i :: 0 <= i < n && i < |t.rows| && c < |t.rows[i]| && t.rows[i][c].isFormula
  }

  predicate SomeLiteral(t: Table, n: nat, c: nat) {
    exists i :: 0 <= i < n && i < |t.rows| && c < |t.rows[i]| && !t.rows[i][c].isFormula
  }

  predicate IsKind(t: Table, c: nat, kind: ColKind) {
    match kind
    case ColRaw => !SomeFormula(t, |t.rows|, c)
    case ColFormula => SomeFormula(t, |t.rows|, c) && !SomeLiteral(t, |t.rows|, c)
    case ColMixed => SomeFormula(t, |t.rows|, c) && SomeLiteral(t, |t.rows|, c)
  }

  /** Counts one row's cells into the two per-column counters. */
  method CountRow(t: Table, i: nat, numCols: nat, formulaCells: array<nat>, otherCells: array<nat>)
    requires i < |t.rows| && formulaCells != otherCells
    requires formulaCells.Length == numCols && otherCells.Length == numCols
    requires forall c :: 0 <= c < numCols ==>
               (formulaCells[c] > 0 <==> SomeFormula(t, i, c)) && (otherCells[c] > 0 <==> SomeLiteral(t, i, c))
    modifies formulaCells, otherCells
    ensures forall c :: 0 <= c < numCols ==>
              (formulaCells[c] > 0 <==> SomeFormula(t, i + 1, c)) && (otherCells[c] > 0 <==> SomeLiteral(t, i + 1, c))
  {
    var r := t.rows[i];
    var colIdx := 0;
    while colIdx < |r| && colIdx < numCols
      invariant colIdx <= |r| && colIdx <= numCols
      invariant forall c :: 0 <= c < colIdx ==>
                  (formulaCells[c] > 0 <==> SomeFormula(t, i + 1, c)) && (otherCells[c] > 0 <==> SomeLiteral(t, i + 1, c))
      invariant forall c :: colIdx <= c < numCols ==>
                  (formulaCells[c] > 0 <==> SomeFormula(t, i, c)) && (otherCells[c] > 0 <==> SomeLiteral(t, i, c))
    {
      if r[colIdx].isFormula {
        formulaCells[colIdx] := formulaCells[colIdx] + 1;
      } else {
        otherCells[colIdx] := otherCells[colIdx] + 1;
      }
      colIdx := colIdx + 1;
    }
  }

  method ClassifyColumns(t: Table, numCols: nat) returns (kinds: seq<ColKind>)
    ensures |kinds| == numCols && forall c :: 0 <= c < numCols ==> IsKind(t, c, kinds[c])
  {
    var formulaCells := new nat[numCols](_ => 0);
    var otherCells := new nat[numCols](_ => 0);
    for i := 0 to |t.rows|
      invariant forall c :: 0 <= c < numCols ==>
                  (formulaCells[c] > 0 <==> SomeFormula(t, i, c)) && (otherCells[c] > 0 <==> SomeLiteral(t, i, c))
    {
      CountRow(t, i, numCols, formulaCells, otherCells);
    }
    kinds := [];
    for c := 0 to numCols
      invariant |kinds| == c && forall k :: 0 <= k < c ==> IsKind(t, k, kinds[k])
    {
      kinds := kinds + [if formulaCells[c] == 0 then ColRaw
                        else if otherCells[c] == 0 then ColFormula else ColMixed];
    }
  }

  /** A slice of one kind that starts at `start` and ends before `n`; a mixed one is one column wide. */
  ghost predicate SliceOk(s: ColSlice, t: Table, start: nat, n: nat) {
    && s.startCol == start && start <= s.endCol < n
    && (s.kind.ColMixed? ==> s.startCol == s.endCol)
    && forall c :: s.startCol <= c <= s.endCol ==> IsKind(t, c, s.kind)
  }

  /** The slices are adjacent and cover the columns before `n`. */
  ghost predicate Partition(slices: seq<ColSlice>, t: Table, n: nat) {
    && (forall i :: 0 <= i < |slices| ==> SliceAt(slices, t, n, i))
    && SliceStart(slices, |slices|) == n
  }

  ghost predicate SliceAt(slices: seq<ColSlice>, t: Table, n: nat, i: nat)
    requires i < |slices|
  {
    SliceOk(slices[i], t, SliceStart(slices, i), n)
  }

  /** Where slice `i` has to start: just after the one before it. */
  function SliceStart(slices: seq<ColSlice>, i: nat): nat
    requires i <= |slices|
  {
    if i == 0 then 0 else slices[i - 1].endCol + 1
  }

  lemma SliceAdded(slices: seq<ColSlice>, s: ColSlice, t: Table)
    requires Partition(slices, t, s.startCol) && SliceOk(s, t, s.startCol, s.endCol + 1)
    ensures Partition(slices + [s], t, s.endCol + 1)
  {
    var longer, n := slices + [s], s.endCol + 1;
    forall i | 0 <= i < |longer| ensures SliceAt(longer, t, n, i) {
      if i < |slices| {
        assert SliceAt(slices, t, s.startCol, i);
      }
    }
  }

  method PartitionColumns(t: Table, numCols: nat) returns (slices: seq<ColSlice>)
    requires numCols > 0
    ensures Partition(slices, t, numCols)
  {
    var kinds := ClassifyColumns(t, numCols);
    slices := [];
    var currStart := 0;
    for c := 1 to numCols
      invariant currStart < c
      invariant Partition(slices, t, currStart)
      invariant forall k :: currStart <= k < c ==> IsKind(t, k, kinds[currStart])
      invariant kinds[currStart].ColMixed? ==> c == currStart + 1
    {
      if kinds[c] != kinds[currStart] || kinds[c] == ColMixed {
        SliceAdded(slices, ColSlice(currStart, c - 1, kinds[currStart]), t);
        slices := slices + [ColSlice(currStart, c - 1, kinds[currStart])];
        currStart := c;
      }
    }
    SliceAdded(slices, ColSlice(currStart, numCols - 1, kinds[currStart]), t);
    slices := slices + [ColSlice(currStart, numCols - 1, kinds[currStart])];
  }

  method ExtractSliceValues(t: Table, s: ColSlice) returns (values: seq<seq<Val>>)
    requires s.startCol <= s.endCol
    ensures |values| == |t.rows|
    ensures forall i :: 0 <= i < |values| ==>
              && |values[i]| == s.endCol - s.startCol + 1
              && forall k :: 0 <= k < |values[i]| ==> values[i][k] == ValueAt(t.rows[i], s.startCol + k)
  {
    values := [];
    var width := s.endCol - s.startCol + 1;
    for rIdx := 0 to |t.rows|
      invariant |values| == rIdx
      invariant forall i :: 0 <= i < |values| ==>
                  && |values[i]| == width
                  && forall k :: 0 <= k < width ==> values[i][k] == ValueAt(t.rows[i], s.startCol + k)
    {
      var rowVals := [];
      for offset := 0 to width
        invariant |rowVals| == offset
        invariant forall k :: 0 <= k < offset ==> rowVals[k] == ValueAt(t.rows[rIdx], s.startCol + k)
      {
        rowVals := rowVals + [ValueAt(t.rows[rIdx], s.startCol + offset)];
      }
      values := values + [rowVals];
    }
  }

  // ------------------------------------------------------------- the mixed-mode builder

  lemma HeaderCompiled(b: Batch, title: string, t: Table)
    requires |t.headers| > 0 && b.range == RangeText(Box(title, 0, 1, |t.headers| - 1, 1)) && b.option == RAW
    requires |b.values| == 1 && |b.values[0]| == |t.headers|
    requires forall c :: 0 <= c < |t.headers| ==> b.values[0][c] == Str(t.headers[c])
    ensures Compiles([b], title, t, true, 0, 0, 0)
  {
    BoxHits(b, title, 0, 1, |t.headers| - 1, 1);
    forall r, c ensures Exact([b], t, true, r, c, Area(t, true, 0, 0, 0, r, c)) {
      One(b, r, c);
    }
  }

  lemma NoHeaderCompiled(title: string, t: Table)
    requires |t.headers| == 0
    ensures Compiles([], title, t, true, 0, 0, 0)
  {
  }

  /** In a column of one kind, a present cell is a formula exactly when the kind says so. */
  lemma KindDecides(t: Table, i: nat, c: nat, kind: ColKind)
    requires IsKind(t, c, kind) && !kind.ColMixed? && i < |t.rows| && c < |t.rows[i]|
    ensures t.rows[i][c].isFormula <==> kind.ColFormula?
  {
  }

  /** One block over all data rows of a slice of one kind. */
  ghost predicate IsBlock(b: Batch, title: string, t: Table, s: ColSlice) {
    && |t.rows| > 0 && s.startCol <= s.endCol
    && b.option == (if s.kind.ColFormula? then USER_ENTERED else RAW)
    && b.range == RangeText(Box(title, s.startCol, FirstDataRow(t), s.endCol, FirstDataRow(t) + |t.rows| - 1))
    && |b.values| == |t.rows|
    && forall i :: 0 <= i < |b.values| ==>
         && |b.values[i]| == s.endCol - s.startCol + 1
         && forall k :: 0 <= k < |b.values[i]| ==> b.values[i][k] == ValueAt(t.rows[i], s.startCol + k)
  }

  lemma BlockWrites(b: Batch, title: string, t: Table, s: ColSlice, i: nat, c: nat)
    requires IsBlock(b, title, t, s) && !s.kind.ColMixed? && IsKind(t, c, s.kind)
    requires i < |t.rows| && s.startCol <= c <= s.endCol
    ensures DataWritten(Write(b.values[i][c - s.startCol], b.option), t.rows[i], c)
  {
    assert b.values[i][c - s.startCol] == ValueAt(t.rows[i], s.startCol + (c - s.startCol));
    if c < |t.rows[i]| {
      KindDecides(t, i, c, s.kind);
    }
  }

  lemma BlockAt(b: Batch, title: string, t: Table, s: ColSlice, numCols: nat, r: int, c: int)
    requires IsBlock(b, title, t, s) && SliceOk(s, t, s.startCol, numCols) && !s.kind.ColMixed?
    requires ReadRange(b.range) == Some(Box(title, s.startCol, FirstDataRow(t), s.endCol, FirstDataRow(t) + |t.rows| - 1))
    ensures Hit(b, r, c) <==> 0 <= r - FirstDataRow(t) < |t.rows| && s.startCol <= c <= s.endCol
    ensures WritesData(b, t, r, c)
  {
    hide ReadRange;
    var r0 := FirstDataRow(t);
    BoxHitAt(b, title, s.startCol, r0, s.endCol, r0 + |t.rows| - 1, r, c);
    if Hit(b, r, c) {
      BlockWrites(b, title, t, s, r - r0, c);
    }
  }

  lemma BlockFits(b: Batch, title: string, t: Table, s: ColSlice, numCols: nat)
    requires IsBlock(b, title, t, s) && SliceOk(s, t, s.startCol, numCols) && !s.kind.ColMixed?
    ensures Fits(b, title)
    ensures forall r, c :: Hit(b, r, c) <==> 0 <= r - FirstDataRow(t) < |t.rows| && s.startCol <= c <= s.endCol
    ensures forall r, c :: WritesData(b, t, r, c)
  {
    hide ReadRange, Hit, WritesData;
    var r0 := FirstDataRow(t);
    RangeReadsBack(Box(title, s.startCol, r0, s.endCol, r0 + |t.rows| - 1));
    forall r, c ensures Hit(b, r, c) <==> 0 <= r - r0 < |t.rows| && s.startCol <= c <= s.endCol {
      BlockAt(b, title, t, s, numCols, r, c);
    }
    forall r, c ensures WritesData(b, t, r, c) {
      BlockAt(b, title, t, s, numCols, r, c);
    }
  }

  lemma BlockAdded(a: seq<Batch>, b: Batch, title: string, t: Table, s: ColSlice, numCols: nat)
    requires Compiles(a, title, t, true, 0, s.startCol, 0) && IsBlock(b, title, t, s)
    requires SliceOk(s, t, s.startCol, numCols) && !s.kind.ColMixed?
    ensures Compiles(a + [b], title, t, true, 0, s.endCol + 1, 0)
  {
    var next := s.endCol + 1;
    BlockFits(b, title, t, s, numCols);
    Added(a, b, title, t, true, 0, s.startCol, 0, next, 0);
  }

  /** A mixed column's runs, appended. */
  lemma ColumnAdded(a: seq<Batch>, b: seq<Batch>, title: string, t: Table, col: nat)
    requires Compiles(a, title, t, true, 0, col, 0)
    requires Compiles(b, title, t, false, col, col, |t.rows|)
    ensures Compiles(a + b, title, t, true, 0, col + 1, 0)
  {
    var next := col + 1;
    forall r, c ensures Exact(b, t, true, r, c, Between(t, true, 0, col, 0, next, 0, r, c)) {
      assert Exact(b, t, false, r, c, Area(t, false, col, col, |t.rows|, r, c));
    }
    Joined(a, b, title, t, true, 0, col, 0, next, 0);
  }

  /** Appends the batches of one slice. */
  method AppendSlice(batches: seq<Batch>, escaped: string, ghost title: string, t: Table, s: ColSlice,
                     ghost numCols: nat, startDataRow: nat, endDataRow: nat) returns (out: seq<Batch>)
    requires escaped == EscapeSheetTitle(title) && startDataRow == FirstDataRow(t) && |t.rows| > 0
    requires endDataRow == startDataRow + |t.rows| - 1 && SliceOk(s, t, s.startCol, numCols)
    requires Compiles(batches, title, t, true, 0, s.startCol, 0)
    ensures Compiles(out, title, t, true, 0, s.endCol + 1, 0)
  {
    if s.kind == ColMixed {
      var column := BuildMixedColumnBatches(escaped, title, t, s.startCol, startDataRow);
      ColumnAdded(batches, column, title, t, s.startCol);
      return batches + column;
    }
    var sliceValues := ExtractSliceValues(t, s);
    var opt := RAW;
    if s.kind == ColFormula {
      opt := USER_ENTERED;
    }
    var startLetters := ColIndexToA1(s.startCol);
    var endLetters := ColIndexToA1(s.endCol);
    var startA1 := startLetters + Dec(startDataRow);
    var endA1 := endLetters + Dec(endDataRow);
    var b := Batch(escaped + "!" + startA1 + ":" + endA1, opt, sliceValues);
    BlockAdded(batches, b, title, t, s, numCols);
    out := batches + [b];
  }

  /** The header row as one RAW batch, and the sheet row its data then starts at. */
  method HeaderBatches(escaped: string, ghost title: string, t: Table)
    returns (batches: seq<Batch>, startDataRow: nat)
    requires escaped == EscapeSheetTitle(title)
    ensures Compiles(batches, title, t, true, 0, 0, 0) && startDataRow == FirstDataRow(t)
  {
    if |t.headers| == 0 {
      NoHeaderCompiled(title, t);
      return [], 1;
    }
    var headerRow := [];
    for i := 0 to |t.headers|
      invariant |headerRow| == i && forall k :: 0 <= k < i ==> headerRow[k] == Str(t.headers[k])
    {
      headerRow := headerRow + [Str(t.headers[i])];
    }
    var lastCol := ColIndexToA1(|t.headers| - 1);
    var b := Batch(escaped + "!A1:" + lastCol + "1", RAW, [headerRow]);
    HeaderPrinted(title, |t.headers| - 1);
    HeaderCompiled(b, title, t);
    return [b], 2;
  }

  /** The data columns, slice by slice. */
  method DataBatches(header: seq<Batch>, escaped: string, ghost title: string, t: Table, slices: seq<ColSlice>,
                     ghost numCols: nat, startDataRow: nat, endDataRow: nat) returns (batches: seq<Batch>)
    requires escaped == EscapeSheetTitle(title) && startDataRow == FirstDataRow(t) && |t.rows| > 0
    requires endDataRow == startDataRow + |t.rows| - 1 && Partition(slices, t, numCols)
    requires Compiles(header, title, t, true, 0, 0, 0)
    ensures Compiles(batches, title, t, true, 0, numCols, 0)
  {
    batches := header;
    for i := 0 to |slices|
      invariant Compiles(batches, title, t, true, 0, SliceStart(slices, i), 0)
    {
      assert SliceAt(slices, t, numCols, i);
      batches := AppendSlice(batches, escaped, title, t, slices[i], numCols, startDataRow, endDataRow);
    }
  }

  /** Headers first, then the data columns. */
  method BuildMixedModeBatches(escaped: string, ghost title: string, t: Table, numCols: nat)
    returns (batches: seq<Batch>)
    requires escaped == EscapeSheetTitle(title) && IsWidth(t, numCols) && numCols > 0
    ensures Compiles(batches, title, t, true, 0, numCols, 0)
  {
    var startDataRow: nat;
    batches, startDataRow := HeaderBatches(escaped, title, t);
    if |t.rows| == 0 {
      NoRows(batches, title, t, numCols);
      return;
    }
    var slices := PartitionColumns(t, numCols);
    var endDataRow := startDataRow + |t.rows| - 1;
    batches := DataBatches(batches, escaped, title, t, slices, numCols, startDataRow, endDataRow);
  }

  lemma HeaderPrinted(title: string, last: nat)
    ensures EscapeSheetTitle(title) + "!A1:" + ColName(last) + "1" == RangeText(Box(title, 0, 1, last, 1))
  {
    assert ColName(0) == "A" && Dec(1) == "1";
    BoxPrinted(title, 0, 1, last, 1);
    var a := EscapeSheetTitle(title);
    assert a + "!" + "A" + "1" + ":" == a + "!A1:";
  }

  lemma NoRows(bs: seq<Batch>, title: string, t: Table, n: nat)
    requires |t.rows| == 0 && Compiles(bs, title, t, true, 0, 0, 0)
    ensures Compiles(bs, title, t, true, 0, n, 0)
  {
    forall r, c ensures Exact(bs, t, true, r, c, Area(t, true, 0, n, 0, r, c)) {
      assert Exact(bs, t, true, r, c, Area(t, true, 0, 0, 0, r, c));
    }
  }

  // ------------------------------------------------------------------- the fast path

  /** The whole table written RAW from the first cell, each row as long as it is. */
  predicate RawWrite(w: Option<Write>, t: Table, r: int, c: int) {
    w == if IsHeader(t, r, c) then Some(Write(Str(t.headers[c]), RAW))
         else if 0 <= r - FirstDataRow(t) < |t.rows| && 0 <= c < |DataRow(t, r)|
         then Some(Write(DataRow(t, r)[c].raw, RAW))
         else None
  }

  predicate RawPosition(bs: seq<Batch>, t: Table, r: int, c: int) {
    RawWrite(CellAfter(bs, r, c), t, r, c)
  }

  method BuildAllRawBatch(escaped: string, ghost title: string, t: Table) returns (batches: seq<Batch>)
    requires escaped == EscapeSheetTitle(title)
    ensures |batches| == 1 && batches[0].range == RangeText(Cell(title, 0, 1)) && batches[0].option == RAW
    ensures forall r, c :: RawPosition(batches, t, r, c)
  {
    var allRows: seq<seq<Val>> := [];
    if |t.headers| > 0 {
      var headerRow := [];
      for i := 0 to |t.headers|
        invariant |headerRow| == i && forall k :: 0 <= k < i ==> headerRow[k] == Str(t.headers[k])
      {
        headerRow := headerRow + [Str(t.headers[i])];
      }
      allRows := [headerRow];
    }
    ghost var head := allRows;
    for i := 0 to |t.rows|
      invariant |allRows| == |head| + i && allRows[..|head|] == head
      invariant forall k :: 0 <= k < i ==>
                  && |allRows[|head| + k]| == |t.rows[k]|
                  && forall c :: 0 <= c < |t.rows[k]| ==> allRows[|head| + k][c] == t.rows[k][c].raw
    {
      var row := [];
      for j := 0 to |t.rows[i]|
        invariant |row| == j && forall c :: 0 <= c < j ==> row[c] == t.rows[i][c].raw
      {
        row := row + [t.rows[i][j].raw];
      }
      allRows := allRows + [row];
    }
    var b := Batch(escaped + "!A1", RAW, allRows);
    AnchorPrinted(title);
    RangeReadsBack(Cell(title, 0, 1));
    forall r, c ensures RawPosition([b], t, r, c) {
      RawBlock(b, title, t, head, r, c);
    }
    return [b];
  }

  lemma RawBlock(b: Batch, title: string, t: Table, head: seq<seq<Val>>, r: int, c: int)
    requires ReadRange(b.range) == Some(Cell(title, 0, 1)) && b.option == RAW
    requires |b.values| == |head| + |t.rows| && b.values[..|head|] == head
    requires |head| == (if |t.headers| > 0 then 1 else 0)
    requires |head| == 1 ==> |head[0]| == |t.headers| && forall k :: 0 <= k < |t.headers| ==> head[0][k] == Str(t.headers[k])
    requires forall k :: 0 <= k < |t.rows| ==>
               && |b.values[|head| + k]| == |t.rows[k]|
               && forall c :: 0 <= c < |t.rows[k]| ==> b.values[|head| + k][c] == t.rows[k][c].raw
    ensures RawPosition([b], t, r, c)
  {
    One(b, r, c);
    assert Anchor(b) == Some((title, 0, 1));
    if |head| == 1 {
      assert b.values[0] == b.values[..|head|][0];
    }
    if 0 <= r - FirstDataRow(t) < |t.rows| {
      assert b.values[r - 1] == b.values[|head| + (r - FirstDataRow(t))];
    }
  }

  lemma AnchorPrinted(title: string)
    ensures EscapeSheetTitle(title) + "!A1" == RangeText(Cell(title, 0, 1))
  {
    assert ColName(0) == "A" && Dec(1) == "1";
    var a := EscapeSheetTitle(title);
    assert a + "!A1" == a + "!" + ("A" + "1");
  }

  /** prepareValueUpdates */
  method PrepareValueUpdates(title: string, table: Option<Table>) returns (batches: seq<Batch>, ghost cols: nat)
    ensures table.None? ==> batches == []
    ensures table.Some? ==> IsWidth(table.value, cols) && (cols == 0 ==> batches == [])
    ensures table.Some? && cols > 0 && HasFormula(table.value) ==>
              Compiles(batches, title, table.value, true, 0, cols, 0)
    ensures table.Some? && cols > 0 && !HasFormula(table.value) ==>
              forall r, c :: RawPosition(batches, table.value, r, c)
  {
    if table.None? || (|table.value.headers| == 0 && |table.value.rows| == 0) {
      return [], 0;
    }
    var t := table.value;
    var escapedTitle := EscapeSheetTitle(title);
    var numCols := ColCount(t);
    cols := numCols;
    if numCols == 0 {
      return [], cols;
    }
    var hasFormulas := CheckTableHasFormulas(t);
    if !hasFormulas {
      batches := BuildAllRawBatch(escapedTitle, title, t);
    } else {
      batches := BuildMixedModeBatches(escapedTitle, title, t, numCols);
    }
  }

  /** What becomes of one position of an empty grid: headers RAW, data rows padded to the full
      width with "", present cells USER_ENTERED exactly when they are formulas, nothing else. */
  predicate TableWrite(w: Option<Write>, t: Table, cols: nat, r: int, c: int) {
    && (IsHeader(t, r, c) ==> w == Some(Write(Str(t.headers[c]), RAW)))
    && (IsData(t, cols, r, c) ==>
          && w.Some? && w.value.value == ValueAt(DataRow(t, r), c)
          && (c < |DataRow(t, r)| ==> (w.value.option == USER_ENTERED <==> DataRow(t, r)[c].isFormula)))
    && (!IsHeader(t, r, c) && !IsData(t, cols, r, c) ==> w == None)
  }

  /** What the emitted batches of a table with a formula do to an empty grid, each position
      being written at most once. */
  lemma MixedModeMeaning(bs: seq<Batch>, title: string, t: Table, cols: nat, r: int, c: int)
    requires Compiles(bs, title, t, true, 0, cols, 0)
    ensures Hits(bs, r, c) == if IsHeader(t, r, c) || IsData(t, cols, r, c) then 1 else 0
    ensures TableWrite(CellAfter(bs, r, c), t, cols, r, c)
  {
    assert Exact(bs, t, true, r, c, Area(t, true, 0, cols, 0, r, c));
    UnhitIsEmpty(bs, r, c);
  }

  /** On a table with no formula the one-batch fast path and the general builder agree on
      every header and present cell, and the builder writes more only "" where a row is short. */
  method FastPathRefinesMixedMode(title: string, t: Table) returns (fast: seq<Batch>, mixed: seq<Batch>, ghost cols: nat)
    requires !HasFormula(t) && (|t.headers| > 0 || exists i :: 0 <= i < |t.rows| && |t.rows[i]| > 0)
    ensures IsWidth(t, cols) && forall r, c :: RawPosition(fast, t, r, c)
    ensures forall r, c :: CellAfter(fast, r, c).Some? ==> CellAfter(mixed, r, c) == CellAfter(fast, r, c)
    ensures forall r, c :: CellAfter(fast, r, c).None? && CellAfter(mixed, r, c).Some? ==>
              && IsData(t, cols, r, c) && c >= |DataRow(t, r)|
              && CellAfter(mixed, r, c).value.value == Str("")
  {
    var numCols := ColCount(t);
    cols := numCols;
    fast := BuildAllRawBatch(EscapeSheetTitle(title), title, t);
    mixed := BuildMixedModeBatches(EscapeSheetTitle(title), title, t, numCols);
    forall r, c ensures
        && (CellAfter(fast, r, c).Some? ==> CellAfter(mixed, r, c) == CellAfter(fast, r, c))
        && (CellAfter(fast, r, c).None? && CellAfter(mixed, r, c).Some? ==>
              && IsData(t, cols, r, c) && c >= |DataRow(t, r)|
              && CellAfter(mixed, r, c).value.value == Str(""))
    {
      MixedModeMeaning(mixed, title, t, numCols, r, c);
      assert RawPosition(fast, t, r, c);
      PathsAgree(CellAfter(fast, r, c), CellAfter(mixed, r, c), t, numCols, r, c);
    }
  }

  lemma PathsAgree(fast: Option<Write>, mixed: Option<Write>, t: Table, cols: nat, r: int, c: int)
    requires !HasFormula(t) && IsWidth(t, cols) && RawWrite(fast, t, r, c) && TableWrite(mixed, t, cols, r, c)
    ensures fast.Some? ==> mixed == fast
    ensures fast.None? && mixed.Some? ==>
              IsData(t, cols, r, c) && c >= |DataRow(t, r)| && mixed.value.value == Str("")
  {
    if IsData(t, cols, r, c) && c < |DataRow(t, r)| {
      assert !t.rows[r - FirstDataRow(t)][c].isFormula;
    }
  }
}
