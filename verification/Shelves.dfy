/** The cells of a warehouse shelf and what can be read back from a cell code. */
module Shelves {
  import opened Decimal
  import opened Outcomes

  datatype Cell = Cell(code: string, row: nat, column: nat)

  datatype Place = Place(shelf: string, row: nat, column: nat)

  function CellCode(shelf: string, row: nat, column: nat): string {
    shelf + "-K" + Dec(row) + "-G" + Dec(column)
  }

  // ---- Reading a code from its end -----------------------------------------------------

  /** How many digits the string ends with. */
  function TrailingDigits(s: string): (n: nat)
    ensures n <= |s| && AllDigits(s[|s| - n..])
  {
    if s == "" || !IsDigit(s[|s| - 1]) then 0 else 1 + TrailingDigits(s[..|s| - 1])
  }

  /** Takes the number at the end of s and the mark in front of it. */
  function TakeNumber(s: string, mark: string): Option<(string, nat)> {
    var n := TrailingDigits(s);
    var cut := |s| - n - |mark|;
    if n > 0 && cut >= 0 && s[cut..|s| - n] == mark
    then Some((s[..cut], Parse(s[|s| - n..])))
    else None
  }

  function DecodeCell(code: string): Option<Place> {
    match TakeNumber(code, "-G")
    case None => None
    case Some((front, column)) =>
      match TakeNumber(front, "-K")
      case None => None
      case Some((shelf, row)) => Some(Place(shelf, row, column))
  }

  lemma {:induction false} TrailingDigitsOf(front: string, digits: string)
    requires AllDigits(digits)
    requires front != "" && !IsDigit(front[|front| - 1])
    ensures TrailingDigits(front + digits) == |digits|
  {
    var s := front + digits;
    if digits == "" {
      assert s == front;
    } else {
      assert s[..|s| - 1] == front + digits[..|digits| - 1];
      TrailingDigitsOf(front, digits[..|digits| - 1]);
    }
  }

  lemma TakeNumberOf(front: string, mark: string, n: nat)
    requires mark != "" && !IsDigit(mark[|mark| - 1])
    ensures TakeNumber(front + mark + Dec(n), mark) == Some((front, n))
  {
    var s := front + mark + Dec(n);
    TrailingDigitsOf(front + mark, Dec(n));
    assert s[|s| - |Dec(n)|..] == Dec(n);
    assert s[|front|..|s| - |Dec(n)|] == mark;
    assert s[..|front|] == front;
    ParseDec(n);
  }

  /** Every code decodes to its shelf, row and column, also when the shelf's own code contains
      "-K" or "-G" or ends with digits. */
  lemma DecodeCellCode(shelf: string, row: nat, column: nat)
    ensures DecodeCell(CellCode(shelf, row, column)) == Some(Place(shelf, row, column))
  {
    TakeNumberOf(shelf + "-K" + Dec(row), "-G", column);
    TakeNumberOf(shelf, "-K", row);
  }

  /** The documented example, and the form of every code. */
  lemma CodeOf(shelf: string, row: nat, column: nat)
    ensures CellCode("RAF-A01", 1, 1) == "RAF-A01-K1-G1"
    ensures row < 10 && column < 10 ==>
      CellCode(shelf, row, column) == shelf + "-K" + ["0123456789"[row]] + "-G" + ["0123456789"[column]]
  {
  }

  lemma CellCodeInjective(a: Place, b: Place)
    ensures CellCode(a.shelf, a.row, a.column) == CellCode(b.shelf, b.row, b.column) <==> a == b
  {
    DecodeCellCode(a.shelf, a.row, a.column);
    DecodeCellCode(b.shelf, b.row, b.column);
  }

  // ---- The grid ------------------------------------------------------------------------

  function CellAt(shelf: string, row: nat, column: nat): Cell {
    Cell(CellCode(shelf, row, column), row, column)
  }

  /** Row by row, each row from column 1 to the last. */
  ghost predicate IsGrid(cells: seq<Cell>, shelf: string, rows: nat, columns: nat) {
    && |cells| == rows * columns
    && (forall k :: 0 <= k < |cells| ==> columns > 0 && cells[k] == CellAt(shelf, k / columns + 1, k % columns + 1))
  }

  method CreateShelfCells(shelf: string, rows: int, columns: int) returns (cells: seq<Cell>)
    ensures rows <= 0 || columns <= 0 ==> cells == []
    ensures rows > 0 && columns > 0 ==> IsGrid(cells, shelf, rows, columns)
  {
    cells := [];
    var r := 1;
    while r <= rows
      invariant 1 <= r && (rows >= 0 ==> r <= rows + 1)
      invariant columns <= 0 || rows <= 0 ==> cells == []
      invariant columns > 0 && rows > 0 ==> IsGrid(cells, shelf, r - 1, columns)
    {
      var c := 1;
      while c <= columns
        invariant 1 <= c && (columns >= 0 ==> c <= columns + 1)
        invariant columns <= 0 ==> cells == []
        invariant columns > 0 ==> |cells| == (r - 1) * columns + c - 1
        invariant columns > 0 ==>
          forall k :: 0 <= k < |cells| ==> cells[k] == CellAt(shelf, k / columns + 1, k % columns + 1)
      {
        DivMod(r - 1, columns, c - 1);
        cells := cells + [CellAt(shelf, r, c)];
        c := c + 1;
      }
      r := r + 1;
    }
  }

  lemma Multiples(columns: nat, a: int, b: int)
    ensures a <= b ==> columns * a <= columns * b
    ensures a < b ==> columns * a + columns <= columns * b
  {
    if a < b {
      assert columns * (b - a - 1) >= 0;
    }
  }

  /** Position (q, m) of a grid with the given number of columns. */
  lemma DivMod(q: nat, columns: nat, m: nat)
    requires m < columns
    ensures (q * columns + m) / columns == q && (q * columns + m) % columns == m
  {
    var k := q * columns + m;
    Multiples(columns, q, k / columns);
    Multiples(columns, k / columns, q);
  }

  lemma RowInRange(k: nat, rows: nat, columns: nat)
    requires columns > 0 && k < rows * columns
    ensures k / columns < rows
  {
    Multiples(columns, rows, k / columns);
  }

  lemma CellsInRange(cells: seq<Cell>, shelf: string, rows: nat, columns: nat)
    requires IsGrid(cells, shelf, rows, columns)
    ensures forall k :: 0 <= k < |cells| ==> 1 <= cells[k].row <= rows && 1 <= cells[k].column <= columns
  {
    forall k | 0 <= k < |cells|
      ensures 1 <= cells[k].row <= rows && 1 <= cells[k].column <= columns
    {
      RowInRange(k, rows, columns);
    }
  }

  lemma PlaceHasCell(cells: seq<Cell>, shelf: string, rows: nat, columns: nat, r: nat, c: nat)
    requires IsGrid(cells, shelf, rows, columns)
    requires 1 <= r <= rows && 1 <= c <= columns
    ensures CellAt(shelf, r, c) in cells
  {
    var k := (r - 1) * columns + (c - 1);
    DivMod(r - 1, columns, c - 1);
    Multiples(columns, r - 1, rows);
    assert k < |cells|;
    assert cells[k] == CellAt(shelf, r, c);
  }

  lemma PositionsDiffer(i: nat, j: nat, columns: nat)
    requires columns > 0 && i != j
    ensures i / columns != j / columns || i % columns != j % columns
  {
    assert i == columns * (i / columns) + i % columns;
    assert j == columns * (j / columns) + j % columns;
  }

  lemma CodesDiffer(cells: seq<Cell>, shelf: string, rows: nat, columns: nat, i: nat, j: nat)
    requires IsGrid(cells, shelf, rows, columns) && i < |cells| && j < |cells| && i != j
    ensures cells[i].code != cells[j].code
  {
    PositionsDiffer(i, j, columns);
    CellCodeInjective(
      Place(shelf, i / columns + 1, i % columns + 1),
      Place(shelf, j / columns + 1, j % columns + 1));
  }

  /** The cells stand in bijection with the rows and columns, and no two share a code. */
  lemma GridIsBijection(cells: seq<Cell>, shelf: string, rows: nat, columns: nat)
    requires IsGrid(cells, shelf, rows, columns)
    ensures forall k :: 0 <= k < |cells| ==> 1 <= cells[k].row <= rows && 1 <= cells[k].column <= columns
    ensures forall r, c :: 1 <= r <= rows && 1 <= c <= columns ==> CellAt(shelf, r, c) in cells
    ensures forall i, j :: 0 <= i < |cells| && 0 <= j < |cells| && i != j ==> cells[i].code != cells[j].code
  {
    CellsInRange(cells, shelf, rows, columns);
    forall r, c | 1 <= r <= rows && 1 <= c <= columns
      ensures CellAt(shelf, r, c) in cells
    {
      PlaceHasCell(cells, shelf, rows, columns, r, c);
    }
    forall i, j | 0 <= i < |cells| && 0 <= j < |cells| && i != j
      ensures cells[i].code != cells[j].code
    {
      CodesDiffer(cells, shelf, rows, columns, i, j);
    }
  }
}
