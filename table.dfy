/** textutil/table.go: the Table interface with its three implementations
    (StringMatrix, TableWithHeader, TableView) and WriteTable, which draws a
    table as ASCII art. A character stands for a byte: cells are ASCII. */
module TextTable {
  import GoStrings
  import Io

  /** The Table implementations, as values. */
  datatype Table =
    | Matrix(rows: seq<seq<string>>)
    | WithHeader(table: Table, header: seq<string>)
    | View(table: Table, rowIndex: int, colIndex: int, rowCount: int, colCount: int)

  /** RowCount() */
  function RowCount(t: Table): int {
    match t
    case Matrix(rows) => |rows|
    case WithHeader(inner, _) => RowCount(inner) + 1
    case View(_, _, _, m, _) => m
  }

  /** ColCount(): a matrix has as many columns as its first row. */
  function ColCount(t: Table): int {
    match t
    case Matrix(rows) => if |rows| == 0 then 0 else |rows[0]|
    case WithHeader(inner, _) => ColCount(inner)
    case View(_, _, _, _, n) => n
  }

  /** Get(i, j) does not index out of range. */
  predicate Has(t: Table, i: int, j: int) {
    match t
    case Matrix(rows) => 0 <= i < |rows| && 0 <= j < |rows[i]|
    case WithHeader(inner, header) => if i == 0 then 0 <= j < |header| else Has(inner, i - 1, j)
    case View(inner, r, c, _, _) => Has(inner, r + i, c + j)
  }

  /** Get(i, j), with the view reading at its own origin (see ViewGetAsWritten). */
  function Get(t: Table, i: int, j: int): (cell: string)
    requires Has(t, i, j)
    ensures t.Matrix? ==> cell == t.rows[i][j]
    ensures t.WithHeader? ==> cell == if i == 0 then t.header[j] else Get(t.table, i - 1, j)
    ensures t.View? ==> cell == Get(t.table, t.rowIndex + i, t.colIndex + j)
  {
    match t
    case Matrix(rows) => rows[i][j]
    case WithHeader(inner, header) => if i == 0 then header[j] else Get(inner, i - 1, j)
    case View(inner, r, c, _, _) => Get(inner, r + i, c + j)
  }

  /** TableView.Get as written: it offsets by the view's size, not its
      origin. */
  function ViewGetAsWritten(v: Table, i: int, j: int): string
    requires v.View? && Has(v.table, v.rowCount + i, v.colCount + j)
  {
    Get(v.table, v.rowCount + i, v.colCount + j)
  }

  /** A view of the top-left cell of a 2 x 2 matrix reads the bottom-right
      cell as written; the corrected Get reads the top-left one. */
  lemma ViewGetFinding()
    ensures var t := Matrix([["a", "b"], ["c", "d"]]);
      var v := ClipTable(t, 0, 0, 1, 1);
      ViewGetAsWritten(v, 0, 0) == "d" && Get(v, 0, 0) == "a" == Get(t, 0, 0)
  {
  }

  /** ClipTable(table, i, j, m, n): it panics unless the view's far corner
      i+m, j+n lies strictly inside the table. */
  function ClipTable(t: Table, i: int, j: int, m: int, n: int): (v: Table)
    requires 0 <= i && 0 <= j && 0 <= m && 0 <= n && i + m < RowCount(t) && j + n < ColCount(t)
    ensures RowCount(v) == m && ColCount(v) == n
  {
    View(t, i, j, m, n)
  }

  /** Cell (a, b) of a view is cell (i+a, j+b) of the table. */
  lemma ClipTableCells(t: Table, i: int, j: int, m: int, n: int, a: int, b: int)
    requires 0 <= i && 0 <= j && 0 <= m && 0 <= n && i + m < RowCount(t) && j + n < ColCount(t)
    requires 0 <= a < m && 0 <= b < n && Has(t, i + a, j + b)
    ensures Has(ClipTable(t, i, j, m, n), a, b) && Get(ClipTable(t, i, j, m, n), a, b) == Get(t, i + a, j + b)
  {
  }

  /** AddTableHeader: one more row, the header, on top. */
  lemma HeaderRows(t: Table, header: seq<string>, i: int, j: int)
    ensures RowCount(WithHeader(t, header)) == RowCount(t) + 1
    ensures ColCount(WithHeader(t, header)) == ColCount(t)
    ensures 0 <= j < |header| ==> Get(WithHeader(t, header), 0, j) == header[j]
    ensures i != 0 && Has(t, i - 1, j) ==> Has(WithHeader(t, header), i, j) && Get(WithHeader(t, header), i, j) == Get(t, i - 1, j)
  {
  }

  /** Every cell within RowCount x ColCount can be read. */
  predicate Complete(t: Table) {
    forall i, j :: 0 <= i < RowCount(t) && 0 <= j < ColCount(t) ==> Has(t, i, j)
  }

  /** A matrix whose rows are all as long as the first is complete. */
  lemma RectangularComplete(rows: seq<seq<string>>)
    requires forall i :: 0 <= i < |rows| ==> |rows[i]| == |rows[0]|
    ensures Complete(Matrix(rows))
  {
  }

  /** A header at least as wide as a complete table keeps it complete. */
  lemma HeaderComplete(t: Table, header: seq<string>)
    requires Complete(t) && |header| >= ColCount(t)
    ensures Complete(WithHeader(t, header))
  {
    forall i, j | 0 <= i < RowCount(WithHeader(t, header)) && 0 <= j < ColCount(WithHeader(t, header))
      ensures Has(WithHeader(t, header), i, j)
    {
      if i != 0 {
        assert Has(t, i - 1, j);
      }
    }
  }

  // ---------------------------------------------------------------------
  // WriteTable

  /** The width WriteTable's inner loop finds for column j over rows 0 .. n-1. */
  function ColWidth(t: Table, j: int, n: int): (w: nat)
    requires Complete(t) && 0 <= j < ColCount(t) && 1 <= n <= RowCount(t)
  {
    var width := |Get(t, n - 1, j)|;
    if n == 1 then width
    else
      var m := ColWidth(t, j, n - 1);
      if width > m then width else m
  }

  /** The column width is the greatest byte length of the column's cells. */
  lemma {:induction false} ColWidthIsMax(t: Table, j: int, n: int)
    requires Complete(t) && 0 <= j < ColCount(t) && 1 <= n <= RowCount(t)
    ensures forall i :: 0 <= i < n ==> |Get(t, i, j)| <= ColWidth(t, j, n)
    ensures exists i :: 0 <= i < n && |Get(t, i, j)| == ColWidth(t, j, n)
    decreases n
  {
    if n > 1 {
      ColWidthIsMax(t, j, n - 1);
      if |Get(t, n - 1, j)| <= ColWidth(t, j, n - 1) {
        var i :| 0 <= i < n - 1 && |Get(t, i, j)| == ColWidth(t, j, n - 1);
        assert |Get(t, i, j)| == ColWidth(t, j, n);
      }
    } else {
      assert |Get(t, 0, j)| == ColWidth(t, j, n);
    }
  }

  /** The widths of the first k columns. */
  function Widths(t: Table, k: int): (ws: seq<nat>)
    requires Complete(t) && RowCount(t) > 0 && 0 <= k <= ColCount(t)
    ensures |ws| == k
  {
    if k == 0 then [] else Widths(t, k - 1) + [ColWidth(t, k - 1, RowCount(t))]
  }

  /** s written count times. */
  function RepeatString(s: string, count: int): string
    decreases count
  {
    if count <= 0 then "" else RepeatString(s, count - 1) + s
  }

  /** rowBorderLine: "+", then per column width+2 dashes and "+". */
  function BorderLine(ws: seq<int>): string {
    if |ws| == 0 then "+" else BorderLine(ws[..|ws| - 1]) + RepeatString("-", ws[|ws| - 1] + 2) + "+"
  }

  /** The row line writeTableRow writes after its "|", for its first k
      columns. */
  function RowCells(t: Table, i: int, ws: seq<int>, k: int): string
    requires Complete(t) && 0 <= i < RowCount(t) && (k <= 0 || (k <= ColCount(t) && k <= |ws|))
  {
    if k <= 0 then "" else RowCells(t, i, ws, k - 1) + CellText(t, i, ws, k - 1)
  }

  /** One cell of a row line: a space, the cell left-justified to width+1,
      and "|". */
  function CellText(t: Table, i: int, ws: seq<int>, j: int): string
    requires Complete(t) && 0 <= i < RowCount(t) && 0 <= j < ColCount(t) && j < |ws|
  {
    " " + GoStrings.PadRight(Get(t, i, j), ws[j] + 1) + "|"
  }

  /** What writeTableRow writes. */
  function RowLine(t: Table, i: int, ws: seq<int>): string
    requires Complete(t) && 0 <= i < RowCount(t) && ColCount(t) <= |ws|
  {
    "|" + RowCells(t, i, ws, ColCount(t))
  }

  /** The rows 0 .. n-1 as WriteTable's row loop writes them. */
  function RowsText(t: Table, ws: seq<int>, border: string, n: int): string
    requires Complete(t) && 0 <= n <= RowCount(t) && ColCount(t) <= |ws|
  {
    if n == 0 then "" else RowsText(t, ws, border, n - 1) + RowBlock(t, ws, border, n - 1)
  }

  /** One turn of the row loop: a line break, the row line, a line break
      and the border. */
  function RowBlock(t: Table, ws: seq<int>, border: string, i: int): string
    requires Complete(t) && 0 <= i < RowCount(t) && ColCount(t) <= |ws|
  {
    "\n" + RowLine(t, i, ws) + "\n" + border
  }

  /** What WriteTable writes. */
  function TableText(t: Table): (r: string)
    requires Complete(t)
    ensures RowCount(t) <= 0 || ColCount(t) <= 0 ==> r == ""
    ensures RowCount(t) > 0 && ColCount(t) > 0 ==> |r| > 0 && r[|r| - 1] == '\n'
  {
    if RowCount(t) <= 0 || ColCount(t) <= 0 then ""
    else
      var ws := Widths(t, ColCount(t));
      var border := BorderLine(ws);
      border + RowsText(t, ws, border, RowCount(t)) + "\n"
  }

  /** The sum of width + 3 over the widths. */
  function BorderWidth(ws: seq<nat>): nat {
    if |ws| == 0 then 0 else BorderWidth(ws[..|ws| - 1]) + ws[|ws| - 1] + 3
  }

  lemma {:induction false} RepeatStringLength(s: string, count: int)
    ensures |RepeatString(s, count)| == if count <= 0 then 0 else count * |s|
    decreases count
  {
    if count > 0 {
      RepeatStringLength(s, count - 1);
    }
  }

  /** The border line is 1 + the sum of width + 3 bytes long. */
  lemma {:induction false} BorderLineLength(ws: seq<nat>)
    ensures |BorderLine(ws)| == 1 + BorderWidth(ws)
  {
    if |ws| > 0 {
      BorderLineLength(ws[..|ws| - 1]);
      RepeatStringLength("-", ws[|ws| - 1] + 2);
    }
  }

  /** Every row line is as long as the border line: no cell is wider than
      its column. */
  lemma RowLineLength(t: Table, i: int)
    requires Complete(t) && 0 <= i < RowCount(t) && ColCount(t) > 0
    ensures |RowLine(t, i, Widths(t, ColCount(t)))| == |BorderLine(Widths(t, ColCount(t)))|
  {
    var ws := Widths(t, ColCount(t));
    RowCellsLength(t, i, ColCount(t));
    BorderLineLength(ws);
  }

  lemma {:induction false} RowCellsLength(t: Table, i: int, k: int)
    requires Complete(t) && 0 <= i < RowCount(t) && 0 <= k <= ColCount(t)
    ensures |RowCells(t, i, Widths(t, ColCount(t)), k)| == BorderWidth(Widths(t, k))
  {
    if k > 0 {
      RowCellsLength(t, i, k - 1);
      CellTextLength(t, i, k - 1);
      assert Widths(t, k)[..k - 1] == Widths(t, k - 1);
    }
  }

  /** A cell of a row line takes its column's width + 3 bytes. */
  lemma CellTextLength(t: Table, i: int, j: int)
    requires Complete(t) && 0 <= i < RowCount(t) && 0 <= j < ColCount(t)
    ensures |CellText(t, i, Widths(t, ColCount(t)), j)| == Widths(t, j + 1)[j] + 3
  {
    var ws := Widths(t, ColCount(t));
    WidthsPrefix(t, j + 1, ColCount(t));
    assert ws[j] == Widths(t, j + 1)[j];
    ColWidthIsMax(t, j, RowCount(t));
    assert |Get(t, i, j)| <= ws[j];
  }

  /** The first k widths do not depend on how many more there are. */
  lemma {:induction false} WidthsPrefix(t: Table, k: int, l: int)
    requires Complete(t) && RowCount(t) > 0 && 0 <= k <= l <= ColCount(t)
    ensures Widths(t, l)[..k] == Widths(t, k)
    decreases l
  {
    if l > k {
      WidthsPrefix(t, k, l - 1);
      assert Widths(t, l)[..l - 1] == Widths(t, l - 1);
    }
  }

  /** repeatWriteString */
  method RepeatWriteString(w: Io.Writer, s: string, count: int)
    modifies w
    ensures w.text == old(w.text) + RepeatString(s, count)
  {
    var i := 0;
    while i < count
      invariant (count <= 0 ==> i == 0) && (count > 0 ==> 0 <= i <= count)
      invariant w.text == old(w.text) + RepeatString(s, i)
    {
      w.Write(s);
      i := i + 1;
    }
  }

  /** rowBorderLine, writing into a buffer. */
  method RowBorderLine(ws: seq<int>) returns (line: string)
    ensures line == BorderLine(ws)
  {
    var buf := new Io.Writer();
    buf.Write("+");
    for k := 0 to |ws|
      invariant buf.text == BorderLine(ws[..k])
    {
      RepeatWriteString(buf, "-", ws[k] + 2);
      buf.Write("+");
      assert ws[..k + 1][..k] == ws[..k];
    }
    assert ws[..|ws|] == ws;
    line := buf.text;
  }

  /** writeTableRow */
  method WriteTableRow(w: Io.Writer, t: Table, i: int, ws: seq<int>)
    requires Complete(t) && 0 <= i < RowCount(t) && ColCount(t) <= |ws|
    modifies w
    ensures w.text == old(w.text) + RowLine(t, i, ws)
  {
    w.Write("|");
    var colCount := ColCount(t);
    var j := 0;
    while j < colCount
      invariant (colCount <= 0 ==> j == 0) && (colCount > 0 ==> 0 <= j <= colCount)
      invariant w.text == old(w.text) + ("|" + RowCells(t, i, ws, j))
    {
      ghost var before := "|" + RowCells(t, i, ws, j);
      WriteCell(w, t, i, ws, j);
      GoStrings.AppendAssoc(old(w.text), before, CellText(t, i, ws, j));
      GoStrings.AppendAssoc("|", RowCells(t, i, ws, j), CellText(t, i, ws, j));
      j := j + 1;
    }
  }

  /** One turn of writeTableRow's loop. */
  method WriteCell(w: Io.Writer, t: Table, i: int, ws: seq<int>, j: int)
    requires Complete(t) && 0 <= i < RowCount(t) && 0 <= j < ColCount(t) && j < |ws|
    modifies w
    ensures w.text == old(w.text) + CellText(t, i, ws, j)
  {
    w.Write(" ");
    w.Write(GoStrings.PadRight(Get(t, i, j), ws[j] + 1));
    w.Write("|");
  }

  /** The loops of WriteTable that find the column widths. */
  method ColumnWidths(t: Table) returns (widthArray: array<int>)
    requires Complete(t) && RowCount(t) > 0 && ColCount(t) > 0
    ensures widthArray[..] == Widths(t, ColCount(t))
  {
    var rowCount, colCount := RowCount(t), ColCount(t);
    widthArray := new int[colCount];
    for j := 0 to colCount
      invariant widthArray[..j] == Widths(t, j)
    {
      var maxWidth := 0;
      for i := 0 to rowCount
        invariant i > 0 ==> maxWidth == ColWidth(t, j, i)
      {
        var width := |Get(t, i, j)|;
        if i == 0 || width > maxWidth {
          maxWidth := width;
        }
      }
      widthArray[j] := maxWidth;
      assert widthArray[..j + 1] == widthArray[..j] + [maxWidth];
    }
    assert widthArray[..] == widthArray[..colCount];
  }

  /** WriteTable */
  method WriteTable(w: Io.Writer, t: Table)
    requires Complete(t)
    modifies w
    ensures w.text == old(w.text) + TableText(t)
  {
    var rowCount, colCount := RowCount(t), ColCount(t);
    if rowCount <= 0 || colCount <= 0 {
      return;
    }
    var widthArray := ColumnWidths(t);
    var ws := widthArray[..];
    var rowBorder := RowBorderLine(ws);
    w.Write(rowBorder);
    WriteRows(w, t, ws, rowBorder);
    ghost var body := rowBorder + RowsText(t, ws, rowBorder, rowCount);
    GoStrings.AppendAssoc(old(w.text), rowBorder, RowsText(t, ws, rowBorder, rowCount));
    w.Write("\n");
    GoStrings.AppendAssoc(old(w.text), body, "\n");
    assert TableText(t) == body + "\n";
  }

  /** WriteTable's row loop. */
  method WriteRows(w: Io.Writer, t: Table, ws: seq<int>, rowBorder: string)
    requires Complete(t) && 0 <= RowCount(t) && ColCount(t) <= |ws|
    modifies w
    ensures w.text == old(w.text) + RowsText(t, ws, rowBorder, RowCount(t))
  {
    for i := 0 to RowCount(t)
      invariant w.text == old(w.text) + RowsText(t, ws, rowBorder, i)
    {
      WriteRowBlock(w, t, ws, rowBorder, i);
      GoStrings.AppendAssoc(old(w.text), RowsText(t, ws, rowBorder, i), RowBlock(t, ws, rowBorder, i));
    }
  }

  /** One turn of WriteTable's row loop. */
  method WriteRowBlock(w: Io.Writer, t: Table, ws: seq<int>, rowBorder: string, i: int)
    requires Complete(t) && 0 <= i < RowCount(t) && ColCount(t) <= |ws|
    modifies w
    ensures w.text == old(w.text) + RowBlock(t, ws, rowBorder, i)
  {
    ghost var t0, row := w.text, RowLine(t, i, ws);
    w.Write("\n");
    WriteTableRow(w, t, i, ws);
    w.Write("\n");
    w.Write(rowBorder);
    GoStrings.AppendAssoc(t0, "\n", row);
    GoStrings.AppendAssoc(t0, "\n" + row, "\n");
    GoStrings.AppendAssoc(t0, "\n" + row + "\n", rowBorder);
  }
}
