/** The terminal buffer serializer, as functions on its handler's state. */
module Serializer {
  import opened Sgr
  import opened Terminal

  datatype Cell = Cell(chars: string, code: nat, width: nat, style: Style)

  datatype Line = Line(cells: seq<Cell>, isWrapped: bool)

  datatype Buffer = Buffer(lines: seq<Line>, cursorX: nat, cursorY: nat, baseY: nat, nullStyle: Style)

  predicate IsGarbage(cell: Cell) {
    || cell.code > 0x10_ffff || 0xd800 <= cell.code <= 0xdfff
    || (cell.code >= 0xf000 && cell.width == 1)
  }

  predicate IsEmpty(cell: Cell) {
    cell.code == 0 || cell.chars == "" || IsGarbage(cell)
  }

  // ---------------------------------------------------------------- the handler

  /** The handler's fields; the row arrays grow as rows end. */
  datatype Handler = Handler(
    allRows: seq<seq<Tok>>, separators: seq<seq<Tok>>, currentRow: seq<Tok>, nullCells: nat,
    cursorStyle: Style, lastContentRow: nat)

  function Begin(b: Buffer, start: nat): Handler {
    Handler([], [], [], 0, b.nullStyle, start)
  }

  function NextCell(b: Buffer, h: Handler, cell: Cell, row: nat): Handler {
    if cell.width == 0 then h
    else
      var params := DiffStyle(cell.style, h.cursorStyle, b.nullStyle);
      var styled :=
        if |params| > 0 then
          h.(currentRow := h.currentRow + Spaces(h.nullCells) + [SetPen(params)],
             nullCells := 0, lastContentRow := row, cursorStyle := cell.style)
        else h;
      if IsEmpty(cell) then styled.(nullCells := styled.nullCells + cell.width)
      else
        styled.(currentRow := styled.currentRow + Spaces(styled.nullCells) + [Print(cell.chars, cell.width)],
                nullCells := 0, lastContentRow := row)
  }

  predicate NextIsWrapped(b: Buffer, row: nat, isLast: bool) {
    !isLast && row + 1 < |b.lines| && b.lines[row + 1].isWrapped
  }

  function RowEnd(b: Buffer, h: Handler, row: nat, isLast: bool): Handler {
    var wrapped := NextIsWrapped(b, row, isLast);
    var padding := if wrapped then Spaces(h.nullCells) else [];
    var separator := if !isLast && !wrapped then [CrLf] else [];
    h.(allRows := h.allRows + [h.currentRow + padding], separators := h.separators + [separator],
       currentRow := [], nullCells := 0)
  }

  function RunCells(b: Buffer, h: Handler, row: nat, n: nat): Handler
    requires row < |b.lines| && n <= |b.lines[row].cells|
  {
    if n == 0 then h
    else NextCell(b, RunCells(b, h, row, n - 1), b.lines[row].cells[n - 1], row)
  }

  /** A row as the base handler walks it: at most `cols` cells. */
  function RunRow(b: Buffer, h: Handler, row: nat, cols: nat, isLast: bool): Handler
    requires row < |b.lines|
  {
    var n := if cols < |b.lines[row].cells| then cols else |b.lines[row].cells|;
    RowEnd(b, RunCells(b, h, row, n), row, isLast)
  }

  /** The first `k` of `count` rows from `start`. */
  function RunRows(b: Buffer, start: nat, count: nat, cols: nat, k: nat): Handler
    requires k <= count && start + count <= |b.lines|
  {
    if k == 0 then Begin(b, start)
    else RunRow(b, RunRows(b, start, count, cols, k - 1), start + k - 1, cols, k == count)
  }

  /** The first `n` rows with the separators between them. */
  function Join(h: Handler, n: nat): seq<Tok>
    requires n <= |h.allRows| && n <= |h.separators|
  {
    if n == 0 then []
    else if n == 1 then h.allRows[0]
    else Join(h, n - 1) + h.separators[n - 2] + h.allRows[n - 1]
  }

  predicate FitsOnScreen(b: Buffer, start: nat, rows: nat) {
    |b.lines| <= start + rows
  }

  function Content(b: Buffer, start: nat, count: nat, cols: nat, rows: nat): (content: seq<Tok>)
    requires 0 < count && start + count <= |b.lines|
  {
    var h := RunRows(b, start, count, cols, count);
    RowsKept(b, start, count, cols, count);
    Join(h, if FitsOnScreen(b, start, rows) then h.lastContentRow + 1 - start else count)
  }

  /** The style to restore: the cell under the cursor, or its left neighbour when the cursor
      is on the second half of a wide character. */
  function CursorStyle(b: Buffer): Style {
    var row := b.baseY + b.cursorY;
    if row < |b.lines| && b.cursorX < |b.lines[row].cells| then
      var cell := b.lines[row].cells[b.cursorX];
      if cell.width != 0 || b.cursorX == 0 then cell.style
      else b.lines[row].cells[b.cursorX - 1].style
    else b.nullStyle
  }

  function Finish(b: Buffer, start: nat, cursorStyle: Style): seq<Tok> {
    var absolute := b.baseY + b.cursorY;
    var row := if absolute + 1 < start + 1 then 1 else absolute - start + 1;
    var params := DiffStyle(CursorStyle(b), cursorStyle, b.nullStyle);
    [MoveTo(row, b.cursorX + 1)] + (if |params| > 0 then [SetPen(params)] else [])
  }

  function Serialize(b: Buffer, start: nat, count: nat, cols: nat, rows: nat, excludeCursor: bool): seq<Tok>
    requires 0 < count && start + count <= |b.lines|
  {
    Content(b, start, count, cols, rows)
    + (if excludeCursor then [] else Finish(b, start, RunRows(b, start, count, cols, count).cursorStyle))
  }

  // ---------------------------------------------------------------- bookkeeping

  lemma CellsKeep(b: Buffer, h: Handler, row: nat, n: nat)
    requires row < |b.lines| && n <= |b.lines[row].cells|
    ensures var h' := RunCells(b, h, row, n);
            && h'.allRows == h.allRows && h'.separators == h.separators
            && (h'.lastContentRow == h.lastContentRow || h'.lastContentRow == row)
    decreases n
  {
    if n > 0 {
      CellsKeep(b, h, row, n - 1);
    }
  }

  lemma {:induction false} RowsKept(b: Buffer, start: nat, count: nat, cols: nat, k: nat)
    requires k <= count && start + count <= |b.lines|
    ensures var h := RunRows(b, start, count, cols, k);
            && |h.allRows| == |h.separators| == k
            && h.currentRow == [] && h.nullCells == 0
            && start <= h.lastContentRow && (k > 0 ==> h.lastContentRow < start + k)
            && (k == 0 ==> h.lastContentRow == start)
    decreases k
  {
    if k > 0 {
      RowsKept(b, start, count, cols, k - 1);
      var h := RunRows(b, start, count, cols, k - 1);
      var cells := b.lines[start + k - 1].cells;
      CellsKeep(b, h, start + k - 1, if cols < |cells| then cols else |cells|);
    }
  }

  lemma {:induction false} JoinStable(h: Handler, row: seq<Tok>, sep: seq<Tok>, n: nat)
    requires n <= |h.allRows| == |h.separators|
    ensures Join(h.(allRows := h.allRows + [row], separators := h.separators + [sep]), n) == Join(h, n)
    decreases n
  {
    if n > 1 {
      JoinStable(h, row, sep, n - 1);
    }
  }

  lemma RowAppends(b: Buffer, start: nat, count: nat, cols: nat, m: nat)
    requires 0 < m <= count && start + count <= |b.lines|
    ensures
      var h := RunRows(b, start, count, cols, m - 1);
      var h' := RunRows(b, start, count, cols, m);
      && |h.allRows| == |h.separators| == m - 1 && |h'.allRows| == |h'.separators| == m
      && h'.allRows == h.allRows + [h'.allRows[m - 1]]
      && h'.separators == h.separators + [h'.separators[m - 1]]
  {
    hide RunCells;
    RowsKept(b, start, count, cols, m - 1);
    RowsKept(b, start, count, cols, m);
    var row := start + m - 1;
    var n := if cols < |b.lines[row].cells| then cols else |b.lines[row].cells|;
    CellsKeep(b, RunRows(b, start, count, cols, m - 1), row, n);
  }

  /** Rows already written are not touched again. */
  lemma {:induction false} JoinPrefix(b: Buffer, start: nat, count: nat, cols: nat, k: nat, m: nat)
    requires k <= m <= count && start + count <= |b.lines|
    ensures |RunRows(b, start, count, cols, k).allRows| == k == |RunRows(b, start, count, cols, k).separators|
    ensures |RunRows(b, start, count, cols, m).allRows| == m == |RunRows(b, start, count, cols, m).separators|
    ensures Join(RunRows(b, start, count, cols, m), k) == Join(RunRows(b, start, count, cols, k), k)
    decreases m
  {
    hide Join, RunRows;
    RowsKept(b, start, count, cols, k);
    RowsKept(b, start, count, cols, m);
    if k < m {
      JoinPrefix(b, start, count, cols, k, m - 1);
      RowAppends(b, start, count, cols, m);
      var h := RunRows(b, start, count, cols, m - 1);
      var h' := RunRows(b, start, count, cols, m);
      JoinStable(h, h'.allRows[m - 1], h'.separators[m - 1], k);
      JoinSame(h', h.(allRows := h'.allRows, separators := h'.separators), k);
    }
  }

  lemma {:induction false} JoinSame(g: Handler, h: Handler, n: nat)
    requires n <= |h.allRows| == |h.separators|
    requires g.allRows == h.allRows && g.separators == h.separators
    ensures Join(g, n) == Join(h, n)
    decreases n
  {
    if n > 1 {
      JoinSame(g, h, n - 1);
    }
  }
}
