/** The serializer's handler object: its fields are updated cell by cell and row by row. */
module SerializeHandler {
  import opened Sgr
  import opened Terminal
  import opened Serializer

  /** What has been joined before row `n` is added. */
  function Before(h: Handler, n: nat): seq<Tok>
    requires n <= |h.allRows| == |h.separators|
  {
    if n == 0 then [] else Join(h, n) + h.separators[n - 1]
  }

  lemma JoinNext(h: Handler, n: nat)
    requires n < |h.allRows| == |h.separators|
    ensures Join(h, n + 1) == Before(h, n) + h.allRows[n]
  {
    assert [] + h.allRows[n] == h.allRows[n];
  }

  lemma NothingBefore(h: Handler)
    requires |h.allRows| == |h.separators|
    ensures Before(h, 0) == []
  {
  }

  lemma SeparatorNext(h: Handler, n: nat)
    requires n < |h.allRows| == |h.separators|
    ensures Before(h, n + 1) == Join(h, n + 1) + h.separators[n]
  {
  }

  class StringSerializeHandler {
    const buffer: Buffer
    const terminalRows: nat
    var rowIndex: nat
    var allRows: array<seq<Tok>>
    var allRowSeparators: array<seq<Tok>>
    var currentRow: seq<Tok>
    var nullCellCount: nat
    var cursorStyle: Style
    var firstRow: nat
    var lastContentCursorRow: nat

    ghost predicate Valid()
      reads this
    {
      allRows != allRowSeparators && allRows.Length == allRowSeparators.Length && rowIndex <= allRows.Length
    }

    ghost function View(): Handler
      requires Valid()
      reads this, allRows, allRowSeparators
    {
      Handler(allRows[..rowIndex], allRowSeparators[..rowIndex], currentRow, nullCellCount,
              cursorStyle, lastContentCursorRow)
    }

    constructor (buffer: Buffer, terminalRows: nat)
      ensures Valid() && fresh(allRows) && fresh(allRowSeparators)
      ensures this.buffer == buffer && this.terminalRows == terminalRows
    {
      this.buffer := buffer;
      this.terminalRows := terminalRows;
      allRows := new seq<Tok>[0];
      allRowSeparators := new seq<Tok>[0];
      rowIndex, currentRow, nullCellCount := 0, [], 0;
      cursorStyle := buffer.nullStyle;
      firstRow, lastContentCursorRow := 0, 0;
    }

    method BeforeSerialize(rows: nat, start: nat)
      modifies this
      ensures Valid() && fresh(allRows) && fresh(allRowSeparators)
      ensures allRows.Length == rows && firstRow == start
      ensures View() == Begin(buffer, start)
    {
      allRows := new seq<Tok>[rows];
      allRowSeparators := new seq<Tok>[rows];
      rowIndex := 0;
      currentRow, nullCellCount := [], 0;
      cursorStyle := buffer.nullStyle;
      lastContentCursorRow := start;
      firstRow := start;
    }

    method NextCell(cell: Cell, row: nat)
      requires Valid()
      modifies this`currentRow, this`nullCellCount, this`cursorStyle, this`lastContentCursorRow
      ensures Valid() && View() == Serializer.NextCell(buffer, old(View()), cell, row)
    {
      if cell.width == 0 {
        return;
      }
      var params := DiffStyle(cell.style, cursorStyle, buffer.nullStyle);
      if |params| > 0 {
        currentRow := currentRow + Spaces(nullCellCount);
        nullCellCount := 0;
        lastContentCursorRow := row;
        currentRow := currentRow + [SetPen(params)];
        cursorStyle := cell.style;
      }
      if IsEmpty(cell) {
        nullCellCount := nullCellCount + cell.width;
      } else {
        currentRow := currentRow + Spaces(nullCellCount);
        nullCellCount := 0;
        currentRow := currentRow + [Print(cell.chars, cell.width)];
        lastContentCursorRow := row;
      }
    }

    method RowEnd(row: nat, isLast: bool)
      requires Valid() && rowIndex < allRows.Length
      modifies this`currentRow, this`nullCellCount, this`rowIndex, allRows, allRowSeparators
      ensures Valid() && rowIndex == old(rowIndex) + 1
      ensures View() == Serializer.RowEnd(buffer, old(View()), row, isLast)
    {
      var separator := [];
      var wrapped := !isLast && row + 1 < |buffer.lines| && buffer.lines[row + 1].isWrapped;
      if nullCellCount > 0 && wrapped {
        currentRow := currentRow + Spaces(nullCellCount);
      }
      assert currentRow == old(currentRow) + (if wrapped then Spaces(old(nullCellCount)) else []);
      nullCellCount := 0;
      if !isLast && !wrapped {
        separator := [CrLf];
      }
      allRows[rowIndex] := currentRow;
      allRowSeparators[rowIndex] := separator;
      rowIndex := rowIndex + 1;
      currentRow := [];
      assert allRows[..rowIndex] == allRows[..rowIndex - 1] + [allRows[rowIndex - 1]];
      assert allRowSeparators[..rowIndex] == allRowSeparators[..rowIndex - 1] + [separator];
    }

    method SerializeString(excludeFinalCursorPosition: bool) returns (content: seq<Tok>)
      requires Valid() && rowIndex == allRows.Length
      requires firstRow <= lastContentCursorRow < firstRow + allRows.Length
      ensures content ==
              Join(View(), if FitsOnScreen(buffer, firstRow, terminalRows)
                           then lastContentCursorRow + 1 - firstRow else allRows.Length)
              + (if excludeFinalCursorPosition then [] else Finish(buffer, firstRow, cursorStyle))
    {
      var rowEnd := allRows.Length;
      if |buffer.lines| <= firstRow + terminalRows {
        rowEnd := lastContentCursorRow + 1 - firstRow;
      }
      content := [];
      ghost var h := View();
      assert h.allRows == allRows[..] && h.separators == allRowSeparators[..];
      hide Join, Finish, View, Before;
      assert Before(h, 0) == [] by { NothingBefore(h); }
      for i := 0 to rowEnd
        invariant content == if i < rowEnd then Before(h, i) else Join(h, rowEnd)
      {
        JoinNext(h, i);
        content := content + allRows[i];
        if i + 1 < rowEnd {
          content := content + allRowSeparators[i];
          SeparatorNext(h, i);
        }
      }
      if !excludeFinalCursorPosition {
        content := content + Finish(buffer, firstRow, cursorStyle);
      }
    }

    method Serialize(start: nat, count: nat, cols: nat, excludeFinalCursorPosition: bool)
      returns (content: seq<Tok>)
      requires 0 < count && start + count <= |buffer.lines|
      modifies this
      ensures content == Serializer.Serialize(buffer, start, count, cols, terminalRows, excludeFinalCursorPosition)
    {
      hide Serializer.NextCell, Serializer.RowEnd;
      BeforeSerialize(count, start);
      for i := 0 to count
        invariant Valid() && fresh(allRows) && fresh(allRowSeparators)
        invariant allRows.Length == count && rowIndex == i && firstRow == start
        invariant View() == RunRows(buffer, start, count, cols, i)
      {
        var row := start + i;
        var line := buffer.lines[row];
        var end := if cols < |line.cells| then cols else |line.cells|;
        for col := 0 to end
          invariant Valid() && fresh(allRows) && fresh(allRowSeparators)
          invariant allRows.Length == count && rowIndex == i && firstRow == start
          invariant View() == RunCells(buffer, RunRows(buffer, start, count, cols, i), row, col)
        {
          NextCell(line.cells[col], row);
        }
        RowEnd(row, i + 1 == count);
      }
      RowsKept(buffer, start, count, cols, count);
      content := SerializeString(excludeFinalCursorPosition);
    }
  }
}
