/** Where the cells of a buffer land when the serializer's output is fed to a fresh terminal, as
    long as the cursor is in the row it should be in. */
module Placement {
  import opened Sgr
  import opened Terminal
  import opened Serializer
  import opened Brushes

  // ---------------------------------------------------------------- hypotheses

  predicate HasText(line: Line, n: nat)
    requires n <= |line.cells|
  {
    exists c | 0 <= c < n :: line.cells[c].width != 0 && !IsEmpty(line.cells[c])
  }

  /** A range of rows as wide as the terminal; their styles may be any. */
  ghost predicate Laid(b: Buffer, start: nat, count: nat, cols: nat) {
    && 0 < cols && 0 < count && start + count <= |b.lines|
    && (forall r | start <= r < start + count :: WellLaid(b.lines[r], cols))
  }

  predicate HasPrint(toks: seq<Tok>) { exists k :: 0 <= k < |toks| && toks[k].Print? }

  /** Nothing of the first `n` cells is printed: no text, and one style all over. */
  predicate Blank(line: Line, n: nat, nullStyle: Style)
    requires n <= |line.cells|
  {
    && !HasText(line, n)
    && forall c | 0 <= c < n :: line.cells[c].width != 0 ==>
         DiffStyle(line.cells[c].style, line.cells[0].style, nullStyle) == []
  }

  /** A wrapped row with nothing to print before a hard line break. */
  predicate Breaks(b: Buffer, start: nat, count: nat, cols: nat, r: nat) {
    && start < r < start + count - 1 && start + count <= |b.lines|
    && b.lines[r].isWrapped && !b.lines[r + 1].isWrapped
    && cols <= |b.lines[r].cells| && Blank(b.lines[r], cols, b.nullStyle)
  }

  // ---------------------------------------------------------------- what a replay shows

  /** Cell (r, c) of the buffer as the terminal shows it: a cell with text appears with its
      characters and width, painted with the brush; an empty one shows nothing or a blank. */
  ghost predicate Shown(b: Buffer, start: nat, t: Term, r: nat, c: nat)
    requires start <= r < |b.lines| && c < |b.lines[r].cells|
  {
    var cell := b.lines[r].cells[c];
    var at := (r - start, c);
    if cell.width == 0 then true
    else if IsEmpty(cell) then at in t.grid ==> t.grid[at].chars == " "
    else at in t.grid && t.grid[at] == Glyph(cell.chars, cell.width, BrushAt(b, start, r, c + 1).pen)
  }

  ghost predicate RowShown(b: Buffer, start: nat, t: Term, r: nat, n: nat)
    requires start <= r < |b.lines| && n <= |b.lines[r].cells|
  {
    forall c | 0 <= c < n :: Shown(b, start, t, r, c)
  }

  /** Every wrap mark of the buffer, and no other, on the rows the cursor has reached. */
  ghost predicate WrapsShown(b: Buffer, start: nat, t: Term) {
    forall q: nat :: q in t.wrapped <==>
      (0 < q <= t.Row() && start + q < |b.lines| && b.lines[start + q].isWrapped)
  }

  // ---------------------------------------------------------------- the loop invariant

  /** The column the first `n` cells reach: a wide cell reaches over its placeholder. */
  function Reach(line: Line, n: nat): nat
    requires n <= |line.cells|
  {
    if n > 0 && line.cells[n - 1].width == 2 then n + 1 else n
  }

  /** Whether the cursor has come into the row: a wrapped row is entered by its first print. */
  predicate Entered(b: Buffer, start: nat, h: Handler, row: nat)
    requires start <= row < |b.lines|
  {
    !(start < row && b.lines[row].isWrapped) || HasPrint(h.currentRow)
  }

  ghost predicate Placed(b: Buffer, start: nat, cols: nat, t: Term, h: Handler, row: nat, n: nat)
    requires start <= row < |b.lines| && n <= |b.lines[row].cells|
  {
    && WellPlaced(t) && t.cols == cols
    && h.nullCells <= Reach(b.lines[row], n)
    && Poised(t, row - start, Reach(b.lines[row], n) - h.nullCells)
    && (t.Row() == row - start <==> Entered(b, start, h, row))
    && WrapsShown(b, start, t)
  }

  ghost predicate Drawn(b: Buffer, start: nat, t: Term, h: Handler, row: nat, n: nat)
    requires start <= row < |b.lines| && n <= |b.lines[row].cells|
    requires h.nullCells <= Reach(b.lines[row], n)
  {
    var k := Reach(b.lines[row], n) - h.nullCells;
    && (forall r | start <= r < row :: RowShown(b, start, t, r, |b.lines[r].cells|))
    && RowShown(b, start, t, row, n)
    && (forall p: (nat, nat) | p in t.grid :: p.0 < row - start || (p.0 == row - start && p.1 < k))
    && (forall c | k <= c < n :: b.lines[row].cells[c].width == 0 || IsEmpty(b.lines[row].cells[c]))
  }

  ghost predicate Mid(b: Buffer, start: nat, cols: nat, t: Term, h: Handler, row: nat, n: nat)
    requires start <= row < |b.lines| && n <= |b.lines[row].cells|
  {
    Placed(b, start, cols, t, h, row, n) && Drawn(b, start, t, h, row, n)
  }

  lemma PrintsAppend(toks: seq<Tok>, tok: Tok)
    ensures HasPrint(toks + [tok]) <==> HasPrint(toks) || tok.Print?
  {
    if k :| 0 <= k < |toks| && toks[k].Print? {
      assert (toks + [tok])[k] == toks[k];
    }
    assert (toks + [tok])[|toks|] == tok;
  }

  lemma PrintsOfSpaces(toks: seq<Tok>, n: nat)
    ensures HasPrint(toks + Spaces(n)) <==> HasPrint(toks) || n > 0
  {
    if k :| 0 <= k < |toks| && toks[k].Print? {
      assert (toks + Spaces(n))[k] == toks[k];
    }
    if n > 0 {
      assert (toks + Spaces(n))[|toks|] == Print(" ", 1);
    }
  }

  /** Writing the pending blanks: where the cursor comes to stand. */
  lemma FlushPlaced(b: Buffer, start: nat, cols: nat, t: Term, h: Handler, row: nat, n: nat)
    requires start <= row < |b.lines| && n <= |b.lines[row].cells| && WellLaid(b.lines[row], cols)
    requires Placed(b, start, cols, t, h, row, n)
    ensures
      var t' := Feed(t, Spaces(h.nullCells));
      && Placed(b, start, cols, t', h.(currentRow := h.currentRow + Spaces(h.nullCells), nullCells := 0), row, n)
      && (h.nullCells > 0 ==> t'.Row() == row - start)
  {
    hide HasPrint;
    PrintsOfSpaces(h.currentRow, h.nullCells);
    PutSpaces(t, h.nullCells, row - start, Reach(b.lines[row], n) - h.nullCells);
    assert WrapsShown(b, start, Feed(t, Spaces(h.nullCells)));
  }

  /** ... and what is on the screen. */
  lemma FlushDrawn(b: Buffer, start: nat, cols: nat, t: Term, h: Handler, row: nat, n: nat)
    requires start <= row < |b.lines| && n <= |b.lines[row].cells| && WellLaid(b.lines[row], cols)
    requires Mid(b, start, cols, t, h, row, n)
    ensures Drawn(b, start, Feed(t, Spaces(h.nullCells)), h.(currentRow := h.currentRow + Spaces(h.nullCells), nullCells := 0), row, n)
  {
    hide HasPrint, BrushAt, IsEmpty, WrapsShown;
    var k := Reach(b.lines[row], n) - h.nullCells;
    var t' := Feed(t, Spaces(h.nullCells));
    PutSpaces(t, h.nullCells, row - start, k);
    hide Feed;
    forall r | start <= r < row ensures RowShown(b, start, t', r, |b.lines[r].cells|) {
      assert RowShown(b, start, t, r, |b.lines[r].cells|);
      forall c | 0 <= c < |b.lines[r].cells| ensures Shown(b, start, t', r, c) {
        assert Shown(b, start, t, r, c);
      }
    }
    forall c | 0 <= c < n ensures Shown(b, start, t', row, c) {
      assert Shown(b, start, t, row, c);
    }
  }

  lemma FlushKeeps(b: Buffer, start: nat, cols: nat, t: Term, h: Handler, row: nat, n: nat)
    requires start <= row < |b.lines| && n <= |b.lines[row].cells| && WellLaid(b.lines[row], cols)
    requires Mid(b, start, cols, t, h, row, n)
    ensures
      var t' := Feed(t, Spaces(h.nullCells));
      && Mid(b, start, cols, t', h.(currentRow := h.currentRow + Spaces(h.nullCells), nullCells := 0), row, n)
      && (h.nullCells > 0 ==> t'.Row() == row - start)
  {
    FlushPlaced(b, start, cols, t, h, row, n);
    FlushDrawn(b, start, cols, t, h, row, n);
    hide Feed, Drawn, WrapsShown;
  }

  lemma SetPenKeeps(b: Buffer, start: nat, cols: nat, t: Term, h: Handler, row: nat, n: nat, params: seq<nat>)
    requires start <= row < |b.lines| && n <= |b.lines[row].cells|
    requires Mid(b, start, cols, t, h, row, n)
    ensures Mid(b, start, cols, Put(t, SetPen(params)), h.(currentRow := h.currentRow + [SetPen(params)]), row, n)
  {
    hide HasPrint, Apply, BrushAt, IsEmpty;
    PrintsAppend(h.currentRow, SetPen(params));
    var t' := Put(t, SetPen(params));
    forall r | start <= r < row ensures RowShown(b, start, t', r, |b.lines[r].cells|) {
      assert RowShown(b, start, t, r, |b.lines[r].cells|);
      forall c | 0 <= c < |b.lines[r].cells| ensures Shown(b, start, t', r, c) {
        assert Shown(b, start, t, r, c);
      }
    }
    forall c | 0 <= c < n ensures Shown(b, start, t', row, c) {
      assert Shown(b, start, t, row, c);
    }
    assert WrapsShown(b, start, t');
  }

  lemma PrintKeeps(b: Buffer, start: nat, cols: nat, t: Term, h: Handler, row: nat, n: nat)
    requires start <= row < |b.lines| && n < |b.lines[row].cells| && WellLaid(b.lines[row], cols)
    requires Mid(b, start, cols, t, h, row, n) && h.nullCells == 0
    requires
      var cell := b.lines[row].cells[n];
      cell.width != 0 && !IsEmpty(cell) && t.pen == BrushAt(b, start, row, n + 1).pen
    ensures
      var tok := Print(b.lines[row].cells[n].chars, b.lines[row].cells[n].width);
      Mid(b, start, cols, Put(t, tok), h.(currentRow := h.currentRow + [tok]), row, n + 1)
  {
    hide HasPrint, BrushAt;
    var line := b.lines[row];
    var cell := line.cells[n];
    PrintsAppend(h.currentRow, Print(cell.chars, cell.width));
    assert Reach(line, n) == n && Reach(line, n + 1) == n + cell.width;
    var t' := Put(t, Print(cell.chars, cell.width));
    PutGlyph(t, cell.chars, cell.width, row - start, n);
    assert WrapsShown(b, start, t');
    assert Shown(b, start, t', row, n);
    forall r | start <= r < row ensures RowShown(b, start, t', r, |b.lines[r].cells|) {
      assert RowShown(b, start, t, r, |b.lines[r].cells|);
      forall c | 0 <= c < |b.lines[r].cells| ensures Shown(b, start, t', r, c) {
        assert Shown(b, start, t, r, c);
      }
    }
    forall c | 0 <= c < n ensures Shown(b, start, t', row, c) {
      assert Shown(b, start, t, row, c);
    }
  }

  /** An empty cell, or a placeholder, is only counted. */
  lemma CountKeeps(b: Buffer, start: nat, cols: nat, t: Term, h: Handler, row: nat, n: nat)
    requires start <= row < |b.lines| && n < |b.lines[row].cells| && WellLaid(b.lines[row], cols)
    requires Mid(b, start, cols, t, h, row, n)
    requires b.lines[row].cells[n].width == 0 || IsEmpty(b.lines[row].cells[n])
    ensures Mid(b, start, cols, t, h.(nullCells := h.nullCells + b.lines[row].cells[n].width), row, n + 1)
  {
    hide WrapsShown;
    ReachGrows(b.lines[row], cols, n);
    assert Shown(b, start, t, row, n);
  }

  lemma ReachGrows(line: Line, cols: nat, n: nat)
    requires WellLaid(line, cols) && n < cols
    ensures Reach(line, n + 1) == Reach(line, n) + line.cells[n].width
  {
    assert line.cells[n].width == 0 <==> 0 < n && line.cells[n - 1].width == 2;
    assert line.cells[n].width <= 2;
  }

  /** Only these fields of a handler matter to the invariant. */
  lemma MidFields(b: Buffer, start: nat, cols: nat, t: Term, h: Handler, g: Handler, row: nat, n: nat)
    requires start <= row < |b.lines| && n <= |b.lines[row].cells|
    requires h.nullCells == g.nullCells && h.currentRow == g.currentRow
    requires Mid(b, start, cols, t, h, row, n)
    ensures Mid(b, start, cols, t, g, row, n)
  {
  }

  lemma CellKeeps(b: Buffer, start: nat, rows: nat, cols: nat, lead: seq<Tok>, h: Handler, row: nat, n: nat)
    requires start <= row < |b.lines| && n < |b.lines[row].cells| && WellLaid(b.lines[row], cols)
    requires Mid(b, start, cols, Screen(rows, cols, lead, h), h, row, n)
    requires Brushed(b, start, Screen(rows, cols, lead, h), h, row, n)
    ensures var h' := NextCell(b, h, b.lines[row].cells[n], row);
            Mid(b, start, cols, Screen(rows, cols, lead, h'), h', row, n + 1)
  {
    hide Feed, DiffStyle, Shown, WrapsShown, Drawn, Placed, Apply;
    var cell := b.lines[row].cells[n];
    var h' := NextCell(b, h, cell, row);
    var t := Screen(rows, cols, lead, h);
    if cell.width == 0 {
      CountKeeps(b, start, cols, t, h, row, n);
      MidFields(b, start, cols, t, h.(nullCells := h.nullCells + 0), h, row, n + 1);
    } else {
      var params := DiffStyle(cell.style, h.cursorStyle, b.nullStyle);
      var styled := h;
      if |params| > 0 {
        styled := h.(currentRow := h.currentRow + Spaces(h.nullCells) + [SetPen(params)],
                     nullCells := 0, lastContentRow := row, cursorStyle := cell.style);
        StyledKeeps(b, start, rows, cols, lead, h, row, n, cell.style);
      }
      TextKeeps(b, start, rows, cols, lead, styled, row, n);
    }
  }

  /** The style part of a cell. */
  lemma StyledKeeps(b: Buffer, start: nat, rows: nat, cols: nat, lead: seq<Tok>, h: Handler, row: nat, n: nat, style: Style)
    requires start <= row < |b.lines| && n <= |b.lines[row].cells| && WellLaid(b.lines[row], cols)
    requires Mid(b, start, cols, Screen(rows, cols, lead, h), h, row, n)
    ensures
      var params := DiffStyle(style, h.cursorStyle, b.nullStyle);
      var styled := h.(currentRow := h.currentRow + Spaces(h.nullCells) + [SetPen(params)],
                       nullCells := 0, lastContentRow := row, cursorStyle := style);
      var t := Screen(rows, cols, lead, styled);
      Mid(b, start, cols, t, styled, row, n) && t.pen == Apply(Screen(rows, cols, lead, h).pen, params)
  {
    hide Feed, DiffStyle, Shown, WrapsShown, Drawn, Apply;
    var params := DiffStyle(style, h.cursorStyle, b.nullStyle);
    var t := Screen(rows, cols, lead, h);
    FlushKeeps(b, start, cols, t, h, row, n);
    SpacesKeepPen(t, h.nullCells);
    var flushed := h.(currentRow := h.currentRow + Spaces(h.nullCells), nullCells := 0);
    SetPenKeeps(b, start, cols, Feed(t, Spaces(h.nullCells)), flushed, row, n, params);
    ScreenAppend(rows, cols, lead, h, Spaces(h.nullCells), SetPen(params));
    var styled := h.(currentRow := h.currentRow + Spaces(h.nullCells) + [SetPen(params)],
                     nullCells := 0, lastContentRow := row, cursorStyle := style);
    MidFields(b, start, cols, Screen(rows, cols, lead, styled),
              flushed.(currentRow := flushed.currentRow + [SetPen(params)]), styled, row, n);
  }

  /** The text part of a cell, with the brush dipped. */
  lemma TextKeeps(b: Buffer, start: nat, rows: nat, cols: nat, lead: seq<Tok>, h: Handler, row: nat, n: nat)
    requires start <= row < |b.lines| && n < |b.lines[row].cells| && WellLaid(b.lines[row], cols)
    requires b.lines[row].cells[n].width != 0
    requires Mid(b, start, cols, Screen(rows, cols, lead, h), h, row, n)
    requires Screen(rows, cols, lead, h).pen == BrushAt(b, start, row, n + 1).pen
    ensures
      var cell := b.lines[row].cells[n];
      var h' :=
        if IsEmpty(cell) then h.(nullCells := h.nullCells + cell.width)
        else h.(currentRow := h.currentRow + Spaces(h.nullCells) + [Print(cell.chars, cell.width)],
                nullCells := 0, lastContentRow := row);
      Mid(b, start, cols, Screen(rows, cols, lead, h'), h', row, n + 1)
  {
    hide Feed, Shown, WrapsShown, Drawn;
    var cell := b.lines[row].cells[n];
    var t := Screen(rows, cols, lead, h);
    if IsEmpty(cell) {
      CountKeeps(b, start, cols, t, h, row, n);
    } else {
      FlushKeeps(b, start, cols, t, h, row, n);
      SpacesKeepPen(t, h.nullCells);
      var flushed := h.(currentRow := h.currentRow + Spaces(h.nullCells), nullCells := 0);
      PrintKeeps(b, start, cols, Feed(t, Spaces(h.nullCells)), flushed, row, n);
      ScreenAppend(rows, cols, lead, h, Spaces(h.nullCells), Print(cell.chars, cell.width));
      var h' := h.(currentRow := h.currentRow + Spaces(h.nullCells) + [Print(cell.chars, cell.width)],
                   nullCells := 0, lastContentRow := row);
      MidFields(b, start, cols, Screen(rows, cols, lead, h'),
                flushed.(currentRow := flushed.currentRow + [Print(cell.chars, cell.width)]), h', row, n + 1);
    }
  }

  lemma {:induction false} CellsKeepMid(b: Buffer, start: nat, rows: nat, cols: nat, lead: seq<Tok>, h: Handler, row: nat, n: nat)
    requires start <= row < |b.lines| && n <= |b.lines[row].cells| && WellLaid(b.lines[row], cols)
    requires Mid(b, start, cols, Screen(rows, cols, lead, h), h, row, 0)
    requires Brushed(b, start, Screen(rows, cols, lead, h), h, row, 0)
    ensures var h' := RunCells(b, h, row, n);
            Mid(b, start, cols, Screen(rows, cols, lead, h'), h', row, n)
    decreases n
  {
    hide Mid, NextCell, Screen, Brushed;
    if n > 0 {
      CellsKeepMid(b, start, rows, cols, lead, h, row, n - 1);
      BrushCells(b, start, rows, cols, lead, h, row, n - 1);
      CellKeeps(b, start, rows, cols, lead, RunCells(b, h, row, n - 1), row, n - 1);
    }
  }

  // ---------------------------------------------------------------- rows

  /** Everything up to row `end` is on the screen. */
  ghost predicate Done(b: Buffer, start: nat, cols: nat, t: Term, h: Handler, end: nat)
    requires start <= end <= |b.lines|
  {
    && WellPlaced(t) && t.cols == cols && t.Row() < end - start
    && (forall r | start <= r < end :: RowShown(b, start, t, r, |b.lines[r].cells|))
    && (forall p: (nat, nat) | p in t.grid :: p.0 < end - start)
    && WrapsShown(b, start, t)
  }

  /** The end of a row: padding if the next row continues it. */
  lemma RowDone(b: Buffer, start: nat, rows: nat, cols: nat, lead: seq<Tok>, h: Handler, row: nat, isLast: bool)
    requires start <= row < |b.lines| && WellLaid(b.lines[row], cols)
    requires !isLast ==> row + 1 < |b.lines|
    requires Mid(b, start, cols, Screen(rows, cols, lead, h), h, row, cols)
    ensures
      var h' := RowEnd(b, h, row, isLast);
      var t := Feed(Fresh(rows, cols), lead + h'.allRows[|h.allRows|]);
      var t' := Feed(Fresh(rows, cols), lead + h'.allRows[|h.allRows|] + h'.separators[|h.separators|]);
      && Done(b, start, cols, t, h', row + 1)
      && (!isLast && (b.lines[row + 1].isWrapped || Entered(b, start, h, row)) ==> Mid(b, start, cols, t', h', row + 1, 0))
  {
    hide Feed, Shown;
    var h' := RowEnd(b, h, row, isLast);
    var blank := Fresh(rows, cols);
    var wrapped := NextIsWrapped(b, row, isLast);
    var t0 := Screen(rows, cols, lead, h);
    var text := lead + h'.allRows[|h.allRows|];
    if wrapped {
      assert text == (lead + h.currentRow) + Spaces(h.nullCells);
      FeedConcat(blank, lead + h.currentRow, Spaces(h.nullCells));
      FlushKeeps(b, start, cols, t0, h, row, cols);
      var t := Feed(blank, text);
      assert text + [] == text;
      assert Reach(b.lines[row], cols) == cols;
      assert t.Row() == row - start && t.x == cols;
      assert Mid(b, start, cols, t, h', row + 1, 0);
    } else {
      assert text == lead + h.currentRow;
      var t := Feed(blank, text);
      if !isLast && Entered(b, start, h, row) {
        FeedOne(blank, text, CrLf);
        PutCrLf(t, row - start);
        var t' := Put(t, CrLf);
        forall r | start <= r < row + 1 ensures RowShown(b, start, t', r, |b.lines[r].cells|) {
          RowShownSameGrid(b, start, t, t', r);
        }
        assert Mid(b, start, cols, t', h', row + 1, 0);
      }
    }
  }

  lemma RowShownSameGrid(b: Buffer, start: nat, t: Term, t': Term, r: nat)
    requires start <= r < |b.lines| && t.grid == t'.grid
    requires RowShown(b, start, t, r, |b.lines[r].cells|)
    ensures RowShown(b, start, t', r, |b.lines[r].cells|)
  {
    forall c | 0 <= c < |b.lines[r].cells| ensures Shown(b, start, t', r, c) {
      assert Shown(b, start, t, r, c);
    }
  }

  lemma {:induction false} RowsDone(b: Buffer, start: nat, count: nat, rows: nat, cols: nat, k: nat)
    requires Laid(b, start, count, cols) && 0 < rows && k <= count
    requires forall r | start <= r < start + k - 1 :: !Breaks(b, start, count, cols, r)
    ensures
      var h := RunRows(b, start, count, cols, k);
      && |h.allRows| == |h.separators| == k && h.currentRow == [] && h.nullCells == 0
      && (0 < k ==> Done(b, start, cols, Feed(Fresh(rows, cols), Join(h, k)), h, start + k))
      && (k < count && (k > 0 ==> !Breaks(b, start, count, cols, start + k - 1)) ==>
            Mid(b, start, cols, Feed(Fresh(rows, cols), Lead(h)), h, start + k, 0))
    decreases k
  {
    hide Feed, Done, Mid, Lead, Join, RunRow, Breaks, Brushed;
    RowsKept(b, start, count, cols, k);
    if k == 0 {
      Beginning(b, start, count, rows, cols);
      LeadNothing(Begin(b, start));
    } else {
      RowsDone(b, start, count, rows, cols, k - 1);
      RowsKept(b, start, count, cols, k - 1);
      BrushRows(b, start, count, rows, cols, k - 1);
      OneMoreRow(b, start, count, rows, cols, RunRows(b, start, count, cols, k - 1), k);
    }
  }

  /** A whole row, from its first cell to its separator. */
  lemma OneMoreRow(b: Buffer, start: nat, count: nat, rows: nat, cols: nat, before: Handler, k: nat)
    requires Laid(b, start, count, cols) && 0 < rows && 0 < k <= count
    requires |before.allRows| == |before.separators| == k - 1 && before.currentRow == [] && before.nullCells == 0
    requires Mid(b, start, cols, Feed(Fresh(rows, cols), Lead(before)), before, start + k - 1, 0)
    requires Brushed(b, start, Feed(Fresh(rows, cols), Lead(before)), before, start + k - 1, 0)
    ensures
      var h := RunRow(b, before, start + k - 1, cols, k == count);
      && |h.allRows| == |h.separators| == k
      && Done(b, start, cols, Feed(Fresh(rows, cols), Join(h, k)), h, start + k)
      && (k < count && !Breaks(b, start, count, cols, start + k - 1) ==>
            Mid(b, start, cols, Feed(Fresh(rows, cols), Lead(h)), h, start + k, 0))
  {
    hide Feed, Done, Mid, RunCells, Lead, Join, Blank, HasPrint, Brushed;
    var row := start + k - 1;
    var lead := Lead(before);
    assert lead + before.currentRow == lead;
    CellsKeepMid(b, start, rows, cols, lead, before, row, cols);
    var h1 := RunCells(b, before, row, cols);
    CellsKeep(b, before, row, cols);
    BlankPrintsNothing(b, before, row, cols, cols);
    RowDone(b, start, rows, cols, lead, h1, row, k == count);
    LeadGrows(before, h1, RowEnd(b, h1, row, k == count));
  }

  // ---------------------------------------------------------------- blank rows

  predicate SameLook(a: Style, b: Style, nullStyle: Style) { DiffStyle(a, b, nullStyle) == [] }

  lemma SameLookIsEquivalence(a: Style, b: Style, c: Style, nullStyle: Style)
    ensures SameLook(a, a, nullStyle)
    ensures SameLook(a, b, nullStyle) <==> SameLook(b, a, nullStyle)
    ensures SameLook(a, b, nullStyle) && SameLook(b, c, nullStyle) ==> SameLook(a, c, nullStyle)
  {
    hide DiffStyle, IsAttributeDefault;
    SilentMeans(a, a, nullStyle);
    SilentMeans(a, b, nullStyle);
    SilentMeans(b, a, nullStyle);
    SilentMeans(b, c, nullStyle);
    SilentMeans(a, c, nullStyle);
  }

  /** One more cell prints something unless it is empty and looks like the row's first. */
  lemma BlankGrows(line: Line, cols: nat, n: nat, nullStyle: Style)
    requires WellLaid(line, cols) && n < cols
    ensures Blank(line, n + 1, nullStyle) <==>
      && Blank(line, n, nullStyle)
      && (line.cells[n].width != 0 ==>
            IsEmpty(line.cells[n]) && SameLook(line.cells[n].style, line.cells[0].style, nullStyle))
  {
    hide DiffStyle, IsEmpty;
    TextGrows(line, n);
  }

  lemma TextGrows(line: Line, n: nat)
    requires n < |line.cells|
    ensures HasText(line, n + 1) <==> HasText(line, n) || (line.cells[n].width != 0 && !IsEmpty(line.cells[n]))
  {
  }

  /** A row emits a print exactly when it is not blank; while it is blank its cells are only
      counted, and the look of the first one is the handler's. */
  lemma {:induction false} BlankPrintsNothing(b: Buffer, h: Handler, row: nat, cols: nat, n: nat)
    requires row < |b.lines| && WellLaid(b.lines[row], cols) && n <= cols
    requires h.currentRow == [] && h.nullCells == 0
    ensures
      var h' := RunCells(b, h, row, n);
      && (HasPrint(h'.currentRow) <==> !Blank(b.lines[row], n, b.nullStyle))
      && (Blank(b.lines[row], n, b.nullStyle) ==> h'.nullCells == Reach(b.lines[row], n))
      && (Blank(b.lines[row], n, b.nullStyle) && 0 < n ==>
            SameLook(b.lines[row].cells[0].style, h'.cursorStyle, b.nullStyle))
    decreases n
  {
    hide HasPrint, Blank, DiffStyle, IsEmpty;
    var line := b.lines[row];
    if n == 0 {
      NothingBlank(line, b.nullStyle);
    } else {
      BlankPrintsNothing(b, h, row, cols, n - 1);
      BlankGrows(line, cols, n - 1, b.nullStyle);
      ReachGrows(line, cols, n - 1);
      hide WellLaid, Reach, SameLook;
      CellPrints(b, RunCells(b, h, row, n - 1), line.cells[n - 1], row);
      SameLookIsEquivalence(line.cells[n - 1].style, line.cells[0].style, RunCells(b, h, row, n - 1).cursorStyle, b.nullStyle);
      SameLookIsEquivalence(line.cells[n - 1].style, RunCells(b, h, row, n - 1).cursorStyle, line.cells[0].style, b.nullStyle);
      SameLookIsEquivalence(line.cells[0].style, RunCells(b, h, row, n - 1).cursorStyle, line.cells[n - 1].style, b.nullStyle);
      FirstIsWide(line, cols);
      ReachIsFar(line, n - 1);
    }
  }

  lemma FirstIsWide(line: Line, cols: nat)
    requires WellLaid(line, cols) && 0 < cols
    ensures line.cells[0].width != 0
  {
    ReachGrows(line, cols, 0);
  }

  lemma ReachIsFar(line: Line, n: nat)
    requires n <= |line.cells|
    ensures Reach(line, n) >= n && Reach(line, 0) == 0
  {
  }

  lemma NothingBlank(line: Line, nullStyle: Style)
    ensures Blank(line, 0, nullStyle) && !HasPrint([])
  {
  }

  /** What one cell adds to the row's prints, and what becomes of the blanks and the style. */
  lemma CellPrints(b: Buffer, h: Handler, cell: Cell, row: nat)
    ensures
      var h' := NextCell(b, h, cell, row);
      var same := SameLook(cell.style, h.cursorStyle, b.nullStyle);
      if cell.width == 0 then h' == h
      else
        && (HasPrint(h'.currentRow) <==> HasPrint(h.currentRow) || (!same && h.nullCells > 0) || !IsEmpty(cell))
        && h'.cursorStyle == (if same then h.cursorStyle else cell.style)
        && (same && IsEmpty(cell) ==> h'.nullCells == h.nullCells + cell.width)
        && (!same && IsEmpty(cell) ==> h'.nullCells == cell.width)
  {
    hide HasPrint, DiffStyle, IsEmpty;
    if cell.width != 0 {
      var params := DiffStyle(cell.style, h.cursorStyle, b.nullStyle);
      var styled := if |params| > 0 then h.currentRow + Spaces(h.nullCells) + [SetPen(params)] else h.currentRow;
      var blanks := if |params| > 0 then 0 else h.nullCells;
      PrintsOfSpaces(h.currentRow, h.nullCells);
      PrintsAppend(h.currentRow + Spaces(h.nullCells), SetPen(params));
      PrintsOfSpaces(styled, blanks);
      PrintsAppend(styled + Spaces(blanks), Print(cell.chars, cell.width));
    }
  }

  lemma Beginning(b: Buffer, start: nat, count: nat, rows: nat, cols: nat)
    requires Laid(b, start, count, cols) && 0 < rows
    ensures Mid(b, start, cols, Feed(Fresh(rows, cols), []), Begin(b, start), start, 0)
  {
  }

  // ---------------------------------------------------------------- dropped rows

  lemma {:induction false} QuietCells(b: Buffer, h: Handler, row: nat, n: nat)
    requires row < |b.lines| && n <= |b.lines[row].cells|
    requires h.lastContentRow < row
    requires RunCells(b, h, row, n).lastContentRow != row
    ensures RunCells(b, h, row, n).cursorStyle == h.cursorStyle
    ensures RunCells(b, h, row, n).lastContentRow == h.lastContentRow
    ensures !HasText(b.lines[row], n)
    decreases n
  {
    if n > 0 {
      QuietCells(b, h, row, n - 1);
    }
  }

  /** After the last row with content nothing is written and the pen stays. */
  lemma {:induction false} QuietRows(b: Buffer, start: nat, count: nat, cols: nat, k: nat)
    requires Laid(b, start, count, cols) && k <= count
    requires RunRows(b, start, count, cols, count).lastContentRow < start + k
    ensures RunRows(b, start, count, cols, k).lastContentRow == RunRows(b, start, count, cols, count).lastContentRow
    ensures RunRows(b, start, count, cols, k).cursorStyle == RunRows(b, start, count, cols, count).cursorStyle
    ensures forall r | start + k <= r < start + count :: !HasText(b.lines[r], cols)
    decreases count - k
  {
    hide RunCells, HasText, DiffStyle;
    if k < count {
      QuietRows(b, start, count, cols, k + 1);
      RowsKept(b, start, count, cols, k);
      RowsKept(b, start, count, cols, count);
      var h := RunRows(b, start, count, cols, k);
      assert WellLaid(b.lines[start + k], cols);
      CellsKeep(b, h, start + k, cols);
      QuietCells(b, h, start + k, cols);
    }
  }

  /** Nor does the brush change. */
  lemma {:induction false} QuietBrush(b: Buffer, start: nat, h: Handler, row: nat, n: nat)
    requires start <= row < |b.lines| && n <= |b.lines[row].cells|
    requires h.lastContentRow < row && RunCells(b, h, row, n).lastContentRow != row
    requires h.cursorStyle == BrushAt(b, start, row, 0).style
    ensures BrushAt(b, start, row, n) == BrushAt(b, start, row, 0)
    ensures RunCells(b, h, row, n).cursorStyle == h.cursorStyle
    decreases n
  {
    hide DiffStyle, IsEmpty;
    if n > 0 {
      QuietCells(b, h, row, n - 1);
      QuietBrush(b, start, h, row, n - 1);
    }
  }

  lemma {:induction false} QuietBrushes(b: Buffer, start: nat, count: nat, cols: nat, rows: nat, k: nat)
    requires Laid(b, start, count, cols) && 0 < k <= count
    requires RunRows(b, start, count, cols, count).lastContentRow < start + k
    ensures BrushAt(b, start, start + count - 1, cols) == BrushAt(b, start, start + k - 1, cols)
    decreases count - k
  {
    hide RunRows, BrushAt;
    if k < count {
      QuietBrushes(b, start, count, cols, rows, k + 1);
      QuietRows(b, start, count, cols, k);
      QuietRows(b, start, count, cols, k + 1);
      RowsKept(b, start, count, cols, k);
      RowsKept(b, start, count, cols, count);
      QuietRowBrush(b, start, count, cols, rows, k);
    }
  }

  lemma QuietRowBrush(b: Buffer, start: nat, count: nat, cols: nat, rows: nat, k: nat)
    requires Laid(b, start, count, cols) && 0 < k < count
    requires RunRows(b, start, count, cols, k).lastContentRow < start + k
    requires RunRows(b, start, count, cols, k + 1).lastContentRow < start + k
    ensures BrushAt(b, start, start + k, cols) == BrushAt(b, start, start + k - 1, cols)
  {
    hide RunCells, DiffStyle, Brushed, BrushAt, Feed, Lead, Join;
    BrushRows(b, start, count, rows, cols, k);
    var h := RunRows(b, start, count, cols, k);
    assert WellLaid(b.lines[start + k], cols) && WellLaid(b.lines[start + k - 1], cols);
    CellsKeep(b, h, start + k, cols);
    NextRowBrush(b, start, start + k - 1, cols);
    HasBrush(b, start, Feed(Fresh(rows, cols), Lead(h)), h, start + k, 0);
    QuietBrush(b, start, h, start + k, cols);
  }

  lemma HasBrush(b: Buffer, start: nat, t: Term, h: Handler, row: nat, n: nat)
    requires start <= row < |b.lines| && n <= |b.lines[row].cells| && Brushed(b, start, t, h, row, n)
    ensures h.cursorStyle == BrushAt(b, start, row, n).style && t.pen == BrushAt(b, start, row, n).pen
  {
  }

  lemma NextRowBrush(b: Buffer, start: nat, row: nat, cols: nat)
    requires start <= row && row + 1 < |b.lines| && |b.lines[row].cells| == cols
    ensures BrushAt(b, start, row + 1, 0) == BrushAt(b, start, row, cols)
  {
  }
}
