/** What happens behind a wrapped row that nothing is printed in: from the hard line break after
    it on, the cursor is at least one row behind. */
module Lagging {
  import opened Sgr
  import opened Terminal
  import opened Serializer
  import opened Brushes
  import opened Placement

  /** Text that shows: anything but a single space. */
  predicate Visible(cell: Cell) {
    cell.width != 0 && !IsEmpty(cell) && !(cell.chars == " " && cell.width == 1)
  }

  predicate Bare(g: Glyph) { g.chars == " " && g.width == 1 }

  /** Two grids agree above row `top`. */
  ghost predicate SameAbove(grid: map<(nat, nat), Glyph>, fixed: map<(nat, nat), Glyph>, top: nat) {
    forall p: (nat, nat) | p.0 < top :: (p in grid <==> p in fixed) && (p in fixed ==> grid[p] == fixed[p])
  }

  /** The cursor is behind row `i`, column `k`, by a row at least, but not above row `top`, where the
      grid is still `fixed`; and from row `clear` on there are only blanks. */
  ghost predicate LagsAt(t: Term, cols: nat, top: nat, fixed: map<(nat, nat), Glyph>, clear: nat, i: nat, k: nat) {
    && WellPlaced(t) && t.cols == cols && top <= t.Row()
    && (t.Row() + 1 < i || (t.Row() + 1 == i && t.x <= k))
    && SameAbove(t.grid, fixed, top)
    && (forall p: (nat, nat) | p in t.grid :: p.0 <= t.Row())
    && (forall p: (nat, nat) | p in t.grid && p.0 >= clear :: Bare(t.grid[p]))
  }

  lemma LagPrint(t: Term, cols: nat, top: nat, fixed: map<(nat, nat), Glyph>, clear: nat, i: nat, k: nat, chars: string, width: nat)
    requires LagsAt(t, cols, top, fixed, clear, i, k) && 1 <= width <= 2 && k + width <= cols
    requires i <= clear || (chars == " " && width == 1)
    ensures
      var t' := Put(t, Print(chars, width));
      LagsAt(t', cols, top, fixed, clear, i, k + width)
  {
  }

  lemma {:induction false} LagSpaces(t: Term, cols: nat, top: nat, fixed: map<(nat, nat), Glyph>, clear: nat, i: nat, k: nat, n: nat)
    requires LagsAt(t, cols, top, fixed, clear, i, k) && k + n <= cols
    ensures
      var t' := Feed(t, Spaces(n));
      LagsAt(t', cols, top, fixed, clear, i, k + n)
    decreases n
  {
    hide Put, LagsAt;
    if n > 0 {
      LagSpaces(t, cols, top, fixed, clear, i, k, n - 1);
      assert Spaces(n) == Spaces(n - 1) + [Print(" ", 1)];
      FeedOne(t, Spaces(n - 1), Print(" ", 1));
      LagPrint(Feed(t, Spaces(n - 1)), cols, top, fixed, clear, i, k + n - 1, " ", 1);
    }
  }

  /** A hard line break, or the end of a wrapped row, leads to the next row. */
  lemma LagNextRow(t: Term, cols: nat, top: nat, fixed: map<(nat, nat), Glyph>, clear: nat, i: nat, k: nat)
    requires LagsAt(t, cols, top, fixed, clear, i, k)
    ensures LagsAt(Put(t, CrLf), cols, top, fixed, clear, i + 1, 0)
    ensures LagsAt(t, cols, top, fixed, clear, i + 1, 0)
  {
  }

  // ---------------------------------------------------------------- cells

  ghost predicate LagMid(b: Buffer, start: nat, cols: nat, t: Term, h: Handler, row: nat, n: nat,
                         top: nat, fixed: map<(nat, nat), Glyph>, clear: nat)
    requires start <= row < |b.lines| && n <= |b.lines[row].cells|
  {
    && h.nullCells <= Reach(b.lines[row], n)
    && LagsAt(t, cols, top, fixed, clear, row - start, Reach(b.lines[row], n) - h.nullCells)
  }

  lemma ReachFits(line: Line, cols: nat, n: nat)
    requires WellLaid(line, cols) && n <= cols
    ensures Reach(line, n) <= cols
    ensures n < cols && line.cells[n].width != 0 ==> Reach(line, n) == n && n + line.cells[n].width <= cols && line.cells[n].width <= 2
  {
    if n < cols {
      ReachGrows(line, cols, n);
    }
  }

  lemma LagFlush(b: Buffer, start: nat, rows: nat, cols: nat, lead: seq<Tok>, h: Handler, row: nat, n: nat,
                 top: nat, fixed: map<(nat, nat), Glyph>, clear: nat)
    requires start <= row < |b.lines| && n <= |b.lines[row].cells| && WellLaid(b.lines[row], cols)
    requires LagMid(b, start, cols, Screen(rows, cols, lead, h), h, row, n, top, fixed, clear)
    ensures LagMid(b, start, cols, Feed(Screen(rows, cols, lead, h), Spaces(h.nullCells)), h.(nullCells := 0), row, n, top, fixed, clear)
  {
    hide Feed, LagsAt;
    ReachFits(b.lines[row], cols, n);
    LagSpaces(Screen(rows, cols, lead, h), cols, top, fixed, clear, row - start, Reach(b.lines[row], n) - h.nullCells, h.nullCells);
  }

  lemma LagPen(t: Term, cols: nat, top: nat, fixed: map<(nat, nat), Glyph>, clear: nat, i: nat, k: nat, params: seq<nat>)
    requires LagsAt(t, cols, top, fixed, clear, i, k)
    ensures LagsAt(Put(t, SetPen(params)), cols, top, fixed, clear, i, k)
  {
  }

  /** The style part of a cell. */
  lemma LagStyled(b: Buffer, start: nat, rows: nat, cols: nat, lead: seq<Tok>, h: Handler, row: nat, n: nat, style: Style,
                  top: nat, fixed: map<(nat, nat), Glyph>, clear: nat)
    requires start <= row < |b.lines| && n <= |b.lines[row].cells| && WellLaid(b.lines[row], cols)
    requires LagMid(b, start, cols, Screen(rows, cols, lead, h), h, row, n, top, fixed, clear)
    ensures
      var params := DiffStyle(style, h.cursorStyle, b.nullStyle);
      var styled := h.(currentRow := h.currentRow + Spaces(h.nullCells) + [SetPen(params)],
                       nullCells := 0, lastContentRow := row, cursorStyle := style);
      LagMid(b, start, cols, Screen(rows, cols, lead, styled), styled, row, n, top, fixed, clear)
  {
    hide Feed, DiffStyle, LagsAt;
    var params := DiffStyle(style, h.cursorStyle, b.nullStyle);
    var t := Screen(rows, cols, lead, h);
    LagFlush(b, start, rows, cols, lead, h, row, n, top, fixed, clear);
    LagPen(Feed(t, Spaces(h.nullCells)), cols, top, fixed, clear, row - start, Reach(b.lines[row], n), params);
    ScreenAppend(rows, cols, lead, h, Spaces(h.nullCells), SetPen(params));
  }

  /** The text part. */
  lemma LagText(b: Buffer, start: nat, rows: nat, cols: nat, lead: seq<Tok>, h: Handler, row: nat, n: nat,
                top: nat, fixed: map<(nat, nat), Glyph>, clear: nat)
    requires start <= row < |b.lines| && n < |b.lines[row].cells| && WellLaid(b.lines[row], cols)
    requires b.lines[row].cells[n].width != 0 && (row - start <= clear || !Visible(b.lines[row].cells[n]))
    requires LagMid(b, start, cols, Screen(rows, cols, lead, h), h, row, n, top, fixed, clear)
    ensures
      var cell := b.lines[row].cells[n];
      var h' :=
        if IsEmpty(cell) then h.(nullCells := h.nullCells + cell.width)
        else h.(currentRow := h.currentRow + Spaces(h.nullCells) + [Print(cell.chars, cell.width)],
                nullCells := 0, lastContentRow := row);
      LagMid(b, start, cols, Screen(rows, cols, lead, h'), h', row, n + 1, top, fixed, clear)
  {
    hide Feed, LagsAt;
    var cell := b.lines[row].cells[n];
    ReachGrows(b.lines[row], cols, n);
    if !IsEmpty(cell) {
      ReachFits(b.lines[row], cols, n);
      LagFlush(b, start, rows, cols, lead, h, row, n, top, fixed, clear);
      LagPrint(Feed(Screen(rows, cols, lead, h), Spaces(h.nullCells)), cols, top, fixed, clear, row - start, n, cell.chars, cell.width);
      ScreenAppend(rows, cols, lead, h, Spaces(h.nullCells), Print(cell.chars, cell.width));
    }
  }

  lemma LagCell(b: Buffer, start: nat, rows: nat, cols: nat, lead: seq<Tok>, h: Handler, row: nat, n: nat,
                top: nat, fixed: map<(nat, nat), Glyph>, clear: nat)
    requires start <= row < |b.lines| && n < |b.lines[row].cells| && WellLaid(b.lines[row], cols)
    requires row - start <= clear || !Visible(b.lines[row].cells[n])
    requires LagMid(b, start, cols, Screen(rows, cols, lead, h), h, row, n, top, fixed, clear)
    ensures
      var h' := NextCell(b, h, b.lines[row].cells[n], row);
      LagMid(b, start, cols, Screen(rows, cols, lead, h'), h', row, n + 1, top, fixed, clear)
  {
    hide Feed, DiffStyle, LagsAt, Visible;
    var cell := b.lines[row].cells[n];
    if cell.width == 0 {
      ReachGrows(b.lines[row], cols, n);
    } else {
      hide LagMid;
      var params := DiffStyle(cell.style, h.cursorStyle, b.nullStyle);
      var styled := h;
      if |params| > 0 {
        styled := h.(currentRow := h.currentRow + Spaces(h.nullCells) + [SetPen(params)],
                     nullCells := 0, lastContentRow := row, cursorStyle := cell.style);
        LagStyled(b, start, rows, cols, lead, h, row, n, cell.style, top, fixed, clear);
      }
      LagText(b, start, rows, cols, lead, styled, row, n, top, fixed, clear);
    }
  }

  lemma {:induction false} LagCells(b: Buffer, start: nat, rows: nat, cols: nat, lead: seq<Tok>, h: Handler, row: nat, n: nat,
                                    top: nat, fixed: map<(nat, nat), Glyph>, clear: nat)
    requires start <= row < |b.lines| && n <= |b.lines[row].cells| && WellLaid(b.lines[row], cols)
    requires row - start <= clear || !HasVisible(b.lines[row], cols)
    requires LagMid(b, start, cols, Screen(rows, cols, lead, h), h, row, 0, top, fixed, clear)
    ensures
      var h' := RunCells(b, h, row, n);
      LagMid(b, start, cols, Screen(rows, cols, lead, h'), h', row, n, top, fixed, clear)
    decreases n
  {
    hide LagMid, NextCell, Screen, Visible;
    if n > 0 {
      LagCells(b, start, rows, cols, lead, h, row, n - 1, top, fixed, clear);
      LagCell(b, start, rows, cols, lead, RunCells(b, h, row, n - 1), row, n - 1, top, fixed, clear);
    }
  }

  predicate HasVisible(line: Line, n: nat)
    requires n <= |line.cells|
  {
    exists c | 0 <= c < n :: Visible(line.cells[c])
  }

  // ---------------------------------------------------------------- rows

  /** After a whole row: somewhere behind its end. */
  ghost predicate LagDone(b: Buffer, cols: nat, t: Term, h: Handler, k: nat,
                          top: nat, fixed: map<(nat, nat), Glyph>, clear: nat)
    requires k > 0
  {
    && LagsAt(t, cols, top, fixed, clear, k - 1, cols)
  }

  lemma LagGrows(t: Term, cols: nat, top: nat, fixed: map<(nat, nat), Glyph>, clear: nat, i: nat, k: nat, k': nat)
    requires LagsAt(t, cols, top, fixed, clear, i, k) && k <= k'
    ensures LagsAt(t, cols, top, fixed, clear, i, k')
  {
  }

  lemma LagRowEnd(b: Buffer, start: nat, rows: nat, cols: nat, lead: seq<Tok>, h: Handler, row: nat, isLast: bool,
                  top: nat, fixed: map<(nat, nat), Glyph>, clear: nat)
    requires start <= row < |b.lines| && WellLaid(b.lines[row], cols)
    requires !isLast ==> row + 1 < |b.lines|
    requires LagMid(b, start, cols, Screen(rows, cols, lead, h), h, row, cols, top, fixed, clear)
    ensures
      var h' := RowEnd(b, h, row, isLast);
      var t := Feed(Fresh(rows, cols), lead + h'.allRows[|h.allRows|]);
      var t' := Feed(Fresh(rows, cols), lead + h'.allRows[|h.allRows|] + h'.separators[|h.separators|]);
      && LagDone(b, cols, t, h', row + 1 - start, top, fixed, clear)
      && (!isLast ==> LagMid(b, start, cols, t', h', row + 1, 0, top, fixed, clear))
  {
    hide Feed, LagsAt;
    var h' := RowEnd(b, h, row, isLast);
    var blank := Fresh(rows, cols);
    var text := lead + h'.allRows[|h.allRows|];
    var reach := Reach(b.lines[row], cols);
    ReachFits(b.lines[row], cols, cols);
    if NextIsWrapped(b, row, isLast) {
      assert text == (lead + h.currentRow) + Spaces(h.nullCells);
      FeedConcat(blank, lead + h.currentRow, Spaces(h.nullCells));
      LagFlush(b, start, rows, cols, lead, h, row, cols, top, fixed, clear);
      assert text + [] == text;
      LagGrows(Feed(blank, text), cols, top, fixed, clear, row - start, reach, cols);
      LagNextRow(Feed(blank, text), cols, top, fixed, clear, row - start, reach);
    } else {
      assert text == lead + h.currentRow by { assert h.currentRow + [] == h.currentRow; }
      LagGrows(Feed(blank, text), cols, top, fixed, clear, row - start, reach - h.nullCells, cols);
      if !isLast {
        FeedOne(blank, text, CrLf);
        LagNextRow(Feed(blank, text), cols, top, fixed, clear, row - start, reach - h.nullCells);
      }
    }
  }

  /** A whole row behind. */
  lemma LagRow(b: Buffer, start: nat, count: nat, rows: nat, cols: nat, before: Handler, k: nat,
               top: nat, fixed: map<(nat, nat), Glyph>, clear: nat)
    requires Laid(b, start, count, cols) && 0 < rows && 0 < k <= count
    requires |before.allRows| == |before.separators| == k - 1 && before.currentRow == []
    requires k - 1 <= clear || !HasVisible(b.lines[start + k - 1], cols)
    requires LagMid(b, start, cols, Feed(Fresh(rows, cols), Lead(before)), before, start + k - 1, 0, top, fixed, clear)
    ensures
      var h := RunRow(b, before, start + k - 1, cols, k == count);
      && |h.allRows| == |h.separators| == k
      && LagDone(b, cols, Feed(Fresh(rows, cols), Join(h, k)), h, k, top, fixed, clear)
      && (k < count ==> LagMid(b, start, cols, Feed(Fresh(rows, cols), Lead(h)), h, start + k, 0, top, fixed, clear))
  {
    hide Feed, LagMid, LagDone, RunCells, Lead, Join, HasVisible;
    var row := start + k - 1;
    var lead := Lead(before);
    assert lead + before.currentRow == lead;
    LagCells(b, start, rows, cols, lead, before, row, cols, top, fixed, clear);
    var h1 := RunCells(b, before, row, cols);
    CellsKeep(b, before, row, cols);
    LagRowEnd(b, start, rows, cols, lead, h1, row, k == count, top, fixed, clear);
    LeadGrows(before, h1, RowEnd(b, h1, row, k == count));
  }

  lemma {:induction false} LagRows(b: Buffer, start: nat, count: nat, rows: nat, cols: nat, m: nat, k: nat,
                                   top: nat, fixed: map<(nat, nat), Glyph>, clear: nat)
    requires Laid(b, start, count, cols) && 0 < rows && m < k <= count
    requires forall r | start + m <= r < start + k :: r - start <= clear || !HasVisible(b.lines[r], cols)
    requires
      var h := RunRows(b, start, count, cols, m);
      && |h.allRows| == |h.separators|
      && LagMid(b, start, cols, Feed(Fresh(rows, cols), Lead(h)), h, start + m, 0, top, fixed, clear)
    ensures
      var h := RunRows(b, start, count, cols, k);
      && |h.allRows| == |h.separators| == k
      && LagDone(b, cols, Feed(Fresh(rows, cols), Join(h, k)), h, k, top, fixed, clear)
      && (k < count ==> LagMid(b, start, cols, Feed(Fresh(rows, cols), Lead(h)), h, start + k, 0, top, fixed, clear))
    decreases k
  {
    hide Feed, LagMid, LagDone, Lead, Join, RunRow, HasVisible;
    RowsKept(b, start, count, cols, k);
    RowsKept(b, start, count, cols, k - 1);
    if m < k - 1 {
      LagRows(b, start, count, rows, cols, m, k - 1, top, fixed, clear);
    }
    LagRow(b, start, count, rows, cols, RunRows(b, start, count, cols, k - 1), k, top, fixed, clear);
  }

  // ---------------------------------------------------------------- falling behind

  /** The break behind a blank wrapped row leads into that row, not behind it. */
  lemma BreakFallsBehind(b: Buffer, start: nat, rows: nat, cols: nat, text: seq<Tok>, h: Handler, row: nat, clear: nat)
    requires start < row && row + 1 < |b.lines| && WellLaid(b.lines[row], cols) && row - start <= clear
    requires b.lines[row].isWrapped && !HasPrint(h.currentRow)
    requires Mid(b, start, cols, Feed(Fresh(rows, cols), text), h, row, cols)
    ensures
      var t := Feed(Fresh(rows, cols), text + [CrLf]);
      && LagMid(b, start, cols, t, h.(nullCells := 0), row + 1, 0, row - start, t.grid, clear)
      && t.grid == Feed(Fresh(rows, cols), text).grid
  {
    hide Feed, WrapsShown, Shown, HasPrint;
    var t0 := Feed(Fresh(rows, cols), text);
    FeedOne(Fresh(rows, cols), text, CrLf);
    assert t0.Row() == row - start - 1;
    assert Drawn(b, start, t0, h, row, cols);
    PutCrLf(t0, row - start - 1);
  }

  /** Row `r` and its break are written, and the cursor is one row behind. */
  ghost predicate FellBehind(b: Buffer, start: nat, count: nat, rows: nat, cols: nat, r: nat, clear: nat)
    requires start < r < start + count - 1 && start + count <= |b.lines|
  {
    var m := r + 1 - start;
    var h := RunRows(b, start, count, cols, m);
    && |h.allRows| == |h.separators| == m
    && var t := Feed(Fresh(rows, cols), Lead(h));
      && LagMid(b, start, cols, t, h, r + 1, 0, r - start, t.grid, clear)
      && forall q | start <= q < r :: RowShown(b, start, t, q, |b.lines[q].cells|)
  }

  lemma FallBehind(b: Buffer, start: nat, count: nat, rows: nat, cols: nat, r: nat, clear: nat)
    requires Laid(b, start, count, cols) && 0 < rows
    requires start < r < start + count - 1 && Breaks(b, start, count, cols, r) && r - start <= clear
    requires forall q | start <= q < r :: !Breaks(b, start, count, cols, q)
    ensures FellBehind(b, start, count, rows, cols, r, clear)
  {
    hide Feed, Mid, Done, LagMid, RunCells, Lead, Join, Breaks, Brushed, RowEnd, RunRow;
    var k := r - start;
    RowsDone(b, start, count, rows, cols, k);
    BrushRows(b, start, count, rows, cols, k);
    RowsKept(b, start, count, cols, k + 1);
    RowIs(b, start, count, cols, r);
    hide RunRows;
    BreakRow(b, start, count, rows, cols, RunRows(b, start, count, cols, k), r, clear);
  }

  lemma BreakRange(b: Buffer, start: nat, count: nat, cols: nat, r: nat)
    requires Breaks(b, start, count, cols, r)
    ensures start < r < start + count - 1
  {
  }

  /** The blank row itself, with its hard line break. */
  lemma BreakRow(b: Buffer, start: nat, count: nat, rows: nat, cols: nat, before: Handler, r: nat, clear: nat)
    requires Laid(b, start, count, cols) && 0 < rows
    requires start < r < start + count - 1 && Breaks(b, start, count, cols, r) && r - start <= clear
    requires |before.allRows| == |before.separators| == r - start && before.currentRow == [] && before.nullCells == 0
    requires Mid(b, start, cols, Feed(Fresh(rows, cols), Lead(before)), before, r, 0)
    requires Brushed(b, start, Feed(Fresh(rows, cols), Lead(before)), before, r, 0)
    ensures
      var h := RowEnd(b, RunCells(b, before, r, cols), r, false);
      && |h.allRows| == |h.separators| == r + 1 - start
      && var t := Feed(Fresh(rows, cols), Lead(h));
        && LagMid(b, start, cols, t, h, r + 1, 0, r - start, t.grid, clear)
        && forall q | start <= q < r :: RowShown(b, start, t, q, |b.lines[q].cells|)
  {
    hide Feed, Mid, LagMid, RunCells, Lead, Join, Blank, HasPrint, Brushed;
    var lead := Lead(before);
    assert lead + before.currentRow == lead;
    CellsKeepMid(b, start, rows, cols, lead, before, r, cols);
    var h1 := RunCells(b, before, r, cols);
    CellsKeep(b, before, r, cols);
    BlankPrintsNothing(b, before, r, cols, cols);
    var h := RowEnd(b, h1, r, false);
    LeadGrows(before, h1, h);
    assert h1.currentRow + [] == h1.currentRow;
    BreakFallsBehind(b, start, rows, cols, lead + h1.currentRow, h1, r, clear);
    var t := Feed(Fresh(rows, cols), Lead(h));
    LagFields(b, start, cols, t, h1.(nullCells := 0), h, r + 1, r - start, t.grid, clear);
    ShownBefore(b, start, cols, Feed(Fresh(rows, cols), lead + h1.currentRow), t, h1, r, cols);
  }

  lemma RowIs(b: Buffer, start: nat, count: nat, cols: nat, r: nat)
    requires Laid(b, start, count, cols) && start <= r < start + count - 1
    ensures
      var before := RunRows(b, start, count, cols, r - start);
      RunRows(b, start, count, cols, r + 1 - start) == RowEnd(b, RunCells(b, before, r, cols), r, false)
  {
    hide RunCells, RowEnd;
    assert WellLaid(b.lines[r], cols);
  }

  lemma LagFields(b: Buffer, start: nat, cols: nat, t: Term, h: Handler, h': Handler, row: nat,
                  top: nat, fixed: map<(nat, nat), Glyph>, clear: nat)
    requires start <= row < |b.lines| && h'.nullCells == h.nullCells
    requires LagMid(b, start, cols, t, h, row, 0, top, fixed, clear)
    ensures LagMid(b, start, cols, t, h', row, 0, top, fixed, clear)
  {
  }

  lemma ShownBefore(b: Buffer, start: nat, cols: nat, t0: Term, t: Term, h: Handler, row: nat, n: nat)
    requires start <= row < |b.lines| && n <= |b.lines[row].cells|
    requires Mid(b, start, cols, t0, h, row, n) && t.grid == t0.grid
    ensures forall q | start <= q < row :: RowShown(b, start, t, q, |b.lines[q].cells|)
  {
    hide Shown, WrapsShown;
    assert Drawn(b, start, t0, h, row, n);
    forall q | start <= q < row ensures RowShown(b, start, t, q, |b.lines[q].cells|) {
      RowShownSameGrid(b, start, t0, t, q);
    }
  }
}
