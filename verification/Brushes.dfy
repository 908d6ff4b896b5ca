/** The brush: the style that the handler believes in and the pen that the terminal then has. Both
    depend on the cells alone, not on where anything is printed. */
module Brushes {
  import opened Sgr
  import opened Terminal
  import opened Serializer

  /** A row of exactly `cols` columns in which each wide cell has its placeholder. */
  predicate WellLaid(line: Line, cols: nat) {
    && |line.cells| == cols
    && (forall c | 0 <= c < cols :: line.cells[c].width <= 2)
    && (forall c | 0 < c < cols :: line.cells[c].width == 0 <==> line.cells[c - 1].width == 2)
    && (0 < cols ==> line.cells[0].width != 0 && line.cells[cols - 1].width != 2)
  }

  datatype Brush = Brush(style: Style, pen: Pen)

  /** What a cell does to the brush. */
  function Dip(u: Brush, cell: Cell, nullStyle: Style): Brush {
    if cell.width == 0 then u
    else
      var params := DiffStyle(cell.style, u.style, nullStyle);
      if |params| > 0 then Brush(cell.style, Apply(u.pen, params)) else u
  }

  /** The brush after `n` cells of a row and all rows before it. */
  function BrushAt(b: Buffer, start: nat, row: nat, n: nat): Brush
    requires start <= row < |b.lines| && n <= |b.lines[row].cells|
    decreases row, n
  {
    if n > 0 then Dip(BrushAt(b, start, row, n - 1), b.lines[row].cells[n - 1], b.nullStyle)
    else if row > start then BrushAt(b, start, row - 1, |b.lines[row - 1].cells|)
    else Brush(b.nullStyle, PLAIN)
  }

  // ---------------------------------------------------------------- the screen so far

  /** The terminal after everything written so far. */
  function Screen(rows: nat, cols: nat, lead: seq<Tok>, h: Handler): Term {
    Feed(Fresh(rows, cols), lead + h.currentRow)
  }

  lemma Regrouped<T>(lead: seq<T>, row: seq<T>, more: seq<T>, last: T)
    ensures lead + (row + more + [last]) == ((lead + row) + more) + [last]
  {
  }

  lemma ScreenAppend(rows: nat, cols: nat, lead: seq<Tok>, h: Handler, more: seq<Tok>, last: Tok)
    ensures Screen(rows, cols, lead, h.(currentRow := h.currentRow + more + [last]))
         == Put(Feed(Screen(rows, cols, lead, h), more), last)
  {
    hide Feed, Put;
    var blank := Fresh(rows, cols);
    Regrouped(lead, h.currentRow, more, last);
    FeedOne(blank, (lead + h.currentRow) + more, last);
    FeedConcat(blank, lead + h.currentRow, more);
  }

  /** The finished rows with every separator written so far. */
  function Lead(h: Handler): seq<Tok>
    requires |h.allRows| == |h.separators|
  {
    var k := |h.allRows|;
    if k == 0 then [] else Join(h, k) + h.separators[k - 1]
  }

  lemma LeadNothing(h: Handler)
    requires h.allRows == [] && h.separators == []
    ensures Lead(h) == []
  {
  }

  lemma LeadGrows(before: Handler, h1: Handler, h: Handler)
    requires |before.allRows| == |before.separators|
    requires h1.allRows == before.allRows && h1.separators == before.separators
    requires |h.allRows| == |h.separators| == |before.allRows| + 1
    requires h.allRows[..|before.allRows|] == before.allRows
    requires h.separators[..|before.allRows|] == before.separators
    ensures
      var k := |h.allRows|;
      && Join(h, k) == Lead(before) + h.allRows[k - 1]
      && Lead(h) == Lead(before) + h.allRows[k - 1] + h.separators[k - 1]
  {
    var k := |h.allRows|;
    var grown := before.(allRows := before.allRows + [h.allRows[k - 1]],
                         separators := before.separators + [h.separators[k - 1]]);
    assert grown.allRows == h.allRows && grown.separators == h.separators;
    if k > 1 {
      JoinStable(before, h.allRows[k - 1], h.separators[k - 1], k - 1);
      JoinSame(h, grown, k - 1);
    }
  }

  // ---------------------------------------------------------------- the terminal has the brush

  ghost predicate Brushed(b: Buffer, start: nat, t: Term, h: Handler, row: nat, n: nat)
    requires start <= row < |b.lines| && n <= |b.lines[row].cells|
  {
    Brush(h.cursorStyle, t.pen) == BrushAt(b, start, row, n)
  }

  lemma {:induction false} SpacesKeepPen(t: Term, n: nat)
    ensures Feed(t, Spaces(n)).pen == t.pen
    decreases n
  {
    if n > 0 {
      SpacesKeepPen(t, n - 1);
      assert Spaces(n) == Spaces(n - 1) + [Print(" ", 1)];
      FeedOne(t, Spaces(n - 1), Print(" ", 1));
      PrintKeepsPen(Feed(t, Spaces(n - 1)), " ", 1);
    }
  }

  lemma PrintKeepsPen(t: Term, chars: string, width: nat)
    ensures Put(t, Print(chars, width)).pen == t.pen && Put(t, CrLf).pen == t.pen
  {
  }

  /** One cell. */
  lemma BrushCell(b: Buffer, start: nat, rows: nat, cols: nat, lead: seq<Tok>, h: Handler, row: nat, n: nat)
    requires start <= row < |b.lines| && n < |b.lines[row].cells|
    requires Brushed(b, start, Screen(rows, cols, lead, h), h, row, n)
    ensures
      var h' := NextCell(b, h, b.lines[row].cells[n], row);
      Brushed(b, start, Screen(rows, cols, lead, h'), h', row, n + 1)
  {
    hide Feed, DiffStyle, Apply, IsEmpty;
    var cell := b.lines[row].cells[n];
    var t := Screen(rows, cols, lead, h);
    if cell.width != 0 {
      var params := DiffStyle(cell.style, h.cursorStyle, b.nullStyle);
      var styled := h;
      if |params| > 0 {
        styled := h.(currentRow := h.currentRow + Spaces(h.nullCells) + [SetPen(params)],
                     nullCells := 0, lastContentRow := row, cursorStyle := cell.style);
        ScreenAppend(rows, cols, lead, h, Spaces(h.nullCells), SetPen(params));
        SpacesKeepPen(t, h.nullCells);
      }
      assert Brushed(b, start, Screen(rows, cols, lead, styled), styled, row, n + 1);
      if !IsEmpty(cell) {
        ScreenAppend(rows, cols, lead, styled, Spaces(styled.nullCells), Print(cell.chars, cell.width));
        SpacesKeepPen(Screen(rows, cols, lead, styled), styled.nullCells);
        PrintKeepsPen(Feed(Screen(rows, cols, lead, styled), Spaces(styled.nullCells)), cell.chars, cell.width);
      }
    }
  }

  lemma {:induction false} BrushCells(b: Buffer, start: nat, rows: nat, cols: nat, lead: seq<Tok>, h: Handler, row: nat, n: nat)
    requires start <= row < |b.lines| && n <= |b.lines[row].cells|
    requires Brushed(b, start, Screen(rows, cols, lead, h), h, row, 0)
    ensures
      var h' := RunCells(b, h, row, n);
      Brushed(b, start, Screen(rows, cols, lead, h'), h', row, n)
    decreases n
  {
    hide Brushed, NextCell, Screen;
    if n > 0 {
      BrushCells(b, start, rows, cols, lead, h, row, n - 1);
      BrushCell(b, start, rows, cols, lead, RunCells(b, h, row, n - 1), row, n - 1);
    }
  }

  lemma BrushRowEnd(b: Buffer, start: nat, rows: nat, cols: nat, lead: seq<Tok>, h: Handler, row: nat, isLast: bool)
    requires start <= row < |b.lines|
    requires !isLast ==> row + 1 < |b.lines|
    requires Brushed(b, start, Screen(rows, cols, lead, h), h, row, |b.lines[row].cells|)
    ensures
      var h' := RowEnd(b, h, row, isLast);
      var t := Feed(Fresh(rows, cols), lead + h'.allRows[|h.allRows|]);
      var t' := Feed(Fresh(rows, cols), lead + h'.allRows[|h.allRows|] + h'.separators[|h.separators|]);
      && Brushed(b, start, t, h', row, |b.lines[row].cells|)
      && (!isLast ==> Brushed(b, start, t', h', row + 1, 0))
  {
    hide Feed, Dip;
    var h' := RowEnd(b, h, row, isLast);
    var blank := Fresh(rows, cols);
    var text := lead + h'.allRows[|h.allRows|];
    if NextIsWrapped(b, row, isLast) {
      assert text == (lead + h.currentRow) + Spaces(h.nullCells);
      FeedConcat(blank, lead + h.currentRow, Spaces(h.nullCells));
      SpacesKeepPen(Screen(rows, cols, lead, h), h.nullCells);
      assert text + [] == text;
    } else {
      assert text == lead + h.currentRow by { assert h.currentRow + [] == h.currentRow; }
      if !isLast {
        FeedOne(blank, text, CrLf);
        PrintKeepsPen(Feed(blank, text), "", 0);
      }
    }
  }

  /** Every row in turn: the terminal's pen is the brush's, wherever the cursor is. */
  lemma {:induction false} BrushRows(b: Buffer, start: nat, count: nat, rows: nat, cols: nat, k: nat)
    requires start + count <= |b.lines| && k <= count && 0 < count
    requires forall r | start <= r < start + count :: |b.lines[r].cells| == cols
    ensures
      var h := RunRows(b, start, count, cols, k);
      && |h.allRows| == |h.separators| == k && h.currentRow == []
      && (0 < k ==> Brushed(b, start, Feed(Fresh(rows, cols), Join(h, k)), h, start + k - 1, cols))
      && (k < count ==> Brushed(b, start, Feed(Fresh(rows, cols), Lead(h)), h, start + k, 0))
    decreases k
  {
    hide Feed, Brushed, Lead, Join, RunCells;
    RowsKept(b, start, count, cols, k);
    if k == 0 {
      NothingBrushed(b, start, rows, cols);
      LeadNothing(Begin(b, start));
    } else {
      BrushRows(b, start, count, rows, cols, k - 1);
      var before := RunRows(b, start, count, cols, k - 1);
      var row := start + k - 1;
      var lead := Lead(before);
      assert lead + before.currentRow == lead;
      BrushCells(b, start, rows, cols, lead, before, row, cols);
      var h1 := RunCells(b, before, row, cols);
      CellsKeep(b, before, row, cols);
      BrushRowEnd(b, start, rows, cols, lead, h1, row, k == count);
      LeadGrows(before, h1, RowEnd(b, h1, row, k == count));
    }
  }

  lemma NothingBrushed(b: Buffer, start: nat, rows: nat, cols: nat)
    requires start < |b.lines|
    ensures Brushed(b, start, Feed(Fresh(rows, cols), []), Begin(b, start), start, 0)
  {
  }

  // ---------------------------------------------------------------- when looks are kept

  /** The style of the last cell before, placeholders aside; the null cell's in front of all. */
  function StyleBefore(b: Buffer, start: nat, row: nat, n: nat): Style
    requires start <= row < |b.lines| && n <= |b.lines[row].cells|
    decreases row, n
  {
    if n > 0 then
      if b.lines[row].cells[n - 1].width != 0 then b.lines[row].cells[n - 1].style else StyleBefore(b, start, row, n - 1)
    else if row > start then StyleBefore(b, start, row - 1, |b.lines[row - 1].cells|)
    else b.nullStyle
  }

  /** Whether the step onto cell (row, c) from the cell before it is safe. */
  predicate StepSafeAt(b: Buffer, start: nat, row: nat, c: nat)
    requires start <= row < |b.lines| && c < |b.lines[row].cells|
  {
    b.lines[row].cells[c].width != 0 ==>
      StepIsSafe(b.lines[row].cells[c].style, StyleBefore(b, start, row, c), b.nullStyle)
  }

  /** Whether the brush has the look of cell (row, c) when the cell is painted. */
  predicate LookKept(b: Buffer, start: nat, row: nat, c: nat)
    requires start <= row < |b.lines| && c < |b.lines[row].cells|
  {
    b.lines[row].cells[c].width != 0 ==>
      LooksLike(BrushAt(b, start, row, c + 1).pen, b.lines[row].cells[c].style, b.nullStyle)
  }

  /** The cells from the first row on, up to cell (row, n). */
  ghost predicate AllSafe(b: Buffer, start: nat, row: nat, n: nat)
    requires start <= row < |b.lines| && n <= |b.lines[row].cells|
  {
    && (forall r, c | start <= r < row && 0 <= c < |b.lines[r].cells| :: StepSafeAt(b, start, r, c))
    && (forall c | 0 <= c < n :: StepSafeAt(b, start, row, c))
  }

  ghost predicate AllKept(b: Buffer, start: nat, row: nat, n: nat)
    requires start <= row < |b.lines| && n <= |b.lines[row].cells|
  {
    && (forall r, c | start <= r < row && 0 <= c < |b.lines[r].cells| :: LookKept(b, start, r, c))
    && (forall c | 0 <= c < n :: LookKept(b, start, row, c))
  }

  /** The buffer's null cell has no flags, and palette entries are 8-bit. */
  ghost predicate Sane(b: Buffer, start: nat, end: nat)
    requires start <= end <= |b.lines|
  {
    && b.nullStyle.flags == {} && Valid(b.nullStyle)
    && forall r, c | start <= r < end && 0 <= c < |b.lines[r].cells| :: Valid(b.lines[r].cells[c].style)
  }

  /** A true brush: its pen looks like the last style, and so does its own style. */
  ghost predicate TrueBrush(u: Brush, last: Style, nullStyle: Style) {
    && LooksLike(u.pen, u.style, nullStyle) && LooksLike(u.pen, last, nullStyle)
    && (u.style == last || (IsAttributeDefault(u.style, nullStyle) && IsAttributeDefault(last, nullStyle)))
  }

  lemma DipExact(u: Brush, last: Style, cell: Cell, nullStyle: Style)
    requires TrueBrush(u, last, nullStyle) && Valid(cell.style) && cell.width != 0
    ensures
      var u' := Dip(u, cell, nullStyle);
      && (StepIsSafe(cell.style, last, nullStyle) <==> LooksLike(u'.pen, cell.style, nullStyle))
      && (LooksLike(u'.pen, cell.style, nullStyle) ==> TrueBrush(u', cell.style, nullStyle))
  {
    StepExact(u.pen, cell.style, u.style, nullStyle);
    ApplyNone(u.pen);
    SilentMeans(cell.style, u.style, nullStyle);
    hide Apply, DiffStyle;
  }

  /** The look of every cell is kept exactly when every step from cell to cell is safe. */
  lemma {:induction false} LooksExact(b: Buffer, start: nat, end: nat, row: nat, n: nat)
    requires start <= row < end <= |b.lines| && n <= |b.lines[row].cells| && Sane(b, start, end)
    ensures AllSafe(b, start, row, n) <==> AllKept(b, start, row, n)
    ensures AllSafe(b, start, row, n) ==> TrueBrush(BrushAt(b, start, row, n), StyleBefore(b, start, row, n), b.nullStyle)
    decreases row, n
  {
    hide TrueBrush, StepSafeAt, LookKept, Dip;
    if n > 0 {
      LooksExact(b, start, end, row, n - 1);
      if AllSafe(b, start, row, n - 1) {
        CellLook(b, start, end, row, n - 1);
      }
    } else if row > start {
      LooksExact(b, start, end, row - 1, |b.lines[row - 1].cells|);
    } else {
      FirstBrush(b.nullStyle);
    }
  }

  lemma FirstBrush(nullStyle: Style)
    requires nullStyle.flags == {}
    ensures TrueBrush(Brush(nullStyle, PLAIN), nullStyle, nullStyle)
  {
  }

  lemma CellLook(b: Buffer, start: nat, end: nat, row: nat, c: nat)
    requires start <= row < end <= |b.lines| && c < |b.lines[row].cells| && Sane(b, start, end)
    requires TrueBrush(BrushAt(b, start, row, c), StyleBefore(b, start, row, c), b.nullStyle)
    ensures StepSafeAt(b, start, row, c) <==> LookKept(b, start, row, c)
    ensures LookKept(b, start, row, c) ==>
      TrueBrush(BrushAt(b, start, row, c + 1), StyleBefore(b, start, row, c + 1), b.nullStyle)
  {
    hide TrueBrush, StepIsSafe, LooksLike;
    var cell := b.lines[row].cells[c];
    if cell.width != 0 {
      DipExact(BrushAt(b, start, row, c), StyleBefore(b, start, row, c), cell, b.nullStyle);
    }
    hide Dip;
  }

  /** A guard on the styles alone: what passes for default looks default, and no style loses bold
      or dim against another. */
  ghost predicate Ordinary(b: Buffer, start: nat, end: nat)
    requires start <= end <= |b.lines|
  {
    && (forall s | StyleIn(b, start, end, s) :: TellsDefault(s, b.nullStyle))
    && (forall s, s' | StyleIn(b, start, end, s) && StyleIn(b, start, end, s') :: !LosesBoldOrDim(s.flags, s'.flags))
  }

  /** The null cell's style, or that of a cell, placeholders aside. */
  ghost predicate StyleIn(b: Buffer, start: nat, end: nat, s: Style)
    requires start <= end <= |b.lines|
  {
    || s == b.nullStyle
    || exists r, c :: start <= r < end && 0 <= c < |b.lines[r].cells| && b.lines[r].cells[c].width != 0 && b.lines[r].cells[c].style == s
  }

  lemma {:induction false} BeforeIsIn(b: Buffer, start: nat, end: nat, row: nat, n: nat)
    requires start <= row < end <= |b.lines| && n <= |b.lines[row].cells|
    ensures StyleIn(b, start, end, StyleBefore(b, start, row, n))
    decreases row, n
  {
    if n > 0 {
      if b.lines[row].cells[n - 1].width == 0 {
        BeforeIsIn(b, start, end, row, n - 1);
      }
    } else if row > start {
      BeforeIsIn(b, start, end, row - 1, |b.lines[row - 1].cells|);
    }
  }

  /** It makes every step safe. */
  lemma OrdinaryIsSafe(b: Buffer, start: nat, end: nat, row: nat, n: nat)
    requires start <= row < end <= |b.lines| && n <= |b.lines[row].cells| && Ordinary(b, start, end)
    ensures AllSafe(b, start, row, n)
  {
    hide Ordinary, StepIsSafe;
    forall r, c | start <= r <= row && 0 <= c < |b.lines[r].cells| ensures StepSafeAt(b, start, r, c) {
      if b.lines[r].cells[c].width != 0 {
        BeforeIsIn(b, start, end, r, c);
        OrdinaryStep(b, start, end, b.lines[r].cells[c].style, StyleBefore(b, start, r, c));
      }
    }
  }

  lemma OrdinaryStep(b: Buffer, start: nat, end: nat, s: Style, prev: Style)
    requires start <= end <= |b.lines| && Ordinary(b, start, end)
    requires StyleIn(b, start, end, s) && StyleIn(b, start, end, prev)
    ensures StepIsSafe(s, prev, b.nullStyle)
  {
    hide StyleIn, LosesBoldOrDim;
    assert TellsDefault(s, b.nullStyle) && TellsDefault(prev, b.nullStyle);
  }
}
