/** Replaying the serializer's output on a fresh terminal: what it shows, and exactly when that
    is the buffer. */
module Replay {
  import opened Sgr
  import opened Terminal
  import opened Serializer
  import opened Brushes
  import opened Placement
  import opened Lagging

  // ---------------------------------------------------------------- when rows fall behind

  /** A blank wrapped row before a hard line break, with text below. */
  ghost predicate SkipsText(b: Buffer, start: nat, count: nat, cols: nat)
    requires Laid(b, start, count, cols)
  {
    exists r: nat, q: nat | start < r < q < start + count :: Breaks(b, start, count, cols, r) && HasText(b.lines[q], cols)
  }

  /** The same with text that shows: more than single spaces. */
  ghost predicate SkipsVisible(b: Buffer, start: nat, count: nat, cols: nat)
    requires Laid(b, start, count, cols)
  {
    exists r: nat, q: nat | start < r < q < start + count :: Breaks(b, start, count, cols, r) && HasVisible(b.lines[q], cols)
  }

  /** Cell (r, c) is at its own row and column, whatever its look. */
  predicate There(b: Buffer, start: nat, t: Term, r: nat, c: nat)
    requires start <= r < |b.lines| && c < |b.lines[r].cells|
  {
    var at := (r - start, c);
    at in t.grid && t.grid[at].chars == b.lines[r].cells[c].chars && t.grid[at].width == b.lines[r].cells[c].width
  }

  /** ... and in its own look. */
  predicate InLook(b: Buffer, start: nat, t: Term, r: nat, c: nat)
    requires start <= r < |b.lines| && c < |b.lines[r].cells|
  {
    There(b, start, t, r, c) && LooksLike(t.grid[(r - start, c)].pen, b.lines[r].cells[c].style, b.nullStyle)
  }

  ghost predicate TextThere(b: Buffer, start: nat, t: Term, r: nat, n: nat)
    requires start <= r < |b.lines| && n <= |b.lines[r].cells|
  {
    forall c | 0 <= c < n && Visible(b.lines[r].cells[c]) :: There(b, start, t, r, c)
  }

  ghost predicate TextInLook(b: Buffer, start: nat, t: Term, r: nat, n: nat)
    requires start <= r < |b.lines| && n <= |b.lines[r].cells|
  {
    forall c | 0 <= c < n && Visible(b.lines[r].cells[c]) :: InLook(b, start, t, r, c)
  }

  /** The whole row: text in place and in look, single spaces included, and blanks elsewhere. */
  ghost predicate RowInLook(b: Buffer, start: nat, t: Term, r: nat, n: nat)
    requires start <= r < |b.lines| && n <= |b.lines[r].cells|
  {
    forall c | 0 <= c < n && b.lines[r].cells[c].width != 0 ::
      if IsEmpty(b.lines[r].cells[c]) then (r - start, c) in t.grid ==> t.grid[(r - start, c)].chars == " "
      else InLook(b, start, t, r, c)
  }

  /** Every cell with text that shows is there, painted with the brush. */
  ghost predicate TextShown(b: Buffer, start: nat, t: Term, r: nat, n: nat)
    requires start <= r < |b.lines| && n <= |b.lines[r].cells|
  {
    forall c | 0 <= c < n && Visible(b.lines[r].cells[c]) :: Shown(b, start, t, r, c)
  }

  lemma FirstBreak(b: Buffer, start: nat, count: nat, cols: nat, end: nat) returns (r: nat)
    requires exists r: nat :: r < end && Breaks(b, start, count, cols, r)
    ensures r < end && Breaks(b, start, count, cols, r)
    ensures forall q: nat | q < r :: !Breaks(b, start, count, cols, q)
    decreases end
  {
    hide Breaks;
    if exists q: nat :: q < end - 1 && Breaks(b, start, count, cols, q) {
      r := FirstBreak(b, start, count, cols, end - 1);
    } else {
      r := end - 1;
    }
  }

  lemma LastVisible(b: Buffer, start: nat, count: nat, cols: nat, low: nat, end: nat) returns (q: nat)
    requires Laid(b, start, count, cols) && start <= low && end <= start + count
    requires exists q | low < q < end :: HasVisible(b.lines[q], cols)
    ensures low < q < end && HasVisible(b.lines[q], cols)
    ensures forall r | q < r < end :: !HasVisible(b.lines[r], cols)
    decreases end
  {
    hide HasVisible;
    if HasVisible(b.lines[end - 1], cols) {
      q := end - 1;
    } else {
      q := LastVisible(b, start, count, cols, low, end - 1);
    }
  }

  lemma VisibleIsText(line: Line, n: nat)
    requires n <= |line.cells|
    ensures HasVisible(line, n) ==> HasText(line, n)
  {
    if c :| 0 <= c < n && Visible(line.cells[c]) {
      assert line.cells[c].width != 0 && !IsEmpty(line.cells[c]);
    }
  }

  // ---------------------------------------------------------------- the rows that are written

  /** How many rows are written. */
  function Written(b: Buffer, start: nat, count: nat, cols: nat, rows: nat): (k: nat)
    requires 0 < count && start + count <= |b.lines|
    ensures 0 < k <= count
  {
    RowsKept(b, start, count, cols, count);
    if FitsOnScreen(b, start, rows) then RunRows(b, start, count, cols, count).lastContentRow + 1 - start else count
  }

  lemma ContentIsJoin(b: Buffer, start: nat, count: nat, cols: nat, rows: nat)
    requires Laid(b, start, count, cols)
    ensures
      var k := Written(b, start, count, cols, rows);
      var h := RunRows(b, start, count, cols, k);
      && 0 < k <= count && k <= |h.allRows| == |h.separators|
      && Content(b, start, count, cols, rows) == Join(h, k)
      && h.cursorStyle == RunRows(b, start, count, cols, count).cursorStyle
      && forall r | start + k <= r < start + count :: !HasText(b.lines[r], cols)
  {
    hide RunRows, Join, HasText;
    RowsKept(b, start, count, cols, count);
    var k := Written(b, start, count, cols, rows);
    JoinPrefix(b, start, count, cols, k, count);
    QuietRows(b, start, count, cols, k);
  }

  lemma TextlessRow(b: Buffer, start: nat, cols: nat, t: Term, r: nat, end: nat)
    requires start <= end <= r < |b.lines| && WellLaid(b.lines[r], cols) && !HasText(b.lines[r], cols)
    requires forall p: (nat, nat) | p in t.grid :: p.0 < end - start
    ensures RowShown(b, start, t, r, cols)
  {
  }

  lemma {:induction false} FeedSize(t: Term, toks: seq<Tok>)
    ensures Feed(t, toks).rows == t.rows && Feed(t, toks).cols == t.cols
    decreases |toks|
  {
    if toks != [] {
      FeedSize(t, toks[..|toks| - 1]);
    }
  }

  lemma BlankRow(b: Buffer, start: nat, cols: nat, t: Term, r: nat, v: nat)
    requires start <= r < |b.lines| && WellLaid(b.lines[r], cols) && !HasText(b.lines[r], cols) && v <= r - start
    requires forall p: (nat, nat) | p in t.grid && p.0 >= v :: Bare(t.grid[p])
    ensures RowShown(b, start, t, r, cols)
  {
  }

  // ---------------------------------------------------------------- nothing falls behind

  lemma InPlace(b: Buffer, start: nat, count: nat, cols: nat, rows: nat, k: nat)
    requires Laid(b, start, count, cols) && 0 < rows && 0 < k <= count
    requires forall r | start <= r < start + k - 1 :: !Breaks(b, start, count, cols, r)
    requires forall r | start + k <= r < start + count :: !HasText(b.lines[r], cols)
    ensures
      var h := RunRows(b, start, count, cols, k);
      && |h.allRows| == |h.separators| == k
      && var t := Feed(Fresh(rows, cols), Join(h, k));
        && WellPlaced(t) && t.Row() < count
        && WrapsShown(b, start, t)
        && (forall r | start <= r < start + count :: RowShown(b, start, t, r, cols))
    ensures !SkipsText(b, start, count, cols)
  {
    hide Feed, WrapsShown, RunRows, Join, Shown, HasText, Breaks;
    RowsDone(b, start, count, rows, cols, k);
    var h := RunRows(b, start, count, cols, k);
    var t := Feed(Fresh(rows, cols), Join(h, k));
    assert Done(b, start, cols, t, h, start + k);
    forall r | start <= r < start + count ensures RowShown(b, start, t, r, cols) {
      assert WellLaid(b.lines[r], cols);
      if start + k <= r {
        TextlessRow(b, start, cols, t, r, start + k);
      } else {
        assert RowShown(b, start, t, r, |b.lines[r].cells|);
      }
    }
    if r: nat, q: nat :| start < r < q < start + count && Breaks(b, start, count, cols, r) && HasText(b.lines[q], cols) {
      BreakRange(b, start, count, cols, r);
      assert false;
    }
  }

  // ---------------------------------------------------------------- something falls behind

  /** The screen when row `r` is the first to be skipped, `v` bounding what is printed behind. */
  lemma Behind(b: Buffer, start: nat, count: nat, cols: nat, rows: nat, k: nat, r: nat, v: nat)
    requires Laid(b, start, count, cols) && 0 < rows && k <= count
    requires Breaks(b, start, count, cols, r) && r < start + k - 1 && r - start <= v
    requires forall q | start <= q < r :: !Breaks(b, start, count, cols, q)
    requires forall q | r < q < start + count :: q - start <= v || !HasVisible(b.lines[q], cols)
    ensures
      var h := RunRows(b, start, count, cols, k);
      && |h.allRows| == |h.separators| == k
      && var t := Feed(Fresh(rows, cols), Join(h, k));
        && WellPlaced(t) && t.Row() < count
        && (forall q | start <= q < r :: RowShown(b, start, t, q, |b.lines[q].cells|))
        && (forall p: (nat, nat) | p in t.grid && p.0 >= v :: Bare(t.grid[p]))
  {
    hide Feed, RunRows, Join, Lead, Shown, HasVisible, LagMid;
    BreakRange(b, start, count, cols, r);
    hide Breaks;
    FallBehind(b, start, count, rows, cols, r, v);
    var m := r + 1 - start;
    var h0 := RunRows(b, start, count, cols, m);
    var t0 := Feed(Fresh(rows, cols), Lead(h0));
    LagRows(b, start, count, rows, cols, m, k, r - start, t0.grid, v);
    var h := RunRows(b, start, count, cols, k);
    var t := Feed(Fresh(rows, cols), Join(h, k));
    assert LagDone(b, cols, t, h, k, r - start, t0.grid, v);
    forall q | start <= q < r ensures RowShown(b, start, t, q, |b.lines[q].cells|) {
      ShownAbove(b, start, t0, t, q, r - start);
    }
  }

  lemma ShownAbove(b: Buffer, start: nat, t0: Term, t: Term, q: nat, f: nat)
    requires start <= q < |b.lines| && q - start < f && SameAbove(t.grid, t0.grid, f)
    requires RowShown(b, start, t0, q, |b.lines[q].cells|)
    ensures RowShown(b, start, t, q, |b.lines[q].cells|)
  {
    forall c | 0 <= c < |b.lines[q].cells| ensures Shown(b, start, t, q, c) {
      assert Shown(b, start, t0, q, c);
    }
  }

  lemma NotThere(b: Buffer, start: nat, cols: nat, t: Term, q: nat)
    requires start <= q < |b.lines| && cols <= |b.lines[q].cells| && HasVisible(b.lines[q], cols)
    requires forall p: (nat, nat) | p in t.grid && p.0 >= q - start :: Bare(t.grid[p])
    ensures !TextThere(b, start, t, q, cols)
  {
    var c :| 0 <= c < cols && Visible(b.lines[q].cells[c]);
    assert !There(b, start, t, q, c);
  }

  lemma NothingVisible(b: Buffer, start: nat, t: Term, r: nat, n: nat)
    requires start <= r < |b.lines| && n <= |b.lines[r].cells| && !HasVisible(b.lines[r], n)
    ensures TextShown(b, start, t, r, n)
  {
  }

  // ---------------------------------------------------------------- the theorem

  lemma AllTextShown(b: Buffer, start: nat, t: Term, r: nat, n: nat)
    requires start <= r < |b.lines| && n <= |b.lines[r].cells| && RowShown(b, start, t, r, n)
    ensures TextShown(b, start, t, r, n)
  {
  }

  lemma LessSkips(b: Buffer, start: nat, count: nat, cols: nat)
    requires Laid(b, start, count, cols)
    ensures SkipsVisible(b, start, count, cols) ==> SkipsText(b, start, count, cols)
  {
    hide HasVisible, HasText, Breaks;
    forall q | start <= q < start + count ensures HasVisible(b.lines[q], cols) ==> HasText(b.lines[q], cols) {
      assert WellLaid(b.lines[q], cols);
      VisibleIsText(b.lines[q], cols);
    }
    if r: nat, q: nat :| start < r < q < start + count && Breaks(b, start, count, cols, r) && HasVisible(b.lines[q], cols) {
      BreakRange(b, start, count, cols, r);
    }
  }

  /** What is behind a first blank wrapped row, with text that shows below it. */
  lemma VisibleIsLost(b: Buffer, start: nat, count: nat, cols: nat, rows: nat, k: nat, r: nat)
    requires Laid(b, start, count, cols) && 0 < rows && k <= count
    requires Breaks(b, start, count, cols, r) && r < start + k - 1
    requires forall q | start <= q < r :: !Breaks(b, start, count, cols, q)
    requires exists q | r < q < start + count :: HasVisible(b.lines[q], cols)
    ensures
      var h := RunRows(b, start, count, cols, k);
      && |h.allRows| == |h.separators| == k
      && var t := Feed(Fresh(rows, cols), Join(h, k));
        && WellPlaced(t) && t.Row() < count
        && exists q :: r < q < start + count && !TextThere(b, start, t, q, cols)
  {
    hide Feed, RunRows, Join, HasVisible, TextThere;
    BreakRange(b, start, count, cols, r);
    hide Breaks;
    var q := LastVisible(b, start, count, cols, r, start + count);
    Behind(b, start, count, cols, rows, k, r, q - start);
    var h := RunRows(b, start, count, cols, k);
    assert WellLaid(b.lines[q], cols);
    NotThere(b, start, cols, Feed(Fresh(rows, cols), Join(h, k)), q);
  }

  /** ... and with at most single spaces below it. */
  lemma NothingVisibleIsLost(b: Buffer, start: nat, count: nat, cols: nat, rows: nat, k: nat, r: nat)
    requires Laid(b, start, count, cols) && 0 < rows && k <= count
    requires Breaks(b, start, count, cols, r) && r < start + k - 1
    requires forall q | start <= q < r :: !Breaks(b, start, count, cols, q)
    requires forall q | r < q < start + count :: !HasVisible(b.lines[q], cols)
    ensures
      var h := RunRows(b, start, count, cols, k);
      && |h.allRows| == |h.separators| == k
      && var t := Feed(Fresh(rows, cols), Join(h, k));
        && WellPlaced(t) && t.Row() < count
        && (forall q | start <= q < start + count :: TextShown(b, start, t, q, cols))
        && ((forall q | r < q < start + count :: !HasText(b.lines[q], cols)) ==>
              forall q | start <= q < start + count :: RowShown(b, start, t, q, cols))
  {
    hide Feed, RunRows, Join, HasVisible, HasText, Shown;
    BreakRange(b, start, count, cols, r);
    BlankHasNoText(b, start, count, cols, r);
    hide Breaks;
    Behind(b, start, count, cols, rows, k, r, r - start);
    var h := RunRows(b, start, count, cols, k);
    var t := Feed(Fresh(rows, cols), Join(h, k));
    forall q | start <= q < start + count ensures TextShown(b, start, t, q, cols) {
      assert WellLaid(b.lines[q], cols);
      if q < r {
        AllTextShown(b, start, t, q, cols);
      } else {
        VisibleIsText(b.lines[q], cols);
        NothingVisible(b, start, t, q, cols);
      }
    }
    if forall q | r < q < start + count :: !HasText(b.lines[q], cols) {
      forall q | start <= q < start + count ensures RowShown(b, start, t, q, cols) {
        assert WellLaid(b.lines[q], cols);
        if q >= r {
          BlankRow(b, start, cols, t, q, r - start);
        }
      }
    }
  }

  lemma BlankHasNoText(b: Buffer, start: nat, count: nat, cols: nat, r: nat)
    requires Breaks(b, start, count, cols, r)
    ensures !HasText(b.lines[r], cols)
  {
  }

  /** Which rows skip text: the first blank wrapped row decides. */
  lemma FirstDecides(b: Buffer, start: nat, count: nat, cols: nat, r: nat)
    requires Laid(b, start, count, cols) && Breaks(b, start, count, cols, r)
    requires forall q | start <= q < r :: !Breaks(b, start, count, cols, q)
    ensures SkipsText(b, start, count, cols) <==> exists q | r < q < start + count :: HasText(b.lines[q], cols)
    ensures SkipsVisible(b, start, count, cols) <==> exists q | r < q < start + count :: HasVisible(b.lines[q], cols)
  {
    hide HasText, HasVisible;
    BreakRange(b, start, count, cols, r);
    forall r' | Breaks(b, start, count, cols, r') ensures r <= r' {
      BreakRange(b, start, count, cols, r');
    }
    hide Breaks;
  }

  /** The brush after the whole range. */
  function LastBrush(b: Buffer, start: nat, count: nat): Brush
    requires 0 < count && start + count <= |b.lines|
  {
    BrushAt(b, start, start + count - 1, |b.lines[start + count - 1].cells|)
  }

  lemma ContentBrush(b: Buffer, start: nat, count: nat, cols: nat, rows: nat)
    requires Laid(b, start, count, cols)
    ensures Feed(Fresh(rows, cols), Content(b, start, count, cols, rows)).pen == LastBrush(b, start, count).pen
    ensures RunRows(b, start, count, cols, count).cursorStyle == LastBrush(b, start, count).style
  {
    hide Feed, Content, RunRows, Join, BrushAt, Brushed;
    var k := Written(b, start, count, cols, rows);
    ContentIsJoin(b, start, count, cols, rows);
    RowsKept(b, start, count, cols, count);
    assert WellLaid(b.lines[start + count - 1], cols) && WellLaid(b.lines[start + k - 1], cols);
    BrushRows(b, start, count, rows, cols, k);
    BrushRows(b, start, count, rows, cols, count);
    QuietBrushes(b, start, count, cols, rows, k);
    var h, last := RunRows(b, start, count, cols, k), RunRows(b, start, count, cols, count);
    HasBrush(b, start, Feed(Fresh(rows, cols), Join(h, k)), h, start + k - 1, cols);
    HasBrush(b, start, Feed(Fresh(rows, cols), Join(last, count)), last, start + count - 1, cols);
  }

  /** The content, for every laid-out buffer, whatever its styles. Text that shows is at its own
      place, painted with the brush, exactly when no blank wrapped row comes before a hard line
      break with such text below; if no text at all is below such a row, every cell of every
      row is, explicit spaces included, and all the rest is blank. */
  lemma ContentReplay(b: Buffer, start: nat, count: nat, cols: nat, rows: nat)
    requires Laid(b, start, count, cols) && 0 < rows
    ensures
      var t := Feed(Fresh(rows, cols), Content(b, start, count, cols, rows));
      && WellPlaced(t) && t.rows == rows && t.cols == cols && t.Row() < count
      && t.pen == LastBrush(b, start, count).pen
      && (!SkipsVisible(b, start, count, cols) ==> forall r | start <= r < start + count :: TextShown(b, start, t, r, cols))
      && (SkipsVisible(b, start, count, cols) ==> exists r | start <= r < start + count :: !TextThere(b, start, t, r, cols))
      && (!SkipsText(b, start, count, cols) ==> forall r | start <= r < start + count :: RowShown(b, start, t, r, cols))
      && ((forall r | start <= r < start + count :: !Breaks(b, start, count, cols, r)) ==> WrapsShown(b, start, t))
  {
    hide Feed, WrapsShown, WellPlaced, RunRows, Join, Shown, HasText, HasVisible, SkipsText, SkipsVisible, Content,
         RowShown, TextShown, TextThere, Breaks, LastBrush;
    ContentBrush(b, start, count, cols, rows);
    var k := Written(b, start, count, cols, rows);
    ContentIsJoin(b, start, count, cols, rows);
    var h := RunRows(b, start, count, cols, k);
    FeedSize(Fresh(rows, cols), Join(h, k));
    var t := Feed(Fresh(rows, cols), Join(h, k));
    hide Written;
    if forall r | start <= r < start + k - 1 :: !Breaks(b, start, count, cols, r) {
      InPlace(b, start, count, cols, rows, k);
      LessSkips(b, start, count, cols);
      forall r | start <= r < start + count ensures TextShown(b, start, t, r, cols) {
        assert WellLaid(b.lines[r], cols);
        AllTextShown(b, start, t, r, cols);
      }
    } else {
      var r := FirstBreak(b, start, count, cols, start + k - 1);
      BreakRange(b, start, count, cols, r);
      FirstDecides(b, start, count, cols, r);
      if exists q | r < q < start + count :: HasVisible(b.lines[q], cols) {
        VisibleIsLost(b, start, count, cols, rows, k, r);
        LessSkips(b, start, count, cols);
      } else {
        NothingVisibleIsLost(b, start, count, cols, rows, k, r);
      }
    }
  }

  /** The screen when everything up to cell (r, c) has been written, the cell included. */
  function UpTo(b: Buffer, start: nat, count: nat, cols: nat, rows: nat, r: nat, c: nat): Term
    requires start <= r < start + count <= |b.lines| && c < |b.lines[r].cells|
  {
    var before := RunRows(b, start, count, cols, r - start);
    RowsKept(b, start, count, cols, r - start);
    Screen(rows, cols, Lead(before), RunCells(b, before, r, c + 1))
  }

  /** Cell by cell, explicit spaces included: a cell with text is printed at its own place, the
      cursor coming to stand right behind it, exactly when no row above it is skipped. */
  lemma PrintedInPlace(b: Buffer, start: nat, count: nat, cols: nat, rows: nat, r: nat, c: nat)
    requires Laid(b, start, count, cols) && 0 < rows && start <= r < start + count && c < cols
    requires b.lines[r].cells[c].width != 0 && !IsEmpty(b.lines[r].cells[c])
    ensures
      var t := UpTo(b, start, count, cols, rows, r, c);
      t.Row() == r - start && t.x == c + b.lines[r].cells[c].width
      <==> forall q | start <= q < r :: !Breaks(b, start, count, cols, q)
  {
    hide UpTo, Breaks;
    if forall q | start <= q < r :: !Breaks(b, start, count, cols, q) {
      PrintedThere(b, start, count, cols, rows, r, c);
    } else {
      var q := FirstBreak(b, start, count, cols, r);
      PrintedBehind(b, start, count, cols, rows, r, c, q);
    }
  }

  lemma PrintedThere(b: Buffer, start: nat, count: nat, cols: nat, rows: nat, r: nat, c: nat)
    requires Laid(b, start, count, cols) && 0 < rows && start <= r < start + count && c < cols
    requires b.lines[r].cells[c].width != 0 && !IsEmpty(b.lines[r].cells[c])
    requires forall q | start <= q < r :: !Breaks(b, start, count, cols, q)
    ensures
      var t := UpTo(b, start, count, cols, rows, r, c);
      t.Row() == r - start && t.x == c + b.lines[r].cells[c].width
  {
    hide Feed, Lead, Mid, Breaks, NextCell, Join, RunRow, IsEmpty, Brushed;
    var k := r - start;
    RowsKept(b, start, count, cols, k);
    BrushRows(b, start, count, rows, cols, k);
    RowsDone(b, start, count, rows, cols, k);
    var before := RunRows(b, start, count, cols, k);
    assert Lead(before) + before.currentRow == Lead(before);
    var h := RunCells(b, before, r, c + 1);
    assert h == NextCell(b, RunCells(b, before, r, c), b.lines[r].cells[c], r);
    TextCell(b, RunCells(b, before, r, c), r, c);
    ReachFits(b.lines[r], cols, c);
    ReachGrows(b.lines[r], cols, c);
    hide RunRows;
    CellsKeepMid(b, start, rows, cols, Lead(before), before, r, c + 1);
    hide RunCells;
    BehindTheCell(b, start, cols, UpTo(b, start, count, cols, rows, r, c), h, r, c);
  }

  lemma PrintedBehind(b: Buffer, start: nat, count: nat, cols: nat, rows: nat, r: nat, c: nat, q: nat)
    requires Laid(b, start, count, cols) && 0 < rows && start <= r < start + count && c < cols
    requires q < r && Breaks(b, start, count, cols, q)
    requires forall q': nat | q' < q :: !Breaks(b, start, count, cols, q')
    ensures UpTo(b, start, count, cols, rows, r, c).Row() != r - start
  {
    hide Feed, Lead, LagMid, NextCell, Join, RunRow, RunRows, LagDone;
    BreakRange(b, start, count, cols, q);
    hide Breaks;
    var k := r - start;
    RowsKept(b, start, count, cols, k);
    var before := RunRows(b, start, count, cols, k);
    assert Lead(before) + before.currentRow == Lead(before);
    FallBehind(b, start, count, rows, cols, q, count);
    var m := q + 1 - start;
    var t0 := Feed(Fresh(rows, cols), Lead(RunRows(b, start, count, cols, m)));
    if m < k {
      LagRows(b, start, count, rows, cols, m, k, q - start, t0.grid, count);
    }
    LagCells(b, start, rows, cols, Lead(before), before, r, c + 1, q - start, t0.grid, count);
    var h := RunCells(b, before, r, c + 1);
    hide RunCells;
    NotInTheRow(b, start, cols, UpTo(b, start, count, cols, rows, r, c), h, r, c + 1, q - start, t0.grid, count);
  }

  lemma TextCell(b: Buffer, h: Handler, row: nat, c: nat)
    requires row < |b.lines| && c < |b.lines[row].cells|
    requires b.lines[row].cells[c].width != 0 && !IsEmpty(b.lines[row].cells[c])
    ensures
      var h' := NextCell(b, h, b.lines[row].cells[c], row);
      h'.nullCells == 0 && HasPrint(h'.currentRow)
  {
    hide HasPrint, DiffStyle, IsEmpty;
    CellPrints(b, h, b.lines[row].cells[c], row);
  }

  lemma BehindTheCell(b: Buffer, start: nat, cols: nat, t: Term, h: Handler, row: nat, c: nat)
    requires start <= row < |b.lines| && c < |b.lines[row].cells| && b.lines[row].cells[c].width != 0
    requires Mid(b, start, cols, t, h, row, c + 1) && h.nullCells == 0 && HasPrint(h.currentRow)
    requires Reach(b.lines[row], c + 1) == c + b.lines[row].cells[c].width
    ensures t.Row() == row - start && t.x == c + b.lines[row].cells[c].width
  {
    hide HasPrint, Drawn, WrapsShown;
  }

  lemma NotInTheRow(b: Buffer, start: nat, cols: nat, t: Term, h: Handler, row: nat, n: nat,
                    f: nat, g: map<(nat, nat), Glyph>, v: nat)
    requires start <= row < |b.lines| && n <= |b.lines[row].cells|
    requires LagMid(b, start, cols, t, h, row, n, f, g, v)
    ensures t.Row() != row - start
  {
  }

  lemma ShownInLook(b: Buffer, start: nat, t: Term, r: nat, c: nat)
    requires start <= r < |b.lines| && c < |b.lines[r].cells|
    requires b.lines[r].cells[c].width != 0 && !IsEmpty(b.lines[r].cells[c]) && Shown(b, start, t, r, c)
    ensures There(b, start, t, r, c) && (InLook(b, start, t, r, c) <==> LookKept(b, start, r, c))
  {
    hide LooksLike, BrushAt;
  }

  /** All text that shows keeps its look. */
  ghost predicate TextKept(b: Buffer, start: nat, r: nat, n: nat)
    requires start <= r < |b.lines| && n <= |b.lines[r].cells|
  {
    forall c | 0 <= c < n && Visible(b.lines[r].cells[c]) :: LookKept(b, start, r, c)
  }

  lemma LookOfText(b: Buffer, start: nat, t: Term, r: nat, n: nat)
    requires start <= r < |b.lines| && n <= |b.lines[r].cells|
    ensures TextInLook(b, start, t, r, n) ==> TextThere(b, start, t, r, n)
    ensures TextShown(b, start, t, r, n) ==> (TextInLook(b, start, t, r, n) <==> TextKept(b, start, r, n))
  {
    hide LooksLike, BrushAt, There, LookKept;
    if TextShown(b, start, t, r, n) {
      forall c | 0 <= c < n && Visible(b.lines[r].cells[c])
        ensures InLook(b, start, t, r, c) <==> LookKept(b, start, r, c)
      {
        ShownInLook(b, start, t, r, c);
      }
    }
  }

  lemma LookOfRow(b: Buffer, start: nat, t: Term, r: nat, n: nat)
    requires start <= r < |b.lines| && n <= |b.lines[r].cells| && RowShown(b, start, t, r, n)
    requires forall c | 0 <= c < n :: LookKept(b, start, r, c)
    ensures RowInLook(b, start, t, r, n)
  {
    hide LooksLike, BrushAt, There, LookKept, InLook;
    forall c | 0 <= c < n && b.lines[r].cells[c].width != 0
      ensures if IsEmpty(b.lines[r].cells[c]) then (r - start, c) in t.grid ==> t.grid[(r - start, c)].chars == " "
              else InLook(b, start, t, r, c)
    {
      assert Shown(b, start, t, r, c);
      if !IsEmpty(b.lines[r].cells[c]) {
        ShownInLook(b, start, t, r, c);
      }
    }
  }

  /** The serializer's promise, for every laid-out buffer with any styles and any null cell. After
      the output all text that shows is in its place and in its look exactly when no row with
      such text is skipped and each such cell keeps its look; a whole buffer comes back, single
      spaces included, when no text is skipped and all looks are kept. The pen that is put back
      is the brush, dipped once more. If the buffer fits on one screen, the cursor's row comes
      back, and its column exactly when it was inside the row. */
  lemma SerializeReplay(b: Buffer, start: nat, count: nat, cols: nat, rows: nat, excludeCursor: bool)
    requires Laid(b, start, count, cols) && 0 < rows
    requires start <= b.baseY + b.cursorY < start + count
    ensures
      var t := Feed(Fresh(rows, cols), Serialize(b, start, count, cols, rows, excludeCursor));
      && ((forall r | start <= r < start + count :: TextInLook(b, start, t, r, cols))
          <==> !SkipsVisible(b, start, count, cols) && forall r | start <= r < start + count :: TextKept(b, start, r, cols))
      && (!SkipsText(b, start, count, cols) && AllKept(b, start, start + count - 1, cols) ==>
            forall r | start <= r < start + count :: RowInLook(b, start, t, r, cols))
      && t.wrapped == Feed(Fresh(rows, cols), Content(b, start, count, cols, rows)).wrapped
      && t.pen == (if excludeCursor then LastBrush(b, start, count).pen else PenBack(b, start, count))
      && (!excludeCursor && |b.lines| <= start + rows ==>
            && t.Row() == b.baseY + b.cursorY - start
            && (t.x == b.cursorX <==> b.cursorX < cols))
  {
    hide Feed, Content, Shown, RunRows, Finish, SkipsText, SkipsVisible, RowShown, TextShown, TextThere, TextInLook,
         TextKept, RowInLook, LookKept, LastBrush, PenBack;
    ContentReplay(b, start, count, cols, rows);
    ContentBrush(b, start, count, cols, rows);
    var blank := Fresh(rows, cols);
    var content := Content(b, start, count, cols, rows);
    var t0 := Feed(blank, content);
    var finish := if excludeCursor then [] else Finish(b, start, RunRows(b, start, count, cols, count).cursorStyle);
    var t := Feed(blank, content + finish);
    if excludeCursor {
      assert content + [] == content;
    } else {
      FeedConcat(blank, content, finish);
      CursorBack(b, start, count, cols, t0);
    }
    assert t.grid == t0.grid;
    forall r | start <= r < start + count
      ensures TextInLook(b, start, t, r, cols) ==> TextThere(b, start, t0, r, cols)
      ensures TextShown(b, start, t0, r, cols) ==> (TextInLook(b, start, t, r, cols) <==> TextKept(b, start, r, cols))
      ensures RowShown(b, start, t0, r, cols) && AllKept(b, start, start + count - 1, cols) ==> RowInLook(b, start, t, r, cols)
    {
      assert WellLaid(b.lines[r], cols);
      SameLooks(b, start, t0, t, r, cols);
      LookOfText(b, start, t0, r, cols);
      if RowShown(b, start, t0, r, cols) && AllKept(b, start, start + count - 1, cols) {
        LookOfRow(b, start, t0, r, cols);
      }
    }
  }

  lemma SameLooks(b: Buffer, start: nat, t0: Term, t: Term, r: nat, n: nat)
    requires start <= r < |b.lines| && n <= |b.lines[r].cells| && t.grid == t0.grid
    ensures TextInLook(b, start, t, r, n) <==> TextInLook(b, start, t0, r, n)
    ensures RowInLook(b, start, t, r, n) <==> RowInLook(b, start, t0, r, n)
  {
    forall c | 0 <= c < n ensures InLook(b, start, t, r, c) <==> InLook(b, start, t0, r, c) {
    }
  }

  // ---------------------------------------------------------------- the cursor and the pen

  /** The pen that the last part of the output leaves. */
  function PenBack(b: Buffer, start: nat, count: nat): Pen
    requires 0 < count && start + count <= |b.lines|
  {
    var u := LastBrush(b, start, count);
    var params := DiffStyle(CursorStyle(b), u.style, b.nullStyle);
    if |params| > 0 then Apply(u.pen, params) else u.pen
  }

  /** The last part of the output: the cursor and the pen. */
  lemma CursorBack(b: Buffer, start: nat, count: nat, cols: nat, t0: Term)
    requires Laid(b, start, count, cols) && start <= b.baseY + b.cursorY < start + count
    requires WellPlaced(t0) && t0.cols == cols && t0.Row() < count && t0.pen == LastBrush(b, start, count).pen
    ensures
      var t := Feed(t0, Finish(b, start, LastBrush(b, start, count).style));
      && t.grid == t0.grid && t.wrapped == t0.wrapped && t.pen == PenBack(b, start, count)
      && (|b.lines| <= start + t0.rows ==>
            && t.Row() == b.baseY + b.cursorY - start
            && (t.x == b.cursorX <==> b.cursorX < cols))
  {
    hide Feed, DiffStyle, LastBrush, Apply, CursorStyle;
    FeedFinish(t0, Finish(b, start, LastBrush(b, start, count).style));
  }

  /** The style that is put back: that of the cell which covers the cursor's column, the placeholder
      of a wide cell included, and the null cell's where there is no cell. */
  lemma CursorCell(b: Buffer, cols: nat)
    requires b.baseY + b.cursorY < |b.lines| ==> WellLaid(b.lines[b.baseY + b.cursorY], cols)
    ensures
      var row := b.baseY + b.cursorY;
      && (row < |b.lines| ==>
            forall c | 0 <= c < cols && c <= b.cursorX < c + b.lines[row].cells[c].width ::
              CursorStyle(b) == b.lines[row].cells[c].style)
      && (row < |b.lines| && b.cursorX < cols ==>
            exists c :: 0 <= c < cols && c <= b.cursorX < c + b.lines[row].cells[c].width)
      && (row >= |b.lines| || b.cursorX >= cols ==> CursorStyle(b) == b.nullStyle)
  {
    var row := b.baseY + b.cursorY;
    if row < |b.lines| && b.cursorX < cols {
      CoveringCell(b.lines[row], cols, b.cursorX);
    }
  }

  /** Every column of a row is covered by a cell that is no placeholder. */
  lemma CoveringCell(line: Line, cols: nat, x: nat)
    requires WellLaid(line, cols) && x < cols
    ensures
      var c := if line.cells[x].width != 0 then x else x - 1;
      0 <= c && c <= x < c + line.cells[c].width
  {
    assert line.cells[x].width == 0 <==> 0 < x && line.cells[x - 1].width == 2;
  }

  /** The cursor is put in the first row when it is above the range. */
  lemma CursorAbove(b: Buffer, start: nat, style: Style)
    requires b.baseY + b.cursorY < start
    ensures Finish(b, start, style)[0] == MoveTo(1, b.cursorX + 1)
  {
  }

  /** The pen has the look of the cell under the cursor exactly when the step to that cell's style
      from the last cell's is safe. */
  lemma PenRestored(b: Buffer, start: nat, count: nat, cols: nat)
    requires Laid(b, start, count, cols) && Sane(b, start, start + count) && AllSafe(b, start, start + count - 1, cols)
    requires start <= b.baseY + b.cursorY < start + count
    ensures
      LooksLike(PenBack(b, start, count), CursorStyle(b), b.nullStyle)
      <==> StepIsSafe(CursorStyle(b), StyleBefore(b, start, start + count - 1, cols), b.nullStyle)
  {
    hide AllSafe, TrueBrush, StepIsSafe, LooksLike, BrushAt, StyleBefore, DiffStyle, Apply;
    var row := start + count - 1;
    assert WellLaid(b.lines[row], cols);
    LooksExact(b, start, start + count, row, cols);
    CursorValid(b, start, count);
    DipExact(BrushAt(b, start, row, cols), StyleBefore(b, start, row, cols), Cell("", 0, 1, CursorStyle(b)), b.nullStyle);
  }

  lemma CursorValid(b: Buffer, start: nat, count: nat)
    requires start + count <= |b.lines| && Sane(b, start, start + count)
    requires start <= b.baseY + b.cursorY < start + count
    ensures Valid(CursorStyle(b))
  {
  }

  /** With safe steps only, the look is never the reason for a loss. */
  lemma SafeReplay(b: Buffer, start: nat, count: nat, cols: nat, rows: nat, excludeCursor: bool)
    requires Laid(b, start, count, cols) && 0 < rows && Sane(b, start, start + count)
    requires start <= b.baseY + b.cursorY < start + count
    requires AllSafe(b, start, start + count - 1, cols)
    ensures
      var t := Feed(Fresh(rows, cols), Serialize(b, start, count, cols, rows, excludeCursor));
      && ((forall r | start <= r < start + count :: TextInLook(b, start, t, r, cols)) <==> !SkipsVisible(b, start, count, cols))
      && (!SkipsText(b, start, count, cols) ==> forall r | start <= r < start + count :: RowInLook(b, start, t, r, cols))
  {
    hide Feed, Serialize, SkipsText, SkipsVisible, TextInLook, RowInLook, TextKept, AllSafe, AllKept, PenBack, LastBrush,
         Sane, BrushAt, StyleBefore;
    SerializeReplay(b, start, count, cols, rows, excludeCursor);
    SafeIsKept(b, start, count, cols);
  }

  lemma SafeIsKept(b: Buffer, start: nat, count: nat, cols: nat)
    requires Laid(b, start, count, cols) && Sane(b, start, start + count) && AllSafe(b, start, start + count - 1, cols)
    ensures AllKept(b, start, start + count - 1, cols)
    ensures forall r | start <= r < start + count :: TextKept(b, start, r, cols)
  {
    hide TextKept, AllSafe, AllKept, TrueBrush, Sane, BrushAt, StyleBefore;
    assert WellLaid(b.lines[start + count - 1], cols);
    LooksExact(b, start, start + count, start + count - 1, cols);
    forall r | start <= r < start + count ensures TextKept(b, start, r, cols) {
      assert WellLaid(b.lines[r], cols);
      KeptOfAll(b, start, start + count - 1, cols, r);
    }
  }

  lemma KeptOfAll(b: Buffer, start: nat, row: nat, n: nat, r: nat)
    requires start <= r <= row < |b.lines| && n == |b.lines[row].cells| == |b.lines[r].cells| && AllKept(b, start, row, n)
    ensures TextKept(b, start, r, n)
  {
    hide LookKept;
  }

  lemma FeedFinish(t: Term, finish: seq<Tok>)
    requires 1 <= |finish| <= 2 && finish[0].MoveTo? && (|finish| == 2 ==> finish[1].SetPen?)
    ensures Feed(t, finish) ==
            var moved := Put(t, finish[0]);
            if |finish| == 2 then Put(moved, finish[1]) else moved
  {
    assert Feed(t, []) == t;
    hide Feed, Put;
    FeedOne(t, [], finish[0]);
    assert [] + [finish[0]] == [finish[0]];
    if |finish| == 2 {
      assert finish == [finish[0]] + [finish[1]];
      FeedOne(t, [finish[0]], finish[1]);
    } else {
      assert finish == [finish[0]];
    }
  }

  /** What counts as garbage, in numbers: no Unicode scalar value, or a one-column cell from U+F000
      on. A cell prints nothing when it is that, or has no code or no characters. */
  lemma EmptyCells(cell: Cell)
    ensures IsGarbage(cell) <==>
      (55296 <= cell.code < 57344) || cell.code >= 1114112 || (cell.width == 1 && cell.code >= 61440)
    ensures IsEmpty(cell) <==> cell.code == 0 || |cell.chars| == 0 || IsGarbage(cell)
  {
  }

  /** A cell with characters that show survives the round trip exactly when it does not count
      as garbage. */
  lemma GarbageIsLost(b: Buffer, start: nat, count: nat, cols: nat, rows: nat, r: nat, c: nat)
    requires Laid(b, start, count, cols) && !SkipsText(b, start, count, cols) && 0 < rows
    requires start <= r < start + count && c < cols
    requires
      var cell := b.lines[r].cells[c];
      cell.width != 0 && cell.code != 0 && cell.chars != "" && cell.chars != " "
    ensures
      var t := Feed(Fresh(rows, cols), Content(b, start, count, cols, rows));
      var cell := b.lines[r].cells[c];
      ((r - start, c) in t.grid && t.grid[(r - start, c)] == Glyph(cell.chars, cell.width, BrushAt(b, start, r, c + 1).pen))
      <==> !IsGarbage(cell)
  {
    hide Feed, Content, SkipsText, SkipsVisible, TextShown, TextThere, BrushAt;
    ContentReplay(b, start, count, cols, rows);
    var t := Feed(Fresh(rows, cols), Content(b, start, count, cols, rows));
    assert RowShown(b, start, t, r, cols);
    assert Shown(b, start, t, r, c);
  }
}
