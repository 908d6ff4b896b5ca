/** The smallest buffer in which a row is skipped: a blank wrapped row before a hard line break,
    with text below. */
module EmptyContinuation {
  import opened Sgr
  import opened Terminal
  import opened Serializer

  const NORMAL := Style(0, 0, 0, 0, {})

  /** One column: a text row, its empty continuation, and a row after a hard break. */
  const SAMPLE := Buffer(
    [Line([Cell("a", 97, 1, NORMAL)], false), Line([Cell("", 0, 1, NORMAL)], true),
     Line([Cell("b", 98, 1, NORMAL)], false)], 0, 0, 0, NORMAL)

  lemma NoChange(s: Style)
    ensures DiffStyle(s, s, s) == []
  {
  }

  /** What a row of one cell adds to the handler. */
  lemma OneCellRow(b: Buffer, h: Handler, row: nat, isLast: bool)
    requires row < |b.lines| && |b.lines[row].cells| == 1
    requires h.currentRow == [] && h.nullCells == 0 && h.cursorStyle == b.nullStyle
    requires b.lines[row].cells[0].width == 1 && b.lines[row].cells[0].style == b.nullStyle
    ensures
      var cell := b.lines[row].cells[0];
      var wrapped := NextIsWrapped(b, row, isLast);
      var text := if IsEmpty(cell) then (if wrapped then Spaces(1) else []) else [Print(cell.chars, 1)];
      RunRow(b, h, row, 1, isLast)
      == h.(allRows := h.allRows + [text],
            separators := h.separators + [if !isLast && !wrapped then [CrLf] else []],
            lastContentRow := if IsEmpty(cell) then h.lastContentRow else row)
  {
    hide DiffStyle, IsEmpty;
    NoChange(b.nullStyle);
    var cell := b.lines[row].cells[0];
    assert RunCells(b, h, row, 0) == h;
    assert RunCells(b, h, row, 1) == NextCell(b, h, b.lines[row].cells[0], row);
    assert Spaces(0) == [];
    assert [] + Spaces(1) == Spaces(1);
    var h1 := NextCell(b, h, cell, row);
    assert !IsEmpty(cell) ==> [] + Spaces(0) + [Print(cell.chars, 1)] == [Print(cell.chars, 1)];
    assert RunRow(b, h, row, 1, isLast) == RowEnd(b, h1, row, isLast);
    assert h1.currentRow == if IsEmpty(cell) then [] else [Print(cell.chars, 1)];
    assert [Print(cell.chars, 1)] + Spaces(0) == [Print(cell.chars, 1)];
    assert [] + Spaces(0) == [];
  }

  lemma RowsUnfold(b: Buffer, k: nat)
    requires k < 3 <= |b.lines|
    ensures RunRows(b, 0, 3, 1, 0) == Begin(b, 0)
    ensures RunRows(b, 0, 3, 1, k + 1) == RunRow(b, RunRows(b, 0, 3, 1, k), k, 1, k == 2)
  {
  }

  lemma SampleRows()
    ensures
      var h := RunRows(SAMPLE, 0, 3, 1, 3);
      && h.allRows == [[Print("a", 1)], [], [Print("b", 1)]]
      && h.separators == [[], [CrLf], []] && h.lastContentRow == 2
  {
    hide RunRow, RunRows;
    var b := SAMPLE;
    RowsUnfold(b, 0);
    RowsUnfold(b, 1);
    RowsUnfold(b, 2);
    var h1 := RunRows(b, 0, 3, 1, 1);
    OneCellRow(b, Begin(b, 0), 0, false);
    assert h1.allRows == [[Print("a", 1)]] && h1.separators == [[]];
    OneCellRow(b, h1, 1, false);
    var h2 := RunRows(b, 0, 3, 1, 2);
    assert h2.allRows == [[Print("a", 1)], []] && h2.separators == [[], [CrLf]];
    OneCellRow(b, h2, 2, true);
  }

  lemma SampleContent()
    ensures Content(SAMPLE, 0, 3, 1, 3) == [Print("a", 1), CrLf, Print("b", 1)]
  {
    SampleRows();
    hide RunRows;
    var h := RunRows(SAMPLE, 0, 3, 1, 3);
    assert Join(h, 1) == [Print("a", 1)];
    assert Join(h, 2) == [Print("a", 1)];
    assert Join(h, 3) == [Print("a", 1), CrLf, Print("b", 1)];
  }

  lemma FeedThree(t: Term, p: Tok, q: Tok, r: Tok)
    ensures Feed(t, [p, q, r]) == Put(Put(Put(t, p), q), r)
  {
    FeedNone(t);
    hide Feed, Put;
    FeedOne(t, [], p);
    assert [] + [p] == [p];
    FeedOne(t, [p], q);
    assert [p] + [q] == [p, q];
    FeedOne(t, [p, q], r);
    assert [p, q] + [r] == [p, q, r];
  }

  lemma PutFirst()
    ensures Put(Fresh(3, 1), Print("a", 1)) == Term(3, 1, 0, 0, 1, PLAIN, map[(0, 0) := Glyph("a", 1, PLAIN)], {})
  {
  }

  lemma PutRest(t: Term)
    requires t.rows == 3 && t.cols == 1 && t.top == 0 && t.y == 0 && (2, 0) !in t.grid
    ensures
      var t' := Put(Put(t, CrLf), Print("b", 1));
      (2, 0) !in t'.grid && (1, 0) in t'.grid && t'.grid[(1, 0)] == Glyph("b", 1, t.pen)
  {
    var down := Put(t, CrLf);
    assert down.Row() == 1 && down.x == 0;
  }

  lemma SampleScreen(t: Term)
    requires t == Fresh(3, 1)
    ensures
      var t' := Feed(t, [Print("a", 1), CrLf, Print("b", 1)]);
      (2, 0) !in t'.grid && (1, 0) in t'.grid && t'.grid[(1, 0)].chars == "b"
  {
    hide Feed, Put;
    FeedThree(t, Print("a", 1), CrLf, Print("b", 1));
    PutFirst();
    PutRest(Put(t, Print("a", 1)));
  }

  lemma FeedNone(t: Term)
    ensures Feed(t, []) == t
  {
  }

  /** The cursor never enters an empty continuation row, and the text after the hard break lands
      one row too high. */
  lemma EmptyContinuationShiftsRows()
    ensures SAMPLE.lines[1].isWrapped && IsEmpty(SAMPLE.lines[1].cells[0])
    ensures
      var t := Feed(Fresh(3, 1), Content(SAMPLE, 0, 3, 1, 3));
      (2, 0) !in t.grid && (1, 0) in t.grid && t.grid[(1, 0)].chars == "b"
  {
    SampleContent();
    SampleScreen(Fresh(3, 1));
    hide Feed, Content;
  }
}
