/** Why the replay theorem's condition speaks of text that shows: a single space whose own print
    has gone elsewhere may be painted again by the padding of a later row. */
module RepaintedSpace {
  import opened Sgr
  import opened Terminal
  import opened Serializer
  import opened Placement
  import opened Replay
  import opened EmptyContinuation

  /** One column: a text row, its empty continuation, a space after a hard break, and an empty row
      with its continuation. */
  const SPACED := Buffer(
    [Line([Cell("a", 97, 1, NORMAL)], false), Line([Cell("", 0, 1, NORMAL)], true),
     Line([Cell(" ", 32, 1, NORMAL)], false), Line([Cell("", 0, 1, NORMAL)], false),
     Line([Cell("", 0, 1, NORMAL)], true)], 0, 0, 0, NORMAL)

  lemma FiveUnfold(b: Buffer, k: nat)
    requires k < 5 <= |b.lines|
    ensures RunRows(b, 0, 5, 1, 0) == Begin(b, 0)
    ensures RunRows(b, 0, 5, 1, k + 1) == RunRow(b, RunRows(b, 0, 5, 1, k), k, 1, k == 4)
  {
  }

  lemma SpacedRows()
    ensures
      var h := RunRows(SPACED, 0, 5, 1, 5);
      && h.allRows == [[Print("a", 1)], [], [Print(" ", 1)], Spaces(1), []]
      && h.separators == [[], [CrLf], [CrLf], [], []]
  {
    hide RunRow, RunRows, Spaces;
    var b := SPACED;
    FiveUnfold(b, 0);
    FiveUnfold(b, 1);
    FiveUnfold(b, 2);
    FiveUnfold(b, 3);
    FiveUnfold(b, 4);
    OneCellRow(b, Begin(b, 0), 0, false);
    var h1 := RunRows(b, 0, 5, 1, 1);
    assert h1.allRows == [[Print("a", 1)]] && h1.separators == [[]];
    OneCellRow(b, h1, 1, false);
    var h2 := RunRows(b, 0, 5, 1, 2);
    assert h2.allRows == [[Print("a", 1)], []] && h2.separators == [[], [CrLf]];
    OneCellRow(b, h2, 2, false);
    var h3 := RunRows(b, 0, 5, 1, 3);
    assert h3.allRows == [[Print("a", 1)], [], [Print(" ", 1)]] && h3.separators == [[], [CrLf], [CrLf]];
    OneCellRow(b, h3, 3, false);
    var h4 := RunRows(b, 0, 5, 1, 4);
    assert h4.allRows == [[Print("a", 1)], [], [Print(" ", 1)], Spaces(1)];
    assert h4.separators == [[], [CrLf], [CrLf], []];
    OneCellRow(b, h4, 4, true);
  }

  lemma SpacedContent()
    ensures Content(SPACED, 0, 5, 1, 3) == [Print("a", 1), CrLf, Print(" ", 1)] + [CrLf, Print(" ", 1)]
  {
    SpacedRows();
    hide RunRows;
    var h := RunRows(SPACED, 0, 5, 1, 5);
    assert Spaces(1) == [Print(" ", 1)];
    assert Join(h, 1) == [Print("a", 1)];
    assert Join(h, 2) == [Print("a", 1)];
    assert Join(h, 3) == [Print("a", 1), CrLf, Print(" ", 1)];
    assert Join(h, 4) == [Print("a", 1), CrLf, Print(" ", 1), CrLf, Print(" ", 1)];
    assert Join(h, 5) == Join(h, 4);
  }

  lemma FeedTwo(t: Term, p: Tok, q: Tok)
    ensures Feed(t, [p, q]) == Put(Put(t, p), q)
  {
    FeedNone(t);
    hide Feed, Put;
    FeedOne(t, [], p);
    assert [] + [p] == [p];
    FeedOne(t, [p], q);
    assert [p] + [q] == [p, q];
  }

  lemma PutSpace(t: Term, r: nat)
    requires t.rows == 3 && t.cols == 1 && t.top == 0 && t.y == r < 2 && t.pen == PLAIN
    ensures
      var t' := Put(Put(t, CrLf), Print(" ", 1));
      && t'.rows == 3 && t'.cols == 1 && t'.top == 0 && t'.y == r + 1 && t'.pen == PLAIN
      && t'.grid == t.grid[(r + 1, 0) := Glyph(" ", 1, PLAIN)]
  {
    var down := Put(t, CrLf);
    assert down.Row() == r + 1 && down.x == 0;
  }

  lemma SpacedScreen(t: Term)
    requires t == Fresh(3, 1)
    ensures Feed(t, [Print("a", 1), CrLf, Print(" ", 1)] + [CrLf, Print(" ", 1)]).grid
         == map[(0, 0) := Glyph("a", 1, PLAIN), (1, 0) := Glyph(" ", 1, PLAIN), (2, 0) := Glyph(" ", 1, PLAIN)]
  {
    hide Feed, Put;
    FeedConcat(t, [Print("a", 1), CrLf, Print(" ", 1)], [CrLf, Print(" ", 1)]);
    FeedThree(t, Print("a", 1), CrLf, Print(" ", 1));
    PutFirst();
    PutSpace(Put(t, Print("a", 1)), 0);
    var t1 := Put(Put(Put(t, Print("a", 1)), CrLf), Print(" ", 1));
    FeedTwo(t1, CrLf, Print(" ", 1));
    PutSpace(t1, 1);
  }

  lemma SpacedIsLaid()
    ensures Laid(SPACED, 0, 5, 1) && SkipsText(SPACED, 0, 5, 1)
  {
    hide DiffStyle;
    NoChange(NORMAL);
    assert HasText(SPACED.lines[2], 1) by { assert !IsEmpty(SPACED.lines[2].cells[0]); }
    assert Breaks(SPACED, 0, 5, 1, 1);
  }

  lemma SpacedShown(t: Term)
    requires t.grid == map[(0, 0) := Glyph("a", 1, PLAIN), (1, 0) := Glyph(" ", 1, PLAIN), (2, 0) := Glyph(" ", 1, PLAIN)]
    ensures forall r | 0 <= r < 5 :: RowShown(SPACED, 0, t, r, 1)
  {
    assert PenOf(NORMAL) == PLAIN;
    forall r | 0 <= r < 5 ensures RowShown(SPACED, 0, t, r, 1) {
      assert Shown(SPACED, 0, t, r, 0);
    }
  }

  /** A row with text is skipped, and yet the final screen shows every cell. */
  lemma SpaceRepainted()
    ensures Laid(SPACED, 0, 5, 1) && SkipsText(SPACED, 0, 5, 1)
    ensures
      var t := Feed(Fresh(3, 1), Content(SPACED, 0, 5, 1, 3));
      forall r | 0 <= r < 5 :: RowShown(SPACED, 0, t, r, 1)
  {
    SpacedIsLaid();
    SpacedContent();
    SpacedScreen(Fresh(3, 1));
    SpacedShown(Feed(Fresh(3, 1), Content(SPACED, 0, 5, 1, 3)));
  }
}
