/** A terminal, as far as the serializer's output needs one: printing with deferred wrap,
    CR LF, SGR and CUP (sections 8.3.117 and 8.3.21 of ECMA-48). */
module Terminal {
  import opened Sgr

  datatype Tok =
    | Print(chars: string, width: nat)
    | CrLf
    | SetPen(params: seq<nat>)
    | MoveTo(row: nat, col: nat)

  datatype Glyph = Glyph(chars: string, width: nat, pen: Pen)

  /** `top` counts the rows that have scrolled off; grid and wrap marks use absolute rows.
      `x == cols` is the pending wrap after a print in the last column. */
  datatype Term = Term(
    rows: nat, cols: nat, top: nat, y: nat, x: nat, pen: Pen,
    grid: map<(nat, nat), Glyph>, wrapped: set<nat>)
  {
    function Row(): nat { top + y }
  }

  function Fresh(rows: nat, cols: nat): Term {
    Term(rows, cols, 0, 0, 0, PLAIN, map[], {})
  }

  function LineFeed(t: Term): Term {
    if t.y + 1 < t.rows then t.(y := t.y + 1) else t.(top := t.top + 1)
  }

  function Wrap(t: Term): Term {
    var down := LineFeed(t);
    down.(x := 0, wrapped := down.wrapped + {down.Row()})
  }

  function Draw(t: Term, chars: string, width: nat): Term {
    var glyph := Glyph(chars, width, t.pen);
    var drawn := t.grid[(t.Row(), t.x) := glyph];
    t.(grid := if width == 2 then drawn[(t.Row(), t.x + 1) := Glyph("", 0, t.pen)] else drawn,
       x := t.x + width)
  }

  function Put(t: Term, tok: Tok): Term {
    match tok
    case Print(chars, width) => Draw(if t.x + width > t.cols then Wrap(t) else t, chars, width)
    case CrLf => LineFeed(t).(x := 0)
    case SetPen(params) => t.(pen := Apply(t.pen, params))
    case MoveTo(row, col) =>
      t.(y := Clamp(row, t.rows), x := Clamp(col, t.cols))
  }

  /** A one-based coordinate, brought into a zero-based range. */
  function Clamp(coordinate: nat, limit: nat): nat {
    var zeroBased := if coordinate == 0 then 0 else coordinate - 1;
    if zeroBased < limit then zeroBased else if limit == 0 then 0 else limit - 1
  }

  function Feed(t: Term, toks: seq<Tok>): Term {
    if toks == [] then t else Put(Feed(t, toks[..|toks| - 1]), toks[|toks| - 1])
  }

  function Spaces(n: nat): seq<Tok> {
    seq(n, _ => Print(" ", 1))
  }

  lemma FeedOne(t: Term, toks: seq<Tok>, tok: Tok)
    ensures Feed(t, toks + [tok]) == Put(Feed(t, toks), tok)
  {
    assert (toks + [tok])[..|toks|] == toks;
  }

  lemma {:induction false} FeedConcat(t: Term, a: seq<Tok>, b: seq<Tok>)
    ensures Feed(t, a + b) == Feed(Feed(t, a), b)
    decreases |b|
  {
    if b == [] {
      assert a + b == a;
    } else {
      var n := |b| - 1;
      assert a + b == (a + b[..n]) + [b[n]];
      FeedOne(t, a + b[..n], b[n]);
      FeedConcat(t, a, b[..n]);
    }
  }

  /** The next print lands on row `r`, column `k`: either the cursor is there, or it waits
      in the last column of the row above. */
  predicate Poised(t: Term, r: nat, k: nat) {
    || (t.Row() == r && t.x == k)
    || (k == 0 && r > 0 && t.Row() == r - 1 && t.x == t.cols)
  }

  predicate WellPlaced(t: Term) {
    t.rows > 0 && t.cols > 0 && t.y < t.rows && (t.top > 0 ==> t.y == t.rows - 1)
  }

  /** The wrap marks after a print on row `r`. */
  function Marks(t: Term, r: nat): set<nat> {
    if t.Row() == r then t.wrapped else t.wrapped + {r}
  }

  lemma PutGlyph(t: Term, chars: string, width: nat, r: nat, k: nat)
    requires WellPlaced(t) && Poised(t, r, k) && 1 <= width <= 2 && k + width <= t.cols
    ensures
      var t' := Put(t, Print(chars, width));
      && WellPlaced(t') && t'.rows == t.rows && t'.cols == t.cols && t'.pen == t.pen
      && t'.Row() == r && t'.x == k + width
      && t'.wrapped == Marks(t, r)
      && (r, k) in t'.grid && t'.grid[(r, k)] == Glyph(chars, width, t.pen)
      && (forall p: (nat, nat) | p.0 != r || p.1 < k || k + width <= p.1 ::
            (p in t'.grid <==> p in t.grid) && (p in t.grid ==> t'.grid[p] == t.grid[p]))
  {
  }

  lemma {:induction false} PutSpaces(t: Term, n: nat, r: nat, k: nat)
    requires WellPlaced(t) && Poised(t, r, k) && k + n <= t.cols
    ensures
      var t' := Feed(t, Spaces(n));
      && WellPlaced(t') && t'.rows == t.rows && t'.cols == t.cols && t'.pen == t.pen
      && Poised(t', r, k + n)
      && (n > 0 || t.Row() == r ==> t'.Row() == r)
      && (n == 0 ==> t' == t)
      && (n > 0 ==> t'.wrapped == Marks(t, r))
      && (forall p: (nat, nat) | p.0 == r && k <= p.1 < k + n :: p in t'.grid && t'.grid[p].chars == " ")
      && (forall p: (nat, nat) | p.0 != r || p.1 < k || k + n <= p.1 ::
            (p in t'.grid <==> p in t.grid) && (p in t.grid ==> t'.grid[p] == t.grid[p]))
    decreases n
  {
    hide Put;
    if n > 0 {
      PutSpaces(t, n - 1, r, k);
      assert Spaces(n) == Spaces(n - 1) + [Print(" ", 1)];
      FeedOne(t, Spaces(n - 1), Print(" ", 1));
      PutGlyph(Feed(t, Spaces(n - 1)), " ", 1, r, k + n - 1);
    }
  }

  lemma PutCrLf(t: Term, r: nat)
    requires WellPlaced(t) && t.Row() == r
    ensures
      var t' := Put(t, CrLf);
      && WellPlaced(t') && t'.rows == t.rows && t'.cols == t.cols && t'.pen == t.pen
      && t'.Row() == r + 1 && t'.x == 0 && t'.wrapped == t.wrapped && t'.grid == t.grid
  {
  }
}
