/** The colours of cells, said in bytes and palette entries, and what comes of them on a
    terminal. */
module Colours {
  import opened Sgr

  /** A colour as a program asks for it. */
  datatype Wish = Own | Entry(index: nat) | Bytes(mode: int, high: nat, r: nat, g: nat, b: nat)

  predicate IsWish(w: Wish) {
    match w
    case Own => true
    case Entry(index) => index < 256
    case Bytes(mode, _, r, g, b) => mode in {2, 3, -1} && r < 256 && g < 256 && b < 256
  }

  /** How a buffer cell reports it: the red byte is worth 65536 and the green one 256, and what
      is above the red one does not count. */
  function Mode(w: Wish): int {
    match w case Own => 0 case Entry(_) => 1 case Bytes(mode, _, _, _, _) => mode
  }

  function Value(w: Wish): nat {
    match w
    case Own => 0
    case Entry(index) => index
    case Bytes(_, high, r, g, b) => high * 16777216 + r * 65536 + g * 256 + b
  }

  /** What a terminal is to show. */
  function Shown(w: Wish): Colour {
    match w case Own => Default case Entry(index) => Palette(index) case Bytes(_, _, r, g, b) => Rgb(r, g, b)
  }

  /** The parameters that say so, as a table: 39, 30 to 37, 90 to 97, 38;5;n and 38;2;r;g;b, and
      ten more for the background. */
  function Parameters(w: Wish, background: nat): seq<nat> {
    match w
    case Own => [39 + background]
    case Bytes(_, _, r, g, b) => [38 + background, 2, r, g, b]
    case Entry(index) =>
      if index < 8 then [30 + index + background]
      else if index < 16 then [90 + index - 8 + background]
      else [38 + background, 5, index]
  }

  lemma Quotients(high: nat, r: nat, g: nat, b: nat)
    requires r < 256 && g < 256 && b < 256
    ensures
      var v := high * 16777216 + r * 65536 + g * 256 + b;
      Red(v) == r && Green(v) == g && Blue(v) == b
  {
    var v := high * 16777216 + r * 65536 + g * 256 + b;
    var upper := high * 65536 + r * 256 + g;
    assert v == upper * 256 + b;
    LowByte(upper, b);
    LowByte(high * 256 + r, g);
    LowByte(high, r);
    TwoBytes(high * 256 + r, g * 256 + b);
  }

  lemma LowByte(q: nat, r: nat)
    requires r < 256
    ensures (q * 256 + r) / 0x100 == q && (q * 256 + r) % 0x100 == r
  {
  }

  lemma TwoBytes(q: nat, r: nat)
    requires r < 65536
    ensures (q * 65536 + r) / 0x1_0000 == q
  {
  }

  lemma OneColour(w: Wish)
    requires IsWish(w)
    ensures ColourOf(Mode(w), Value(w)) == Shown(w)
    ensures ColourDiff(Mode(w), Value(w), 30) == Parameters(w, 0)
    ensures ColourDiff(Mode(w), Value(w), 40) == Parameters(w, 10)
  {
    if w.Bytes? {
      Quotients(w.high, w.r, w.g, w.b);
      hide Red, Green, Blue;
    }
  }

  function Cell(fg: Wish, bg: Wish, flags: set<Flag>): Style {
    Style(Mode(fg), Value(fg), Mode(bg), Value(bg), flags)
  }

  /** A cell looks as its bytes, entries and flags say. */
  lemma CellLooks(fg: Wish, bg: Wish, flags: set<Flag>)
    requires IsWish(fg) && IsWish(bg)
    ensures PenOf(Cell(fg, bg, flags)) == Pen(Shown(fg), Shown(bg), flags)
  {
    OneColour(fg);
    OneColour(bg);
  }

  /** The parameters between two cells, unless the new one passes for default: those of the flags
      that differ, then those of the colours that differ. */
  lemma StepParameters(fg: Wish, bg: Wish, flags: set<Flag>, prev: Style, nullCell: Style)
    requires IsWish(fg) && IsWish(bg)
    requires !IsAttributeDefault(Cell(fg, bg, flags), nullCell)
    ensures
      DiffStyle(Cell(fg, bg, flags), prev, nullCell)
      == FlagDiff(flags, prev.flags, ORDER)
         + ((if Mode(fg) == prev.fgMode && Value(fg) == prev.fgColor then [] else Parameters(fg, 0))
         + (if Mode(bg) == prev.bgMode && Value(bg) == prev.bgColor then [] else Parameters(bg, 10)))
  {
    OneColour(fg);
    OneColour(bg);
    DiffParts(Cell(fg, bg, flags), prev, nullCell);
  }

  lemma DiffParts(cell: Style, prev: Style, nullCell: Style)
    requires !IsAttributeDefault(cell, nullCell)
    ensures
      DiffStyle(cell, prev, nullCell)
      == FlagDiff(cell.flags, prev.flags, ORDER)
         + ((if !EqualFg(cell, prev) then ColourDiff(cell.fgMode, cell.fgColor, 30) else [])
         + (if !EqualBg(cell, prev) then ColourDiff(cell.bgMode, cell.bgColor, 40) else []))
  {
    hide ColourDiff, IsAttributeDefault;
    SameFlags(cell.flags, ORDER);
  }

  lemma {:induction false} SameFlags(flags: set<Flag>, order: seq<Flag>)
    ensures FlagDiff(flags, flags, order) == []
  {
    if order != [] {
      SameFlags(flags, order[1..]);
    }
  }

  /** With any pen at all, a side whose colour differs from the one before is shown in the bytes
      or the entry asked for, and a side that does not differ is left alone. */
  lemma ColoursReachThePen(p: Pen, fg: Wish, bg: Wish, flags: set<Flag>, prev: Style, nullCell: Style)
    requires IsWish(fg) && IsWish(bg)
    requires !IsAttributeDefault(Cell(fg, bg, flags), nullCell)
    ensures
      var pen := Apply(p, DiffStyle(Cell(fg, bg, flags), prev, nullCell));
      && pen.fg == (if Mode(fg) == prev.fgMode && Value(fg) == prev.fgColor then p.fg else Shown(fg))
      && pen.bg == (if Mode(bg) == prev.bgMode && Value(bg) == prev.bgColor then p.bg else Shown(bg))
  {
    var cell := Cell(fg, bg, flags);
    var fgChanged, bgChanged := !EqualFg(cell, prev), !EqualBg(cell, prev);
    OneColour(fg);
    OneColour(bg);
    DiffParts(cell, prev, nullCell);
    hide Apply, TurnAll, ColourDiff, ColourOf, IsAttributeDefault, FlagDiff, DiffStyle;
    ApplyFlags(p, ORDER, flags, prev.flags,
               (if fgChanged then ColourDiff(cell.fgMode, cell.fgColor, 30) else [])
               + (if bgChanged then ColourDiff(cell.bgMode, cell.bgColor, 40) else []));
    ApplyColours(p.(flags := TurnAll(p.flags, ORDER, flags, prev.flags)), cell, fgChanged, bgChanged);
  }

  /** The codes of the flags, in their order: all switched on, and all switched off again. */
  lemma FlagCodes()
    ensures
      var all := {Inverse, Bold, Underline, Blink, Invisible, Italic, Dim, Strike};
      FlagDiff(all, {}, ORDER) == [7, 1, 4, 5, 8, 3, 2, 9]
      && FlagDiff({}, all, ORDER) == [27, 22, 24, 25, 28, 23, 22, 29]
  {
    var all := {Inverse, Bold, Underline, Blink, Invisible, Italic, Dim, Strike};
    forall f: Flag ensures f in all {
      AllFlags(f);
      assert forall g | g in ORDER :: g in all;
    }
    CodesFrom(all, ORDER);
  }

  lemma {:induction false} CodesFrom(all: set<Flag>, order: seq<Flag>)
    requires forall f: Flag :: f in all
    ensures FlagDiff(all, {}, order) == seq(|order|, i requires 0 <= i < |order| => On(order[i]))
    ensures FlagDiff({}, all, order) == seq(|order|, i requires 0 <= i < |order| => Off(order[i]))
  {
    if order != [] {
      CodesFrom(all, order[1..]);
    }
  }

  /** Coming to a cell without colours and flags, a reset is emitted unless the cell before had no
      flags and either no colours too or the very values of the null cell, whatever their modes. */
  lemma PlainCell(prev: Style, nullCell: Style)
    ensures
      DiffStyle(Cell(Own, Own, {}), prev, nullCell)
      == if prev.flags == {} && ((prev.fgMode == 0 && prev.bgMode == 0)
                                 || (prev.fgColor == nullCell.fgColor && prev.bgColor == nullCell.bgColor))
         then [] else [0]
  {
  }
}
