/** Cell styles, the SGR parameters the serializer emits for a style change, and the
    reading of those parameters by a terminal (section 8.3.117 of ECMA-48). */
module Sgr {

  datatype Flag = Inverse | Bold | Underline | Blink | Invisible | Italic | Dim | Strike

  /** What a buffer cell reports about its look: colour mode and value, and its flags.
      Modes: 0 is the default colour, 1 a palette entry, 2, 3 and -1 a 24-bit colour. */
  datatype Style = Style(fgMode: int, fgColor: nat, bgMode: int, bgColor: nat, flags: set<Flag>)

  /** What a terminal knows: resolved colours, and the same flags. */
  datatype Colour = Default | Palette(index: nat) | Rgb(r: nat, g: nat, b: nat)

  datatype Pen = Pen(fg: Colour, bg: Colour, flags: set<Flag>)

  const PLAIN := Pen(Default, Default, {})

  predicate IsRgbMode(mode: int) { mode == 2 || mode == 3 || mode == -1 }

  function Red(color: nat): nat { (color / 0x1_0000) % 0x100 }

  function Green(color: nat): nat { (color / 0x100) % 0x100 }

  function Blue(color: nat): nat { color % 0x100 }

  /** The colour that a mode and a value stand for. */
  function ColourOf(mode: int, color: nat): Colour {
    if IsRgbMode(mode) then Rgb(Red(color), Green(color), Blue(color))
    else if mode == 1 then Palette(color)
    else Default
  }

  function PenOf(s: Style): Pen {
    Pen(ColourOf(s.fgMode, s.fgColor), ColourOf(s.bgMode, s.bgColor), s.flags)
  }

  /** Palette entries are 8-bit. */
  predicate Valid(s: Style) {
    (s.fgMode == 1 ==> s.fgColor < 256) && (s.bgMode == 1 ==> s.bgColor < 256)
  }

  // ---------------------------------------------------------------- the printer

  predicate EqualFg(a: Style, b: Style) { a.fgMode == b.fgMode && a.fgColor == b.fgColor }

  predicate EqualBg(a: Style, b: Style) { a.bgMode == b.bgMode && a.bgColor == b.bgColor }

  predicate IsAttributeDefault(s: Style, nullCell: Style) {
    if s.fgMode == 0 && s.bgMode == 0 then s.flags == {}
    else s.fgColor == nullCell.fgColor && s.bgColor == nullCell.bgColor && s.flags == {}
  }

  /** The order in which the flags are compared. */
  const ORDER := [Inverse, Bold, Underline, Blink, Invisible, Italic, Dim, Strike]

  function On(f: Flag): nat {
    match f
    case Bold => 1 case Dim => 2 case Italic => 3 case Underline => 4
    case Blink => 5 case Inverse => 7 case Invisible => 8 case Strike => 9
  }

  function Off(f: Flag): nat {
    match f
    case Bold => 22 case Dim => 22 case Italic => 23 case Underline => 24
    case Blink => 25 case Inverse => 27 case Invisible => 28 case Strike => 29
  }

  function FlagParam(f: Flag, now: set<Flag>, before: set<Flag>): seq<nat> {
    if (f in now) == (f in before) then [] else if f in now then [On(f)] else [Off(f)]
  }

  function FlagDiff(now: set<Flag>, before: set<Flag>, order: seq<Flag>): seq<nat> {
    if order == [] then []
    else FlagParam(order[0], now, before) + FlagDiff(now, before, order[1..])
  }

  /** Parameters selecting a colour; `base` is 30 for foreground, 40 for background. */
  function ColourDiff(mode: int, color: nat, base: nat): seq<nat> {
    if IsRgbMode(mode) then [base + 8, 2, Red(color), Green(color), Blue(color)]
    else if mode == 1 then
      if color >= 16 then [base + 8, 5, color]
      else if (color / 8) % 2 == 1 then [base + 60 + color % 8]
      else [base + color % 8]
    else [base + 9]
  }

  function DiffStyle(cell: Style, prev: Style, nullCell: Style): seq<nat> {
    var fgChanged := !EqualFg(cell, prev);
    var bgChanged := !EqualBg(cell, prev);
    if !fgChanged && !bgChanged && cell.flags == prev.flags then []
    else if IsAttributeDefault(cell, nullCell) then
      if IsAttributeDefault(prev, nullCell) then [] else [0]
    else
      FlagDiff(cell.flags, prev.flags, ORDER)
      + ((if fgChanged then ColourDiff(cell.fgMode, cell.fgColor, 30) else [])
      + (if bgChanged then ColourDiff(cell.bgMode, cell.bgColor, 40) else []))
  }

  // ---------------------------------------------------------------- the reader

  /** One-parameter renditions; 22 switches off bold and dim together. */
  function Rendition(p: Pen, code: nat): Pen {
    if code == 0 then PLAIN
    else if code == 1 then p.(flags := p.flags + {Bold})
    else if code == 2 then p.(flags := p.flags + {Dim})
    else if code == 3 then p.(flags := p.flags + {Italic})
    else if code == 4 then p.(flags := p.flags + {Underline})
    else if code == 5 then p.(flags := p.flags + {Blink})
    else if code == 7 then p.(flags := p.flags + {Inverse})
    else if code == 8 then p.(flags := p.flags + {Invisible})
    else if code == 9 then p.(flags := p.flags + {Strike})
    else if code == 22 then p.(flags := p.flags - {Bold, Dim})
    else if code == 23 then p.(flags := p.flags - {Italic})
    else if code == 24 then p.(flags := p.flags - {Underline})
    else if code == 25 then p.(flags := p.flags - {Blink})
    else if code == 27 then p.(flags := p.flags - {Inverse})
    else if code == 28 then p.(flags := p.flags - {Invisible})
    else if code == 29 then p.(flags := p.flags - {Strike})
    else if 30 <= code <= 37 then p.(fg := Palette(code - 30))
    else if code == 39 then p.(fg := Default)
    else if 40 <= code <= 47 then p.(bg := Palette(code - 40))
    else if code == 49 then p.(bg := Default)
    else if 90 <= code <= 97 then p.(fg := Palette(code - 82))
    else if 100 <= code <= 107 then p.(bg := Palette(code - 92))
    else p
  }

  function SetColour(p: Pen, selector: nat, c: Colour): Pen {
    if selector == 38 then p.(fg := c) else p.(bg := c)
  }

  /** A terminal working through a parameter list from left to right. */
  function Apply(p: Pen, params: seq<nat>): Pen
    decreases |params|
  {
    if params == [] then p
    else if params[0] == 38 || params[0] == 48 then
      if |params| >= 3 && params[1] == 5 then
        Apply(SetColour(p, params[0], Palette(params[2])), params[3..])
      else if |params| >= 5 && params[1] == 2 then
        Apply(SetColour(p, params[0], Rgb(params[2], params[3], params[4])), params[5..])
      else p
    else Apply(Rendition(p, params[0]), params[1..])
  }

  // ---------------------------------------------------------------- soundness

  lemma ApplyNone(p: Pen)
    ensures Apply(p, []) == p
  {
  }

  /** What one flag's parameter does to the flags of a pen. */
  function Turn(flags: set<Flag>, f: Flag, now: set<Flag>, before: set<Flag>): set<Flag> {
    if (f in now) == (f in before) then flags
    else if f in now then flags + {f}
    else if f == Bold || f == Dim then flags - {Bold, Dim}
    else flags - {f}
  }

  function TurnAll(flags: set<Flag>, order: seq<Flag>, now: set<Flag>, before: set<Flag>): set<Flag>
    decreases order
  {
    if order == [] then flags
    else TurnAll(Turn(flags, order[0], now, before), order[1..], now, before)
  }

  lemma ApplyCons(p: Pen, code: nat, rest: seq<nat>)
    requires code != 38 && code != 48
    ensures Apply(p, [code] + rest) == Apply(Rendition(p, code), rest)
  {
    assert ([code] + rest)[1..] == rest;
  }

  lemma ApplyFlag(p: Pen, f: Flag, now: set<Flag>, before: set<Flag>, rest: seq<nat>)
    ensures Apply(p, FlagParam(f, now, before) + rest) == Apply(p.(flags := Turn(p.flags, f, now, before)), rest)
  {
    hide Apply;
    if (f in now) == (f in before) {
      assert FlagParam(f, now, before) + rest == rest;
    } else {
      ApplyCons(p, if f in now then On(f) else Off(f), rest);
    }
  }

  lemma {:induction false} ApplyFlags(p: Pen, order: seq<Flag>, now: set<Flag>, before: set<Flag>, rest: seq<nat>)
    ensures Apply(p, FlagDiff(now, before, order) + rest)
         == Apply(p.(flags := TurnAll(p.flags, order, now, before)), rest)
    decreases order
  {
    hide Apply, Turn, FlagParam;
    if order == [] {
      assert FlagDiff(now, before, order) + rest == rest;
    } else {
      var f := order[0];
      var tail := FlagDiff(now, before, order[1..]) + rest;
      assert FlagDiff(now, before, order) + rest == FlagParam(f, now, before) + tail;
      ApplyFlag(p, f, now, before, tail);
      ApplyFlags(p.(flags := Turn(p.flags, f, now, before)), order[1..], now, before, rest);
    }
  }

  lemma {:induction false} TurnConcat(flags: set<Flag>, a: seq<Flag>, b: seq<Flag>, now: set<Flag>, before: set<Flag>)
    ensures TurnAll(flags, a + b, now, before) == TurnAll(TurnAll(flags, a, now, before), b, now, before)
    decreases a
  {
    if a == [] {
      assert a + b == b;
    } else {
      assert (a + b)[1..] == a[1..] + b;
      TurnConcat(Turn(flags, a[0], now, before), a[1..], b, now, before);
    }
  }

  /** Away from bold and dim, every flag in the list ends up as wanted and no other moves. */
  lemma {:induction false} TurnOthers(flags: set<Flag>, order: seq<Flag>, now: set<Flag>, before: set<Flag>)
    requires Bold !in order && Dim !in order
    ensures forall g :: g in TurnAll(flags, order, now, before) <==>
              (if g in order && ((g in now) != (g in before)) then g in now else g in flags)
    decreases order
  {
    if order != [] {
      TurnOthers(Turn(flags, order[0], now, before), order[1..], now, before);
      assert order == [order[0]] + order[1..];
    }
  }

  lemma TurnSingle(flags: set<Flag>, f: Flag, now: set<Flag>, before: set<Flag>)
    ensures TurnAll(flags, [f], now, before) == Turn(flags, f, now, before)
  {
  }

  lemma SplitOrder(now: set<Flag>, before: set<Flag>)
    ensures
      var s1 := TurnAll(before, [Inverse], now, before);
      var s2 := TurnAll(s1, [Bold], now, before);
      var s3 := TurnAll(s2, [Underline, Blink, Invisible, Italic], now, before);
      var s4 := TurnAll(s3, [Dim], now, before);
      TurnAll(before, ORDER, now, before) == TurnAll(s4, [Strike], now, before)
  {
    hide TurnAll;
    var middle := [Underline, Blink, Invisible, Italic];
    assert ORDER == [Inverse] + ([Bold] + (middle + ([Dim] + [Strike])));
    var s1 := TurnAll(before, [Inverse], now, before);
    TurnConcat(before, [Inverse], [Bold] + (middle + ([Dim] + [Strike])), now, before);
    var s2 := TurnAll(s1, [Bold], now, before);
    TurnConcat(s1, [Bold], middle + ([Dim] + [Strike]), now, before);
    var s3 := TurnAll(s2, middle, now, before);
    TurnConcat(s2, middle, [Dim] + [Strike], now, before);
    TurnConcat(s3, [Dim], [Strike], now, before);
  }

  /** Bold and dim after all eight flags have been turned. */
  lemma TurnedBoldDim(now: set<Flag>, before: set<Flag>)
    ensures Bold in TurnAll(before, ORDER, now, before) <==> Bold in now && (Dim in now || Dim !in before)
    ensures Dim in TurnAll(before, ORDER, now, before) <==>
              (if Dim in before then Dim in now && (Bold in now || Bold !in before) else Dim in now)
  {
    hide TurnAll;
    var middle := [Underline, Blink, Invisible, Italic];
    var s1 := TurnAll(before, [Inverse], now, before);
    var s2 := TurnAll(s1, [Bold], now, before);
    var s3 := TurnAll(s2, middle, now, before);
    var s4 := TurnAll(s3, [Dim], now, before);
    var s5 := TurnAll(s4, [Strike], now, before);
    SplitOrder(now, before);
    TurnOthers(before, [Inverse], now, before);
    TurnOthers(s2, middle, now, before);
    TurnOthers(s4, [Strike], now, before);
    TurnSingle(s1, Bold, now, before);
    TurnSingle(s3, Dim, now, before);
  }

  /** The other six flags always end up as wanted. */
  lemma TurnedRest(now: set<Flag>, before: set<Flag>, g: Flag)
    requires g != Bold && g != Dim
    ensures g in TurnAll(before, ORDER, now, before) <==> g in now
  {
    hide TurnAll;
    var middle := [Underline, Blink, Invisible, Italic];
    var s1 := TurnAll(before, [Inverse], now, before);
    var s2 := TurnAll(s1, [Bold], now, before);
    var s3 := TurnAll(s2, middle, now, before);
    var s4 := TurnAll(s3, [Dim], now, before);
    SplitOrder(now, before);
    TurnOthers(before, [Inverse], now, before);
    TurnOthers(s2, middle, now, before);
    TurnOthers(s4, [Strike], now, before);
    TurnSingle(s1, Bold, now, before);
    TurnSingle(s3, Dim, now, before);
    assert middle[0] == Underline && middle[1] == Blink && middle[2] == Invisible && middle[3] == Italic;
  }

  /** Turning all eight flags gives the wanted set unless 22 takes away the one of bold and
      dim that has to stay. */
  lemma TurnOrder(now: set<Flag>, before: set<Flag>)
    ensures TurnAll(before, ORDER, now, before) == now <==> !LosesBoldOrDim(now, before)
  {
    hide TurnAll;
    var turned := TurnAll(before, ORDER, now, before);
    TurnedBoldDim(now, before);
    forall g | g != Bold && g != Dim ensures g in turned <==> g in now {
      TurnedRest(now, before, g);
    }
    if (Bold in turned <==> Bold in now) && (Dim in turned <==> Dim in now) {
      assert turned == now;
    }
  }

  lemma ApplyColour(p: Pen, mode: int, color: nat, base: nat, rest: seq<nat>)
    requires base == 30 || base == 40
    requires mode == 1 ==> color < 256
    ensures Apply(p, ColourDiff(mode, color, base) + rest)
         == Apply(SetColour(p, base + 8, ColourOf(mode, color)), rest)
  {
    var head := ColourDiff(mode, color, base);
    if IsRgbMode(mode) {
      assert (head + rest)[5..] == rest;
    } else if mode == 1 && color >= 16 {
      assert (head + rest)[3..] == rest;
    } else {
      assert (head + rest)[1..] == rest;
    }
  }

  lemma ApplyColours(p: Pen, cell: Style, fgChanged: bool, bgChanged: bool)
    requires Valid(cell)
    ensures Apply(p, (if fgChanged then ColourDiff(cell.fgMode, cell.fgColor, 30) else [])
                     + (if bgChanged then ColourDiff(cell.bgMode, cell.bgColor, 40) else []))
         == p.(fg := if fgChanged then ColourOf(cell.fgMode, cell.fgColor) else p.fg,
               bg := if bgChanged then ColourOf(cell.bgMode, cell.bgColor) else p.bg)
  {
    hide Apply, ColourDiff;
    var back := if bgChanged then ColourDiff(cell.bgMode, cell.bgColor, 40) else [];
    var p1 := if fgChanged then SetColour(p, 38, ColourOf(cell.fgMode, cell.fgColor)) else p;
    if fgChanged {
      ApplyColour(p, cell.fgMode, cell.fgColor, 30, back);
    } else {
      assert [] + back == back;
    }
    ApplyNone(p1);
    ApplyNone(if bgChanged then SetColour(p1, 48, ColourOf(cell.bgMode, cell.bgColor)) else p1);
    if bgChanged {
      ApplyColour(p1, cell.bgMode, cell.bgColor, 40, []);
      assert back + [] == back;
    }
  }

  /** At least one colour is not the default one. A style that is coloured and yet passes for
      default is the first of the two ways in which the emitted parameters go wrong. */
  predicate Coloured(s: Style) {
    ColourOf(s.fgMode, s.fgColor) != Default || ColourOf(s.bgMode, s.bgColor) != Default
  }

  /** The second way: 22 takes away the one of bold and dim that has to stay. */
  predicate LosesBoldOrDim(now: set<Flag>, before: set<Flag>) {
    || (Bold in before && Dim in before && Bold !in now && Dim in now)
    || (Dim in before && Dim !in now && Bold in now)
  }

  /** What a caller can check beforehand. */
  predicate DiffIsSafe(cell: Style, prev: Style, nullCell: Style) {
    if IsAttributeDefault(cell, nullCell) then
      if IsAttributeDefault(prev, nullCell) then
        && ColourOf(cell.fgMode, cell.fgColor) == ColourOf(prev.fgMode, prev.fgColor)
        && ColourOf(cell.bgMode, cell.bgColor) == ColourOf(prev.bgMode, prev.bgColor)
      else !Coloured(cell)
    else !LosesBoldOrDim(cell.flags, prev.flags)
  }

  /** Interpreting the emitted parameters from the old style gives the new style, exactly
      when the diff is safe, for every pair of styles. */
  lemma DiffExact(cell: Style, prev: Style, nullCell: Style)
    requires Valid(cell)
    ensures Apply(PenOf(prev), DiffStyle(cell, prev, nullCell)) == PenOf(cell)
       <==> DiffIsSafe(cell, prev, nullCell)
  {
    var fgChanged := !EqualFg(cell, prev);
    var bgChanged := !EqualBg(cell, prev);
    if !fgChanged && !bgChanged && cell.flags == prev.flags {
      assert cell == prev;
    } else if IsAttributeDefault(cell, nullCell) {
      if !IsAttributeDefault(prev, nullCell) {
        assert Apply(PenOf(prev), [0]) == PLAIN;
      }
    } else {
      hide Apply, TurnAll, ColourDiff;
      var colours := (if fgChanged then ColourDiff(cell.fgMode, cell.fgColor, 30) else [])
                     + (if bgChanged then ColourDiff(cell.bgMode, cell.bgColor, 40) else []);
      ApplyFlags(PenOf(prev), ORDER, cell.flags, prev.flags, colours);
      TurnOrder(cell.flags, prev.flags);
      ApplyColours(PenOf(prev).(flags := TurnAll(prev.flags, ORDER, cell.flags, prev.flags)), cell, fgChanged, bgChanged);
    }
  }

  /** Styles between which nothing is emitted are equal, or both the default one. */
  lemma SilentMeans(a: Style, b: Style, nullStyle: Style)
    ensures DiffStyle(a, b, nullStyle) == [] <==>
      || (EqualFg(a, b) && EqualBg(a, b) && a.flags == b.flags)
      || (IsAttributeDefault(a, nullStyle) && IsAttributeDefault(b, nullStyle))
  {
    hide ColourDiff, IsAttributeDefault;
    ColourIsSaid(a.fgMode, a.fgColor, 30);
    ColourIsSaid(a.bgMode, a.bgColor, 40);
    if a.flags != b.flags {
      FlagIsSaid(a.flags, b.flags);
    }
  }

  lemma ColourIsSaid(mode: int, color: nat, base: nat)
    ensures ColourDiff(mode, color, base) != []
  {
  }

  lemma FlagIsSaid(now: set<Flag>, before: set<Flag>)
    requires now != before
    ensures FlagDiff(now, before, ORDER) != []
  {
    hide On, Off;
    if FlagDiff(now, before, ORDER) == [] {
      forall f: Flag ensures f in now <==> f in before {
        AllFlags(f);
        Unsaid(now, before, ORDER, f);
      }
    }
  }

  lemma AllFlags(f: Flag)
    ensures f in ORDER
  {
    assert ORDER[0] == Inverse && ORDER[1] == Bold && ORDER[2] == Underline && ORDER[3] == Blink;
    assert ORDER[4] == Invisible && ORDER[5] == Italic && ORDER[6] == Dim && ORDER[7] == Strike;
  }

  lemma {:induction false} Unsaid(now: set<Flag>, before: set<Flag>, order: seq<Flag>, f: Flag)
    requires f in order && FlagDiff(now, before, order) == []
    ensures f in now <==> f in before
  {
    if f != order[0] {
      Unsaid(now, before, order[1..], f);
    }
  }

  // ---------------------------------------------------------------- looks

  /** How a pen looks on a terminal whose own colours are those of the null cell. */
  function Resolve(p: Pen, nullCell: Style): Pen {
    Pen(if p.fg == Default then ColourOf(nullCell.fgMode, nullCell.fgColor) else p.fg,
        if p.bg == Default then ColourOf(nullCell.bgMode, nullCell.bgColor) else p.bg, p.flags)
  }

  predicate LooksLike(p: Pen, s: Style, nullCell: Style) {
    Resolve(p, nullCell) == Resolve(PenOf(s), nullCell)
  }

  /** Whether the step from one style to the next keeps the look: a style that passes for default
      looks like what the terminal has after it, and 22 takes nothing away that has to stay. */
  predicate StepIsSafe(cell: Style, prev: Style, nullCell: Style) {
    if IsAttributeDefault(cell, nullCell) then
      LooksLike(if IsAttributeDefault(prev, nullCell) then PenOf(prev) else PLAIN, cell, nullCell)
    else !LosesBoldOrDim(cell.flags, prev.flags)
  }

  /** Interpreting the emitted parameters with a pen that looks like the old style gives the look
      of the new style exactly when the step is safe, whatever colours the null cell has. */
  lemma StepExact(p: Pen, cell: Style, prev: Style, nullCell: Style)
    requires Valid(cell) && LooksLike(p, prev, nullCell)
    ensures LooksLike(Apply(p, DiffStyle(cell, prev, nullCell)), cell, nullCell) <==> StepIsSafe(cell, prev, nullCell)
  {
    var fgChanged := !EqualFg(cell, prev);
    var bgChanged := !EqualBg(cell, prev);
    if !fgChanged && !bgChanged && cell.flags == prev.flags {
      assert cell == prev;
      ApplyNone(p);
    } else if IsAttributeDefault(cell, nullCell) {
      ApplyNone(p);
      if !IsAttributeDefault(prev, nullCell) {
        assert Apply(p, [0]) == PLAIN;
      }
    } else {
      hide Apply, TurnAll, ColourDiff;
      var colours := (if fgChanged then ColourDiff(cell.fgMode, cell.fgColor, 30) else [])
                     + (if bgChanged then ColourDiff(cell.bgMode, cell.bgColor, 40) else []);
      ApplyFlags(p, ORDER, cell.flags, prev.flags, colours);
      TurnOrder(cell.flags, prev.flags);
      ApplyColours(p.(flags := TurnAll(prev.flags, ORDER, cell.flags, prev.flags)), cell, fgChanged, bgChanged);
    }
  }

  /** A style that passes for default looks like the terminal's own. */
  predicate TellsDefault(s: Style, nullCell: Style) {
    IsAttributeDefault(s, nullCell) ==> LooksLike(PLAIN, s, nullCell)
  }

  /** Two properties of the styles themselves that make every step between them safe. */
  lemma DiffSound(p: Pen, cell: Style, prev: Style, nullCell: Style)
    requires Valid(cell) && TellsDefault(cell, nullCell) && TellsDefault(prev, nullCell)
    requires !LosesBoldOrDim(cell.flags, prev.flags) && LooksLike(p, prev, nullCell)
    ensures StepIsSafe(cell, prev, nullCell)
    ensures LooksLike(Apply(p, DiffStyle(cell, prev, nullCell)), cell, nullCell)
  {
    StepExact(p, cell, prev, nullCell);
  }

  /** Where nothing is emitted and the step is safe, the two styles look the same. */
  lemma SilentDiff(cell: Style, prev: Style, nullCell: Style)
    requires Valid(cell) && StepIsSafe(cell, prev, nullCell) && DiffStyle(cell, prev, nullCell) == []
    ensures LooksLike(PenOf(prev), cell, nullCell)
  {
    StepExact(PenOf(prev), cell, prev, nullCell);
    ApplyNone(PenOf(prev));
  }

  /** Dropping bold from a bold and dim style drops dim too. */
  lemma DimIsLost()
    ensures
      var before, now := Style(0, 0, 0, 0, {Bold, Dim}), Style(0, 0, 0, 0, {Dim});
      Apply(PenOf(before), DiffStyle(now, before, Style(0, 0, 0, 0, {}))) != PenOf(now)
  {
    DiffExact(Style(0, 0, 0, 0, {Dim}), Style(0, 0, 0, 0, {Bold, Dim}), Style(0, 0, 0, 0, {}));
  }

  /** Palette entry 0 on a bold style comes out as the default colour. */
  lemma BlackIsLost()
    ensures
      var before, now := Style(0, 0, 0, 0, {Bold}), Style(1, 0, 0, 0, {});
      Apply(PenOf(before), DiffStyle(now, before, Style(0, 0, 0, 0, {}))) != PenOf(now)
  {
    DiffExact(Style(1, 0, 0, 0, {}), Style(0, 0, 0, 0, {Bold}), Style(0, 0, 0, 0, {}));
  }
}
