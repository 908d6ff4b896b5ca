/** A private-use character, as prompt fonts have them for icons, does not survive. */
module PrivateUse {
  import opened Sgr
  import opened Terminal
  import opened Serializer
  import opened Brushes
  import opened Placement
  import opened Replay
  import opened EmptyContinuation

  const ICON := Buffer([Line([Cell("\U{F000}", 0xf000, 1, NORMAL)], false)], 0, 0, 0, NORMAL)

  lemma IconIsLost()
    ensures
      var t := Feed(Fresh(1, 1), Content(ICON, 0, 1, 1, 1));
      !((0, 0) in t.grid && t.grid[(0, 0)].chars == "\U{F000}")
  {
    hide Feed, Content, BrushAt;
    IconIsLaid();
    ContentReplay(ICON, 0, 1, 1, 1);
    var t := Feed(Fresh(1, 1), Content(ICON, 0, 1, 1, 1));
    assert RowShown(ICON, 0, t, 0, 1);
    assert Shown(ICON, 0, t, 0, 0);
  }

  lemma IconIsLaid()
    ensures Laid(ICON, 0, 1, 1) && !SkipsText(ICON, 0, 1, 1)
    ensures IsEmpty(ICON.lines[0].cells[0])
  {
  }
}
