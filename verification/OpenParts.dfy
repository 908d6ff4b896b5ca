/** Which text and reasoning parts a finished stream has left open. */
module OpenParts {
  import opened Common
  import opened ResponseStream
  import B = Bracketing

  /** What the events say about parts: texts started and whether the last one is open, the texts
      that another message interrupted, reasoning summaries ended and whether one is open. */
  datatype Shape = Shape(texts: nat, textOpen: bool, interrupted: set<nat>, ended: nat, reasoningOpen: bool)

  function Start(f: Shape): Shape {
    f.(texts := f.texts + 1, textOpen := true,
       interrupted := if f.textOpen && f.texts > 0 then f.interrupted + {f.texts - 1} else f.interrupted)
  }

  function ShapeOf(h: seq<Event>): Shape {
    if h == [] then Shape(0, false, {}, 0, false)
    else
      var f := ShapeOf(Front(h));
      match Last(h)
      case ItemAdded(_, item) => if item.kind == "message" then Start(f) else f
      case TextDelta(_) => if f.textOpen then f else Start(f)
      case TextDone => f.(textOpen := false)
      case ReasoningDelta(_) => f.(reasoningOpen := true)
      case ReasoningDone => f.(ended := f.ended + 1, reasoningOpen := false)
      case _ => f
  }

  ghost predicate Fits(f: Shape, s: State) {
    && s.textIds == f.texts && s.reasoningIds == f.ended
    && (f.textOpen ==> f.texts > 0)
    && s.openTextId == (if f.textOpen then Some(TextId(f.texts - 1)) else None)
    && (ReasoningKey(s) in s.outputItems <==> f.reasoningOpen)
    && (forall k | k in s.outputItems && k < 0 :: k == ReasoningKey(s))
    && (forall n | n in f.interrupted :: n + 1 < f.texts || (n + 1 == f.texts && !f.textOpen))
  }

  /** The ids that are open: interrupted texts, the current text, the current reasoning. */
  ghost predicate Opens(f: Shape, open: set<string>) {
    forall id :: id in open <==>
      || (exists n :: n in f.interrupted && id == TextId(n))
      || (f.textOpen && f.texts > 0 && id == TextId(f.texts - 1))
      || (f.reasoningOpen && id == ReasoningId(f.ended))
  }

  ghost predicate InStep(f: Shape, s: State, b: B.Brackets) {
    Fits(f, s) && Opens(f, b.open)
  }

  lemma TextIdInjective(m: nat, n: nat)
    ensures TextId(m) == TextId(n) <==> m == n
  {
    if TextId(m) == TextId(n) {
      NumberedInjective("text_", m, n);
    }
  }

  lemma StartOpens(f: Shape, b: B.Brackets)
    requires Opens(f, b.open)
    ensures Opens(Start(f), B.Next(b, TextStart(TextId(f.texts))).open)
  {
    hide TextId, ReasoningId;
    var f', open := Start(f), b.open + {TextId(f.texts)};
    forall id ensures id in open <==>
      || (exists n :: n in f'.interrupted && id == TextId(n))
      || id == TextId(f'.texts - 1)
      || (f'.reasoningOpen && id == ReasoningId(f'.ended))
    {
      if f.textOpen && f.texts > 0 && id == TextId(f.texts - 1) {
        assert f.texts - 1 in f'.interrupted;
      }
      if n :| n in f.interrupted && id == TextId(n) {
        assert n in f'.interrupted;
      }
    }
  }

  lemma EndTextOpens(f: Shape, s: State, b: B.Brackets)
    requires InStep(f, s, b) && f.textOpen
    ensures Opens(f.(textOpen := false), b.open - {TextId(f.texts - 1)})
  {
    hide TextId, ReasoningId;
    var own := TextId(f.texts - 1);
    KindsOfIds(f.texts - 1, f.ended);
    forall id ensures id in b.open - {own} <==>
      || (exists n :: n in f.interrupted && id == TextId(n))
      || (f.reasoningOpen && id == ReasoningId(f.ended))
    {
      if n :| n in f.interrupted && id == TextId(n) {
        TextIdInjective(n, f.texts - 1);
      }
    }
  }

  lemma EndReasoningOpens(f: Shape, s: State, b: B.Brackets)
    requires InStep(f, s, b) && f.reasoningOpen
    ensures Opens(f.(ended := f.ended + 1, reasoningOpen := false), b.open - {ReasoningId(f.ended)})
  {
    hide TextId, ReasoningId;
    var own := ReasoningId(f.ended);
    var f' := f.(ended := f.ended + 1, reasoningOpen := false);
    forall id ensures id in b.open - {own} <==>
      || (exists n :: n in f'.interrupted && id == TextId(n))
      || (f'.textOpen && f'.texts > 0 && id == TextId(f'.texts - 1))
    {
      if n :| n in f.interrupted && id == TextId(n) {
        KindsOfIds(n, f.ended);
      }
      if f.textOpen && f.texts > 0 {
        KindsOfIds(f.texts - 1, f.ended);
      }
    }
  }

  lemma ItemEvent(h: seq<Event>, s: State, b: B.Brackets, index: nat, item: Item)
    requires h != [] && Last(h) == ItemAdded(index, item) && InStep(ShapeOf(Front(h)), s, b)
    ensures InStep(ShapeOf(h), AddItem(s, index, item).0, B.After(b, AddItem(s, index, item).1))
  {
    hide TextId, ReasoningId, NumberedInt, Numbered, Opens;
    var f := ShapeOf(Front(h));
    if item.kind == "message" {
      B.One(b, TextStart(TextId(s.textIds)));
      StartOpens(f, b);
    } else {
      B.ToolsOnly(b, AddItem(s, index, item).1);
    }
  }

  lemma TextEvent(h: seq<Event>, s: State, b: B.Brackets)
    requires h != [] && (Last(h).TextDelta? || Last(h).TextDone?) && InStep(ShapeOf(Front(h)), s, b)
    ensures InStep(ShapeOf(h), MapEvent(s, Last(h)).0, B.After(b, MapEvent(s, Last(h)).1))
  {
    hide TextId, ReasoningId, Opens;
    var f := ShapeOf(Front(h));
    match Last(h)
    case TextDelta(delta) =>
      if s.openTextId.None? {
        B.Two(b, TextStart(TextId(s.textIds)), TextChunk(TextId(s.textIds), delta));
        StartOpens(f, b);
      } else {
        B.One(b, TextChunk(s.openTextId.value, delta));
      }
    case TextDone =>
      if s.openTextId.Some? {
        B.One(b, TextEnd(s.openTextId.value));
        EndTextOpens(f, s, b);
      }
  }

  lemma ReasoningEvent(h: seq<Event>, s: State, b: B.Brackets)
    requires h != [] && (Last(h).ReasoningDelta? || Last(h).ReasoningDone?) && InStep(ShapeOf(Front(h)), s, b)
    ensures InStep(ShapeOf(h), MapEvent(s, Last(h)).0, B.After(b, MapEvent(s, Last(h)).1))
  {
    hide TextId, ReasoningId;
    var f := ShapeOf(Front(h));
    var id := ReasoningId(s.reasoningIds);
    match Last(h)
    case ReasoningDelta(delta) =>
      if ReasoningKey(s) in s.outputItems {
        B.One(b, ReasoningChunk(id, delta));
      } else {
        B.Two(b, ReasoningStart(id), ReasoningChunk(id, delta));
      }
    case ReasoningDone =>
      if ReasoningKey(s) in s.outputItems {
        B.One(b, ReasoningEnd(id));
        EndReasoningOpens(f, s, b);
      }
  }

  lemma ToolEvent(h: seq<Event>, s: State, b: B.Brackets)
    requires h != [] && InStep(ShapeOf(Front(h)), s, b)
    requires !Last(h).ItemAdded? && !Last(h).TextDelta? && !Last(h).TextDone?
    requires !Last(h).ReasoningDelta? && !Last(h).ReasoningDone?
    ensures InStep(ShapeOf(h), MapEvent(s, Last(h)).0, B.After(b, MapEvent(s, Last(h)).1))
  {
    hide TextId, ReasoningId, Opens, MapEvent;
    ToolsAside(s, Last(h));
    B.ToolsOnly(b, MapEvent(s, Last(h)).1);
  }

  lemma ToolsAside(s: State, e: Event)
    requires !e.ItemAdded? && !e.TextDelta? && !e.TextDone? && !e.ReasoningDelta? && !e.ReasoningDone?
    ensures
      var (s', parts) := MapEvent(s, e);
      && s'.textIds == s.textIds && s'.openTextId == s.openTextId
      && s'.reasoningIds == s.reasoningIds && s'.outputItems == s.outputItems
      && forall p | p in parts :: B.IsTool(p)
  {
    hide NumberedInt, Numbered;
  }

  lemma {:induction false} EmittedOpen(h: seq<Event>)
    requires forall e | e in h :: B.NaturalIndex(e)
    ensures InStep(ShapeOf(h), After(h), B.After(B.NONE, Emitted(h)))
    decreases |h|
  {
    hide InStep, MapEvent, ShapeOf, AddItem;
    if h == [] {
      NothingOpen();
    } else {
      EmittedOpen(Front(h));
      var s := After(Front(h));
      var b := B.After(B.NONE, Emitted(Front(h)));
      B.BracketedAppend(B.NONE, Emitted(Front(h)), MapEvent(s, Last(h)).1);
      assert Last(h) in h;
      match Last(h)
      case ItemAdded(index, item) =>
        ItemEvent(h, s, b, index, item);
        Added(s, index, item);
      case TextDelta(_) => TextEvent(h, s, b);
      case TextDone => TextEvent(h, s, b);
      case ReasoningDelta(_) => ReasoningEvent(h, s, b);
      case ReasoningDone => ReasoningEvent(h, s, b);
      case _ => ToolEvent(h, s, b);
    }
  }

  lemma Added(s: State, index: int, item: Item)
    ensures MapEvent(s, ItemAdded(index, item)) == AddItem(s, index, item)
  {
  }

  lemma NothingOpen()
    ensures InStep(ShapeOf([]), START, B.NONE)
  {
  }

  /** For every event sequence with natural output indices: a stream that ends leaves open the
      texts that another message interrupted, and a reasoning summary that was not ended. */
  lemma LeftOpen(h: seq<Event>, id: string)
    requires forall e | e in h :: B.NaturalIndex(e)
    ensures
      var f := ShapeOf(h);
      id in B.After(B.NONE, Output(h)).open <==>
        || (exists n :: n in f.interrupted && id == TextId(n))
        || (f.reasoningOpen && id == ReasoningId(f.ended))
  {
    hide MapEvent, Emitted, FlushCalls, TextId, ReasoningId, ShapeOf;
    EmittedOpen(h);
    var s := After(h);
    var b := B.After(B.NONE, Emitted(h));
    var closed := s.(openTextId := None);
    var (s1, calls) := FlushCalls(closed, s.toolArgs.order);
    B.FlushIsTools(closed, s.toolArgs.order);
    var rest := calls + [Finish(Reason(s1), s1.usage, IfTruthy(s1.responseId))];
    B.BracketedAppend(B.NONE, Emitted(h), Ending(s));
    assert CloseText(s) + rest == Ending(s);
    B.BracketedAppend(b, CloseText(s), rest);
    B.ToolsOnly(B.After(b, CloseText(s)), rest);
    hide B.After, Ending;
    TextClosed(ShapeOf(h), s, b);
  }

  lemma TextClosed(f: Shape, s: State, b: B.Brackets)
    requires InStep(f, s, b)
    ensures Opens(f.(textOpen := false), B.After(b, CloseText(s)).open)
  {
    hide TextId, ReasoningId;
    if s.openTextId.Some? {
      B.One(b, TextEnd(s.openTextId.value));
      EndTextOpens(f, s, b);
    }
  }

  /** Nothing stays open exactly when no message was added over an open text and every reasoning
      summary was ended. */
  lemma NothingLeftOpen(h: seq<Event>)
    requires forall e | e in h :: B.NaturalIndex(e)
    ensures B.After(B.NONE, Output(h)).open == {} <==> ShapeOf(h).interrupted == {} && !ShapeOf(h).reasoningOpen
  {
    hide Output, ShapeOf, TextId, ReasoningId;
    var f := ShapeOf(h);
    forall id ensures id in B.After(B.NONE, Output(h)).open <==>
      || (exists n :: n in f.interrupted && id == TextId(n)) || (f.reasoningOpen && id == ReasoningId(f.ended))
    {
      LeftOpen(h, id);
    }
    var open := B.After(B.NONE, Output(h)).open;
    if n :| n in f.interrupted {
      assert TextId(n) in open;
    } else if f.reasoningOpen {
      assert ReasoningId(f.ended) in open;
    } else {
      assert open == {};
    }
  }
}
