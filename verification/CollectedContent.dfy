/** Exactly when the collector returns all that a stream says, for every legal stream without
    errors, complete or cut off. */
module CollectedContent {
  import opened Common
  import opened ResponseStream
  import opened ToolCalls
  import opened Collector
  import opened CollectedStream
  import opened CollectedCalls

  // ---------------------------------------------------------------- what a stream says

  /** The fold over the events: texts and reasoning summaries as they end or are interrupted, and
      calls as the stream hands them out. */
  function Saying(h: seq<Event>): Told {
    if h == [] then Told(None, None, [])
    else
      var t := Saying(Front(h));
      match Last(h)
      case TextDelta(delta) => t.(text := Some(Or(t.text, "") + delta))
      case TextDone => Told(None, t.reasoning, t.content + NonEmptyText(t.text))
      case ReasoningDelta(delta) => t.(reasoning := Some(Or(t.reasoning, "") + delta))
      case ReasoningDone => Told(t.text, None, t.content + NonEmptyReasoning(t.reasoning))
      case ItemAdded(_, item) =>
        if item.kind == "message" then Told(Some(""), t.reasoning, t.content + NonEmptyText(t.text))
        else t.(content := t.content + CallParts(MapEvent(After(Front(h)), Last(h)).1))
      case _ => t.(content := t.content + CallParts(MapEvent(After(Front(h)), Last(h)).1))
  }

  /** The calls that are handed out when the stream ends. */
  function CutOffCalls(h: seq<Event>): seq<Content> {
    CallParts(FlushCalls(After(h).(openTextId := None), After(h).toolArgs.order).1)
  }

  /** Everything: also a text left open, the calls cut off, and a reasoning summary left open. */
  function AllSaid(h: seq<Event>): seq<Content> {
    var t := Saying(h);
    t.content + NonEmptyText(t.text) + CutOffCalls(h) + NonEmptyReasoning(t.reasoning)
  }

  // ---------------------------------------------------------------- counting what is no call

  function Others(c: seq<Content>): nat {
    if c == [] then 0 else Others(Front(c)) + (if Last(c).Call? then 0 else 1)
  }

  lemma {:induction false} OthersAppend(c: seq<Content>, d: seq<Content>)
    ensures Others(c + d) == Others(c) + Others(d)
    decreases |d|
  {
    if d == [] {
      assert c + d == c;
    } else {
      OthersAppend(c, Front(d));
      assert Front(c + d) == c + Front(d);
    }
  }

  lemma {:induction false} CallsHaveNoOthers(c: seq<Content>)
    ensures |CallsOf(c)| + Others(c) == |c|
    ensures CallsOf(c) == c ==> Others(c) == 0
    decreases |c|
  {
    if c != [] {
      CallsHaveNoOthers(Front(c));
    }
  }

  lemma {:induction false} CallPartsAreCalls(parts: seq<Part>)
    ensures CallsOf(CallParts(parts)) == CallParts(parts) && Others(CallParts(parts)) == 0
    decreases |parts|
  {
    hide CallsOf, Others;
    if parts == [] {
      NothingCounted();
    } else {
      CallPartsAreCalls(Front(parts));
      if Last(parts).ToolCall? {
        var c := Call(Last(parts).id, Last(parts).toolName, Last(parts).input);
        CallsOfAppend(CallParts(Front(parts)), [c]);
        CallsOfOne(c);
        OthersAppend(CallParts(Front(parts)), [c]);
        OneCounted(c);
      } else {
        assert CallParts(Front(parts)) + [] == CallParts(Front(parts));
      }
    }
  }

  lemma NothingCounted()
    ensures CallsOf([]) == [] && Others([]) == 0
  {
  }

  lemma OneCounted(c: Content)
    ensures Others([c]) == if c.Call? then 0 else 1
  {
    assert Front([c]) == [];
  }

  lemma TextCounted(t: Told)
    ensures CallsOf(NonEmptyText(t.text)) == [] && CallsOf(NonEmptyReasoning(t.reasoning)) == []
    ensures Others(NonEmptyText(t.text)) == |NonEmptyText(t.text)|
    ensures Others(NonEmptyReasoning(t.reasoning)) == |NonEmptyReasoning(t.reasoning)|
  {
    TextsAreNoCalls(t);
    NothingCounted();
    if t.text.Some? {
      OneCounted(Text(t.text.value));
    }
    if t.reasoning.Some? {
      OneCounted(Reasoning(t.reasoning.value));
    }
  }

  lemma {:induction false} OpenIsSaid(h: seq<Event>)
    ensures OpenText(h) == Or(Saying(h).text, "") && OpenReasoning(h) == Or(Saying(h).reasoning, "")
    decreases |h|
  {
    hide MapEvent, CallParts;
    if h != [] {
      OpenIsSaid(Front(h));
    }
  }

  // ---------------------------------------------------------------- one event

  /** What an event adds to what is collected and to what is said. */
  ghost predicate Grows(h: seq<Event>, g: Gathered, dg: seq<Content>, dt: seq<Content>)
    requires h != []
  {
    var parts := MapEvent(After(Front(h)), Last(h)).1;
    && CollectAll(g, parts).content == g.content + dg
    && Saying(h).content == Saying(Front(h)).content + dt
    && CallsOf(dt) == CallParts(parts)
    && Others(dg) + (if Interrupts(h) then 1 else 0) == Others(dt)
    && (Repeats(h) && !Interrupts(h) ==> dg == dt)
  }

  lemma TextGrows(h: seq<Event>, g: Gathered) returns (dg: seq<Content>)
    requires h != [] && (Last(h).TextDelta? || Last(h).TextDone?)
    requires TextInStep(After(Front(h)), g, Saying(Front(h)))
    ensures Grows(h, g, dg, dg)
    ensures TextInStep(After(h), CollectAll(g, MapEvent(After(Front(h)), Last(h)).1), Saying(h))
  {
    hide CollectAll, MapEvent, CallsOf, CallParts, Others, TextInStep;
    var s := After(Front(h));
    var t := Saying(Front(h));
    SameText(s, g, t, t.(content := g.content));
    TextEvent(s, g, t.(content := g.content), Last(h));
    NoCallEvent(s, Last(h));
    NoCallParts(MapEvent(s, Last(h)).1);
    TextCounted(t);
    NothingCounted();
    dg := if Last(h).TextDone? then NonEmptyText(t.text) else [];
    assert g.content + [] == g.content && t.content + [] == t.content;
    var s', g' := After(h), CollectAll(g, MapEvent(s, Last(h)).1);
    SameText(s', g', if Last(h).TextDone? then Told(None, t.reasoning, g.content + NonEmptyText(t.text))
                     else t.(content := g.content, text := Some(Or(t.text, "") + Last(h).delta)), Saying(h));
  }

  lemma SameText(s: State, g: Gathered, t: Told, t': Told)
    requires t.text == t'.text && t.reasoning == t'.reasoning && TextInStep(s, g, t)
    ensures TextInStep(s, g, t')
  {
  }

  lemma ReasoningGrows(h: seq<Event>, g: Gathered) returns (dg: seq<Content>)
    requires h != [] && (Last(h).ReasoningDelta? || Last(h).ReasoningDone?)
    requires TextInStep(After(Front(h)), g, Saying(Front(h)))
    ensures Grows(h, g, dg, dg)
    ensures TextInStep(After(h), CollectAll(g, MapEvent(After(Front(h)), Last(h)).1), Saying(h))
  {
    hide CollectAll, MapEvent, CallsOf, CallParts, Others, TextInStep;
    var s := After(Front(h));
    var t := Saying(Front(h));
    SameText(s, g, t, t.(content := g.content));
    ReasoningEvent(s, g, t.(content := g.content), Last(h));
    NoCallEvent(s, Last(h));
    NoCallParts(MapEvent(s, Last(h)).1);
    TextCounted(t);
    NothingCounted();
    dg := if Last(h).ReasoningDone? then NonEmptyReasoning(t.reasoning) else [];
    assert g.content + [] == g.content && t.content + [] == t.content;
    var s', g' := After(h), CollectAll(g, MapEvent(s, Last(h)).1);
    SameText(s', g', if Last(h).ReasoningDone? then Told(t.text, None, g.content + NonEmptyReasoning(t.reasoning))
                     else t.(content := g.content, reasoning := Some(Or(t.reasoning, "") + Last(h).delta)), Saying(h));
  }

  /** A message is added: the collector starts a new text, the old one is said. */
  lemma MessageGrows(h: seq<Event>, g: Gathered)
    requires h != [] && Legal(h) && Last(h).ItemAdded? && Last(h).item.kind == "message"
    requires TextInStep(After(Front(h)), g, Saying(Front(h)))
    ensures Grows(h, g, [], NonEmptyText(Saying(Front(h)).text))
    ensures TextInStep(After(h), CollectAll(g, MapEvent(After(Front(h)), Last(h)).1), Saying(h))
  {
    hide CallsOf, CallParts, Others, CollectAll, MapEvent, TextInStep, Legal;
    var s := After(Front(h));
    var t := Saying(Front(h));
    LegalIndex(h);
    OpenIsSaid(Front(h));
    TextCounted(t);
    NothingCounted();
    var parts := MapEvent(s, Last(h)).1;
    MessageStarts(s, g, t, Last(h).index, Last(h).item);
    NoCallParts(parts);
    SameText(After(h), CollectAll(g, parts), t.(text := Some("")), Saying(h));
    assert g.content + [] == g.content;
  }

  lemma MessageStarts(s: State, g: Gathered, t: Told, index: int, item: Item)
    requires item.kind == "message" && index >= 0 && TextInStep(s, g, t)
    ensures
      var (s', parts) := MapEvent(s, ItemAdded(index, item));
      && TextInStep(s', CollectAll(g, parts), t.(text := Some("")))
      && CollectAll(g, parts).content == g.content && forall p | p in parts :: !p.ToolCall?
  {
    hide NumberedInt, TextId, ReasoningId, CollectAll;
    CollectOne(g, TextStart(TextId(s.textIds)));
  }

  lemma OtherAdded(s: State, g: Gathered, t: Told, e: Event)
    requires TextInStep(s, g, t)
    requires if e.ItemAdded? then !IsCall(e.item) && e.item.kind != "message" && e.index >= 0
             else e.Progress? || e.Incomplete? || e.Completed? || e.Other?
    ensures TextInStep(MapEvent(s, e).0, g, t) && MapEvent(s, e).1 == []
  {
    hide NumberedInt, TextId, ReasoningId;
  }

  /** Anything else that is added and is no call, and events without parts. */
  lemma QuietGrows(h: seq<Event>, g: Gathered)
    requires h != [] && Legal(h) && !Last(h).Failed? && !Last(h).Error?
    requires if Last(h).ItemAdded? then !IsCall(Last(h).item) && Last(h).item.kind != "message"
             else Last(h).Progress? || Last(h).Incomplete? || Last(h).Completed? || Last(h).Other?
    requires TextInStep(After(Front(h)), g, Saying(Front(h)))
    ensures Grows(h, g, [], [])
    ensures TextInStep(After(h), CollectAll(g, MapEvent(After(Front(h)), Last(h)).1), Saying(h))
  {
    hide CallsOf, CallParts, Others, CollectAll, MapEvent, TextInStep, Legal;
    var s := After(Front(h));
    if Last(h).ItemAdded? {
      LegalIndex(h);
    }
    NothingCounted();
    OtherAdded(s, g, Saying(Front(h)), Last(h));
    NothingCollected(g);
    NoCallParts([]);
    SameText(After(h), g, Saying(Front(h)), Saying(h));
    assert g.content + [] == g.content;
    assert Saying(Front(h)).content + [] == Saying(Front(h)).content;
  }

  lemma ToolGrows(h: seq<Event>, g: Gathered) returns (dg: seq<Content>)
    requires h != [] && Legal(h) && Held(g, Front(h))
    requires Last(h).ArgsDelta? || Last(h).ArgsDone? || Last(h).ItemDone? || (Last(h).ItemAdded? && IsCall(Last(h).item))
    requires TextInStep(After(Front(h)), g, Saying(Front(h)))
    ensures Grows(h, g, dg, CallParts(MapEvent(After(Front(h)), Last(h)).1))
    ensures TextInStep(After(h), CollectAll(g, MapEvent(After(Front(h)), Last(h)).1), Saying(h))
  {
    hide Legal, CallsOf, CallParts, Others, Held, Adds, Repeats, MapEvent, CollectAll, TextInStep, Tracks, InStep;
    var s := After(Front(h));
    var parts := MapEvent(s, Last(h)).1;
    LegalFront(h);
    Invariant(Front(h));
    match Last(h) {
      case ItemAdded(_, _) => dg := CallAdded(h, g); LegalIndex(h);
      case ArgsDelta(_, _, _) => DeltaCollected(h, g); dg := [];
      case ArgsDone(_, _, _) => dg := ArgsDoneCollected(h, g);
      case ItemDone(_) => dg := ItemDoneCollected(h, g);
    }
    if !Last(h).ArgsDone? && !Last(h).ItemDone? {
      RepeatsTrivially(h);
    }
    CallPartsAreCalls(parts);
    AllCalls(g, parts, dg);
    ToolEventKeepsText(s, g, CollectAll(g, parts), Saying(Front(h)), Saying(h), Last(h));
  }

  lemma RepeatsTrivially(h: seq<Event>)
    requires h != [] && !Last(h).ArgsDone? && !Last(h).ItemDone?
    ensures Repeats(h)
  {
  }

  lemma AllCalls(g: Gathered, parts: seq<Part>, dg: seq<Content>)
    requires Adds(g, parts, dg) && CollectAll(g, parts).content == g.content + dg
    ensures Others(dg) == 0
  {
    CallsOfAppend(g.content, dg);
    assert CallsOf(g.content) + CallsOf(dg) == CallsOf(g.content) + dg;
    SameTail(CallsOf(g.content), CallsOf(dg), dg);
    CallsHaveNoOthers(dg);
  }

  lemma SameTail<T>(a: seq<T>, b: seq<T>, c: seq<T>)
    requires a + b == a + c
    ensures b == c
  {
    assert b == (a + b)[|a|..] && c == (a + c)[|a|..];
  }

  // ---------------------------------------------------------------- induction

  lemma EventGrows(h: seq<Event>, g: Gathered) returns (dg: seq<Content>, dt: seq<Content>)
    requires h != [] && Legal(h) && !Last(h).Failed? && !Last(h).Error? && Held(g, Front(h))
    requires TextInStep(After(Front(h)), g, Saying(Front(h)))
    ensures Grows(h, g, dg, dt)
    ensures TextInStep(After(h), CollectAll(g, MapEvent(After(Front(h)), Last(h)).1), Saying(h))
  {
    hide Legal, Held, MapEvent, CollectAll, TextInStep, Grows;
    match Last(h) {
      case TextDelta(_) => dg := TextGrows(h, g); dt := dg;
      case TextDone => dg := TextGrows(h, g); dt := dg;
      case ReasoningDelta(_) => dg := ReasoningGrows(h, g); dt := dg;
      case ReasoningDone => dg := ReasoningGrows(h, g); dt := dg;
      case ItemAdded(_, item) =>
        if IsCall(item) {
          dg := ToolGrows(h, g);
          dt := CallParts(MapEvent(After(Front(h)), Last(h)).1);
        } else if item.kind == "message" {
          MessageGrows(h, g);
          dg, dt := [], NonEmptyText(Saying(Front(h)).text);
        } else {
          QuietGrows(h, g);
          dg, dt := [], [];
        }
      case ArgsDelta(_, _, _) =>
        dg := ToolGrows(h, g);
        dt := CallParts(MapEvent(After(Front(h)), Last(h)).1);
      case ArgsDone(_, _, _) =>
        dg := ToolGrows(h, g);
        dt := CallParts(MapEvent(After(Front(h)), Last(h)).1);
      case ItemDone(_) =>
        dg := ToolGrows(h, g);
        dt := CallParts(MapEvent(After(Front(h)), Last(h)).1);
      case _ =>
        QuietGrows(h, g);
        dg, dt := [], [];
    }
  }

  ghost predicate SaidInStep(h: seq<Event>, g: Gathered) {
    && TextInStep(After(h), g, Saying(h))
    && CallsOf(Saying(h).content) == CallParts(Emitted(h))
    && Others(g.content) <= Others(Saying(h).content)
    && (Others(g.content) == Others(Saying(h).content) <==> NeverInterrupted(h))
    && (AllRepeat(h) && NeverInterrupted(h) ==> g.content == Saying(h).content)
  }

  lemma {:induction false} EmittedSaid(h: seq<Event>)
    requires Legal(h) && ErrorFree(h)
    ensures SaidInStep(h, CollectAll(EMPTY, Emitted(h)))
    decreases |h|
  {
    hide Legal, Held, MapEvent, TextInStep, CallsOf, CallParts, Others, Saying, Repeats, Interrupts;
    if h == [] {
      NothingSaid();
    } else {
      LegalFront(h);
      assert Last(h) in h;
      EmittedSaid(Front(h));
      EmittedCollected(Front(h));
      var g := CollectAll(EMPTY, Emitted(Front(h)));
      var parts := MapEvent(After(Front(h)), Last(h)).1;
      var dg, dt := EventGrows(h, g);
      CollectAppend(EMPTY, Emitted(Front(h)), parts);
      CallPartsAppend(Emitted(Front(h)), parts);
      hide CollectAll;
      OthersAppend(g.content, dg);
      OthersAppend(Saying(Front(h)).content, dt);
      CallsOfAppend(Saying(Front(h)).content, dt);
    }
  }

  lemma NothingSaid()
    ensures SaidInStep([], EMPTY) && CollectAll(EMPTY, Emitted([])) == EMPTY
  {
  }

  // ---------------------------------------------------------------- the theorem

  /** What is collected in the end: the content so far, an open text, and the calls cut off. */
  lemma WholeCollected(h: seq<Event>) returns (more: seq<Content>)
    requires Legal(h) && ErrorFree(h)
    ensures
      var g := CollectAll(EMPTY, Emitted(h));
      && Generated(Output(h)).Returned?
      && Generated(Output(h)).content == g.content + NonEmptyText(Saying(h).text) + more
    ensures Others(more) == 0 && (CutOffWithText(h) ==> more == CutOffCalls(h))
  {
    hide Held, CallsOf, CallParts, CollectAll, Emitted, Legal, Tracks, InStep, FlushCalls, FirstError, Buffered, Pays,
         CutOffWithText, After, TextInStep, Others, Saying;
    Invariant(h);
    EmittedCollected(h);
    EmittedSaid(h);
    var s := After(h);
    var closed := s.(openTextId := None);
    var g := CollectAll(EMPTY, Emitted(h));
    var (s1, calls) := FlushCalls(closed, s.toolArgs.order);
    var finish := [Finish(Reason(s1), s1.usage, IfTruthy(s1.responseId))];
    var front := Emitted(h) + CloseText(s);
    NoErrorEmitted(h);
    NoErrorFlushed(closed, s.toolArgs.order);
    NoErrorFound(Output(h));
    ClosedText(s, g, Saying(h));
    var g1 := CollectAll(g, CloseText(s));
    SameHeld(g, g1, h);
    BufferedAtEnd(h, g1, closed);
    FlushStart(s, Items(h));
    more := FlushCollected(closed, Items(h), s.toolArgs.order, g1);
    var g2 := CollectAll(g1, calls);
    AllCalls(g1, calls, more);
    CollectOne(g2, finish[0]);
    assert Output(h) == ((Emitted(h) + CloseText(s)) + calls) + finish;
    CollectAppend(EMPTY, Emitted(h), CloseText(s));
    CollectAppend(EMPTY, front, calls);
    CollectAppend(EMPTY, front + calls, finish);
  }

  lemma SaidCalls(h: seq<Event>)
    requires CallsOf(Saying(h).content) == CallParts(Emitted(h))
    ensures CallsOf(AllSaid(h)) == CallParts(Output(h))
  {
    hide CallsOf, CallParts, Emitted, FlushCalls, Saying;
    var t := Saying(h);
    var s := After(h);
    var (s1, calls) := FlushCalls(s.(openTextId := None), s.toolArgs.order);
    var finish := [Finish(Reason(s1), s1.usage, IfTruthy(s1.responseId))];
    TextCounted(t);
    CallPartsAreCalls(calls);
    CallsOfAppend(t.content, NonEmptyText(t.text));
    CallsOfAppend(t.content + NonEmptyText(t.text), CutOffCalls(h));
    CallsOfAppend(t.content + NonEmptyText(t.text) + CutOffCalls(h), NonEmptyReasoning(t.reasoning));
    NoCallParts(CloseText(s));
    NoCallParts(finish);
    assert Output(h) == ((Emitted(h) + CloseText(s)) + calls) + finish;
    CallPartsAppend(Emitted(h), CloseText(s));
    CallPartsAppend(Emitted(h) + CloseText(s), calls);
    CallPartsAppend((Emitted(h) + CloseText(s)) + calls, finish);
    var c := CallParts(Emitted(h));
    assert ((c + []) + CallParts(calls)) + [] == c + CallParts(calls);
  }

  /** For every legal stream without errors, complete or cut off: the collector returns exactly what
      the stream says, in its order, if and only if no message interrupted a text, no reasoning
      was left open, every closing event repeats what was sent, and no call was cut off with
      empty deltas only. */
  lemma ContentExact(h: seq<Event>)
    requires Legal(h) && ErrorFree(h)
    ensures Generated(Output(h)).Returned?
    ensures Generated(Output(h)).content == AllSaid(h) <==> Undisturbed(h) && AllRepeat(h) && CutOffWithText(h)
  {
    hide CollectAll, Emitted, Legal, ErrorFree, TextInStep, CallsOf, CallParts, Others, Saying, AllRepeat, CutOffWithText,
         NeverInterrupted, OpenReasoning, CutOffCalls, Output, Generated;
    var more := WholeCollected(h);
    EmittedSaid(h);
    SaidCalls(h);
    CollectedCallsExact(h);
    OpenIsSaid(h);
    var g := CollectAll(EMPTY, Emitted(h));
    var t := Saying(h);
    var text, reasoning := NonEmptyText(t.text), NonEmptyReasoning(t.reasoning);
    TextCounted(t);
    CutOffAreCalls(h);
    OthersAppend(g.content, text);
    OthersAppend(g.content + text, more);
    OthersAppend(t.content, text);
    OthersAppend(t.content + text, CutOffCalls(h));
    OthersAppend(t.content + text + CutOffCalls(h), reasoning);
    if Undisturbed(h) && AllRepeat(h) && CutOffWithText(h) {
      assert t.content + text + CutOffCalls(h) + [] == t.content + text + CutOffCalls(h);
    }
  }

  lemma CutOffAreCalls(h: seq<Event>)
    ensures Others(CutOffCalls(h)) == 0
  {
    CallPartsAreCalls(FlushCalls(After(h).(openTextId := None), After(h).toolArgs.order).1);
  }
}
