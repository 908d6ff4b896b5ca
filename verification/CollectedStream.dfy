/** Streaming and collecting agree: what `doGenerate` returns for a whole stream is a plain
    fold over the source events. */
module CollectedStream {
  import opened Common
  import opened ResponseStream
  import opened ToolCalls
  import opened Collector

  // ---------------------------------------------------------------- the reference fold

  /** The content of the events themselves: the open text, the open reasoning summary, and
      what has been completed so far, in completion order. */
  datatype Told = Told(text: Option<string>, reasoning: Option<string>, content: seq<Content>)

  function NonEmptyText(t: Option<string>): seq<Content> {
    if t.Some? && t.value != "" then [Text(t.value)] else []
  }

  function NonEmptyReasoning(t: Option<string>): seq<Content> {
    if t.Some? && t.value != "" then [Reasoning(t.value)] else []
  }

  /** The call that an event settles, if it settles one. */
  ghost predicate Settles(h: seq<Event>, k: int, id: string)
  {
    && h != [] && CallAt(Items(h), k, id)
    && Settled(Front(h), k, id).None? && Settled(h, k, id).Some?
  }

  /** At most one call per event, so the choice of `k` and `id` is none. */
  ghost function Completion(h: seq<Event>): seq<Content> {
    if exists k, id :: Settles(h, k, id) then
      var k, id :| Settles(h, k, id);
      [Call(id, Or(Items(h)[k].name, "unknown"), Settled(h, k, id).value)]
    else []
  }

  ghost function Telling(h: seq<Event>): Told {
    if h == [] then Told(None, None, [])
    else
      var t := Telling(Front(h));
      match Last(h)
      case TextDelta(delta) => t.(text := Some(Or(t.text, "") + delta))
      case TextDone => Told(None, t.reasoning, t.content + NonEmptyText(t.text))
      case ReasoningDelta(delta) => t.(reasoning := Some(Or(t.reasoning, "") + delta))
      case ReasoningDone => Told(t.text, None, t.content + NonEmptyReasoning(t.reasoning))
      case ItemAdded(_, item) =>
        if item.kind == "message" then Told(Some(""), t.reasoning, t.content + NonEmptyText(t.text))
        else t.(content := t.content + Completion(h))
      case _ => t.(content := t.content + Completion(h))
  }

  /** Everything the events say: a text that another message interrupts counts, and so do a
      text and a reasoning summary left open at the end. */
  ghost function Direct(h: seq<Event>): seq<Content> {
    var t := Telling(h);
    t.content + NonEmptyText(t.text) + NonEmptyReasoning(t.reasoning)
  }

  /** What the collector gathers of it: an interrupted text is gone. */
  ghost function Gathering(h: seq<Event>): Told {
    if h == [] then Told(None, None, [])
    else
      var t := Gathering(Front(h));
      match Last(h)
      case TextDelta(delta) => t.(text := Some(Or(t.text, "") + delta))
      case TextDone => Told(None, t.reasoning, t.content + NonEmptyText(t.text))
      case ReasoningDelta(delta) => t.(reasoning := Some(Or(t.reasoning, "") + delta))
      case ReasoningDone => Told(t.text, None, t.content + NonEmptyReasoning(t.reasoning))
      case ItemAdded(_, item) =>
        Told(if item.kind == "message" then Some("") else t.text, t.reasoning, t.content + Completion(h))
      case _ => t.(content := t.content + Completion(h))
  }

  // ---------------------------------------------------------------- when nothing is lost

  /** The text of the message that is open. */
  function OpenText(h: seq<Event>): string {
    if h == [] then ""
    else
      match Last(h)
      case TextDelta(delta) => OpenText(Front(h)) + delta
      case TextDone => ""
      case ItemAdded(_, item) => if item.kind == "message" then "" else OpenText(Front(h))
      case _ => OpenText(Front(h))
  }

  /** The reasoning summary that has not been ended. */
  function OpenReasoning(h: seq<Event>): string {
    if h == [] then ""
    else
      match Last(h)
      case ReasoningDelta(delta) => OpenReasoning(Front(h)) + delta
      case ReasoningDone => ""
      case _ => OpenReasoning(Front(h))
  }

  /** The last event adds a message while a text with something in it is open. */
  predicate Interrupts(h: seq<Event>) {
    h != [] && Last(h).ItemAdded? && Last(h).item.kind == "message" && OpenText(Front(h)) != ""
  }

  predicate NeverInterrupted(h: seq<Event>) {
    h == [] || (NeverInterrupted(Front(h)) && !Interrupts(h))
  }

  /** No text is interrupted and every reasoning summary is ended. */
  predicate Undisturbed(h: seq<Event>) {
    NeverInterrupted(h) && OpenReasoning(h) == ""
  }

  lemma {:induction false} OpenIsTold(h: seq<Event>)
    ensures
      var t := Gathering(h);
      && Telling(h).text == t.text && Telling(h).reasoning == t.reasoning
      && OpenText(h) == Or(t.text, "") && OpenReasoning(h) == Or(t.reasoning, "")
    decreases |h|
  {
    hide Completion;
    if h != [] {
      OpenIsTold(Front(h));
    }
  }

  lemma MessageCompletesNothing(h: seq<Event>)
    requires h != [] && Last(h).ItemAdded? && Last(h).item.kind == "message"
    ensures Completion(h) == []
  {
    NoneAdded(h);
  }

  /** Each interruption costs the collector one text, and nothing else does. */
  lemma {:induction false} InterruptionsAreLost(h: seq<Event>)
    ensures
      var told, kept := Telling(h).content, Gathering(h).content;
      && |kept| <= |told|
      && if NeverInterrupted(h) then told == kept else |kept| < |told|
    decreases |h|
  {
    hide Completion;
    if h != [] {
      InterruptionsAreLost(Front(h));
      OpenIsTold(Front(h));
      if Last(h).ItemAdded? && Last(h).item.kind == "message" {
        MessageCompletesNothing(h);
        var t := Gathering(Front(h));
        assert t.content + [] == t.content;
      }
    }
  }

  // ---------------------------------------------------------------- the streams it is about

  /** What makes the next event of a legal stream unsurprising: natural reasoning keys are not
      disturbed, argument events stop once the call is settled, and the settling arguments are
      the concatenated deltas, not empty, under the name the call was added with. */
  ghost predicate Plain(h: seq<Event>)
    requires h != []
  {
    var before := Front(h);
    match Last(h)
    case ArgsDelta(index, _, _) =>
      forall id | CallAt(Items(before), index, id) :: Settled(before, index, id).None?
    case ArgsDone(index, _, _) =>
      forall id | CallAt(Items(before), index, id) ::
        && Settled(before, index, id).None?
        && Settled(h, index, id) == Some(Deltas(before, index)) && Deltas(before, index) != ""
    case ItemDone(done) =>
      && (done.Some? && IsCall(done.value) ==> Truthy(done.value.callId))
      && forall k, id | Settles(h, k, id) ::
        && Settled(h, k, id) == Some(Deltas(before, k)) && Deltas(before, k) != ""
        && done.value.name == Items(h)[k].name
    case Failed(_) => false
    case Error(_) => false
    case _ => true
  }

  ghost predicate AllPlain(h: seq<Event>) {
    h == [] || (AllPlain(Front(h)) && Plain(h))
  }

  /** A complete stream has settled every call. */
  ghost predicate Complete(h: seq<Event>) {
    && Legal(h) && AllPlain(h)
    && forall k, id | CallAt(Items(h), k, id) :: Settled(h, k, id).Some?
  }

  // ---------------------------------------------------------------- the invariant

  /** The collector's view of the tool at `k`. */
  ghost predicate ToolInStep(g: Gathered, h: seq<Event>, k: int, id: string)
    requires k in Items(h)
  {
    && id in g.tools
    && g.tools[id].toolName == Or(Items(h)[k].name, "unknown")
    && (Settled(h, k, id).None? ==> g.tools[id].input == Deltas(h, k))
  }

  ghost predicate TextInStep(s: State, g: Gathered, t: Told) {
    && (s.openTextId.Some? <==> t.text.Some?)
    && (t.text.Some? ==> s.openTextId.value in g.texts && g.texts[s.openTextId.value] == t.text.value)
    && (ReasoningKey(s) in s.outputItems <==> t.reasoning.Some?)
    && (t.reasoning.Some? ==>
          var id := ReasoningId(s.reasoningIds);
          id in g.reasonings && g.reasonings[id] == t.reasoning.value)
    && (forall k | k in s.outputItems && k < 0 :: k == ReasoningKey(s))
  }

  ghost predicate InStepWith(h: seq<Event>) {
    var s := After(h);
    var g := CollectAll(EMPTY, Emitted(h));
    var t := Gathering(h);
    && g.content == t.content
    && TextInStep(s, g, t)
    && (forall k, id | CallAt(Items(h), k, id) :: ToolInStep(g, h, k, id))
  }

  // ---------------------------------------------------------------- which call is new

  /** An event settles a call in one of three ways. */
  lemma HowSettled(h: seq<Event>, k: int, id: string)
    requires Settles(h, k, id)
    ensures
      var e := Last(h);
      || (e.ItemAdded? && e.index == k && Inline(e.item))
      || (e.ArgsDone? && e.index == k)
      || ClosesItem(e, id)
  {
  }

  lemma CompletionIs(h: seq<Event>, k: int, id: string)
    requires Legal(h) && Settles(h, k, id)
    ensures Completion(h) == [Call(id, Or(Items(h)[k].name, "unknown"), Settled(h, k, id).value)]
  {
    hide Settled, Legal, Inline;
    Invariant(h);
    forall k', id' | Settles(h, k', id') ensures k' == k && id' == id {
      HowSettled(h, k, id);
      HowSettled(h, k', id');
      assert CallAt(Items(h), k, id) && CallAt(Items(h), k', id');
      OneIndex(After(h), Items(h), k, id, k', id');
    }
  }

  lemma OneIndex(s: State, items: map<int, Item>, k: int, id: string, k': int, id': string)
    requires Tracks(s, items) && CallAt(items, k, id) && CallAt(items, k', id')
    ensures k == k' <==> id == id'
  {
  }

  lemma NoCompletion(h: seq<Event>)
    requires h != [] && !Last(h).ItemAdded? && !Last(h).ArgsDone? && !Last(h).ItemDone?
    ensures Completion(h) == []
  {
  }

  // ---------------------------------------------------------------- events without tools

  lemma ToolsKept(h: seq<Event>, g: Gathered, g': Gathered)
    requires h != [] && !Last(h).ItemAdded? && !Last(h).ArgsDelta? && !Last(h).ArgsDone? && !Last(h).ItemDone?
    requires g'.tools == g.tools
    requires forall k, id | CallAt(Items(Front(h)), k, id) :: ToolInStep(g, Front(h), k, id)
    ensures forall k, id | CallAt(Items(h), k, id) :: ToolInStep(g', h, k, id)
  {
    forall k, id | CallAt(Items(h), k, id) ensures ToolInStep(g', h, k, id) {
      assert CallAt(Items(Front(h)), k, id);
      assert ToolInStep(g, Front(h), k, id);
    }
  }

  lemma TextEvent(s: State, g: Gathered, t: Told, e: Event)
    requires e.TextDelta? || e.TextDone?
    requires TextInStep(s, g, t) && g.content == t.content
    ensures
      var (s', parts) := MapEvent(s, e);
      var g' := CollectAll(g, parts);
      var t' := if e.TextDelta? then t.(text := Some(Or(t.text, "") + e.delta))
                else Told(None, t.reasoning, t.content + NonEmptyText(t.text));
      TextInStep(s', g', t') && g'.content == t'.content && g'.tools == g.tools
  {
    hide ReasoningId, TextId;
    match e
    case TextDelta(delta) =>
      if s.openTextId.None? {
        CollectTwo(g, TextStart(TextId(s.textIds)), TextChunk(TextId(s.textIds), delta));
        assert "" + delta == delta;
      } else {
        CollectOne(g, TextChunk(s.openTextId.value, delta));
      }
    case TextDone =>
      if s.openTextId.Some? {
        CollectOne(g, TextEnd(s.openTextId.value));
      }
  }

  lemma ReasoningEvent(s: State, g: Gathered, t: Told, e: Event)
    requires e.ReasoningDelta? || e.ReasoningDone?
    requires TextInStep(s, g, t) && g.content == t.content
    ensures
      var (s', parts) := MapEvent(s, e);
      var g' := CollectAll(g, parts);
      var t' := if e.ReasoningDelta? then t.(reasoning := Some(Or(t.reasoning, "") + e.delta))
                else Told(t.text, None, t.content + NonEmptyReasoning(t.reasoning));
      TextInStep(s', g', t') && g'.content == t'.content && g'.tools == g.tools
  {
    hide ReasoningId, TextId;
    var id := ReasoningId(s.reasoningIds);
    match e
    case ReasoningDelta(delta) =>
      if ReasoningKey(s) in s.outputItems {
        CollectOne(g, ReasoningChunk(id, delta));
      } else {
        CollectTwo(g, ReasoningStart(id), ReasoningChunk(id, delta));
        assert "" + delta == delta;
      }
    case ReasoningDone =>
      if ReasoningKey(s) in s.outputItems {
        CollectOne(g, ReasoningEnd(id));
      }
  }

  // ---------------------------------------------------------------- events with tools

  lemma ArgsDeltaEvent(h: seq<Event>, g: Gathered)
    requires h != [] && Last(h).ArgsDelta? && Legal(h) && Plain(h)
    requires Tracks(After(Front(h)), Items(Front(h)))
    requires forall k, id | CallAt(Items(Front(h)), k, id) :: ToolInStep(g, Front(h), k, id)
    ensures
      var g' := CollectAll(g, MapEvent(After(Front(h)), Last(h)).1);
      && g'.content == g.content && g'.texts == g.texts && g'.reasonings == g.reasonings
      && forall k, id | CallAt(Items(h), k, id) :: ToolInStep(g', h, k, id)
  {
    hide NumberedInt;
    var s := After(Front(h));
    var items := Items(Front(h));
    var e := Last(h);
    LegalLast(h);
    var own := items[e.index].callId.value;
    CollectOne(g, ToolInputDelta(own, e.delta));
    var g' := CollectAll(g, MapEvent(s, e).1);
    forall k, id | CallAt(Items(h), k, id) ensures ToolInStep(g', h, k, id) {
      assert ToolInStep(g, Front(h), k, id);
      assert CallAt(items, e.index, own);
      OneIndex(s, items, k, id, e.index, own);
    }
  }

  /** A closing event: the collector pushes the tool's accumulated input. */
  lemma ClosingParts(g: Gathered, id: string, call: Part)
    requires id in g.tools && call.ToolCall?
    ensures CollectAll(g, [ToolInputEnd(id), call]) ==
            WithContent(g, Call(id, g.tools[id].toolName, g.tools[id].input))
  {
    CollectTwo(g, ToolInputEnd(id), call);
  }

  lemma ArgsDoneEvent(h: seq<Event>, g: Gathered)
    requires h != [] && Last(h).ArgsDone? && Legal(h) && Plain(h)
    requires Tracks(After(Front(h)), Items(Front(h)))
    requires forall k, id | CallAt(Items(Front(h)), k, id) ::
      ToolInStep(g, Front(h), k, id) && InStep(After(Front(h)), Front(h), k, id)
    ensures
      var g' := CollectAll(g, MapEvent(After(Front(h)), Last(h)).1);
      && g' == g.(content := g.content + Completion(h))
      && forall k, id | CallAt(Items(h), k, id) :: ToolInStep(g', h, k, id)
  {
    hide NumberedInt, Completion, CallInputs, Emitted;
    var s := After(Front(h));
    var items := Items(Front(h));
    var e := Last(h);
    LegalLast(h);
    var own := items[e.index].callId.value;
    assert CallAt(items, e.index, own) && CallAt(Items(h), e.index, own);
    assert ToolInStep(g, Front(h), e.index, own) && InStep(s, Front(h), e.index, own);
    assert Settles(h, e.index, own);
    CompletionIs(h, e.index, own);
    var parts := MapEvent(s, e).1;
    assert parts == [ToolInputEnd(own), parts[1]] && parts[1].ToolCall?;
    ClosingParts(g, own, parts[1]);
    var g' := CollectAll(g, parts);
    forall k, id | CallAt(Items(h), k, id) ensures ToolInStep(g', h, k, id) {
      assert ToolInStep(g, Front(h), k, id);
    }
  }

  lemma ItemDoneEvent(h: seq<Event>, g: Gathered)
    requires h != [] && Last(h).ItemDone? && Legal(h) && Plain(h)
    requires Tracks(After(Front(h)), Items(Front(h)))
    requires forall k, id | CallAt(Items(Front(h)), k, id) ::
      ToolInStep(g, Front(h), k, id) && InStep(After(Front(h)), Front(h), k, id)
    ensures
      var g' := CollectAll(g, MapEvent(After(Front(h)), Last(h)).1);
      && g' == g.(content := g.content + Completion(h))
      && forall k, id | CallAt(Items(h), k, id) :: ToolInStep(g', h, k, id)
  {
    hide Completion, CallInputs, Emitted;
    var s := After(Front(h));
    var items := Items(Front(h));
    var e := Last(h);
    LegalLast(h);
    var parts := MapEvent(s, e).1;
    if e.done.Some? && IsCall(e.done.value) {
      var own := e.done.value.callId.value;
      var j :| j in items && IsCall(items[j]) && items[j].callId == e.done.value.callId;
      assert CallAt(items, j, own) && CallAt(Items(h), j, own);
      assert ToolInStep(g, Front(h), j, own) && InStep(s, Front(h), j, own);
      if Settled(Front(h), j, own).None? {
        assert Settles(h, j, own);
        CompletionIs(h, j, own);
        assert parts == [ToolInputEnd(own), parts[1]] && parts[1].ToolCall?;
        ClosingParts(g, own, parts[1]);
      } else {
        SettledBefore(h, j, own);
      }
    } else {
      NothingSettled(h);
    }
    var g' := CollectAll(g, parts);
    forall k, id | CallAt(Items(h), k, id) ensures ToolInStep(g', h, k, id) {
      assert ToolInStep(g, Front(h), k, id);
      DoneTold(h, k, id);
    }
  }

  lemma SettledBefore(h: seq<Event>, j: int, own: string)
    requires Legal(h) && h != [] && ClosesItem(Last(h), own)
    requires CallAt(Items(h), j, own) && Settled(Front(h), j, own).Some?
    ensures Completion(h) == []
  {
    hide Settled, Legal;
    Invariant(h);
    forall k, id | Settles(h, k, id) ensures false {
      HowSettled(h, k, id);
      OneIndex(After(h), Items(h), k, id, j, own);
    }
  }

  lemma NothingSettled(h: seq<Event>)
    requires h != [] && Last(h).ItemDone? && !(Last(h).done.Some? && IsCall(Last(h).done.value))
    ensures Completion(h) == []
  {
  }

  lemma AddedCompletion(h: seq<Event>, own: string)
    requires h != [] && Last(h).ItemAdded? && Legal(h)
    requires IsCall(Last(h).item) && Last(h).item.callId == Some(own)
    ensures Completion(h) ==
            if Inline(Last(h).item)
            then [Call(own, Or(Last(h).item.name, "unknown"), Last(h).item.arguments.value)] else []
  {
    var e := Last(h);
    LegalLast(h);
    NewCall(Items(Front(h)), e, own);
    NothingYet(Front(h), e.index, own);
    hide Completion;
    if Inline(e.item) {
      assert Settles(h, e.index, own);
      CompletionIs(h, e.index, own);
    } else {
      NoneAdded(h);
    }
  }

  lemma NoneAdded(h: seq<Event>)
    requires h != [] && Last(h).ItemAdded? && (!Inline(Last(h).item) || !IsCall(Last(h).item))
    ensures Completion(h) == []
  {
    hide Inline, Settled;
    forall k, id | Settles(h, k, id) ensures false {
      HowSettled(h, k, id);
    }
  }

  lemma LegalFront(h: seq<Event>)
    requires h != [] && Legal(h)
    ensures Legal(Front(h))
  {
  }

  lemma CollectInline(g: Gathered, own: string, name: string, args: string, call: Part)
    requires call.ToolCall?
    ensures Collect(Collect(Collect(Collect(g, ToolInputStart(own, name)), ToolInputDelta(own, args)), ToolInputEnd(own)), call)
         == g.(tools := g.tools[own := Tool(name, args)], content := g.content + [Call(own, name, args)])
  {
    var g1 := Collect(g, ToolInputStart(own, name));
    var g2 := Collect(g1, ToolInputDelta(own, args));
    assert "" + args == args;
    assert g2.tools == g.tools[own := Tool(name, args)];
    assert g2 == g.(tools := g.tools[own := Tool(name, args)]);
  }

  /** What the collector has after a call has been added. */
  lemma CollectAdded(s: State, g: Gathered, index: int, item: Item)
    requires IsCall(item) && item.callId.Some?
    ensures
      var id := item.callId.value;
      var name := Or(item.name, "unknown");
      var args := Or(item.arguments, "");
      CollectAll(g, AddItem(s, index, item).1) ==
        if Inline(item) then
          g.(tools := g.tools[id := Tool(name, args)], content := g.content + [Call(id, name, args)])
        else g.(tools := g.tools[id := Tool(name, "")])
  {
    hide NumberedInt, Numbered, CollectAll;
    var own := item.callId.value;
    var name := Or(item.name, "unknown");
    if Inline(item) {
      var args := item.arguments.value;
      CollectFour(g, ToolInputStart(own, name), ToolInputDelta(own, args), ToolInputEnd(own),
                  ToolCall(own, name, args, IfTruthy(item.id)));
      CollectInline(g, own, name, args, ToolCall(own, name, args, IfTruthy(item.id)));
    } else {
      CollectOne(g, ToolInputStart(own, name));
    }
  }

  lemma ItemAddedEvent(h: seq<Event>, g: Gathered)
    requires h != [] && Last(h).ItemAdded? && Legal(h) && IsCall(Last(h).item)
    requires Tracks(After(Front(h)), Items(Front(h)))
    requires forall k, id | CallAt(Items(Front(h)), k, id) :: ToolInStep(g, Front(h), k, id)
    ensures
      var g' := CollectAll(g, MapEvent(After(Front(h)), Last(h)).1);
      && g'.content == g.content + Completion(h) && g'.texts == g.texts && g'.reasonings == g.reasonings
      && forall k, id | CallAt(Items(h), k, id) :: ToolInStep(g', h, k, id)
  {
    hide AddItem, Completion, Collect, CollectAll, Legal;
    var s := After(Front(h));
    var e := Last(h);
    LegalLast(h);
    var own := e.item.callId.value;
    AddedCompletion(h, own);
    CollectAdded(s, g, e.index, e.item);
    var g' := CollectAll(g, MapEvent(s, e).1);
    LegalFront(h);
    NewCall(Items(Front(h)), e, own);
    NothingYet(Front(h), e.index, own);
    NoDeltas(Front(h), e.index);
    forall k, id | CallAt(Items(h), k, id) ensures ToolInStep(g', h, k, id) {
      if k != e.index {
        assert CallAt(Items(Front(h)), k, id);
        assert ToolInStep(g, Front(h), k, id);
      }
    }
  }

  /** Adding something that is not a call. */
  lemma PlainItemEvent(h: seq<Event>, g: Gathered, t: Told)
    requires h != [] && Last(h).ItemAdded? && Legal(h) && !IsCall(Last(h).item)
    requires TextInStep(After(Front(h)), g, t) && g.content == t.content
    requires forall k, id | CallAt(Items(Front(h)), k, id) :: ToolInStep(g, Front(h), k, id)
    ensures
      var g' := CollectAll(g, MapEvent(After(Front(h)), Last(h)).1);
      && g'.content == t.content + Completion(h)
      && TextInStep(After(h), g',
                    Told(if Last(h).item.kind == "message" then Some("") else t.text, t.reasoning,
                         t.content + Completion(h)))
      && forall k, id | CallAt(Items(h), k, id) :: ToolInStep(g', h, k, id)
  {
    hide NumberedInt, TextId, ReasoningId, Completion;
    var s := After(Front(h));
    var e := Last(h);
    LegalLast(h);
    NoneAdded(h);
    if e.item.kind == "message" {
      CollectOne(g, TextStart(TextId(s.textIds)));
    }
    var g' := CollectAll(g, MapEvent(s, e).1);
    forall k, id | CallAt(Items(h), k, id) ensures ToolInStep(g', h, k, id) {
      assert k != e.index && CallAt(Items(Front(h)), k, id);
      assert ToolInStep(g, Front(h), k, id);
    }
  }

  /** Tool events leave the text side alone. */
  lemma ToolEventKeepsText(s: State, g: Gathered, g': Gathered, t: Told, t': Told, e: Event)
    requires e.ArgsDelta? || e.ArgsDone? || e.ItemDone? || (e.ItemAdded? && IsCall(e.item) && e.index >= 0)
    requires TextInStep(s, g, t) && g'.texts == g.texts && g'.reasonings == g.reasonings
    requires t'.text == t.text && t'.reasoning == t.reasoning
    ensures TextInStep(MapEvent(s, e).0, g', t')
  {
    hide NumberedInt, Numbered, ReasoningId;
  }

  lemma QuietEvent(s: State, g: Gathered, t: Told, e: Event)
    requires e.Progress? || e.Incomplete? || e.Completed? || e.Other?
    requires TextInStep(s, g, t)
    ensures TextInStep(MapEvent(s, e).0, g, t) && MapEvent(s, e).1 == []
  {
    hide ReasoningId;
  }

  // ---------------------------------------------------------------- induction

  lemma {:induction false} CollectedInStep(h: seq<Event>)
    requires Legal(h) && AllPlain(h)
    ensures InStepWith(h)
    decreases |h|
  {
    hide MapEvent, TextInStep, ToolInStep, Plain, Legal, Completion, InStep, Tracks, Collect;
    if h == [] {
      NothingToldYet();
    } else {
      LegalPlainFront(h);
      NoFailure(h);
      CollectedInStep(Front(h));
      Invariant(Front(h));
      var s := After(Front(h));
      var e := Last(h);
      var g := CollectAll(EMPTY, Emitted(Front(h)));
      var t := Gathering(Front(h));
      var parts := MapEvent(s, e).1;
      CollectAppend(EMPTY, Emitted(Front(h)), parts);
      var g' := CollectAll(g, parts);
      match e
      case TextDelta(_) => TextEvent(s, g, t, e); ToolsKept(h, g, g');
      case TextDone => TextEvent(s, g, t, e); ToolsKept(h, g, g');
      case ReasoningDelta(_) => ReasoningEvent(s, g, t, e); ToolsKept(h, g, g');
      case ReasoningDone => ReasoningEvent(s, g, t, e); ToolsKept(h, g, g');
      case ItemAdded(index, item) =>
        if IsCall(item) {
          ItemAddedEvent(h, g);
          LegalIndex(h);
          ToolEventKeepsText(s, g, g', t, Gathering(h), e);
        } else {
          PlainItemEvent(h, g, t);
        }
      case ArgsDelta(_, _, _) =>
        ArgsDeltaEvent(h, g);
        NoCompletion(h);
        ToolEventKeepsText(s, g, g', t, Gathering(h), e);
      case ArgsDone(_, _, _) =>
        ArgsDoneEvent(h, g);
        ToolEventKeepsText(s, g, g', t, Gathering(h), e);
      case ItemDone(_) =>
        ItemDoneEvent(h, g);
        ToolEventKeepsText(s, g, g', t, Gathering(h), e);
      case Failed(_) => assert false;
      case Error(_) => assert false;
      case _ =>
        QuietEvent(s, g, t, e);
        assert CollectAll(g, []) == g;
        NoCompletion(h);
        assert t.content + [] == t.content;
        ToolsKept(h, g, g');
    }
  }

  lemma NothingToldYet()
    ensures InStepWith([])
  {
  }

  lemma LegalPlainFront(h: seq<Event>)
    requires h != [] && Legal(h) && AllPlain(h)
    ensures Legal(Front(h)) && AllPlain(Front(h)) && Plain(h)
  {
  }

  lemma LegalIndex(h: seq<Event>)
    requires h != [] && Legal(h) && Last(h).ItemAdded?
    ensures Last(h).index >= 0
  {
  }

  lemma NoFailure(h: seq<Event>)
    requires h != [] && Plain(h)
    ensures !Last(h).Failed? && !Last(h).Error?
  {
  }

  lemma NoErrorEvent(s: State, e: Event)
    requires !e.Failed? && !e.Error?
    ensures forall p | p in MapEvent(s, e).1 :: !p.ErrorPart?
  {
  }

  lemma {:induction false} NoErrors(h: seq<Event>)
    requires AllPlain(h)
    ensures forall p | p in Emitted(h) :: !p.ErrorPart?
    decreases |h|
  {
    hide MapEvent;
    if h != [] {
      NoErrors(Front(h));
      NoErrorEvent(After(Front(h)), Last(h));
    }
  }

  // ---------------------------------------------------------------- the end

  lemma {:induction false} NothingToFlush(s: State, items: map<int, Item>, order: seq<int>)
    requires Tracks(s, items) && forall x | x in order :: x in s.toolArgs.args
    requires forall k, id | CallAt(items, k, id) :: id in s.emitted
    ensures FlushCalls(s, order) == (s, [])
    decreases order
  {
    if order != [] {
      var k := order[0];
      assert CallAt(items, k, items[k].callId.value);
      assert FlushOne(s, k) == (s, []);
      NothingToFlush(s, items, order[1..]);
      var none: seq<Part> := [];
      assert FlushCalls(s, order[1..]) == (s, none);
      assert none + none == none;
      assert FlushCalls(s, order) == (s, none + none);
    }
  }

  /** For a complete stream the ending is the end of an open text and the finish part. */
  lemma CompleteEnding(h: seq<Event>)
    requires Complete(h)
    ensures Ending(After(h)) ==
            CloseText(After(h)) + [Finish(Reason(After(h)), After(h).usage, IfTruthy(After(h).responseId))]
  {
    hide FlushCalls, CallInputs, Emitted;
    Invariant(h);
    var s := After(h);
    forall k, id | CallAt(Items(h), k, id) ensures id in s.emitted {
      assert InStep(s, h, k, id);
    }
    FlushStart(s, Items(h));
    NothingToFlush(s.(openTextId := None), Items(h), s.toolArgs.order);
    assert CloseText(s) + [] == CloseText(s);
  }

  /** What the collector returns for a complete stream: what it gathered, with the finish
      reason and usage of the stream. */
  lemma CollectedIsGathered(h: seq<Event>)
    requires Complete(h)
    ensures Generated(Output(h)) ==
            Returned(Gathering(h).content + NonEmptyText(Gathering(h).text), Reason(After(h)), After(h).usage)
  {
    hide FirstError, Ending, Emitted, CollectAll, After, Gathering, Complete;
    CompleteParts(h);
    CompleteEnding(h);
    NoErrors(h);
    NoErrorFound(Output(h));
    var s := After(h);
    var g := CollectAll(EMPTY, Emitted(h));
    var finish := Finish(Reason(s), s.usage, IfTruthy(s.responseId));
    CollectAppend(EMPTY, Emitted(h), Ending(s));
    CollectAppend(g, CloseText(s), [finish]);
    CollectOne(CollectAll(g, CloseText(s)), finish);
    ClosedText(s, g, Gathering(h));
  }

  /** Streamed equals collected: for every complete stream the collector returns the direct
      fold over the source events exactly when no message interrupted a text and no reasoning
      was left open. */
  lemma StreamedEqualsCollected(h: seq<Event>)
    requires Complete(h)
    ensures Generated(Output(h)) == Returned(Direct(h), Reason(After(h)), After(h).usage) <==> Undisturbed(h)
  {
    hide Complete, Telling, Gathering, Generated, Output, After;
    CollectedIsGathered(h);
    InterruptionsAreLost(h);
    OpenIsTold(h);
    var t := Telling(h);
    if Undisturbed(h) {
      assert t.content + NonEmptyText(t.text) + [] == t.content + NonEmptyText(t.text);
    }
  }

  /** The smallest stream that loses something: its text is streamed and not collected. */
  lemma InterruptedTextIsLost(message: Item)
    requires message.kind == "message"
    ensures
      var h := [ItemAdded(0, message), TextDelta("x"), ItemAdded(1, message)];
      && Complete(h) && !Undisturbed(h)
      && Generated(Output(h)) != Returned(Direct(h), Reason(After(h)), After(h).usage)
      && TextChunk(TextId(0), "x") in Output(h)
  {
    hide Generated, Direct, Ending, Completion;
    var h := [ItemAdded(0, message), TextDelta("x"), ItemAdded(1, message)];
    SmallStream(h, message);
    StreamedEqualsCollected(h);
    var h2 := Front(h);
    assert MapEvent(After(Front(h2)), TextDelta("x")).1 == [TextChunk(TextId(0), "x")];
    assert TextChunk(TextId(0), "x") in Emitted(h2);
  }

  lemma SmallStream(h: seq<Event>, message: Item)
    requires message.kind == "message"
    requires h == [ItemAdded(0, message), TextDelta("x"), ItemAdded(1, message)]
    ensures Complete(h) && !Undisturbed(h)
    ensures Front(h) == [ItemAdded(0, message), TextDelta("x")] && Front(Front(h)) == [ItemAdded(0, message)]
    ensures After(Front(Front(h))).openTextId == Some(TextId(0))
  {
    hide NumberedInt;
    var h2 := Front(h);
    var h1 := Front(h2);
    assert h2 == [ItemAdded(0, message), TextDelta("x")] && h1 == [ItemAdded(0, message)] && Front(h1) == [];
    assert Items(h1) == map[0 := message] && Items(h2) == Items(h1);
    assert Legal(Front(h1)) && Legal(h1) && Legal(h2);
    assert AllPlain(Front(h1)) && AllPlain(h1) && AllPlain(h2);
    assert OpenText(h1) == "" && OpenText(h2) == "x";
    assert After(Front(h1)) == START;
    assert After(h1) == AddItem(START, 0, message).0;
  }

  lemma CompleteParts(h: seq<Event>)
    requires Complete(h)
    ensures AllPlain(h)
    ensures var g := CollectAll(EMPTY, Emitted(h));
            g.content == Gathering(h).content && TextInStep(After(h), g, Gathering(h))
  {
    CollectedInStep(h);
  }

  lemma ClosedText(s: State, g: Gathered, t: Told)
    requires TextInStep(s, g, t)
    ensures CollectAll(g, CloseText(s)) == g.(content := g.content + NonEmptyText(t.text))
  {
    if s.openTextId.Some? {
      CollectOne(g, TextEnd(s.openTextId.value));
    }
  }

  // ---------------------------------------------------------------- tool calls match

  function CallsOf(content: seq<Content>): seq<Content> {
    if content == [] then []
    else CallsOf(Front(content)) + (if Last(content).Call? then [Last(content)] else [])
  }

  function CallParts(parts: seq<Part>): seq<Content> {
    if parts == [] then []
    else
      CallParts(Front(parts))
      + (if Last(parts).ToolCall? then [Call(Last(parts).id, Last(parts).toolName, Last(parts).input)] else [])
  }

  lemma {:induction false} CallPartsAppend(p: seq<Part>, q: seq<Part>)
    ensures CallParts(p + q) == CallParts(p) + CallParts(q)
    decreases |q|
  {
    if q == [] {
      assert p + q == p;
    } else {
      CallPartsAppend(p, Front(q));
      assert Front(p + q) == p + Front(q);
    }
  }

  lemma {:induction false} NoCallParts(parts: seq<Part>)
    requires forall p | p in parts :: !p.ToolCall?
    ensures CallParts(parts) == []
    decreases |parts|
  {
    if parts != [] {
      assert Last(parts) in parts;
      NoCallParts(Front(parts));
    }
  }

  lemma LastCallPart(parts: seq<Part>)
    requires parts != [] && Last(parts).ToolCall? && forall p | p in Front(parts) :: !p.ToolCall?
    ensures CallParts(parts) == [Call(Last(parts).id, Last(parts).toolName, Last(parts).input)]
  {
    NoCallParts(Front(parts));
  }

  lemma {:induction false} CallsOfAppend(c: seq<Content>, d: seq<Content>)
    ensures CallsOf(c + d) == CallsOf(c) + CallsOf(d)
    decreases |d|
  {
    if d == [] {
      assert c + d == c;
    } else {
      CallsOfAppend(c, Front(d));
      assert Front(c + d) == c + Front(d);
    }
  }

  lemma CallsOfOne(c: Content)
    ensures CallsOf([c]) == if c.Call? then [c] else []
  {
    assert Front([c]) == [];
  }

  lemma ArgsDoneCalls(h: seq<Event>)
    requires h != [] && Last(h).ArgsDone? && Legal(h) && Plain(h)
    requires Tracks(After(Front(h)), Items(Front(h)))
    requires forall k, id | CallAt(Items(Front(h)), k, id) :: InStep(After(Front(h)), Front(h), k, id)
    ensures CallParts(MapEvent(After(Front(h)), Last(h)).1) == Completion(h)
  {
    hide NumberedInt, Completion, CallInputs, Emitted;
    var s := After(Front(h));
    var items := Items(Front(h));
    var e := Last(h);
    LegalLast(h);
    var own := items[e.index].callId.value;
    assert CallAt(items, e.index, own) && CallAt(Items(h), e.index, own);
    assert InStep(s, Front(h), e.index, own);
    assert Settles(h, e.index, own);
    CompletionIs(h, e.index, own);
    LastCallPart(MapEvent(s, e).1);
  }

  lemma ItemDoneCalls(h: seq<Event>)
    requires h != [] && Last(h).ItemDone? && Legal(h) && Plain(h)
    requires Tracks(After(Front(h)), Items(Front(h)))
    requires forall k, id | CallAt(Items(Front(h)), k, id) :: InStep(After(Front(h)), Front(h), k, id)
    ensures CallParts(MapEvent(After(Front(h)), Last(h)).1) == Completion(h)
  {
    hide Completion, CallInputs, Emitted;
    var s := After(Front(h));
    var items := Items(Front(h));
    var e := Last(h);
    LegalLast(h);
    if e.done.Some? && IsCall(e.done.value) {
      var own := e.done.value.callId.value;
      var j :| j in items && IsCall(items[j]) && items[j].callId == e.done.value.callId;
      assert CallAt(items, j, own) && CallAt(Items(h), j, own);
      assert InStep(s, Front(h), j, own);
      if Settled(Front(h), j, own).None? {
        assert Settles(h, j, own);
        CompletionIs(h, j, own);
        LastCallPart(MapEvent(s, e).1);
      } else {
        SettledBefore(h, j, own);
      }
    } else {
      NothingSettled(h);
    }
  }

  lemma AddedCalls(h: seq<Event>)
    requires h != [] && Last(h).ItemAdded? && Legal(h)
    ensures CallParts(MapEvent(After(Front(h)), Last(h)).1) == Completion(h)
  {
    hide NumberedInt, Numbered, TextId, Completion;
    var e := Last(h);
    var parts := MapEvent(After(Front(h)), e).1;
    LegalLast(h);
    if IsCall(e.item) && Inline(e.item) {
      AddedCompletion(h, e.item.callId.value);
      LastCallPart(parts);
    } else {
      NoneAdded(h);
      NoCallParts(parts);
    }
  }

  /** The tool calls of the returned content are the `ToolCall` parts of the stream, with the
      same ids, names and arguments, in the same order. */
  lemma {:induction false} CallsMatch(h: seq<Event>)
    requires Legal(h) && AllPlain(h)
    ensures CallParts(Emitted(h)) == CallsOf(Gathering(h).content)
    decreases |h|
  {
    hide MapEvent, Legal, Plain, Completion, InStep, Tracks, Settled, CallParts, CallsOf;
    if h == [] {
      NoCallParts([]);
      NoCallsOf();
    } else {
      LegalPlainFront(h);
      CallsMatch(Front(h));
      Invariant(Front(h));
      var s := After(Front(h));
      var e := Last(h);
      var parts := MapEvent(s, e).1;
      var t := Gathering(Front(h));
      CallPartsAppend(Emitted(Front(h)), parts);
      CallsOfAppend(t.content, Completion(h));
      CompletionIsCalls(h);
      NoFailure(h);
      assert t.content + [] == t.content;
      match e
      case Failed(_) => assert false;
      case Error(_) => assert false;
      case ItemAdded(_, _) => AddedCalls(h);
      case ArgsDone(_, _, _) => ArgsDoneCalls(h);
      case ItemDone(_) => ItemDoneCalls(h);
      case _ =>
        NoCompletion(h);
        NoCallEvent(s, e);
        NoCallParts(parts);
        TextsAreNoCalls(t);
        CallsOfAppend(t.content, NonEmptyText(t.text));
        CallsOfAppend(t.content, NonEmptyReasoning(t.reasoning));
    }
  }

  lemma NoCallsOf()
    ensures CallsOf([]) == []
  {
  }

  lemma NoCallEvent(s: State, e: Event)
    requires !e.ItemAdded? && !e.ArgsDone? && !e.ItemDone?
    ensures forall p | p in MapEvent(s, e).1 :: !p.ToolCall?
  {
  }

  lemma TextsAreNoCalls(t: Told)
    ensures CallsOf(NonEmptyText(t.text)) == [] && CallsOf(NonEmptyReasoning(t.reasoning)) == []
  {
    if t.text.Some? {
      CallsOfOne(Text(t.text.value));
    }
    if t.reasoning.Some? {
      CallsOfOne(Reasoning(t.reasoning.value));
    }
  }

  lemma CompletionIsCalls(h: seq<Event>)
    ensures CallsOf(Completion(h)) == Completion(h)
  {
    if exists k, id :: Settles(h, k, id) {
      var k, id :| Settles(h, k, id) && Completion(h) == [Call(id, Or(Items(h)[k].name, "unknown"), Settled(h, k, id).value)];
      CallsOfOne(Completion(h)[0]);
    }
  }

  lemma CollectedCallsMatch(h: seq<Event>)
    requires Complete(h)
    ensures Generated(Output(h)).Returned?
    ensures CallsOf(Generated(Output(h)).content) == CallParts(Output(h))
  {
    hide CallParts, CallsOf, Emitted, Gathering, Ending, Generated;
    CollectedIsGathered(h);
    CompleteParts(h);
    CompleteEnding(h);
    LegalOf(h);
    CallsMatch(h);
    TextsAreNoCalls(Gathering(h));
    CallsOfAppend(Gathering(h).content, NonEmptyText(Gathering(h).text));
    NoCallParts(Ending(After(h)));
    CallPartsAppend(Emitted(h), Ending(After(h)));
  }

  lemma LegalOf(h: seq<Event>)
    requires Complete(h)
    ensures Legal(h)
  {
  }
}
