/** Exactly when the collector returns the calls that the stream emits, for every legal stream
    without errors: complete or cut off, with arguments that agree with their deltas or not. */
module CollectedCalls {
  import opened Common
  import opened ResponseStream
  import opened ToolCalls
  import opened Collector
  import opened CollectedStream

  /** What has been sent as the input of the call at `k`: inline arguments, then deltas. */
  function Sent(h: seq<Event>, k: int): string {
    (if k in Items(h) && Inline(Items(h)[k]) then Items(h)[k].arguments.value else "") + Deltas(h, k)
  }

  function NameAt(items: map<int, Item>, k: int): string {
    if k in items then Or(items[k].name, "unknown") else "unknown"
  }

  /** A closing event that repeats what was sent: it is the call's first, its arguments are the
      concatenated deltas, and its name is that of the added item. */
  ghost predicate Repeats(h: seq<Event>)
    requires h != []
  {
    var before := Front(h);
    match Last(h)
    case ArgsDone(index, _, _) =>
      forall id | CallAt(Items(before), index, id) ::
        Settled(before, index, id).None? && Settled(h, index, id) == Some(Deltas(before, index))
    case ItemDone(done) =>
      forall k, id | CallAt(Items(before), k, id) && ClosesItem(Last(h), id) && Settled(before, k, id).None? ::
        && Or(done.value.arguments, "{}") == Deltas(before, k)
        && Or(done.value.name, "unknown") == NameAt(Items(before), k)
    case _ => true
  }

  ghost predicate AllRepeat(h: seq<Event>) {
    h == [] || (AllRepeat(Front(h)) && Repeats(h))
  }

  /** ... and no call that is cut off has empty deltas only. */
  ghost predicate CutOffWithText(h: seq<Event>) {
    forall k, id | CallAt(Items(h), k, id) && Settled(h, k, id).None? && SawDelta(h, k) :: Deltas(h, k) != ""
  }

  predicate ErrorFree(h: seq<Event>) {
    forall e | e in h :: !e.Failed? && !e.Error?
  }

  /** The collector's entries for the calls. */
  ghost predicate Held(g: Gathered, h: seq<Event>) {
    forall k, id | CallAt(Items(h), k, id) ::
      id in g.tools && g.tools[id] == Tool(NameAt(Items(h), k), Sent(h, k))
  }

  /** What one more piece of the stream adds on both sides: the collector at least as much. */
  predicate Adds(g: Gathered, parts: seq<Part>, more: seq<Content>) {
    && CallsOf(CollectAll(g, parts).content) == CallsOf(g.content) + more
    && |CallParts(parts)| <= |more|
  }

  /** The collector's content grows by the calls, and its texts stay. */
  predicate OnlyAppends(g: Gathered, g': Gathered, more: seq<Content>) {
    g'.content == g.content + more && g'.texts == g.texts && g'.reasonings == g.reasonings
  }

  lemma NothingCollected(g: Gathered)
    ensures CollectAll(g, []) == g && OnlyAppends(g, g, [])
  {
    assert g.content + [] == g.content;
  }

  lemma SameLength<T>(c: seq<T>, p: seq<T>, dc: seq<T>, dp: seq<T>)
    requires |p| <= |c| && |dp| <= |dc|
    ensures c + dc == p + dp <==> c == p && dc == dp
  {
    if c + dc == p + dp {
      assert |c| == |p|;
      assert c == (c + dc)[..|c|] == (p + dp)[..|p|] == p;
      assert dc == (c + dc)[|c|..] == (p + dp)[|p|..] == dp;
    }
  }

  // ---------------------------------------------------------------- parts without tools

  predicate NoTool(p: Part) {
    !p.ToolInputStart? && !p.ToolInputDelta? && !p.ToolInputEnd? && !p.ToolCall?
  }

  lemma NoToolCollected(g: Gathered, p: Part)
    requires NoTool(p)
    ensures Collect(g, p).tools == g.tools && CallsOf(Collect(g, p).content) == CallsOf(g.content)
  {
    hide CallsOf;
    var g' := Collect(g, p);
    if g'.content != g.content {
      var c := Last(g'.content);
      assert g'.content == g.content + [c] && !c.Call?;
      CallsOfAppend(g.content, [c]);
      CallsOfOne(c);
      assert CallsOf(g.content) + [] == CallsOf(g.content);
    }
  }

  lemma {:induction false} NoToolsCollected(g: Gathered, parts: seq<Part>)
    requires forall p | p in parts :: NoTool(p)
    ensures CollectAll(g, parts).tools == g.tools && Adds(g, parts, [])
    ensures CallParts(parts) == []
    decreases |parts|
  {
    hide Collect, CallsOf;
    if parts == [] {
      assert CallsOf(g.content) + [] == CallsOf(g.content);
    } else {
      assert Last(parts) in parts;
      NoToolsCollected(g, Front(parts));
      NoToolCollected(CollectAll(g, Front(parts)), Last(parts));
    }
  }

  lemma QuietParts(s: State, e: Event)
    requires !e.ArgsDelta? && !e.ArgsDone? && !e.ItemDone? && (e.ItemAdded? ==> !IsCall(e.item))
    ensures forall p | p in MapEvent(s, e).1 :: NoTool(p)
  {
    hide NumberedInt, Numbered;
  }

  // ---------------------------------------------------------------- what was sent

  lemma SentKept(h: seq<Event>, k: int)
    requires h != [] && !Last(h).ItemAdded? && !Last(h).ArgsDelta?
    ensures Items(h) == Items(Front(h)) && Sent(h, k) == Sent(Front(h), k)
  {
  }

  lemma HeldKept(h: seq<Event>, g: Gathered, g': Gathered)
    requires h != [] && !Last(h).ItemAdded? && !Last(h).ArgsDelta?
    requires Held(g, Front(h)) && g'.tools == g.tools
    ensures Held(g', h)
  {
    hide Sent, Items;
    forall k, id | CallAt(Items(h), k, id)
      ensures id in g'.tools && g'.tools[id] == Tool(NameAt(Items(h), k), Sent(h, k))
    {
      SentKept(h, k);
    }
  }

  /** A call that is not settled had no inline arguments. */
  lemma UnsettledSent(h: seq<Event>, k: int, id: string)
    requires Legal(h) && CallAt(Items(h), k, id) && Settled(h, k, id).None?
    ensures Sent(h, k) == Deltas(h, k)
  {
    NotInline(h, k, id);
    assert "" + Deltas(h, k) == Deltas(h, k);
  }

  lemma {:induction false} NotInline(h: seq<Event>, k: int, id: string)
    requires CallAt(Items(h), k, id) && Settled(h, k, id).None?
    ensures !Inline(Items(h)[k])
    decreases |h|
  {
    if !(Last(h).ItemAdded? && Last(h).index == k) {
      NotInline(Front(h), k, id);
    }
  }

  // ---------------------------------------------------------------- events with tools

  lemma CallAdded(h: seq<Event>, g: Gathered) returns (more: seq<Content>)
    requires h != [] && Last(h).ItemAdded? && IsCall(Last(h).item) && Legal(h)
    requires Tracks(After(Front(h)), Items(Front(h))) && Held(g, Front(h))
    ensures
      var parts := MapEvent(After(Front(h)), Last(h)).1;
      && Adds(g, parts, more) && more == CallParts(parts) && Held(CollectAll(g, parts), h)
      && OnlyAppends(g, CollectAll(g, parts), more)
  {
    hide Collect, CollectAll, Legal, CallsOf, CallParts, NumberedInt, Numbered, Held, Sent, Items, Tracks, Deltas, SawDelta, Settled;
    var s := After(Front(h));
    var e := Last(h);
    LegalLast(h);
    LegalFront(h);
    var own := e.item.callId.value;
    CollectAdded(s, g, e.index, e.item);
    NewCall(Items(Front(h)), e, own);
    NothingYet(Front(h), e.index, own);
    NoDeltas(Front(h), e.index);
    var parts := MapEvent(s, e).1;
    var g' := CollectAll(g, parts);
    if Inline(e.item) {
      more := [Call(own, Or(e.item.name, "unknown"), e.item.arguments.value)];
      LastCallPart(parts);
      CallsOfAppend(g.content, more);
      CallsOfOne(more[0]);
    } else {
      more := [];
      NoCallParts(parts);
      assert CallsOf(g.content) + [] == CallsOf(g.content);
    }
    AddedHeld(h, g, g');
  }

  lemma AddedHeld(h: seq<Event>, g: Gathered, g': Gathered)
    requires h != [] && Last(h).ItemAdded? && IsCall(Last(h).item) && Last(h).item.callId.Some?
    requires Last(h).index !in Items(Front(h)) && Deltas(Front(h), Last(h).index) == "" && Held(g, Front(h))
    requires forall j | j in Items(Front(h)) && IsCall(Items(Front(h))[j]) :: Items(Front(h))[j].callId != Last(h).item.callId
    requires
      var item := Last(h).item;
      g'.tools == g.tools[item.callId.value :=
        Tool(Or(item.name, "unknown"), if Inline(item) then item.arguments.value else "")]
    ensures Held(g', h)
  {
    hide Sent, Deltas;
    var e := Last(h);
    AddedSent(h);
    forall k, id | CallAt(Items(h), k, id)
      ensures id in g'.tools && g'.tools[id] == Tool(NameAt(Items(h), k), Sent(h, k))
    {
      if k != e.index {
        assert CallAt(Items(Front(h)), k, id);
      }
    }
  }

  lemma AddedSent(h: seq<Event>)
    requires h != [] && Last(h).ItemAdded? && Last(h).index !in Items(Front(h))
    ensures Sent(h, Last(h).index) ==
            (if Inline(Last(h).item) then Last(h).item.arguments.value else "") + Deltas(Front(h), Last(h).index)
    ensures forall k | k != Last(h).index :: Sent(h, k) == Sent(Front(h), k) && NameAt(Items(h), k) == NameAt(Items(Front(h)), k)
  {
  }

  lemma DeltaSent(h: seq<Event>, k: int)
    requires h != [] && Last(h).ArgsDelta?
    ensures Items(h) == Items(Front(h))
    ensures Sent(h, k) == Sent(Front(h), k) + (if Last(h).index == k then Last(h).delta else "")
  {
  }

  lemma DeltaCollected(h: seq<Event>, g: Gathered)
    requires h != [] && Last(h).ArgsDelta? && Legal(h)
    requires Tracks(After(Front(h)), Items(Front(h))) && Held(g, Front(h))
    ensures
      var parts := MapEvent(After(Front(h)), Last(h)).1;
      && Adds(g, parts, []) && CallParts(parts) == [] && Held(CollectAll(g, parts), h)
      && OnlyAppends(g, CollectAll(g, parts), [])
  {
    hide Legal, CallsOf, CallParts, NumberedInt, Sent;
    var s := After(Front(h));
    var items := Items(Front(h));
    var e := Last(h);
    LegalLast(h);
    var own := items[e.index].callId.value;
    assert CallAt(items, e.index, own);
    var part := ToolInputDelta(own, e.delta);
    CollectOne(g, part);
    NoCallParts([part]);
    assert CallsOf(g.content) + [] == CallsOf(g.content);
    var g' := Collect(g, part);
    forall k, id | CallAt(Items(h), k, id)
      ensures id in g'.tools && g'.tools[id] == Tool(NameAt(Items(h), k), Sent(h, k))
    {
      DeltaSent(h, k);
      OneIndex(s, items, k, id, e.index, own);
      assert Sent(Front(h), k) + "" == Sent(Front(h), k);
    }
  }

  /** The end of a call's input, with its tool-call part or, the second time, without. */
  lemma EndCollected(g: Gathered, id: string, parts: seq<Part>) returns (more: seq<Content>)
    requires id in g.tools
    requires parts == [ToolInputEnd(id)] || (|parts| == 2 && parts[0] == ToolInputEnd(id) && parts[1].ToolCall?)
    ensures Adds(g, parts, more) && CollectAll(g, parts).tools == g.tools && OnlyAppends(g, CollectAll(g, parts), more)
    ensures more == [Call(id, g.tools[id].toolName, g.tools[id].input)]
    ensures CallParts(parts) == if |parts| == 1 then [] else [Call(parts[1].id, parts[1].toolName, parts[1].input)]
  {
    hide CallsOf, CallParts;
    more := [Call(id, g.tools[id].toolName, g.tools[id].input)];
    CallsOfAppend(g.content, more);
    CallsOfOne(more[0]);
    if |parts| == 1 {
      CollectOne(g, parts[0]);
      NoCallParts(parts);
    } else {
      assert parts == [ToolInputEnd(id), parts[1]];
      ClosingParts(g, id, parts[1]);
      LastCallPart(parts);
    }
  }

  lemma ArgsDoneCollected(h: seq<Event>, g: Gathered) returns (more: seq<Content>)
    requires h != [] && Last(h).ArgsDone? && Legal(h)
    requires Tracks(After(Front(h)), Items(Front(h))) && Held(g, Front(h))
    requires forall k, id | CallAt(Items(Front(h)), k, id) :: InStep(After(Front(h)), Front(h), k, id)
    ensures
      var parts := MapEvent(After(Front(h)), Last(h)).1;
      && Adds(g, parts, more) && (more == CallParts(parts) <==> Repeats(h)) && Held(CollectAll(g, parts), h)
      && OnlyAppends(g, CollectAll(g, parts), more)
  {
    hide Legal, CallsOf, CallParts, CollectAll, Sent, NumberedInt, CallInputs, Emitted;
    var s := After(Front(h));
    var items := Items(Front(h));
    var e := Last(h);
    LegalLast(h);
    LegalFront(h);
    var own := items[e.index].callId.value;
    assert CallAt(items, e.index, own) && InStep(s, Front(h), e.index, own);
    var parts := MapEvent(s, e).1;
    more := EndCollected(g, own, parts);
    HeldKept(h, g, CollectAll(g, parts));
    if Settled(Front(h), e.index, own).None? {
      UnsettledSent(Front(h), e.index, own);
    }
    assert Repeats(h) <==> Settled(Front(h), e.index, own).None? && Settled(h, e.index, own) == Some(Deltas(Front(h), e.index));
  }

  lemma ItemDoneCollected(h: seq<Event>, g: Gathered) returns (more: seq<Content>)
    requires h != [] && Last(h).ItemDone? && Legal(h)
    requires Tracks(After(Front(h)), Items(Front(h))) && Held(g, Front(h))
    requires forall k, id | CallAt(Items(Front(h)), k, id) :: InStep(After(Front(h)), Front(h), k, id)
    ensures
      var parts := MapEvent(After(Front(h)), Last(h)).1;
      && Adds(g, parts, more) && (more == CallParts(parts) <==> Repeats(h)) && Held(CollectAll(g, parts), h)
      && OnlyAppends(g, CollectAll(g, parts), more)
  {
    hide Legal, CallsOf, CallParts, CollectAll, Sent, CallInputs, Emitted;
    var s := After(Front(h));
    var items := Items(Front(h));
    var e := Last(h);
    LegalLast(h);
    LegalFront(h);
    var parts := MapEvent(s, e).1;
    if e.done.Some? && IsCall(e.done.value) && Truthy(e.done.value.callId) {
      var own := e.done.value.callId.value;
      var j :| j in items && IsCall(items[j]) && items[j].callId == e.done.value.callId;
      assert CallAt(items, j, own) && InStep(s, Front(h), j, own);
      OnlyCloses(s, items, e, j, own);
      if Settled(Front(h), j, own).None? {
        more := EndCollected(g, own, parts);
        UnsettledSent(Front(h), j, own);
        HeldKept(h, g, CollectAll(g, parts));
        return;
      }
    }
    assert parts == [];
    NoToolsCollected(g, parts);
    NothingCollected(g);
    more := [];
    HeldKept(h, g, CollectAll(g, parts));
  }

  lemma OnlyCloses(s: State, items: map<int, Item>, e: Event, j: int, own: string)
    requires Tracks(s, items) && CallAt(items, j, own) && ClosesItem(e, own)
    ensures forall k, id | CallAt(items, k, id) && ClosesItem(e, id) :: k == j && id == own
  {
  }

  // ---------------------------------------------------------------- induction

  /** One event: the collector adds at least as many calls as the stream, and the same ones
      exactly when the event repeats what was sent. */
  lemma EventCollected(h: seq<Event>, g: Gathered) returns (more: seq<Content>)
    requires h != [] && Legal(h) && Held(g, Front(h))
    ensures
      var parts := MapEvent(After(Front(h)), Last(h)).1;
      Adds(g, parts, more) && (more == CallParts(parts) <==> Repeats(h)) && Held(CollectAll(g, parts), h)
  {
    hide Held, Adds, CallParts, MapEvent, CollectAll, Legal, InStep, Tracks;
    LegalFront(h);
    Invariant(Front(h));
    match Last(h)
    case ItemAdded(index, item) =>
      if IsCall(item) {
        more := CallAdded(h, g);
      } else {
        QuietParts(After(Front(h)), Last(h));
        NoToolsCollected(g, MapEvent(After(Front(h)), Last(h)).1);
        OtherItemHeld(h, g, CollectAll(g, MapEvent(After(Front(h)), Last(h)).1));
        more := [];
      }
    case ArgsDelta(_, _, _) =>
      DeltaCollected(h, g);
      more := [];
    case ArgsDone(_, _, _) => more := ArgsDoneCollected(h, g);
    case ItemDone(_) => more := ItemDoneCollected(h, g);
    case _ =>
      QuietParts(After(Front(h)), Last(h));
      NoToolsCollected(g, MapEvent(After(Front(h)), Last(h)).1);
      HeldKept(h, g, CollectAll(g, MapEvent(After(Front(h)), Last(h)).1));
      more := [];
  }

  lemma OtherItemHeld(h: seq<Event>, g: Gathered, g': Gathered)
    requires h != [] && Last(h).ItemAdded? && !IsCall(Last(h).item) && Legal(h)
    requires Held(g, Front(h)) && g'.tools == g.tools
    ensures Held(g', h)
  {
    hide Sent;
    LegalLast(h);
    AddedSent(h);
    forall k, id | CallAt(Items(h), k, id)
      ensures id in g'.tools && g'.tools[id] == Tool(NameAt(Items(h), k), Sent(h, k))
    {
      assert k != Last(h).index && CallAt(Items(Front(h)), k, id);
    }
  }

  lemma {:induction false} EmittedCollected(h: seq<Event>)
    requires Legal(h)
    ensures
      var g := CollectAll(EMPTY, Emitted(h));
      && Held(g, h) && |CallParts(Emitted(h))| <= |CallsOf(g.content)|
      && (CallsOf(g.content) == CallParts(Emitted(h)) <==> AllRepeat(h))
    decreases |h|
  {
    hide Held, Repeats, MapEvent, CallsOf, CallParts, Legal;
    if h == [] {
      NothingHeld();
    } else {
      LegalFront(h);
      EmittedCollected(Front(h));
      var g := CollectAll(EMPTY, Emitted(Front(h)));
      var parts := MapEvent(After(Front(h)), Last(h)).1;
      var more := EventCollected(h, g);
      CollectAppend(EMPTY, Emitted(Front(h)), parts);
      CallPartsAppend(Emitted(Front(h)), parts);
      hide CollectAll;
      SameLength(CallsOf(g.content), CallParts(Emitted(Front(h))), more, CallParts(parts));
    }
  }

  lemma NothingHeld()
    ensures Held(EMPTY, []) && CallsOf([]) == [] && CallParts([]) == []
  {
  }

  // ---------------------------------------------------------------- the end

  /** The collector's entry for a call that is still in the buffer. */
  ghost predicate Buffered(g: Gathered, s: State, items: map<int, Item>, k: int) {
    k in s.toolArgs.args && k in items && IsCall(items[k]) && Truthy(items[k].callId) &&
    var id := items[k].callId.value;
    id !in s.emitted ==> id in g.tools && g.tools[id] == Tool(NameAt(items, k), s.toolArgs.args[k])
  }

  ghost predicate Pays(s: State, items: map<int, Item>, k: int) {
    k in s.toolArgs.args && k in items && items[k].callId.Some? && items[k].callId.value !in s.emitted
    ==> s.toolArgs.args[k] != ""
  }

  lemma FlushOneCollected(s: State, items: map<int, Item>, g: Gathered, k: int) returns (more: seq<Content>)
    requires Tracks(s, items) && k in s.toolArgs.args && Buffered(g, s, items, k)
    ensures
      var parts := FlushOne(s, k).1;
      && Adds(g, parts, more) && CollectAll(g, parts).tools == g.tools && OnlyAppends(g, CollectAll(g, parts), more)
      && (more == CallParts(parts) <==> Pays(s, items, k))
  {
    hide CallsOf, CallParts, CollectAll;
    var id := items[k].callId.value;
    var parts := FlushOne(s, k).1;
    if id in s.emitted {
      assert parts == [];
      NoToolsCollected(g, parts);
      NothingCollected(g);
      more := [];
    } else {
      more := EndCollected(g, id, parts);
    }
  }

  lemma OtherEntry(s: State, items: map<int, Item>, g: Gathered, k: int, j: int)
    requires Tracks(s, items) && k in s.toolArgs.args && j in s.toolArgs.args && j != k
    requires Buffered(g, s, items, j)
    ensures Buffered(g, FlushOne(s, k).0, items, j)
    ensures Pays(FlushOne(s, k).0, items, j) <==> Pays(s, items, j)
  {
    assert items[j].callId != items[k].callId;
  }

  lemma {:induction false} FlushCollected(s: State, items: map<int, Item>, order: seq<int>, g: Gathered)
    returns (more: seq<Content>)
    requires Tracks(s, items) && Distinct(order)
    requires forall k | k in order :: k in s.toolArgs.args && Buffered(g, s, items, k)
    ensures
      var parts := FlushCalls(s, order).1;
      && Adds(g, parts, more) && OnlyAppends(g, CollectAll(g, parts), more)
      && (more == CallParts(parts) <==> forall k | k in order :: Pays(s, items, k))
    decreases order
  {
    hide Tracks, CallsOf, CallParts, CollectAll, Buffered, Pays, FlushOne, Distinct;
    if order == [] {
      more := [];
      NoToolsCollected(g, []);
      NothingCollected(g);
    } else {
      var k := order[0];
      var (s1, parts) := FlushOne(s, k);
      var rest := FlushCalls(s1, order[1..]).1;
      var first := FlushOneCollected(s, items, g, k);
      FlushOneTracks(s, items, k);
      assert order == [k] + order[1..];
      DistinctTail(order);
      var g1 := CollectAll(g, parts);
      forall j | j in order[1..] ensures j in s1.toolArgs.args && Buffered(g1, s1, items, j)
                                 ensures Pays(s1, items, j) <==> Pays(s, items, j) {
        OtherEntry(s, items, g, k, j);
        SameTools(g, g1, s1, items, j);
      }
      var others := FlushCollected(s1, items, order[1..], g1);
      CollectAppend(g, parts, rest);
      CallPartsAppend(parts, rest);
      more := first + others;
      SameLength(first, CallParts(parts), others, CallParts(rest));
      assert CallsOf(g.content) + (first + others) == (CallsOf(g.content) + first) + others;
      assert g.content + (first + others) == (g.content + first) + others;
    }
  }

  lemma SameTools(g: Gathered, g1: Gathered, s: State, items: map<int, Item>, j: int)
    requires g1.tools == g.tools && j in s.toolArgs.args && Buffered(g, s, items, j)
    ensures Buffered(g1, s, items, j)
  {
  }

  lemma BufferedAtEnd(h: seq<Event>, g: Gathered, s: State)
    requires Legal(h) && Tracks(After(h), Items(h)) && Held(g, h) && s == After(h).(openTextId := None)
    requires forall k, id | CallAt(Items(h), k, id) :: InStep(After(h), h, k, id)
    ensures forall k | k in s.toolArgs.order :: k in s.toolArgs.args && Buffered(g, s, Items(h), k)
    ensures (forall k | k in s.toolArgs.order :: Pays(s, Items(h), k)) <==> CutOffWithText(h)
  {
    hide Legal, Settled, SawDelta, Deltas, Items, Emitted, CallInputs, Sent;
    FlushStart(After(h), Items(h));
    forall k | k in s.toolArgs.order
      ensures k in s.toolArgs.args && Buffered(g, s, Items(h), k)
      ensures var id := Items(h)[k].callId.value;
              CallAt(Items(h), k, id) && (Pays(s, Items(h), k) <==> (Settled(h, k, id).None? ==> Deltas(h, k) != ""))
    {
      var id := Items(h)[k].callId.value;
      assert CallAt(Items(h), k, id) && InStep(After(h), h, k, id);
      if Settled(h, k, id).None? {
        UnsettledSent(h, k, id);
      }
    }
    forall k, id | CallAt(Items(h), k, id) && Settled(h, k, id).None? && SawDelta(h, k) ensures k in s.toolArgs.order {
      assert InStep(After(h), h, k, id);
    }
  }

  lemma {:induction false} NoErrorEmitted(h: seq<Event>)
    requires ErrorFree(h)
    ensures forall p | p in Emitted(h) :: !p.ErrorPart?
    decreases |h|
  {
    hide MapEvent;
    if h != [] {
      assert Last(h) in h;
      NoErrorEmitted(Front(h));
      NoErrorEvent(After(Front(h)), Last(h));
    }
  }

  lemma {:induction false} NoErrorFlushed(s: State, order: seq<int>)
    ensures forall p | p in FlushCalls(s, order).1 :: !p.ErrorPart?
    decreases order
  {
    if order != [] {
      NoErrorFlushed(FlushOne(s, order[0]).0, order[1..]);
    }
  }

  /** For every legal stream without errors, complete or cut off: the calls that the collector
      returns are the `ToolCall` parts of the stream, in the same order, exactly when every
      closing event repeats what was sent and no call is cut off with empty deltas only. */
  lemma CollectedCallsExact(h: seq<Event>)
    requires Legal(h) && ErrorFree(h)
    ensures Generated(Output(h)).Returned?
    ensures CallsOf(Generated(Output(h)).content) == CallParts(Output(h)) <==> AllRepeat(h) && CutOffWithText(h)
  {
    hide Held, CallsOf, CallParts, CollectAll, Emitted, Legal, Tracks, InStep, FlushCalls, FirstError, Buffered, Pays,
         AllRepeat, CutOffWithText, After;
    Invariant(h);
    EmittedCollected(h);
    var s := After(h);
    var closed := s.(openTextId := None);
    var g := CollectAll(EMPTY, Emitted(h));
    var (s1, calls) := FlushCalls(closed, s.toolArgs.order);
    var finish := [Finish(Reason(s1), s1.usage, IfTruthy(s1.responseId))];
    var front := Emitted(h) + CloseText(s);
    NoErrorEmitted(h);
    NoErrorFlushed(closed, s.toolArgs.order);
    NoErrorFound(Output(h));
    NoToolsCollected(g, CloseText(s));
    var g1 := CollectAll(g, CloseText(s));
    SameHeld(g, g1, h);
    BufferedAtEnd(h, g1, closed);
    FlushStart(s, Items(h));
    var more := FlushCollected(closed, Items(h), s.toolArgs.order, g1);
    var g2 := CollectAll(g1, calls);
    NoToolsCollected(g2, finish);
    assert Output(h) == ((Emitted(h) + CloseText(s)) + calls) + finish;
    CollectAppend(EMPTY, Emitted(h), CloseText(s));
    CollectAppend(EMPTY, front, calls);
    CollectAppend(EMPTY, front + calls, finish);
    CallPartsAppend(Emitted(h), CloseText(s));
    CallPartsAppend(front, calls);
    CallPartsAppend(front + calls, finish);
    SameLength(CallsOf(g.content), CallParts(Emitted(h)), more, CallParts(calls));
    assert CallsOf(g.content) + [] == CallsOf(g.content);
    assert (CallParts(Emitted(h)) + []) + CallParts(calls) + [] == CallParts(Emitted(h)) + CallParts(calls);
    assert (CallsOf(g.content) + more) + [] == CallsOf(g.content) + more;
  }

  lemma SameHeld(g: Gathered, g1: Gathered, h: seq<Event>)
    requires Held(g, h) && g1.tools == g.tools
    ensures Held(g1, h)
  {
  }

  /** Arguments that come only with the closing event are streamed and not collected. */
  lemma FinalArgumentsAreLost(call: Item)
    requires IsCall(call) && call.callId == Some("c") && call.arguments.None?
    ensures
      var h := [ItemAdded(0, call), ArgsDone(0, None, Some("a"))];
      && Legal(h) && ErrorFree(h) && Generated(Output(h)).Returned?
      && CallsOf(Generated(Output(h)).content) != CallParts(Output(h))
  {
    hide Generated, Output, CallsOf, CallParts;
    var h := [ItemAdded(0, call), ArgsDone(0, None, Some("a"))];
    var h1 := Front(h);
    assert h1 == [ItemAdded(0, call)] && Front(h1) == [];
    assert Items(h1) == map[0 := call];
    assert Legal(Front(h1)) && Legal(h1) && Legal(h);
    assert CallAt(Items(h1), 0, "c") && Settled(h1, 0, "c").None?;
    assert Settled(h, 0, "c") == Some("a") && Deltas(h1, 0) == "";
    assert !Repeats(h);
    CollectedCallsExact(h);
  }
}
