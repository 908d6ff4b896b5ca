/** Where the parts of a tool call take their name, arguments and item id from, for every event
    sequence with natural output indices. */
module CallParts {
  import opened Common
  import opened ResponseStream
  import B = Bracketing
  import T = ToolCalls

  function NameOr(name: Option<string>): string {
    match name case Some(n) => n case None => "unknown"
  }

  function NonEmpty(id: Option<string>): Option<string> {
    match id case Some(text) => (if text == "" then None else id) case None => None
  }

  /** An item without an id of its own is called after its index. */
  function OwnId(index: nat, item: Item): Option<string> {
    match item.id case Some(text) => (if text == "" then None else item.id) case None => Some("item_" + Decimal(index))
  }

  // ---------------------------------------------------------------- announcements

  /** A function call with arguments comes out whole at once; the arguments `{}` count as none, and
      then it is only announced. A call without an id is given a counted one. */
  lemma CallAnnounced(s: State, index: int, item: Item)
    requires item.kind == "function_call"
    ensures
      var id := if item.callId.Some? then item.callId.value else "tool_" + Decimal(s.toolIds);
      var (s', parts) := MapEvent(s, ItemAdded(index, item));
      && (item.arguments.Some? && item.arguments.value != "" && item.arguments.value != "{}" ==>
            parts == [ToolInputStart(id, NameOr(item.name)), ToolInputDelta(id, item.arguments.value),
                      ToolInputEnd(id), ToolCall(id, NameOr(item.name), item.arguments.value, NonEmpty(item.id))])
      && (item.arguments in {None, Some(""), Some("{}")} ==> parts == [ToolInputStart(id, NameOr(item.name))])
      && s'.toolIds == s.toolIds + (if item.callId.Some? then 0 else 1)
  {
  }

  // ---------------------------------------------------------------- tool-call parts

  /** The event, after `before`, calls for the part. */
  predicate CalledFor(before: seq<Event>, e: Event, p: Part)
    requires p.ToolCall?
  {
    match e
    case ItemAdded(_, item) =>
      && item.kind == "function_call" && (item.callId.Some? ==> p.id == item.callId.value)
      && item.arguments == Some(p.input) && p.input != "" && p.input != "{}"
      && p.toolName == NameOr(item.name) && p.itemId == NonEmpty(item.id)
    case ArgsDone(index, callId, arguments) =>
      if index >= 0 && index in T.Items(before) then
        var item := T.Items(before)[index];
        && (item.callId.Some? ==> p.id == item.callId.value)
        && (item.callId.None? && callId.Some? ==> p.id == callId.value)
        && (arguments.Some? ==> p.input == arguments.value)
        && p.toolName == NameOr(item.name) && p.itemId == OwnId(index, item)
      else
        && (callId.Some? ==> p.id == callId.value) && (arguments.Some? ==> p.input == arguments.value)
        && p.toolName == "unknown" && p.itemId.None?
    case ItemDone(Some(item)) =>
      && item.kind == "function_call" && item.callId == Some(p.id) && p.id != ""
      && p.input == (if item.arguments.Some? then item.arguments.value else "{}")
      && p.toolName == NameOr(item.name) && p.itemId == NonEmpty(item.id)
    case _ => false
  }

  /** The end of the stream calls for the part. */
  predicate CalledForAtEnd(h: seq<Event>, k: int, p: Part)
    requires p.ToolCall?
  {
    && k >= 0 && k in T.Items(h) && T.Items(h)[k].kind == "function_call"
    && T.Items(h)[k].callId == Some(p.id) && p.id != ""
    && p.toolName == NameOr(T.Items(h)[k].name) && p.itemId == OwnId(k, T.Items(h)[k])
  }

  ghost predicate Justified(h: seq<Event>, p: Part)
    requires p.ToolCall?
  {
    || (exists i: nat :: i < |h| && CalledFor(h[..i], h[i], p))
    || (exists k: int :: CalledForAtEnd(h, k, p))
  }

  // ---------------------------------------------------------------- the items that are tracked

  ghost predicate Knows(s: State, items: map<int, Item>) {
    && (forall k: int | k >= 0 :: k in s.outputItems <==> k in items)
    && (forall k: int | k >= 0 && k in items ::
          s.outputItems[k] == Tracked(items[k].kind, Or(items[k].id, NumberedInt("item_", k)), items[k].name, items[k].callId))
  }

  lemma {:induction false} ItemsKnown(h: seq<Event>)
    requires forall e | e in h :: B.NaturalIndex(e)
    ensures Knows(After(h), T.Items(h))
    decreases |h|
  {
    if h != [] {
      assert Last(h) in h;
      ItemsKnown(Front(h));
      hide Knows;
      EventKnown(After(Front(h)), T.Items(Front(h)), Last(h));
    }
  }

  lemma EventKnown(s: State, items: map<int, Item>, e: Event)
    requires Knows(s, items) && B.NaturalIndex(e)
    ensures Knows(MapEvent(s, e).0, if e.ItemAdded? then items[e.index := e.item] else items)
  {
    hide Numbered, NumberedInt, Or;
  }

  lemma EventCalls(s: State, before: seq<Event>, e: Event, p: Part)
    requires Knows(s, T.Items(before)) && B.NaturalIndex(e)
    requires p.ToolCall? && p in MapEvent(s, e).1
    ensures CalledFor(before, e, p)
  {
    hide T.Items;
  }

  lemma {:induction false} EmittedCalls(h: seq<Event>, p: Part)
    requires forall e | e in h :: B.NaturalIndex(e)
    requires p.ToolCall? && p in Emitted(h)
    ensures exists i: nat :: i < |h| && CalledFor(h[..i], h[i], p)
    decreases |h|
  {
    hide MapEvent, CalledFor;
    var n := |h| - 1;
    ItemsKnown(Front(h));
    assert Last(h) in h;
    if p in MapEvent(After(Front(h)), Last(h)).1 {
      EventCalls(After(Front(h)), Front(h), Last(h), p);
      assert CalledFor(h[..n], h[n], p);
    } else {
      EmittedCalls(Front(h), p);
      var i: nat :| i < n && CalledFor(Front(h)[..i], Front(h)[i], p);
      assert Front(h)[..i] == h[..i];
    }
  }

  lemma {:induction false} FlushedCalls(h: seq<Event>, s: State, order: seq<int>, p: Part)
    requires Knows(s, T.Items(h)) && p.ToolCall? && p in FlushCalls(s, order).1
    requires forall k | k in order :: k >= 0
    ensures exists k: int :: CalledForAtEnd(h, k, p)
    decreases order
  {
    hide Knows, T.Items, CalledForAtEnd;
    var (s1, parts) := FlushOne(s, order[0]);
    assert order[0] in order && forall k | k in order[1..] :: k in order;
    assert FlushCalls(s, order).1 == parts + FlushCalls(s1, order[1..]).1;
    FlushKnows(s, T.Items(h), order[0]);
    if p in parts {
      OneFlushed(h, s, order[0], p);
    } else {
      FlushedCalls(h, s1, order[1..], p);
    }
  }

  lemma FlushKnows(s: State, items: map<int, Item>, index: int)
    requires Knows(s, items)
    ensures Knows(FlushOne(s, index).0, items)
  {
  }

  lemma OneFlushed(h: seq<Event>, s: State, index: int, p: Part)
    requires Knows(s, T.Items(h)) && index >= 0 && p.ToolCall? && p in FlushOne(s, index).1
    ensures CalledForAtEnd(h, index, p)
  {
    hide T.Items;
  }

  lemma {:induction false} OrderIsNatural(h: seq<Event>)
    requires forall e | e in h :: B.NaturalIndex(e)
    ensures forall k | k in After(h).toolArgs.order :: k >= 0
    decreases |h|
  {
    if h != [] {
      assert Last(h) in h;
      OrderIsNatural(Front(h));
      hide Numbered, NumberedInt, Or;
    }
  }

  /** Every tool-call part was called for: by an item added with arguments, by finished arguments, by a
      finished item, or by the end of the stream; and that is where its id, its name, its item
      id and, but for buffered arguments, its input come from. */
  lemma CallsAreJustified(h: seq<Event>, p: Part)
    requires forall e | e in h :: B.NaturalIndex(e)
    requires p.ToolCall? && p in Output(h)
    ensures Justified(h, p)
  {
    hide Emitted, FlushCalls, CalledFor, CalledForAtEnd;
    ItemsKnown(h);
    OrderIsNatural(h);
    var s := After(h);
    if p in Emitted(h) {
      EmittedCalls(h, p);
    } else {
      assert Knows(s.(openTextId := None), T.Items(h));
      FlushedCalls(h, s.(openTextId := None), s.toolArgs.order, p);
    }
  }
}
