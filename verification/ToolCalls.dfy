/** Tool calls on legal streams, complete or cut off anywhere: exactly one `ToolCall` part
    for each function call the stream said anything about. */
module ToolCalls {
  import opened Common
  import opened ResponseStream

  // ---------------------------------------------------------------- what a stream says

  /** The items added so far, by output index. */
  function Items(h: seq<Event>): map<int, Item> {
    if h == [] then map[]
    else
      var items := Items(Front(h));
      if Last(h).ItemAdded? then items[Last(h).index := Last(h).item] else items
  }

  predicate IsCall(item: Item) {
    item.kind == "function_call"
  }

  ghost predicate LegalNext(items: map<int, Item>, e: Event) {
    match e
    case ItemAdded(index, item) =>
      && index >= 0 && index !in items
      && (IsCall(item) ==>
            && Truthy(item.callId)
            && (forall k | k in items && IsCall(items[k]) :: items[k].callId != item.callId))
    case ArgsDelta(index, _, _) => index in items && IsCall(items[index])
    case ArgsDone(index, _, _) => index in items && IsCall(items[index])
    case ItemDone(done) =>
      done.Some? && IsCall(done.value) && Truthy(done.value.callId) ==>
        exists k :: k in items && IsCall(items[k]) && items[k].callId == done.value.callId
    case _ => true
  }

  /** Each item is added once, under its own index and with its own call id, before its
      other events. Every prefix of a legal stream is legal. */
  ghost predicate Legal(h: seq<Event>) {
    h == [] || (Legal(Front(h)) && LegalNext(Items(Front(h)), Last(h)))
  }

  /** Whether argument deltas have come for the call at `k`, and their concatenation. */
  predicate SawDelta(h: seq<Event>, k: int) {
    h != [] && ((Last(h).ArgsDelta? && Last(h).index == k) || SawDelta(Front(h), k))
  }

  function Deltas(h: seq<Event>, k: int): string {
    if h == [] then ""
    else if Last(h).ArgsDelta? && Last(h).index == k then Deltas(Front(h), k) + Last(h).delta
    else Deltas(Front(h), k)
  }

  predicate ClosesItem(e: Event, id: string) {
    e.ItemDone? && e.done.Some? && IsCall(e.done.value) && e.done.value.callId == Some(id) && id != ""
  }

  lemma {:induction false} NoDeltas(h: seq<Event>, k: int)
    requires !SawDelta(h, k)
    ensures Deltas(h, k) == ""
    decreases |h|
  {
    if h != [] {
      NoDeltas(Front(h), k);
    }
  }

  /** The arguments with which the call `id` at `k` was settled by its first closing event:
      inline arguments, `arguments.done` or `output_item.done`. */
  function Settled(h: seq<Event>, k: int, id: string): Option<string> {
    if h == [] then None
    else
      var before := Front(h);
      var e := Last(h);
      if Settled(before, k, id).Some? then Settled(before, k, id)
      else if e.ItemAdded? && e.index == k && Inline(e.item) then e.item.arguments
      else if e.ArgsDone? && e.index == k then
        Some(Or(e.arguments, if SawDelta(before, k) then Deltas(before, k) else "{}"))
      else if ClosesItem(e, id) then Some(Or(e.done.value.arguments, "{}"))
      else None
  }

  /** The inputs of the tool-call parts a stream owes to the call `id` at `k` once it ends. */
  function Owed(h: seq<Event>, k: int, id: string): seq<string> {
    if Settled(h, k, id).Some? then [Settled(h, k, id).value]
    else if SawDelta(h, k) then [if Deltas(h, k) != "" then Deltas(h, k) else "{}"]
    else []
  }

  // ---------------------------------------------------------------- what comes out

  function CallInputs(parts: seq<Part>, id: string): seq<string> {
    if parts == [] then []
    else
      CallInputs(Front(parts), id)
      + (if Last(parts).ToolCall? && Last(parts).id == id then [Last(parts).input] else [])
  }

  lemma {:induction false} CallInputsAppend(p: seq<Part>, q: seq<Part>, id: string)
    ensures CallInputs(p + q, id) == CallInputs(p, id) + CallInputs(q, id)
    decreases |q|
  {
    if q == [] {
      assert p + q == p;
    } else {
      CallInputsAppend(p, Front(q), id);
      assert Front(p + q) == p + Front(q);
    }
  }

  lemma {:induction false} NoCallInputs(parts: seq<Part>, id: string)
    requires forall p | p in parts :: !(p.ToolCall? && p.id == id)
    ensures CallInputs(parts, id) == []
    decreases |parts|
  {
    if parts != [] {
      assert Last(parts) in parts;
      NoCallInputs(Front(parts), id);
    }
  }

  /** The parts of a single event: at most one tool call, at the end. */
  lemma CallAtEnd(parts: seq<Part>, id: string)
    requires parts != [] && forall p | p in Front(parts) :: !p.ToolCall?
    ensures CallInputs(parts, id) == if Last(parts).ToolCall? && Last(parts).id == id then [Last(parts).input] else []
  {
    NoCallInputs(Front(parts), id);
  }

  // ---------------------------------------------------------------- the invariant

  /** The call at `k`, as the items and the state know it. */
  predicate CallAt(items: map<int, Item>, k: int, id: string) {
    k in items && IsCall(items[k]) && items[k].callId == Some(id)
  }

  ghost predicate Tracks(s: State, items: map<int, Item>) {
    && (forall k | k in items :: k >= 0 && k in s.outputItems
          && s.outputItems[k].kind == items[k].kind && s.outputItems[k].callId == items[k].callId
          && s.outputItems[k].name == items[k].name)
    && (forall k | k in s.outputItems && k >= 0 :: k in items)
    && (forall k | k in items && IsCall(items[k]) :: Truthy(items[k].callId))
    && (forall j, k | j in items && k in items && j != k && IsCall(items[j]) && IsCall(items[k]) ::
          items[j].callId != items[k].callId)
    && (forall k | k in s.toolArgs.args :: k in items && IsCall(items[k]))
    && (forall c | c in s.emitted :: exists k :: CallAt(items, k, c))
    && s.toolArgs.Valid()
  }

  /** Per call: emitted once it is settled, and until then its deltas are in the buffer. */
  ghost predicate InStep(s: State, h: seq<Event>, k: int, id: string) {
    && (id in s.emitted <==> Settled(h, k, id).Some?)
    && (Settled(h, k, id).None? ==>
          && (k in s.toolArgs.args <==> SawDelta(h, k))
          && (k in s.toolArgs.args ==> s.toolArgs.args[k] == Deltas(h, k)))
    && CallInputs(Emitted(h), id) == if Settled(h, k, id).Some? then [Settled(h, k, id).value] else []
  }

  lemma TracksNext(s: State, items: map<int, Item>, e: Event)
    requires Tracks(s, items) && LegalNext(items, e)
    ensures Tracks(MapEvent(s, e).0, if e.ItemAdded? then items[e.index := e.item] else items)
  {
    hide NumberedInt, Numbered, TextId, ReasoningId, WithUsage, WithResponse, AddItem, FinishArgs, FinishItem;
    match e
    case ItemAdded(index, item) => TracksAdded(s, items, index, item);
    case ArgsDone(index, callId, arguments) => TracksArgsDone(s, items, index, callId, arguments);
    case ItemDone(done) => TracksItemDone(s, items, done);
    case Incomplete(response) => ResponseKeeps(s, response);
    case Completed(response) => ResponseKeeps(s, response);
    case Progress(response) => ResponseKeeps(s, response);
    case _ =>
  }

  lemma TracksItemDone(s: State, items: map<int, Item>, done: Option<Item>)
    requires Tracks(s, items) && LegalNext(items, ItemDone(done))
    ensures Tracks(FinishItem(s, done).0, items)
  {
    if done.Some? && IsCall(done.value) && Truthy(done.value.callId) {
      var k :| k in items && IsCall(items[k]) && items[k].callId == done.value.callId;
      assert CallAt(items, k, done.value.callId.value);
    }
  }

  lemma ResponseKeeps(s: State, response: Option<Response>)
    ensures WithResponse(s, response).(responseId := s.responseId) == s
    ensures WithUsage(s, response).(responseId := s.responseId, usage := s.usage) == s
  {
  }

  lemma TracksAdded(s: State, items: map<int, Item>, index: int, item: Item)
    requires Tracks(s, items) && LegalNext(items, ItemAdded(index, item))
    ensures Tracks(AddItem(s, index, item).0, items[index := item])
  {
    hide NumberedInt, Numbered, TextId;
    var s' := AddItem(s, index, item).0;
    var items' := items[index := item];
    forall c | c in s'.emitted ensures exists k :: CallAt(items', k, c) {
      if c in s.emitted {
        var k :| CallAt(items, k, c);
        assert CallAt(items', k, c);
      } else {
        assert CallAt(items', index, c);
      }
    }
  }

  lemma TracksArgsDone(s: State, items: map<int, Item>, index: int, callId: Option<string>, arguments: Option<string>)
    requires Tracks(s, items) && index in items && IsCall(items[index])
    ensures Tracks(FinishArgs(s, index, callId, arguments).0, items)
  {
    hide NumberedInt;
    var s' := FinishArgs(s, index, callId, arguments).0;
    DeleteValid(s.toolArgs, index);
    assert CallAt(items, index, items[index].callId.value);
    assert s'.outputItems == s.outputItems;
    assert s'.toolArgs == s.toolArgs.Delete(index);
    forall c | c in s'.emitted ensures exists k :: CallAt(items, k, c) {
      if c !in s.emitted {
        assert c == items[index].callId.value;
      }
    }
  }

  lemma DeleteValid(a: ArgBuffer, k: int)
    requires a.Valid()
    ensures a.Delete(k).Valid()
  {
    WithoutKeeps(a.order, k);
    var d := a.Delete(k);
    forall x ensures x in d.order <==> x in d.args {
      assert x in a.order <==> x in a.args;
    }
  }

  lemma {:induction false} WithoutKeeps(order: seq<int>, k: int)
    requires Distinct(order)
    ensures Distinct(Without(order, k))
  {
    hide Distinct;
    if order != [] {
      DistinctTail(order);
      WithoutKeeps(order[1..], k);
      var tail := Without(order[1..], k);
      if order[0] == k {
        assert [] + tail == tail;
      } else {
        DistinctCons(order[0], tail);
      }
    } else {
      NothingDistinct();
    }
  }

  lemma NothingDistinct()
    ensures Distinct([])
  {
  }

  lemma DistinctCons(x: int, tail: seq<int>)
    requires Distinct(tail) && x !in tail
    ensures Distinct([x] + tail)
  {
  }

  lemma DistinctTail(order: seq<int>)
    requires order != [] && Distinct(order)
    ensures Distinct(order[1..]) && order[0] !in order[1..]
  {
    assert forall j | 0 <= j < |order[1..]| :: order[1..][j] == order[j + 1];
  }

  /** One event, seen from one call. */
  lemma CallNext(h: seq<Event>, k: int, id: string)
    requires h != [] && Legal(h)
    requires Tracks(After(Front(h)), Items(Front(h)))
    requires CallAt(Items(Front(h)), k, id) && InStep(After(Front(h)), Front(h), k, id)
    ensures InStep(After(h), h, k, id)
  {
    hide InStep, Tracks, MapEvent, LegalNext, CallAt, Items, Legal;
    match Last(h)
    case ItemAdded(_, _) => CallNextAdded(h, k, id);
    case ArgsDelta(_, _, _) => CallNextArgsDelta(h, k, id);
    case ArgsDone(_, _, _) => CallNextArgsDone(h, k, id);
    case ItemDone(_) => CallNextItemDone(h, k, id);
    case _ => CallNextOther(h, k, id);
  }

  /** The other events neither emit tool calls nor touch their bookkeeping. */
  lemma OtherEvents(s: State, e: Event)
    requires !e.ItemAdded? && !e.ArgsDelta? && !e.ArgsDone? && !e.ItemDone?
    ensures MapEvent(s, e).0.emitted == s.emitted && MapEvent(s, e).0.toolArgs == s.toolArgs
    ensures forall p | p in MapEvent(s, e).1 :: !p.ToolCall?
  {
  }

  lemma CallNextOther(h: seq<Event>, k: int, id: string)
    requires h != [] && !Last(h).ItemAdded? && !Last(h).ArgsDelta? && !Last(h).ArgsDone? && !Last(h).ItemDone?
    requires InStep(After(Front(h)), Front(h), k, id)
    ensures InStep(After(h), h, k, id)
  {
    hide MapEvent;
    OtherEvents(After(Front(h)), Last(h));
    EventInputs(h, id, []);
  }

  /** The inputs emitted so far, after one more event whose own are `now`. */
  lemma EventInputs(h: seq<Event>, id: string, now: seq<string>)
    requires h != []
    requires
      var parts := MapEvent(After(Front(h)), Last(h)).1;
      if now == [] then forall p | p in parts :: !(p.ToolCall? && p.id == id)
      else && parts != [] && Last(parts).ToolCall? && Last(parts).id == id && now == [Last(parts).input]
           && forall p | p in Front(parts) :: !p.ToolCall?
    ensures CallInputs(Emitted(h), id) == CallInputs(Emitted(Front(h)), id) + now
  {
    hide MapEvent;
    var parts := MapEvent(After(Front(h)), Last(h)).1;
    CallInputsAppend(Emitted(Front(h)), parts, id);
    if now == [] {
      NoCallInputs(parts, id);
    } else {
      CallAtEnd(parts, id);
    }
  }

  lemma CallNextAdded(h: seq<Event>, k: int, id: string)
    requires h != [] && Legal(h) && Last(h).ItemAdded?
    requires Tracks(After(Front(h)), Items(Front(h)))
    requires CallAt(Items(Front(h)), k, id) && InStep(After(Front(h)), Front(h), k, id)
    ensures InStep(After(h), h, k, id)
  {
    hide NumberedInt, Numbered, TextId, CallInputs, Emitted, Deltas, Items, Legal, Tracks, Settled, SawDelta, MapEvent;
    LegalLast(h);
    OtherCallAdded(After(Front(h)), Items(Front(h)), Last(h), k, id);
    EventInputs(h, id, []);
    AddedTold(h, k, id);
  }

  /** Adding an item says nothing about a call that is already there. */
  lemma OtherCallAdded(s: State, items: map<int, Item>, e: Event, k: int, id: string)
    requires e.ItemAdded? && LegalNext(items, e) && CallAt(items, k, id)
    ensures e.index != k
    ensures
      var (s', parts) := MapEvent(s, e);
      && s'.toolArgs == s.toolArgs && (id in s'.emitted <==> id in s.emitted)
      && forall p | p in parts :: !(p.ToolCall? && p.id == id)
  {
    hide NumberedInt, Numbered, TextId;
  }

  lemma AddedTold(h: seq<Event>, k: int, id: string)
    requires h != [] && Last(h).ItemAdded? && Last(h).index != k
    ensures Settled(h, k, id) == Settled(Front(h), k, id)
    ensures SawDelta(h, k) <==> SawDelta(Front(h), k)
    ensures Deltas(h, k) == Deltas(Front(h), k)
  {
  }

  lemma DeltaTold(h: seq<Event>, k: int, id: string)
    requires h != [] && Last(h).ArgsDelta?
    ensures Settled(h, k, id) == Settled(Front(h), k, id)
    ensures SawDelta(h, k) <==> Last(h).index == k || SawDelta(Front(h), k)
    ensures Deltas(h, k) == Deltas(Front(h), k) + (if Last(h).index == k then Last(h).delta else "")
  {
  }

  lemma DeltaBuffered(s: State, e: Event)
    requires e.ArgsDelta?
    ensures
      var (s', parts) := MapEvent(s, e);
      && s'.emitted == s.emitted
      && s'.toolArgs.args == s.toolArgs.args[e.index := Or(s.toolArgs.Get(e.index), "") + e.delta]
      && forall p | p in parts :: !p.ToolCall?
  {
  }

  lemma CallNextArgsDelta(h: seq<Event>, k: int, id: string)
    requires h != [] && Legal(h) && Last(h).ArgsDelta?
    requires InStep(After(Front(h)), Front(h), k, id)
    ensures InStep(After(h), h, k, id)
  {
    hide CallInputs, Emitted, Legal, MapEvent, Settled, SawDelta, Deltas;
    DeltaTold(h, k, id);
    DeltaBuffered(After(Front(h)), Last(h));
    if !SawDelta(Front(h), k) {
      NoDeltas(Front(h), k);
    }
    EventInputs(h, id, []);
  }

  /** Which call an `arguments.done` event closes. */
  lemma ClosedCall(s: State, items: map<int, Item>, e: Event, k: int, id: string)
    requires Tracks(s, items) && e.ArgsDone? && LegalNext(items, e) && CallAt(items, k, id)
    ensures CallIdOf(s, e.index, e.callId) == id <==> e.index == k
  {
  }

  lemma LegalLast(h: seq<Event>)
    requires h != [] && Legal(h)
    ensures LegalNext(Items(Front(h)), Last(h))
  {
  }

  lemma CallNextArgsDone(h: seq<Event>, k: int, id: string)
    requires h != [] && Legal(h) && Last(h).ArgsDone?
    requires Tracks(After(Front(h)), Items(Front(h)))
    requires CallAt(Items(Front(h)), k, id) && InStep(After(Front(h)), Front(h), k, id)
    ensures InStep(After(h), h, k, id)
  {
    hide Tracks, CallIdOf, CallInputs, Emitted, Items, Legal, LegalNext, NumberedInt, Without;
    var s := After(Front(h));
    LegalLast(h);
    var e := Last(h);
    ClosedCall(s, Items(Front(h)), e, k, id);
    var parts := MapEvent(s, e).1;
    EventInputs(h, id, if e.index == k && id !in s.emitted then [Last(parts).input] else []);
  }

  lemma DoneTold(h: seq<Event>, k: int, id: string)
    requires h != [] && Last(h).ItemDone?
    ensures Settled(h, k, id) ==
            if Settled(Front(h), k, id).None? && ClosesItem(Last(h), id)
            then Some(Or(Last(h).done.value.arguments, "{}")) else Settled(Front(h), k, id)
    ensures SawDelta(h, k) <==> SawDelta(Front(h), k)
    ensures Deltas(h, k) == Deltas(Front(h), k)
  {
  }

  /** What an `output_item.done` event does for the call `id`. */
  lemma DoneEmits(s: State, e: Event, id: string)
    requires e.ItemDone? && id != ""
    ensures
      var (s', parts) := MapEvent(s, e);
      && s'.toolArgs == s.toolArgs
      && (id in s'.emitted <==> id in s.emitted || ClosesItem(e, id))
      && if ClosesItem(e, id) && id !in s.emitted
         then parts != [] && Last(parts).ToolCall? && Last(parts).id == id
              && Last(parts).input == Or(e.done.value.arguments, "{}") && forall p | p in Front(parts) :: !p.ToolCall?
         else forall p | p in parts :: !(p.ToolCall? && p.id == id)
  {
  }

  lemma CallNextItemDone(h: seq<Event>, k: int, id: string)
    requires h != [] && Last(h).ItemDone?
    requires CallAt(Items(Front(h)), k, id) && InStep(After(Front(h)), Front(h), k, id)
    requires Tracks(After(Front(h)), Items(Front(h)))
    ensures InStep(After(h), h, k, id)
  {
    hide Tracks, CallInputs, Emitted, Items, Deltas, SawDelta, Settled, MapEvent, ClosesItem;
    var s := After(Front(h));
    TruthyId(s, Items(Front(h)), k, id);
    DoneTold(h, k, id);
    DoneEmits(s, Last(h), id);
    var parts := MapEvent(s, Last(h)).1;
    EventInputs(h, id, if ClosesItem(Last(h), id) && id !in s.emitted then [Last(parts).input] else []);
  }

  lemma TruthyId(s: State, items: map<int, Item>, k: int, id: string)
    requires Tracks(s, items) && CallAt(items, k, id)
    ensures id != ""
  {
  }

  lemma UnknownYet(s: State, items: map<int, Item>, e: Event, id: string)
    requires Tracks(s, items) && e.ItemAdded? && LegalNext(items, e)
    requires IsCall(e.item) && e.item.callId == Some(id)
    ensures id !in s.emitted && e.index !in s.toolArgs.args
  {
  }

  /** A call that is being added: nothing was said about it before. */
  lemma CallStarts(h: seq<Event>, id: string)
    requires h != [] && Legal(h) && Last(h).ItemAdded?
    requires IsCall(Last(h).item) && Last(h).item.callId == Some(id)
    requires Tracks(After(Front(h)), Items(Front(h)))
    requires Settled(Front(h), Last(h).index, id).None? && !SawDelta(Front(h), Last(h).index)
    requires CallInputs(Emitted(Front(h)), id) == []
    ensures InStep(After(h), h, Last(h).index, id)
  {
    hide NumberedInt, Numbered, TextId, CallInputs, Emitted, Deltas, Items, Legal;
    var s := After(Front(h));
    var e := Last(h);
    LegalLast(h);
    UnknownYet(s, Items(Front(h)), e, id);
    EventInputs(h, id, if Inline(e.item) then [e.item.arguments.value] else []);
  }

  /** Before its item is added nothing is said about a call. */
  lemma {:induction false} NothingYet(h: seq<Event>, k: int, id: string)
    requires Legal(h)
    requires k !in Items(h)
    requires forall j | j in Items(h) && IsCall(Items(h)[j]) :: Items(h)[j].callId != Some(id)
    ensures Settled(h, k, id).None? && !SawDelta(h, k)
    decreases |h|
  {
    if h != [] {
      var before := Items(Front(h));
      var e := Last(h);
      assert forall j | j in before :: j in Items(h) && Items(h)[j] == before[j];
      NothingYet(Front(h), k, id);
      if ClosesItem(e, id) {
        assert false;
      }
    }
  }

  /** Tool calls come out only under the ids of added calls. */
  ghost predicate OnlyKnownCalls(parts: seq<Part>, items: map<int, Item>) {
    forall p | p in parts && p.ToolCall? :: exists k :: CallAt(items, k, p.id)
  }

  lemma KnownNext(s: State, items: map<int, Item>, e: Event)
    requires Tracks(s, items) && LegalNext(items, e)
    ensures OnlyKnownCalls(MapEvent(s, e).1, if e.ItemAdded? then items[e.index := e.item] else items)
  {
    hide NumberedInt, Numbered, TextId, ReasoningId;
    var items' := if e.ItemAdded? then items[e.index := e.item] else items;
    forall p | p in MapEvent(s, e).1 && p.ToolCall? ensures exists k :: CallAt(items', k, p.id) {
      match e
      case ItemAdded(index, item) => assert CallAt(items', index, p.id);
      case ArgsDone(index, _, _) => assert CallAt(items', index, p.id);
      case ItemDone(done) =>
        var k :| k in items && IsCall(items[k]) && items[k].callId == done.value.callId;
        assert CallAt(items', k, p.id);
    }
  }

  lemma KnownGrows(parts: seq<Part>, items: map<int, Item>, index: int, item: Item)
    requires OnlyKnownCalls(parts, items) && index !in items
    ensures OnlyKnownCalls(parts, items[index := item])
  {
    var items' := items[index := item];
    forall p | p in parts && p.ToolCall? ensures exists k :: CallAt(items', k, p.id) {
      var k :| CallAt(items, k, p.id);
      assert CallAt(items', k, p.id);
    }
  }

  lemma {:induction false} Invariant(h: seq<Event>)
    requires Legal(h)
    ensures Tracks(After(h), Items(h))
    ensures OnlyKnownCalls(Emitted(h), Items(h))
    ensures forall k, id | CallAt(Items(h), k, id) :: InStep(After(h), h, k, id)
    decreases |h|
  {
    hide Tracks, InStep, MapEvent, LegalNext;
    if h == [] {
      StartTracks();
    } else {
      var before := Front(h);
      var e := Last(h);
      Invariant(before);
      TracksNext(After(before), Items(before), e);
      KnownNext(After(before), Items(before), e);
      if e.ItemAdded? {
        NewIndex(Items(before), e);
        KnownGrows(Emitted(before), Items(before), e.index, e.item);
      }
      forall k, id | CallAt(Items(h), k, id) ensures InStep(After(h), h, k, id) {
        if e.ItemAdded? && k == e.index {
          NewCall(Items(before), e, id);
          NothingYet(before, k, id);
          NoCallsFor(before, id);
          CallStarts(h, id);
        } else {
          CallNext(h, k, id);
        }
      }
    }
  }

  lemma StartTracks()
    ensures Tracks(START, map[])
  {
  }

  lemma NewIndex(items: map<int, Item>, e: Event)
    requires LegalNext(items, e) && e.ItemAdded?
    ensures e.index !in items
  {
  }

  lemma NewCall(items: map<int, Item>, e: Event, id: string)
    requires LegalNext(items, e) && e.ItemAdded? && IsCall(e.item) && e.item.callId == Some(id)
    ensures e.index !in items
    ensures forall j | j in items && IsCall(items[j]) :: items[j].callId != Some(id)
  {
  }

  lemma NoCallsFor(h: seq<Event>, id: string)
    requires OnlyKnownCalls(Emitted(h), Items(h))
    requires forall j | j in Items(h) && IsCall(Items(h)[j]) :: Items(h)[j].callId != Some(id)
    ensures CallInputs(Emitted(h), id) == []
  {
    forall p | p in Emitted(h) ensures !(p.ToolCall? && p.id == id) {
      if p.ToolCall? {
        var k :| CallAt(Items(h), k, p.id);
      }
    }
    NoCallInputs(Emitted(h), id);
  }

  // ---------------------------------------------------------------- the flush

  /** The flush emits what is still owed, once, whatever order the buffer is in. */
  lemma {:induction false} FlushPays(s: State, items: map<int, Item>, order: seq<int>, k: int, id: string)
    requires Tracks(s, items) && CallAt(items, k, id)
    requires Distinct(order)
    requires forall x | x in order :: x in s.toolArgs.args
    ensures CallInputs(FlushCalls(s, order).1, id) ==
            if k in order && id !in s.emitted
            then [if s.toolArgs.args[k] != "" then s.toolArgs.args[k] else "{}"] else []
    ensures OnlyKnownCalls(FlushCalls(s, order).1, items)
    decreases order
  {
    if order == [] {
      assert order == [];
    } else {
      hide Tracks, Distinct, FlushOne, CallInputs, OnlyKnownCalls;
      var (s1, parts) := FlushOne(s, order[0]);
      var (s2, more) := FlushCalls(s1, order[1..]);
      FlushOneTracks(s, items, order[0]);
      FlushOneInputs(s, items, order[0], k, id);
      assert order == [order[0]] + order[1..];
      DistinctTail(order);
      FlushPays(s1, items, order[1..], k, id);
      CallInputsAppend(parts, more, id);
      KnownAppend(parts, more, items);
    }
  }

  lemma KnownAppend(p: seq<Part>, q: seq<Part>, items: map<int, Item>)
    requires OnlyKnownCalls(p, items) && OnlyKnownCalls(q, items)
    ensures OnlyKnownCalls(p + q, items)
  {
  }

  /** What one entry of the buffer pays to one call. */
  lemma FlushOneInputs(s: State, items: map<int, Item>, index: int, k: int, id: string)
    requires Tracks(s, items) && CallAt(items, k, id) && index in s.toolArgs.args
    ensures
      var (s1, parts) := FlushOne(s, index);
      && CallInputs(parts, id) ==
         (if index == k && id !in s.emitted
          then [if s.toolArgs.args[k] != "" then s.toolArgs.args[k] else "{}"] else [])
      && (id in s1.emitted <==> id in s.emitted || index == k)
  {
    var (s1, parts) := FlushOne(s, index);
    if parts != [] {
      CallAtEnd(parts, id);
    }
  }

  lemma FlushOneTracks(s: State, items: map<int, Item>, index: int)
    requires Tracks(s, items) && index in s.toolArgs.args
    ensures Tracks(FlushOne(s, index).0, items)
    ensures FlushOne(s, index).0.toolArgs == s.toolArgs
    ensures OnlyKnownCalls(FlushOne(s, index).1, items)
  {
    var id := items[index].callId.value;
    assert CallAt(items, index, id);
  }

  /** Exactly once. A legal stream that ends, complete or cut off at any point, has emitted for
      each call precisely the tool calls it owes: one if inline arguments, a delta, or a
      closing event was seen, with the arguments of the first closing event or else the
      concatenated deltas, and none otherwise. */
  lemma ExactlyOnce(h: seq<Event>, k: int, id: string)
    requires Legal(h) && CallAt(Items(h), k, id)
    ensures CallInputs(Output(h), id) == Owed(h, k, id)
    ensures |CallInputs(Output(h), id)| == if Settled(h, k, id).Some? || SawDelta(h, k) then 1 else 0
  {
    hide Tracks, FlushCalls, CallInputs, OnlyKnownCalls;
    Invariant(h);
    var s := After(h);
    var closed := s.(openTextId := None);
    FlushStart(s, Items(h));
    FlushPays(closed, Items(h), s.toolArgs.order, k, id);
    var (s1, calls) := FlushCalls(closed, s.toolArgs.order);
    var finish := [Finish(Reason(s1), s1.usage, IfTruthy(s1.responseId))];
    NoCallInputs(CloseText(s), id);
    NoCallInputs(finish, id);
    CallInputsAppend(CloseText(s), calls, id);
    CallInputsAppend(CloseText(s) + calls, finish, id);
    CallInputsAppend(Emitted(h), Ending(s), id);
  }

  lemma FlushStart(s: State, items: map<int, Item>)
    requires Tracks(s, items)
    ensures Tracks(s.(openTextId := None), items)
    ensures Distinct(s.toolArgs.order)
    ensures forall x :: x in s.toolArgs.order <==> x in s.toolArgs.args
  {
  }

  /** And there are no other tool calls. */
  lemma NoStrayCalls(h: seq<Event>, id: string)
    requires Legal(h) && !(exists k :: CallAt(Items(h), k, id))
    ensures CallInputs(Output(h), id) == []
  {
    Invariant(h);
    var s := After(h);
    FlushKnown(s.(openTextId := None), Items(h), s.toolArgs.order);
    var (s1, calls) := FlushCalls(s.(openTextId := None), s.toolArgs.order);
    forall p | p in Output(h) ensures !(p.ToolCall? && p.id == id) {
      if p.ToolCall? {
        assert p in Emitted(h) || p in calls;
        var k :| CallAt(Items(h), k, p.id);
      }
    }
    NoCallInputs(Output(h), id);
  }

  lemma {:induction false} FlushKnown(s: State, items: map<int, Item>, order: seq<int>)
    requires Tracks(s, items) && forall x | x in order :: x in s.toolArgs.args
    ensures OnlyKnownCalls(FlushCalls(s, order).1, items)
    decreases order
  {
    if order != [] {
      FlushOneTracks(s, items, order[0]);
      FlushKnown(FlushOne(s, order[0]).0, items, order[1..]);
    }
  }
}
