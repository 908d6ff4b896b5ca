/** What the finish reason says about tool calls, for every event sequence, legal or not. */
module FinishReasons {
  import opened Common
  import opened ResponseStream
  import Bracketing
  import T = ToolCalls

  /** The part announces a tool call or is one. */
  predicate IsTool(p: Part) { p.ToolInputStart? || p.ToolCall? }

  predicate HasTool(parts: seq<Part>) { exists k :: 0 <= k < |parts| && IsTool(parts[k]) }

  lemma HasToolAppend(p: seq<Part>, q: seq<Part>)
    ensures HasTool(p + q) <==> HasTool(p) || HasTool(q)
  {
    if HasTool(p) {
      var k :| 0 <= k < |p| && IsTool(p[k]);
      assert (p + q)[k] == p[k];
    }
    if HasTool(q) {
      var k :| 0 <= k < |q| && IsTool(q[k]);
      assert (p + q)[|p| + k] == q[k];
    }
  }

  /** What one event adds to the flag and to the parts. */
  lemma EventTold(s: State, e: Event)
    requires s.emitted != {} ==> s.hasFunctionCall
    ensures
      var (s', parts) := MapEvent(s, e);
      && (s'.emitted != {} ==> s'.hasFunctionCall)
      && (s'.hasFunctionCall <==> s.hasFunctionCall || HasTool(parts))
  {
    hide NumberedInt, Numbered;
    var (s', parts) := MapEvent(s, e);
    if s'.hasFunctionCall && !s.hasFunctionCall {
      assert IsTool(parts[|parts| - 1]);
    }
  }

  lemma {:induction false} EmittedTold(h: seq<Event>)
    ensures var s := After(h);
      && (s.emitted != {} ==> s.hasFunctionCall)
      && (s.hasFunctionCall <==> HasTool(Emitted(h)))
    decreases |h|
  {
    hide MapEvent;
    if h != [] {
      EmittedTold(Front(h));
      EventTold(After(Front(h)), Last(h));
      HasToolAppend(Emitted(Front(h)), MapEvent(After(Front(h)), Last(h)).1);
    }
  }

  lemma {:induction false} FlushTold(s: State, order: seq<int>)
    ensures
      var (s', parts) := FlushCalls(s, order);
      s'.hasFunctionCall <==> s.hasFunctionCall || HasTool(parts)
    decreases order
  {
    if order != [] {
      var (s1, parts) := FlushOne(s, order[0]);
      FlushTold(s1, order[1..]);
      HasToolAppend(parts, FlushCalls(s1, order[1..]).1);
      if s1 != s {
        assert IsTool(parts[1]);
      }
    }
  }

  /** The stream finishes with `ToolCalls` exactly when it was completed normally and some tool
      call was announced or emitted, at the end of a cut-off stream included. */
  lemma FinishTellsToolCalls(h: seq<Event>)
    ensures Output(h) != [] && Last(Output(h)).Finish?
    ensures Last(Output(h)).reason == ToolCalls
      <==> Bracketing.Terminal(h) == Some(Stop) && HasTool(Output(h))
  {
    hide MapEvent, FlushCalls, Emitted, HasTool;
    EmittedTold(h);
    Bracketing.TerminalIsKept(h);
    Bracketing.TerminalReasons(h);
    var s := After(h);
    var closed := s.(openTextId := None);
    var (s1, calls) := FlushCalls(closed, s.toolArgs.order);
    FlushTold(closed, s.toolArgs.order);
    Bracketing.FlushKeeps(closed, s.toolArgs.order);
    var finish := [Finish(Reason(s1), s1.usage, IfTruthy(s1.responseId))];
    NoToolInEnds(s, finish[0]);
    HasToolAppend(CloseText(s), calls);
    HasToolAppend(CloseText(s) + calls, finish);
    HasToolAppend(Emitted(h), Ending(s));
  }

  lemma NoToolInEnds(s: State, finish: Part)
    requires finish.Finish?
    ensures !HasTool(CloseText(s)) && !HasTool([finish])
  {
  }

  // ---------------------------------------------------------------- announced calls

  /** The stream said something about the call: it was settled, or a delta came. */
  ghost predicate HeardOf(h: seq<Event>, k: int, id: string) {
    T.Settled(h, k, id).Some? || T.SawDelta(h, k)
  }

  predicate SomeCallAdded(h: seq<Event>) {
    exists k :: k in T.Items(h) && T.IsCall(T.Items(h)[k])
  }

  ghost predicate SomeCallHeardOf(h: seq<Event>) {
    exists k, id :: T.CallAt(T.Items(h), k, id) && HeardOf(h, k, id)
  }

  lemma {:induction false} InputsOfParts(parts: seq<Part>, id: string)
    ensures T.CallInputs(parts, id) != [] <==> exists p :: p in parts && p.ToolCall? && p.id == id
    decreases |parts|
  {
    if parts != [] {
      InputsOfParts(Front(parts), id);
      assert parts == Front(parts) + [Last(parts)];
    }
  }

  /** A tool-call part comes out exactly when some added call was heard of. */
  lemma SomeCallEmitted(h: seq<Event>)
    requires T.Legal(h)
    ensures (exists p :: p in Output(h) && p.ToolCall?) <==> SomeCallHeardOf(h)
  {
    hide T.Legal, Output, T.CallInputs, T.Settled, T.SawDelta, T.Items;
    if SomeCallHeardOf(h) {
      var k, id :| T.CallAt(T.Items(h), k, id) && HeardOf(h, k, id);
      T.ExactlyOnce(h, k, id);
      InputsOfParts(Output(h), id);
    }
    if p :| p in Output(h) && p.ToolCall? {
      InputsOfParts(Output(h), p.id);
      if k :| T.CallAt(T.Items(h), k, p.id) {
        T.ExactlyOnce(h, k, p.id);
        assert HeardOf(h, k, p.id);
      } else {
        T.NoStrayCalls(h, p.id);
      }
    }
  }

  lemma EventTools(s: State, items: map<int, Item>, e: Event)
    requires T.Tracks(s, items) && T.LegalNext(items, e)
    requires !(exists k :: k in items && T.IsCall(items[k]))
    ensures HasTool(MapEvent(s, e).1) <==> e.ItemAdded? && T.IsCall(e.item)
  {
    hide NumberedInt, Numbered, TextId, ReasoningId;
    var parts := MapEvent(s, e).1;
    if e.ItemAdded? && T.IsCall(e.item) {
      assert IsTool(parts[0]);
    }
  }

  /** Tools come out exactly when a call has been added. */
  lemma {:induction false} ToolsNeedCalls(h: seq<Event>)
    requires T.Legal(h)
    ensures HasTool(Emitted(h)) <==> SomeCallAdded(h)
    decreases |h|
  {
    hide MapEvent, HasTool, T.Tracks, T.LegalNext;
    if h == [] {
      NoTools();
    } else {
      ToolsNeedCalls(Front(h));
      T.Invariant(Front(h));
      HasToolAppend(Emitted(Front(h)), MapEvent(After(Front(h)), Last(h)).1);
      AddedStays(h);
      if !SomeCallAdded(Front(h)) {
        EventTools(After(Front(h)), T.Items(Front(h)), Last(h));
      }
    }
  }

  lemma NoTools()
    ensures !HasTool([])
  {
  }

  lemma AddedStays(h: seq<Event>)
    requires h != [] && T.Legal(h)
    ensures SomeCallAdded(h) <==> SomeCallAdded(Front(h)) || (Last(h).ItemAdded? && T.IsCall(Last(h).item))
  {
    T.LegalLast(h);
    if SomeCallAdded(Front(h)) {
      var k :| k in T.Items(Front(h)) && T.IsCall(T.Items(Front(h))[k]);
      assert k in T.Items(h) && T.IsCall(T.Items(h)[k]);
    }
    if Last(h).ItemAdded? && T.IsCall(Last(h).item) {
      assert Last(h).index in T.Items(h);
    }
  }

  /** For every legal stream: the reason says tool calls although none comes out exactly when the
      stream was completed normally, a call was added, and none was ever heard of again. */
  lemma AnnouncedOnly(h: seq<Event>)
    requires T.Legal(h)
    ensures Output(h) != [] && Last(Output(h)).Finish?
    ensures Last(Output(h)).reason == ToolCalls && (forall p | p in Output(h) :: !p.ToolCall?)
      <==> Bracketing.Terminal(h) == Some(Stop) && SomeCallAdded(h) && !SomeCallHeardOf(h)
  {
    hide Output, T.Legal, HasTool, SomeCallAdded, SomeCallHeardOf;
    FinishTellsToolCalls(h);
    SomeCallEmitted(h);
    AddedIsSeen(h);
  }

  /** What the output has of tools, if no call comes out, is what has been emitted so far. */
  lemma AddedIsSeen(h: seq<Event>)
    requires T.Legal(h)
    ensures HasTool(Output(h)) <==> SomeCallAdded(h)
  {
    hide MapEvent, T.Legal, Emitted, FlushCalls, T.Tracks, T.Items;
    ToolsNeedCalls(h);
    T.Invariant(h);
    HasToolAppend(Emitted(h), Ending(After(h)));
    if HasTool(Ending(After(h))) {
      var s := After(h);
      T.FlushStart(s, T.Items(h));
      T.FlushKnown(s.(openTextId := None), T.Items(h), s.toolArgs.order);
      EndingTools(h, s);
    }
  }

  lemma EndingTools(h: seq<Event>, s: State)
    requires T.OnlyKnownCalls(FlushCalls(s.(openTextId := None), s.toolArgs.order).1, T.Items(h))
    requires HasTool(Ending(s))
    ensures SomeCallAdded(h)
  {
    hide T.Items;
    var closed := s.(openTextId := None);
    FlushHasNoStarts(closed, s.toolArgs.order);
    var (s1, calls) := FlushCalls(closed, s.toolArgs.order);
    hide FlushCalls;
    var k :| 0 <= k < |Ending(s)| && IsTool(Ending(s)[k]);
    var p := Ending(s)[k];
    assert p in calls && p.ToolCall?;
    var j :| T.CallAt(T.Items(h), j, p.id);
  }

  lemma {:induction false} FlushHasNoStarts(s: State, order: seq<int>)
    ensures forall p | p in FlushCalls(s, order).1 :: !p.ToolInputStart?
    decreases order
  {
    if order != [] {
      FlushHasNoStarts(FlushOne(s, order[0]).0, order[1..]);
    }
  }

  /** An announced call of which nothing more is heard makes the reason `ToolCalls` although no
      tool call ever comes out. */
  lemma AnnouncedIsEnough(item: Item, response: Response)
    requires item.kind == "function_call" && !Inline(item) && response.status == Some("completed")
    ensures
      var out := Output([ItemAdded(0, item), Completed(Some(response))]);
      && out != [] && Last(out).Finish? && Last(out).reason == ToolCalls
      && forall p | p in out :: !p.ToolCall?
  {
    hide NumberedInt, Numbered;
    var h := [ItemAdded(0, item), Completed(Some(response))];
    assert Front(h) == [ItemAdded(0, item)] && Front(Front(h)) == [];
    assert After([]) == START;
    assert After(Front(h)) == AddItem(START, 0, item).0;
    var s := After(h);
    assert s.toolArgs.order == [];
    assert Emitted([]) == [];
    assert Emitted(h) == AddItem(START, 0, item).1;
  }
}
