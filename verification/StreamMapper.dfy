/** The event mapper as the source has it: a state object that every event updates in place. */
module StreamMapper {
  import opened Common
  import opened ResponseStream

  class StreamState {
    var responseId: Option<string>
    var outputItems: map<int, Tracked>
    var textIdCounter: nat
    var toolIdCounter: nat
    var reasoningIdCounter: nat
    var usage: Option<Usage>
    var finishReason: Option<FinishReason>
    var hasFunctionCall: bool
    var openTextId: Option<string>
    var toolArgBuffer: ArgBuffer
    var emittedToolCalls: set<string>

    function View(): State
      reads this
    {
      State(responseId, outputItems, textIdCounter, toolIdCounter, reasoningIdCounter, usage, finishReason,
            hasFunctionCall, openTextId, toolArgBuffer, emittedToolCalls)
    }

    constructor ()
      ensures View() == START
    {
      responseId, usage, finishReason, openTextId := None, None, None, None;
      outputItems, toolArgBuffer, emittedToolCalls := map[], ArgBuffer([], map[]), {};
      textIdCounter, toolIdCounter, reasoningIdCounter := 0, 0, 0;
      hasFunctionCall := false;
    }

    method NextTextId() returns (id: string)
      modifies this`textIdCounter, this`openTextId
      ensures id == TextId(old(textIdCounter))
      ensures textIdCounter == old(textIdCounter) + 1 && openTextId == Some(id)
    {
      id := TextId(textIdCounter);
      textIdCounter := textIdCounter + 1;
      openTextId := Some(id);
    }

    method ItemAdded(index: int, item: Item) returns (parts: seq<Part>)
      modifies this
      ensures (View(), parts) == AddItem(old(View()), index, item)
    {
      hide TextId, NumberedInt, Numbered;
      outputItems := outputItems[index := Tracked(item.kind, Or(item.id, NumberedInt("item_", index)), item.name, item.callId)];
      parts := [];
      if item.kind == "message" {
        var id := NextTextId();
        parts := [TextStart(id)];
      } else if item.kind == "function_call" {
        hasFunctionCall := true;
        var id;
        if item.callId.Some? {
          id := item.callId.value;
        } else {
          id := Numbered("tool_", toolIdCounter);
          toolIdCounter := toolIdCounter + 1;
        }
        var name := Or(item.name, "unknown");
        parts := [ToolInputStart(id, name)];
        if Inline(item) {
          parts := parts + [ToolInputDelta(id, item.arguments.value), ToolInputEnd(id),
                            ToolCall(id, name, item.arguments.value, IfTruthy(item.id))];
          assert parts == [ToolInputStart(id, name), ToolInputDelta(id, item.arguments.value), ToolInputEnd(id),
                           ToolCall(id, name, item.arguments.value, IfTruthy(item.id))];
          emittedToolCalls := emittedToolCalls + {id};
        }
      }
    }

    method TextDelta(delta: string) returns (parts: seq<Part>)
      modifies this
      ensures (View(), parts) == AddText(old(View()), delta)
    {
      hide TextId;
      parts := [];
      if openTextId.None? {
        var id := NextTextId();
        parts := [TextStart(id)];
      }
      parts := parts + [TextChunk(openTextId.value, delta)];
      assert parts == (if old(openTextId).None? then [TextStart(openTextId.value), TextChunk(openTextId.value, delta)]
                       else [TextChunk(openTextId.value, delta)]);
    }

    method ArgsDone(index: int, callId: Option<string>, arguments: Option<string>) returns (parts: seq<Part>)
      modifies this
      ensures (View(), parts) == FinishArgs(old(View()), index, callId, arguments)
    {
      hide NumberedInt, Without;
      var tracked := index in outputItems;
      var id := if tracked && outputItems[index].callId.Some? then outputItems[index].callId.value
                else Or(callId, NumberedInt("tool_", index));
      parts := [ToolInputEnd(id)];
      if id !in emittedToolCalls {
        var finalArgs := Or(arguments, Or(toolArgBuffer.Get(index), "{}"));
        hasFunctionCall := true;
        parts := parts + [ToolCall(id, if tracked then Or(outputItems[index].name, "unknown") else "unknown", finalArgs,
          if tracked && outputItems[index].id != "" then Some(outputItems[index].id) else None)];
        assert parts == [ToolInputEnd(id), parts[1]];
        emittedToolCalls := emittedToolCalls + {id};
      }
      toolArgBuffer := toolArgBuffer.Delete(index);
    }

    method ReasoningDelta(delta: string) returns (parts: seq<Part>)
      modifies this
      ensures (View(), parts) == AddReasoning(old(View()), delta)
    {
      hide ReasoningId;
      var id := ReasoningId(reasoningIdCounter);
      parts := [];
      if -1000 - reasoningIdCounter !in outputItems {
        outputItems := outputItems[-1000 - reasoningIdCounter := Tracked("reasoning", id, None, None)];
        parts := [ReasoningStart(id)];
      }
      parts := parts + [ReasoningChunk(id, delta)];
      assert parts == (if |parts| == 2 then [ReasoningStart(id), ReasoningChunk(id, delta)]
                       else [ReasoningChunk(id, delta)]);
    }

    method ReasoningDone() returns (parts: seq<Part>)
      modifies this
      ensures (View(), parts) == FinishReasoning(old(View()))
    {
      hide ReasoningId;
      parts := [];
      var key := -1000 - reasoningIdCounter;
      if key in outputItems {
        parts := [ReasoningEnd(ReasoningId(reasoningIdCounter))];
        outputItems := outputItems - {key};
      }
      reasoningIdCounter := reasoningIdCounter + 1;
    }

    method ItemDone(done: Option<Item>) returns (parts: seq<Part>)
      modifies this
      ensures (View(), parts) == FinishItem(old(View()), done)
    {
      parts := [];
      if done.Some? && done.value.kind == "function_call" && Truthy(done.value.callId) {
        var id := done.value.callId.value;
        hasFunctionCall := true;
        if id in emittedToolCalls {
          return;
        }
        parts := [ToolInputEnd(id),
                  ToolCall(id, Or(done.value.name, "unknown"), Or(done.value.arguments, "{}"), IfTruthy(done.value.id))];
        emittedToolCalls := emittedToolCalls + {id};
      }
    }

    method TakeResponse(response: Option<Response>, withUsage: bool)
      modifies this`responseId, this`usage
      ensures View() == if withUsage then WithUsage(old(View()), response) else WithResponse(old(View()), response)
    {
      if response.Some? {
        if Truthy(response.value.id) {
          responseId := response.value.id;
        }
        if withUsage && response.value.usage.Some? {
          usage := response.value.usage;
        }
      }
    }

    /** `mapEvent`. */
    method MapEvent(e: Event) returns (parts: seq<Part>)
      modifies this
      ensures (View(), parts) == ResponseStream.MapEvent(old(View()), e)
    {
      hide AddItem, AddText, FinishArgs, AddReasoning, FinishReasoning, FinishItem, WithUsage, WithResponse, NumberedInt;
      parts := [];
      match e
      case Progress(response) => TakeResponse(response, false);
      case ItemAdded(index, item) => parts := ItemAdded(index, item);
      case TextDelta(delta) => parts := TextDelta(delta);
      case TextDone =>
        if openTextId.Some? {
          parts := [TextEnd(openTextId.value)];
          openTextId := None;
        }
      case ArgsDelta(index, callId, delta) =>
        parts := [ToolInputDelta(CallIdOf(View(), index, callId), delta)];
        toolArgBuffer := toolArgBuffer.Set(index, Or(toolArgBuffer.Get(index), "") + delta);
      case ArgsDone(index, callId, arguments) => parts := ArgsDone(index, callId, arguments);
      case ReasoningDelta(delta) => parts := ReasoningDelta(delta);
      case ReasoningDone => parts := ReasoningDone();
      case ItemDone(done) => parts := ItemDone(done);
      case Incomplete(response) =>
        TakeResponse(response, true);
        finishReason := Some(IncompleteReason(response));
      case Completed(response) =>
        TakeResponse(response, true);
        finishReason := Some(StatusReason(response));
      case Failed(message) =>
        parts := [ErrorPart(Or(message, "Response failed"))];
        finishReason := Some(ErrorReason);
      case Error(text) =>
        parts := [ErrorPart(text)];
        finishReason := Some(ErrorReason);
      case Other =>
    }

    /** The synthesis of tool calls after a truncation, in buffer order. */
    method Flush() returns (parts: seq<Part>)
      modifies this`hasFunctionCall, this`emittedToolCalls
      ensures (View(), parts) == FlushCalls(old(View()), old(toolArgBuffer).order)
    {
      hide FlushOne;
      var order := toolArgBuffer.order;
      parts := [];
      var i := 0;
      ghost var (final, calls) := FlushCalls(View(), order);
      assert order[0..] == order && [] + calls == calls;
      while i < |order|
        invariant 0 <= i <= |order|
        invariant final == FlushCalls(View(), order[i..]).0
        invariant calls == parts + FlushCalls(View(), order[i..]).1
      {
        assert order[i..][1..] == order[i + 1..];
        ghost var rest := FlushCalls(View(), order[i..]).1;
        var more := FlushEntry(order[i]);
        assert rest == more + FlushCalls(View(), order[i + 1..]).1;
        assert parts + rest == (parts + more) + FlushCalls(View(), order[i + 1..]).1;
        parts := parts + more;
        i := i + 1;
      }
      assert calls == parts;
    }

    method FlushEntry(index: int) returns (parts: seq<Part>)
      modifies this`hasFunctionCall, this`emittedToolCalls
      ensures (View(), parts) == FlushOne(old(View()), index)
    {
      parts := [];
      if index in outputItems && index in toolArgBuffer.args {
        var tracked := outputItems[index];
        var buffered := toolArgBuffer.args[index];
        if tracked.kind == "function_call" && Truthy(tracked.callId) && tracked.callId.value !in emittedToolCalls {
          var id := tracked.callId.value;
          hasFunctionCall := true;
          parts := [ToolInputEnd(id),
                    ToolCall(id, Or(tracked.name, "unknown"), if |buffered| > 0 then buffered else "{}",
                             if tracked.id != "" then Some(tracked.id) else None)];
          emittedToolCalls := emittedToolCalls + {id};
        }
      }
    }
  }

  /** `mapResponseStream`, reading until the events end. */
  method MapResponseStream(events: seq<Event>) returns (out: seq<Part>)
    ensures out == Output(events)
  {
    hide ResponseStream.MapEvent, FlushCalls, Reason;
    var state := new StreamState();
    out := [];
    for i := 0 to |events|
      invariant out == Emitted(events[..i]) && state.View() == After(events[..i])
    {
      assert Front(events[..i + 1]) == events[..i];
      var parts := state.MapEvent(events[i]);
      out := out + parts;
    }
    assert events[..|events|] == events;
    ghost var s := After(events);
    ghost var emitted := out;
    if state.openTextId.Some? {
      out := out + [TextEnd(state.openTextId.value)];
      state.openTextId := None;
    }
    assert out == emitted + CloseText(s);
    assert state.View() == s.(openTextId := None);
    var calls := state.Flush();
    out := out + calls;
    out := out + [Finish(Reason(state.View()), state.usage, IfTruthy(state.responseId))];
    assert out == emitted + Ending(s);
  }
}
