/** The transducer from Responses API events to model stream parts, as a function on its
    state, with what it does at the end of a stream. */
module ResponseStream {
  import opened Common

  // ---------------------------------------------------------------- events and parts

  datatype Item = Item(
    kind: string, id: Option<string>, name: Option<string>, callId: Option<string>, arguments: Option<string>)

  datatype Usage = Usage(input: int, output: int, cached: Option<int>, reasoning: Option<int>)

  datatype Response = Response(
    id: Option<string>, usage: Option<Usage>, status: Option<string>, incompleteReason: Option<string>)

  datatype Event =
    | Progress(response: Option<Response>)
    | ItemAdded(index: int, item: Item)
    | TextDelta(delta: string)
    | TextDone
    | ArgsDelta(index: int, callId: Option<string>, delta: string)
    | ArgsDone(index: int, callId: Option<string>, arguments: Option<string>)
    | ReasoningDelta(delta: string)
    | ReasoningDone
    | ItemDone(done: Option<Item>)
    | Incomplete(response: Option<Response>)
    | Completed(response: Option<Response>)
    | Failed(message: Option<string>)
    | Error(text: string)
    | Other

  datatype FinishReason = Stop | Length | ToolCalls | ContentFilter | ErrorReason | OtherReason | Unknown

  datatype Part =
    | TextStart(id: string)
    | TextChunk(id: string, delta: string)
    | TextEnd(id: string)
    | ReasoningStart(id: string)
    | ReasoningChunk(id: string, delta: string)
    | ReasoningEnd(id: string)
    | ToolInputStart(id: string, toolName: string)
    | ToolInputDelta(id: string, delta: string)
    | ToolInputEnd(id: string)
    | ToolCall(id: string, toolName: string, input: string, itemId: Option<string>)
    | ErrorPart(message: string)
    | Finish(reason: FinishReason, usage: Option<Usage>, responseId: Option<string>)

  // ---------------------------------------------------------------- ids

  function Digit(d: nat): char
    requires d < 10
  {
    "0123456789"[d]
  }

  function Decimal(n: nat): (s: string)
    ensures |s| > 0
  {
    if n < 10 then [Digit(n)] else Decimal(n / 10) + [Digit(n % 10)]
  }

  lemma {:induction false} DecimalInjective(m: nat, n: nat)
    requires Decimal(m) == Decimal(n)
    ensures m == n
  {
    var s := Decimal(m);
    assert Digit(m % 10) == s[|s| - 1] == Digit(n % 10);
    if m >= 10 && n >= 10 {
      assert Decimal(m / 10) == s[..|s| - 1] == Decimal(n / 10);
      DecimalInjective(m / 10, n / 10);
    }
  }

  function Numbered(prefix: string, n: nat): string { prefix + Decimal(n) }

  function NumberedInt(prefix: string, n: int): string {
    if n >= 0 then Numbered(prefix, n) else prefix + "-" + Decimal(-n)
  }

  function TextId(n: nat): string { Numbered("text_", n) }

  function ReasoningId(n: nat): string { Numbered("reasoning_", n) }

  lemma NumberedInjective(prefix: string, m: nat, n: nat)
    requires Numbered(prefix, m) == Numbered(prefix, n)
    ensures m == n
  {
    assert Decimal(m) == Numbered(prefix, m)[|prefix|..];
    assert Decimal(n) == Numbered(prefix, n)[|prefix|..];
    DecimalInjective(m, n);
  }

  lemma KindsOfIds(m: nat, n: nat)
    ensures TextId(m) != ReasoningId(n)
  {
    assert TextId(m)[0] == 't' && ReasoningId(n)[0] == 'r';
  }

  // ---------------------------------------------------------------- state

  datatype Tracked = Tracked(kind: string, id: string, name: Option<string>, callId: Option<string>)

  /** A JavaScript Map from output index to text: iteration follows first insertion. */
  datatype ArgBuffer = ArgBuffer(order: seq<int>, args: map<int, string>) {
    ghost predicate Valid() {
      && Distinct(order)
      && (forall k :: k in order <==> k in args)
    }

    function Set(k: int, v: string): ArgBuffer {
      ArgBuffer(if k in args then order else order + [k], args[k := v])
    }

    function Delete(k: int): ArgBuffer {
      ArgBuffer(Without(order, k), args - {k})
    }

    function Get(k: int): Option<string> {
      if k in args then Some(args[k]) else None
    }
  }

  predicate Distinct(order: seq<int>) {
    forall i, j | 0 <= i < j < |order| :: order[i] != order[j]
  }

  function Without(order: seq<int>, k: int): (rest: seq<int>)
    ensures forall x :: x in rest <==> x in order && x != k
  {
    if order == [] then []
    else (if order[0] == k then [] else [order[0]]) + Without(order[1..], k)
  }

  datatype State = State(
    responseId: Option<string>, outputItems: map<int, Tracked>,
    textIds: nat, toolIds: nat, reasoningIds: nat,
    usage: Option<Usage>, finishReason: Option<FinishReason>, hasFunctionCall: bool,
    openTextId: Option<string>, toolArgs: ArgBuffer, emitted: set<string>)

  const START := State(None, map[], 0, 0, 0, None, None, false, None, ArgBuffer([], map[]), {})

  function Or(a: Option<string>, default: string): string {
    if a.Some? then a.value else default
  }

  function IfTruthy(a: Option<string>): Option<string> {
    if Truthy(a) then a else None
  }

  // ---------------------------------------------------------------- one event

  predicate Inline(item: Item) {
    Truthy(item.arguments) && item.arguments.value != "{}"
  }

  function WithResponse(s: State, response: Option<Response>): State {
    if response.None? then s
    else s.(responseId := if Truthy(response.value.id) then response.value.id else s.responseId)
  }

  function WithUsage(s: State, response: Option<Response>): State {
    var s1 := WithResponse(s, response);
    if response.None? || response.value.usage.None? then s1 else s1.(usage := response.value.usage)
  }

  function StatusReason(response: Option<Response>): FinishReason {
    if response.None? || response.value.status.None? then OtherReason
    else
      var status := response.value.status.value;
      if status == "completed" || status == "cancelled" then Stop
      else if status == "failed" then ErrorReason
      else if status == "incomplete" then Length
      else OtherReason
  }

  function IncompleteReason(response: Option<Response>): FinishReason {
    if response.Some? && response.value.incompleteReason == Some("max_output_tokens") then Length else OtherReason
  }

  function AddItem(s: State, index: int, item: Item): (State, seq<Part>) {
    var s1 := s.(outputItems := s.outputItems[index :=
      Tracked(item.kind, Or(item.id, NumberedInt("item_", index)), item.name, item.callId)]);
    if item.kind == "message" then
      var id := TextId(s.textIds);
      (s1.(textIds := s.textIds + 1, openTextId := Some(id)), [TextStart(id)])
    else if item.kind == "function_call" then
      var s2 := s1.(hasFunctionCall := true,
                    toolIds := if item.callId.Some? then s.toolIds else s.toolIds + 1);
      var id := Or(item.callId, Numbered("tool_", s.toolIds));
      var name := Or(item.name, "unknown");
      if Inline(item) then
        (s2.(emitted := s2.emitted + {id}),
         [ToolInputStart(id, name), ToolInputDelta(id, item.arguments.value), ToolInputEnd(id),
          ToolCall(id, name, item.arguments.value, IfTruthy(item.id))])
      else (s2, [ToolInputStart(id, name)])
    else (s1, [])
  }

  /** The call an argument event belongs to. */
  function CallIdOf(s: State, index: int, callId: Option<string>): string {
    if index in s.outputItems && s.outputItems[index].callId.Some? then s.outputItems[index].callId.value
    else Or(callId, NumberedInt("tool_", index))
  }

  function FinishArgs(s: State, index: int, callId: Option<string>, arguments: Option<string>): (State, seq<Part>) {
    var id := CallIdOf(s, index, callId);
    var s1 := s.(toolArgs := s.toolArgs.Delete(index));
    if id in s.emitted then (s1, [ToolInputEnd(id)])
    else
      var input := Or(arguments, Or(s.toolArgs.Get(index), "{}"));
      var tracked := index in s.outputItems;
      (s1.(hasFunctionCall := true, emitted := s.emitted + {id}),
       [ToolInputEnd(id),
        ToolCall(id, if tracked then Or(s.outputItems[index].name, "unknown") else "unknown", input,
                 if tracked && s.outputItems[index].id != "" then Some(s.outputItems[index].id) else None)])
  }

  function FinishItem(s: State, done: Option<Item>): (State, seq<Part>) {
    if done.Some? && done.value.kind == "function_call" && Truthy(done.value.callId) then
      var id := done.value.callId.value;
      var s1 := s.(hasFunctionCall := true);
      if id in s.emitted then (s1, [])
      else
        (s1.(emitted := s.emitted + {id}),
         [ToolInputEnd(id),
          ToolCall(id, Or(done.value.name, "unknown"), Or(done.value.arguments, "{}"), IfTruthy(done.value.id))])
    else (s, [])
  }

  function AddText(s: State, delta: string): (State, seq<Part>) {
    if s.openTextId.None? then
      var id := TextId(s.textIds);
      (s.(textIds := s.textIds + 1, openTextId := Some(id)), [TextStart(id), TextChunk(id, delta)])
    else (s, [TextChunk(s.openTextId.value, delta)])
  }

  function ReasoningKey(s: State): int { -1000 - s.reasoningIds }

  function AddReasoning(s: State, delta: string): (State, seq<Part>) {
    var id := ReasoningId(s.reasoningIds);
    if ReasoningKey(s) in s.outputItems then (s, [ReasoningChunk(id, delta)])
    else
      (s.(outputItems := s.outputItems[ReasoningKey(s) := Tracked("reasoning", id, None, None)]),
       [ReasoningStart(id), ReasoningChunk(id, delta)])
  }

  function FinishReasoning(s: State): (State, seq<Part>) {
    var s1 := s.(reasoningIds := s.reasoningIds + 1);
    if ReasoningKey(s) in s.outputItems then
      (s1.(outputItems := s.outputItems - {ReasoningKey(s)}), [ReasoningEnd(ReasoningId(s.reasoningIds))])
    else (s1, [])
  }

  function MapEvent(s: State, e: Event): (State, seq<Part>) {
    match e
    case Progress(response) => (WithResponse(s, response), [])
    case ItemAdded(index, item) => AddItem(s, index, item)
    case TextDelta(delta) => AddText(s, delta)
    case TextDone =>
      if s.openTextId.Some? then (s.(openTextId := None), [TextEnd(s.openTextId.value)]) else (s, [])
    case ArgsDelta(index, callId, delta) =>
      (s.(toolArgs := s.toolArgs.Set(index, Or(s.toolArgs.Get(index), "") + delta)),
       [ToolInputDelta(CallIdOf(s, index, callId), delta)])
    case ArgsDone(index, callId, arguments) => FinishArgs(s, index, callId, arguments)
    case ReasoningDelta(delta) => AddReasoning(s, delta)
    case ReasoningDone => FinishReasoning(s)
    case ItemDone(done) => FinishItem(s, done)
    case Incomplete(response) => (WithUsage(s, response).(finishReason := Some(IncompleteReason(response))), [])
    case Completed(response) => (WithUsage(s, response).(finishReason := Some(StatusReason(response))), [])
    case Failed(message) => (s.(finishReason := Some(ErrorReason)), [ErrorPart(Or(message, "Response failed"))])
    case Error(text) => (s.(finishReason := Some(ErrorReason)), [ErrorPart(text)])
    case Other => (s, [])
  }

  // ---------------------------------------------------------------- the end of a stream

  /** One entry of the argument buffer when the stream has been cut off. */
  function FlushOne(s: State, index: int): (State, seq<Part>) {
    if index !in s.outputItems || index !in s.toolArgs.args then (s, [])
    else
      var t := s.outputItems[index];
      if t.kind != "function_call" || !Truthy(t.callId) || t.callId.value in s.emitted then (s, [])
      else
        var id := t.callId.value;
        var buffered := s.toolArgs.args[index];
        (s.(hasFunctionCall := true, emitted := s.emitted + {id}),
         [ToolInputEnd(id),
          ToolCall(id, Or(t.name, "unknown"), if buffered != "" then buffered else "{}",
                   if t.id != "" then Some(t.id) else None)])
  }

  function FlushCalls(s: State, order: seq<int>): (State, seq<Part>)
    decreases order
  {
    if order == [] then (s, [])
    else
      var (s1, parts) := FlushOne(s, order[0]);
      var (s2, more) := FlushCalls(s1, order[1..]);
      (s2, parts + more)
  }

  function Reason(s: State): FinishReason {
    if s.finishReason == Some(Stop) && s.hasFunctionCall then ToolCalls
    else if s.finishReason.Some? then s.finishReason.value
    else Unknown
  }

  function CloseText(s: State): seq<Part> {
    if s.openTextId.Some? then [TextEnd(s.openTextId.value)] else []
  }

  /** What is emitted when the events have ended. */
  function Ending(s: State): seq<Part> {
    var (s1, calls) := FlushCalls(s.(openTextId := None), s.toolArgs.order);
    CloseText(s) + calls + [Finish(Reason(s1), s1.usage, IfTruthy(s1.responseId))]
  }

  // ---------------------------------------------------------------- whole streams

  function After(h: seq<Event>): State {
    if h == [] then START else MapEvent(After(Front(h)), Last(h)).0
  }

  /** The parts emitted while the events arrive. */
  function Emitted(h: seq<Event>): seq<Part> {
    if h == [] then [] else Emitted(Front(h)) + MapEvent(After(Front(h)), Last(h)).1
  }

  /** The whole output of a stream that ends after `h`. */
  function Output(h: seq<Event>): seq<Part> {
    Emitted(h) + Ending(After(h))
  }
}
