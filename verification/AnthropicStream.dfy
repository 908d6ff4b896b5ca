/** The Anthropic event dispatcher, and what its collector returns for a stream. */
module AnthropicStream {
  import opened Common
  import R = ResponseStream
  import opened Collector

  datatype Block = TextBlock | ThinkingBlock | ToolUse(id: string, toolName: string) | OtherBlock

  datatype Delta = TextDelta(text: string) | ThinkingDelta(text: string) | JsonDelta(text: string) | OtherDelta

  datatype Event =
    | BlockStart(index: int, block: Block)
    | BlockDelta(index: int, delta: Delta)
    | BlockStop(index: int)
    | MessageDelta(stopReason: Option<string>)
    | MessageStop(stopReason: Option<string>)
    | Error(message: string)
    | Other

  datatype Kind = TextKind | ThinkingKind | ToolKind

  datatype Info = Info(kind: Kind, id: string, toolName: string)

  datatype State = State(blocks: map<int, Info>, counter: nat)

  const START := State(map[], 0)

  /** The entry a block start makes; ids come from the block counter unless a tool brings one. */
  function InfoOf(block: Block, counter: nat): Option<Info> {
    var id := R.Numbered("block-", counter);
    match block
    case TextBlock => Some(Info(TextKind, id, ""))
    case ThinkingBlock => Some(Info(ThinkingKind, id, ""))
    case ToolUse(own, name) => Some(Info(ToolKind, if own != "" then own else id, name))
    case OtherBlock => None
  }

  function StartPart(i: Info): R.Part {
    match i.kind
    case TextKind => R.TextStart(i.id)
    case ThinkingKind => R.ReasoningStart(i.id)
    case ToolKind => R.ToolInputStart(i.id, i.toolName)
  }

  function StopPart(i: Info): R.Part {
    match i.kind
    case TextKind => R.TextEnd(i.id)
    case ThinkingKind => R.ReasoningEnd(i.id)
    case ToolKind => R.ToolInputEnd(i.id)
  }

  function DeltaParts(id: string, d: Delta): seq<R.Part> {
    match d
    case TextDelta(text) => [R.TextChunk(id, text)]
    case ThinkingDelta(text) => [R.ReasoningChunk(id, text)]
    case JsonDelta(text) => [R.ToolInputDelta(id, text)]
    case OtherDelta => []
  }

  function StopReason(reason: Option<string>): R.FinishReason {
    if reason == Some("end_turn") || reason == Some("stop") then R.Stop
    else if reason == Some("max_tokens") then R.Length
    else if reason == Some("tool_use") then R.ToolCalls
    else if reason == Some("content_filter") then R.ContentFilter
    else R.OtherReason
  }

  function Dispatch(s: State, e: Event): (State, seq<R.Part>) {
    match e
    case BlockStart(index, block) =>
      var i := InfoOf(block, s.counter);
      if i.Some? then (State(s.blocks[index := i.value], s.counter + 1), [StartPart(i.value)])
      else (s.(counter := s.counter + 1), [])
    case BlockDelta(index, delta) =>
      (s, if index in s.blocks then DeltaParts(s.blocks[index].id, delta) else [])
    case BlockStop(index) =>
      if index in s.blocks then (s.(blocks := s.blocks - {index}), [StopPart(s.blocks[index])]) else (s, [])
    case MessageDelta(_) => (s, [])
    case MessageStop(reason) => (s, [R.Finish(StopReason(reason), None, None)])
    case Error(message) => (s, [R.ErrorPart(message)])
    case Other => (s, [])
  }

  function After(h: seq<Event>): State {
    if h == [] then START else Dispatch(After(Front(h)), Last(h)).0
  }

  function Parts(h: seq<Event>): seq<R.Part> {
    if h == [] then [] else Parts(Front(h)) + Dispatch(After(Front(h)), Last(h)).1
  }

  /** The dispatcher's variables, updated in place. */
  class Dispatcher {
    var activeBlocks: map<int, Info>
    var blockCounter: nat

    function View(): State
      reads this
    {
      State(activeBlocks, blockCounter)
    }

    constructor ()
      ensures View() == START
    {
      activeBlocks, blockCounter := map[], 0;
    }

    method DispatchEvent(e: Event) returns (parts: seq<R.Part>)
      modifies this
      ensures (View(), parts) == Dispatch(old(View()), e)
    {
      hide R.Numbered;
      parts := [];
      match e
      case BlockStart(index, block) =>
        var id := R.Numbered("block-", blockCounter);
        blockCounter := blockCounter + 1;
        match block {
          case TextBlock =>
            activeBlocks := activeBlocks[index := Info(TextKind, id, "")];
            parts := [R.TextStart(id)];
          case ThinkingBlock =>
            activeBlocks := activeBlocks[index := Info(ThinkingKind, id, "")];
            parts := [R.ReasoningStart(id)];
          case ToolUse(own, name) =>
            var toolId := if own != "" then own else id;
            activeBlocks := activeBlocks[index := Info(ToolKind, toolId, name)];
            parts := [R.ToolInputStart(toolId, name)];
          case OtherBlock =>
        }
      case BlockDelta(index, delta) =>
        if index in activeBlocks {
          parts := DeltaParts(activeBlocks[index].id, delta);
        }
      case BlockStop(index) =>
        if index in activeBlocks {
          parts := [StopPart(activeBlocks[index])];
          activeBlocks := activeBlocks - {index};
        }
      case MessageDelta(_) =>
      case MessageStop(reason) => parts := [R.Finish(StopReason(reason), None, None)];
      case Error(message) => parts := [R.ErrorPart(message)];
      case Other =>
    }
  }

  // ---------------------------------------------------------------- the reference fold

  /** A block of the message, with what it has received of its own kind. */
  datatype Open = Open(block: Block, id: string, text: string)

  datatype Told = Told(open: map<int, Open>, started: nat, content: seq<Content>, reason: R.FinishReason)

  predicate OwnKind(block: Block, d: Delta) {
    || (block.TextBlock? && d.TextDelta?)
    || (block.ThinkingBlock? && d.ThinkingDelta?)
    || (block.ToolUse? && d.JsonDelta?)
  }

  /** What a finished block is worth: empty text and reasoning are dropped. */
  function Worth(o: Open): seq<Content> {
    match o.block
    case TextBlock => if o.text != "" then [Text(o.text)] else []
    case ThinkingBlock => if o.text != "" then [Reasoning(o.text)] else []
    case ToolUse(_, name) => [Call(o.id, name, o.text)]
    case OtherBlock => []
  }

  function IdOf(block: Block, started: nat): string {
    if block.ToolUse? && block.id != "" then block.id else R.Numbered("block-", started)
  }

  /** Block by block, in the order in which the blocks end. */
  function Telling(h: seq<Event>): Told {
    if h == [] then Told(map[], 0, [], R.OtherReason)
    else
      var t := Telling(Front(h));
      match Last(h)
      case BlockStart(index, block) =>
        Told(if block.OtherBlock? then t.open else t.open[index := Open(block, IdOf(block, t.started), "")],
             t.started + 1, t.content, t.reason)
      case BlockDelta(index, delta) =>
        if index in t.open && OwnKind(t.open[index].block, delta)
        then t.(open := t.open[index := t.open[index].(text := t.open[index].text + delta.text)])
        else t
      case BlockStop(index) =>
        if index in t.open then t.(open := t.open - {index}, content := t.content + Worth(t.open[index])) else t
      case MessageStop(reason) => t.(reason := StopReason(reason))
      case _ => t
  }

  /** A block gets an id that no other open block has, and no error event arrives. */
  predicate Orderly(h: seq<Event>) {
    h == [] ||
      (Orderly(Front(h)) &&
       match Last(h)
       case BlockStart(index, block) =>
         var t := Telling(Front(h));
         forall k | k in t.open && k != index :: t.open[k].id != IdOf(block, t.started)
       case Error(_) => false
       case _ => true)
  }

  // ---------------------------------------------------------------- the invariant

  /** The collector holds the text of every open block under the block's id. */
  predicate Holds(g: Gathered, i: Info, o: Open) {
    && i.id == o.id && !o.block.OtherBlock?
    && (i.kind == TextKind <==> o.block.TextBlock?)
    && (i.kind == ThinkingKind <==> o.block.ThinkingBlock?)
    && match o.block
       case TextBlock => o.id in g.texts && g.texts[o.id] == o.text
       case ThinkingBlock => o.id in g.reasonings && g.reasonings[o.id] == o.text
       case ToolUse(_, name) => o.id in g.tools && g.tools[o.id] == Tool(name, o.text)
       case OtherBlock => false
  }

  ghost predicate InStep(s: State, g: Gathered, t: Told) {
    && s.counter == t.started && g.content == t.content && g.reason == t.reason
    && s.blocks.Keys == t.open.Keys
    && (forall k | k in t.open :: Holds(g, s.blocks[k], t.open[k]))
    && (forall j, k | j in t.open && k in t.open && j != k :: t.open[j].id != t.open[k].id)
  }

  lemma StartInStep(s: State, g: Gathered, t: Told, t': Told, index: int, block: Block)
    requires InStep(s, g, t) && !block.OtherBlock?
    requires forall k | k in t.open && k != index :: t.open[k].id != IdOf(block, t.started)
    requires t' == Told(t.open[index := Open(block, IdOf(block, t.started), "")], t.started + 1, t.content, t.reason)
    ensures
      var (s', parts) := Dispatch(s, BlockStart(index, block));
      InStep(s', CollectAll(g, parts), t')
  {
    hide R.Numbered, CollectAll, Collect, Holds, StartPart;
    var (s', parts) := Dispatch(s, BlockStart(index, block));
    var i := InfoOf(block, s.counter).value;
    CollectOne(g, StartPart(i));
    var g' := Collect(g, StartPart(i));
    StartHolds(g, i, block, t.started);
    forall k | k in t'.open ensures Holds(g', s'.blocks[k], t'.open[k]) {
      if k != index {
        StartKeeps(g, i, s.blocks[k], t.open[k]);
      }
    }
  }

  lemma StartHolds(g: Gathered, i: Info, block: Block, started: nat)
    requires InfoOf(block, started) == Some(i)
    ensures
      var g' := Collect(g, StartPart(i));
      && Holds(g', i, Open(block, IdOf(block, started), ""))
      && g'.content == g.content && g'.reason == g.reason && i.id == IdOf(block, started)
  {
    hide R.Numbered;
  }

  lemma StartKeeps(g: Gathered, i: Info, other: Info, o: Open)
    requires Holds(g, other, o) && o.id != i.id
    ensures Holds(Collect(g, StartPart(i)), other, o)
  {
  }

  lemma DeltaInStep(s: State, g: Gathered, t: Told, t': Told, index: int, delta: Delta)
    requires InStep(s, g, t) && index in t.open
    requires t' == if OwnKind(t.open[index].block, delta)
                   then t.(open := t.open[index := t.open[index].(text := t.open[index].text + delta.text)]) else t
    ensures InStep(s, CollectAll(g, DeltaParts(s.blocks[index].id, delta)), t')
  {
    assert Holds(g, s.blocks[index], t.open[index]);
    var id := s.blocks[index].id;
    if !delta.OtherDelta? {
      CollectOne(g, DeltaParts(id, delta)[0]);
    }
    var g' := CollectAll(g, DeltaParts(id, delta));
    forall k | k in t'.open ensures Holds(g', s.blocks[k], t'.open[k]) {
      assert Holds(g, s.blocks[k], t.open[k]);
    }
  }

  lemma StopInStep(s: State, g: Gathered, t: Told, t': Told, index: int)
    requires InStep(s, g, t) && index in t.open
    requires t' == t.(open := t.open - {index}, content := t.content + Worth(t.open[index]))
    ensures InStep(s.(blocks := s.blocks - {index}), CollectAll(g, [StopPart(s.blocks[index])]), t')
  {
    assert Holds(g, s.blocks[index], t.open[index]);
    CollectOne(g, StopPart(s.blocks[index]));
    var g' := Collect(g, StopPart(s.blocks[index]));
    assert g'.content == t'.content;
    forall k | k in t'.open ensures Holds(g', s.blocks[k], t'.open[k]) {
      assert Holds(g, s.blocks[k], t.open[k]);
    }
  }

  lemma {:induction false} Invariant(h: seq<Event>)
    requires Orderly(h)
    ensures InStep(After(h), CollectAll(EMPTY, Parts(h)), Telling(h))
    ensures forall p | p in Parts(h) :: !p.ErrorPart?
    decreases |h|
  {
    hide Holds, IdOf, InfoOf, StartPart, StopPart, CollectAll;
    if h == [] {
      NothingYet();
    } else {
      Invariant(Front(h));
      var s := After(Front(h));
      var e := Last(h);
      var g := CollectAll(EMPTY, Parts(Front(h)));
      var t := Telling(Front(h));
      var parts := Dispatch(s, e).1;
      CollectAppend(EMPTY, Parts(Front(h)), parts);
      NoneCollected(g);
      NoErrorParts(s, e);
      match e
      case BlockStart(index, block) =>
        OtherIsNothing(block, s.counter);
        if !block.OtherBlock? {
          StartInStep(s, g, t, Telling(h), index, block);
        }
      case BlockDelta(index, delta) =>
        if index in t.open {
          DeltaInStep(s, g, t, Telling(h), index, delta);
        }
      case BlockStop(index) =>
        if index in t.open {
          StopInStep(s, g, t, Telling(h), index);
        }
      case MessageStop(reason) => FinishInStep(s, g, t, reason);
      case Error(_) => assert false;
      case MessageDelta(_) =>
      case Other =>
    }
  }

  lemma NothingYet()
    ensures InStep(START, CollectAll(EMPTY, []), Told(map[], 0, [], R.OtherReason))
  {
  }

  lemma NoneCollected(g: Gathered)
    ensures CollectAll(g, []) == g
  {
  }

  lemma OtherIsNothing(block: Block, counter: nat)
    ensures InfoOf(block, counter).None? <==> block.OtherBlock?
  {
  }

  lemma FinishInStep(s: State, g: Gathered, t: Told, reason: Option<string>)
    requires InStep(s, g, t)
    ensures InStep(s, CollectAll(g, [R.Finish(StopReason(reason), None, None)]), t.(reason := StopReason(reason)))
  {
    var finish := R.Finish(StopReason(reason), None, None);
    CollectOne(g, finish);
    var g' := Collect(g, finish);
    forall k | k in t.open ensures Holds(g', s.blocks[k], t.open[k]) {
      assert Holds(g, s.blocks[k], t.open[k]);
    }
  }

  lemma NoErrorParts(s: State, e: Event)
    requires !e.Error?
    ensures forall p | p in Dispatch(s, e).1 :: !p.ErrorPart?
  {
  }

  /** Streamed equals collected, block by block, for every orderly event sequence: the blocks
      that ended, in the order in which they ended, and the reason of the last message stop. */
  lemma StreamedEqualsCollected(h: seq<Event>)
    requires Orderly(h)
    ensures
      var r := Generated(Parts(h));
      r.Returned? && r.content == Telling(h).content && r.reason == Telling(h).reason
  {
    Invariant(h);
    NoErrorFound(Parts(h));
  }

  // ---------------------------------------------------------------- what is told and not collected

  /** A block that is started over: its index is still taken by an open one. */
  predicate StartsOver(h: seq<Event>) {
    && h != [] && Last(h).BlockStart? && !Last(h).block.OtherBlock?
    && Last(h).index in Telling(Front(h)).open
  }

  /** What the blocks that were started over were worth. */
  function StartedOver(h: seq<Event>): multiset<Content> {
    if h == [] then multiset{}
    else
      StartedOver(Front(h))
      + (if StartsOver(h) then multiset(Worth(Telling(Front(h)).open[Last(h).index])) else multiset{})
  }

  /** What blocks that are open are worth. */
  ghost function OpenWorth(open: map<int, Open>): multiset<Content>
    decreases |open|
  {
    if !(exists k :: k in open) then multiset{}
    else
      var k :| k in open;
      multiset(Worth(open[k])) + OpenWorth(open - {k})
  }

  /** All that the blocks of the message say: of those that ended, were started over, or are still
      open at the end. */
  ghost function AllTold(h: seq<Event>): multiset<Content> {
    multiset(Telling(h).content) + StartedOver(h) + OpenWorth(Telling(h).open)
  }

  /** No block with something in it is started over, and none is open at the end. */
  predicate NoneStartedOver(h: seq<Event>) {
    h == [] ||
      (NoneStartedOver(Front(h)) && (StartsOver(h) ==> Worth(Telling(Front(h)).open[Last(h).index]) == []))
  }

  predicate NoneLeftOpen(h: seq<Event>) {
    forall k | k in Telling(h).open :: Worth(Telling(h).open[k]) == []
  }

  lemma NothingIn(c: seq<Content>)
    ensures multiset(c) == multiset{} <==> c == []
  {
    if c != [] {
      assert c[0] in multiset(c);
    }
  }

  lemma {:induction false} StartedOverExact(h: seq<Event>)
    ensures StartedOver(h) == multiset{} <==> NoneStartedOver(h)
    decreases |h|
  {
    hide Telling, Worth;
    if h != [] {
      StartedOverExact(Front(h));
      if StartsOver(h) {
        NothingIn(Worth(Telling(Front(h)).open[Last(h).index]));
      }
    }
  }

  lemma {:induction false} OpenWorthExact(open: map<int, Open>)
    ensures OpenWorth(open) == multiset{} <==> forall k | k in open :: Worth(open[k]) == []
    decreases |open|
  {
    hide Worth;
    if exists k :: k in open {
      var k :| k in open && OpenWorth(open) == multiset(Worth(open[k])) + OpenWorth(open - {k});
      var rest := open - {k};
      OpenWorthExact(rest);
      NothingIn(Worth(open[k]));
      BothEmpty(multiset(Worth(open[k])), OpenWorth(rest));
      assert forall j | j in rest :: j in open && rest[j] == open[j];
      assert forall j | j in open :: j == k || j in rest;
    }
  }

  lemma BothEmpty(a: multiset<Content>, b: multiset<Content>)
    ensures a + b == multiset{} <==> a == multiset{} && b == multiset{}
  {
    if a + b == multiset{} {
      forall x ensures a[x] == 0 && b[x] == 0 {
        assert (a + b)[x] == 0;
      }
    }
  }

  lemma SumIsLeft(a: multiset<Content>, b: multiset<Content>, c: multiset<Content>)
    ensures a == a + b + c <==> b == multiset{} && c == multiset{}
  {
    if a == a + b + c {
      forall x ensures b[x] == 0 && c[x] == 0 {
        assert a[x] == (a + b + c)[x];
      }
    }
  }

  /** Everything told is collected exactly when no block with something in it is started over or
      left open at the end. */
  lemma AllIsCollected(h: seq<Event>)
    requires Orderly(h)
    ensures Generated(Parts(h)).Returned?
    ensures multiset(Generated(Parts(h)).content) == AllTold(h) <==> NoneStartedOver(h) && NoneLeftOpen(h)
  {
    hide Telling, Generated, Worth, Orderly;
    StreamedEqualsCollected(h);
    StartedOverExact(h);
    OpenWorthExact(Telling(h).open);
    SumIsLeft(multiset(Telling(h).content), StartedOver(h), OpenWorth(Telling(h).open));
  }

  /** A text that is cut off before its block ends is streamed and not collected. */
  lemma CutOffTextIsLost()
    ensures
      var h := [BlockStart(0, TextBlock), BlockDelta(0, TextDelta("x"))];
      && Orderly(h) && Generated(Parts(h)).Returned? && Generated(Parts(h)).content == []
      && Text("x") in AllTold(h)
  {
    hide R.Numbered;
    var h := [BlockStart(0, TextBlock), BlockDelta(0, TextDelta("x"))];
    var h1 := Front(h);
    assert h1 == [BlockStart(0, TextBlock)] && Front(h1) == [];
    var o := Open(TextBlock, R.Numbered("block-", 0), "");
    assert Telling(h1) == Told(map[0 := o], 1, [], R.OtherReason);
    assert "" + "x" == "x";
    assert Telling(h) == Told(map[0 := o.(text := "x")], 1, [], R.OtherReason);
    assert Orderly(Front(h1)) && Orderly(h1) && Orderly(h);
    StreamedEqualsCollected(h);
    OneOpen(0, o.(text := "x"));
  }

  lemma OneOpen(k: int, o: Open)
    ensures OpenWorth(map[k := o]) == multiset(Worth(o))
  {
    var open := map[k := o];
    assert k in open;
    assert open - {k} == map[];
    assert OpenWorth(map[]) == multiset{};
  }

  // ---------------------------------------------------------------- the stop reason

  /** The stop reason that the message itself announces: that of its last message delta with
      one. */
  function Announced(h: seq<Event>): Option<string> {
    if h == [] then None
    else if Last(h).MessageDelta? && Last(h).stopReason.Some? then Last(h).stopReason
    else Announced(Front(h))
  }

  /** The field that the last message stop carries itself. */
  function StopField(h: seq<Event>): Option<string> {
    if h == [] then None
    else if Last(h).MessageStop? then Last(h).stopReason
    else StopField(Front(h))
  }

  lemma {:induction false} ReasonIsStopField(h: seq<Event>)
    ensures Telling(h).reason == StopReason(StopField(h))
    decreases |h|
  {
    if h != [] {
      ReasonIsStopField(Front(h));
    }
  }

  /** The collected reason is the announced one exactly when the last message stop's own field
      stands for the same. */
  lemma AnnouncedReasonKept(h: seq<Event>)
    requires Orderly(h)
    ensures Generated(Parts(h)).Returned?
    ensures Generated(Parts(h)).reason == StopReason(Announced(h))
      <==> StopReason(StopField(h)) == StopReason(Announced(h))
  {
    StreamedEqualsCollected(h);
    ReasonIsStopField(h);
  }

  predicate HasMeaning(reason: Option<string>) {
    reason.Some? && reason.value in {"end_turn", "stop", "max_tokens", "tool_use", "content_filter"}
  }

  /** Message stops as the service sends them have no such field. Then every announced reason
      with a meaning is lost, and only those. */
  lemma BareStopsLoseTheReason(h: seq<Event>)
    requires Orderly(h) && forall e | e in h && e.MessageStop? :: e.stopReason.None?
    ensures Generated(Parts(h)).Returned? && Generated(Parts(h)).reason == R.OtherReason
    ensures Generated(Parts(h)).reason == StopReason(Announced(h)) <==> !HasMeaning(Announced(h))
  {
    StreamedEqualsCollected(h);
    ReasonIsStopField(h);
    NoStopField(h);
  }

  lemma {:induction false} NoStopField(h: seq<Event>)
    requires forall e | e in h && e.MessageStop? :: e.stopReason.None?
    ensures StopField(h).None?
    decreases |h|
  {
    if h != [] {
      assert Last(h) in h;
      NoStopField(Front(h));
    }
  }

  /** A message that stops to use a tool is collected as one that stopped for another reason. */
  lemma ToolUseReasonIsLost()
    ensures
      var h := [MessageDelta(Some("tool_use")), MessageStop(None)];
      && StopReason(Announced(h)) == R.ToolCalls
      && Generated(Parts(h)).Returned? && Generated(Parts(h)).reason == R.OtherReason
  {
    var h := [MessageDelta(Some("tool_use")), MessageStop(None)];
    assert Front(h) == [MessageDelta(Some("tool_use"))] && Front(Front(h)) == [];
    assert Orderly(Front(Front(h)));
    assert Orderly(Front(h));
    BareStopsLoseTheReason(h);
    assert Announced(Front(h)) == Some("tool_use");
  }

  /** Ids that count up cannot clash with each other, so only tool ids have to be watched. */
  lemma CountedIdsDiffer(m: nat, n: nat)
    requires m != n
    ensures R.Numbered("block-", m) != R.Numbered("block-", n)
  {
    if R.Numbered("block-", m) == R.Numbered("block-", n) {
      R.NumberedInjective("block-", m, n);
    }
  }

  // ---------------------------------------------------------------- errors

  const REASONS := map[
    "end_turn" := R.Stop, "stop" := R.Stop, "max_tokens" := R.Length, "tool_use" := R.ToolCalls,
    "content_filter" := R.ContentFilter]

  /** The reasons as a table. */
  lemma ReasonTable(reason: string)
    ensures StopReason(None) == R.OtherReason
    ensures StopReason(Some(reason)) == if reason in REASONS then REASONS[reason] else R.OtherReason
  {
  }

  function FirstMessage(h: seq<Event>): Option<string> {
    if h == [] then None
    else if FirstMessage(Front(h)).Some? then FirstMessage(Front(h))
    else if Last(h).Error? then Some(Last(h).message)
    else None
  }

  /** The first error is event `i`. */
  ghost predicate FailsFirst(h: seq<Event>, i: nat) {
    i < |h| && h[i].Error? && forall j | 0 <= j < i :: !h[j].Error?
  }

  lemma {:induction false} FirstMessageIs(h: seq<Event>)
    ensures FirstMessage(h).None? <==> forall i | 0 <= i < |h| :: !h[i].Error?
    ensures forall i: nat | FailsFirst(h, i) :: FirstMessage(h) == Some(h[i].message)
    decreases |h|
  {
    if h != [] {
      FirstMessageIs(Front(h));
      forall i: nat | FailsFirst(h, i) ensures FirstMessage(h) == Some(h[i].message) {
        if i < |h| - 1 {
          assert FailsFirst(Front(h), i);
        }
      }
      assert forall i | 0 <= i < |h| - 1 :: Front(h)[i] == h[i];
    }
  }

  lemma {:induction false} ErrorOfParts(h: seq<Event>)
    ensures FirstError(Parts(h)) == FirstMessage(h)
    decreases |h|
  {
    if h != [] {
      ErrorOfParts(Front(h));
      var parts := Dispatch(After(Front(h)), Last(h)).1;
      hide Dispatch;
      ErrorOfBoth(Parts(Front(h)), parts);
      ErrorOfEvent(After(Front(h)), Last(h));
    }
  }

  lemma ErrorOfEvent(s: State, e: Event)
    ensures FirstError(Dispatch(s, e).1) == if e.Error? then Some(e.message) else None
  {
    if e.Error? {
      ErrorOfOne(R.ErrorPart(e.message));
    } else {
      NoErrorParts(s, e);
      NoErrorFound(Dispatch(s, e).1);
    }
  }

  /** For every event sequence, orderly or not: the collector throws exactly when an error arrives,
      and then the message of the first one. */
  lemma ErrorsAreThrown(h: seq<Event>)
    ensures Generated(Parts(h)).Thrown? <==> exists e :: e in h && e.Error?
    ensures forall i: nat | FailsFirst(h, i) :: Generated(Parts(h)) == Thrown(h[i].message)
  {
    hide Parts, FirstMessage, CollectAll;
    ErrorOfParts(h);
    FirstMessageIs(h);
    assert (exists e :: e in h && e.Error?) <==> (exists i :: 0 <= i < |h| && h[i].Error?);
  }
}
