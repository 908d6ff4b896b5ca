/** Text and reasoning parts come out properly bracketed, whatever events come in, and a
    stream ends with its only `Finish`. */
module Bracketing {
  import opened Common
  import opened ResponseStream

  /** Which text and reasoning parts have been started, and which are still open. */
  datatype Brackets = Brackets(used: set<string>, open: set<string>)

  /** Whether a part may come next: a start has a new id, everything else an open one. */
  predicate Allowed(b: Brackets, p: Part) {
    match p
    case TextStart(id) => id !in b.used
    case ReasoningStart(id) => id !in b.used
    case TextChunk(id, _) => id in b.open
    case ReasoningChunk(id, _) => id in b.open
    case TextEnd(id) => id in b.open
    case ReasoningEnd(id) => id in b.open
    case _ => true
  }

  function Next(b: Brackets, p: Part): Brackets {
    match p
    case TextStart(id) => Brackets(b.used + {id}, b.open + {id})
    case ReasoningStart(id) => Brackets(b.used + {id}, b.open + {id})
    case TextEnd(id) => b.(open := b.open - {id})
    case ReasoningEnd(id) => b.(open := b.open - {id})
    case _ => b
  }

  function After(b: Brackets, parts: seq<Part>): Brackets {
    if parts == [] then b else Next(After(b, Front(parts)), Last(parts))
  }

  /** Every part is allowed after the parts before it. */
  predicate Bracketed(b: Brackets, parts: seq<Part>) {
    parts == [] || (Bracketed(b, Front(parts)) && Allowed(After(b, Front(parts)), Last(parts)))
  }

  const NONE := Brackets({}, {})

  lemma {:induction false} BracketedAppend(b: Brackets, p: seq<Part>, q: seq<Part>)
    ensures After(b, p + q) == After(After(b, p), q)
    ensures Bracketed(b, p + q) <==> Bracketed(b, p) && Bracketed(After(b, p), q)
    decreases |q|
  {
    hide Allowed, Next;
    if q == [] {
      assert p + q == p;
    } else {
      BracketedAppend(b, p, Front(q));
      assert Front(p + q) == p + Front(q);
    }
  }

  lemma One(b: Brackets, p: Part)
    ensures Bracketed(b, [p]) <==> Allowed(b, p)
    ensures After(b, [p]) == Next(b, p)
  {
    assert Front([p]) == [];
  }

  lemma Two(b: Brackets, p: Part, q: Part)
    ensures Bracketed(b, [p, q]) <==> Allowed(b, p) && Allowed(Next(b, p), q)
    ensures After(b, [p, q]) == Next(Next(b, p), q)
  {
    One(b, p);
    One(Next(b, p), q);
    BracketedAppend(b, [p], [q]);
    assert [p] + [q] == [p, q];
  }

  predicate IsTool(p: Part) {
    p.ToolInputStart? || p.ToolInputDelta? || p.ToolInputEnd? || p.ToolCall? || p.ErrorPart? || p.Finish?
  }

  lemma {:induction false} ToolsOnly(b: Brackets, parts: seq<Part>)
    requires forall p | p in parts :: IsTool(p)
    ensures Bracketed(b, parts) && After(b, parts) == b
    decreases |parts|
  {
    if parts != [] {
      assert Last(parts) in parts;
      ToolsOnly(b, Front(parts));
    }
  }

  // ---------------------------------------------------------------- the invariant

  /** The state's counters, its open text id and its reasoning key, against the parts so far. */
  ghost predicate Agrees(s: State, b: Brackets) {
    && (forall n: nat | TextId(n) in b.used :: n < s.textIds)
    && (forall n: nat | ReasoningId(n) in b.used :: n <= s.reasoningIds)
    && (s.openTextId.Some? ==> s.openTextId.value in b.open)
    && (forall k | k in s.outputItems && k < 0 :: k == ReasoningKey(s))
    && (if ReasoningKey(s) in s.outputItems then ReasoningId(s.reasoningIds) in b.open
        else ReasoningId(s.reasoningIds) !in b.used)
    && (s.openTextId.Some? ==> exists n: nat :: s.openTextId.value == TextId(n))
    && b.open <= b.used
  }

  predicate NaturalIndex(e: Event) {
    match e
    case ItemAdded(index, _) => index >= 0
    case ArgsDelta(index, _, _) => index >= 0
    case ArgsDone(index, _, _) => index >= 0
    case _ => true
  }

  lemma NewText(s: State, b: Brackets)
    requires Agrees(s, b)
    ensures
      var id := TextId(s.textIds);
      && id !in b.used
      && Agrees(s.(textIds := s.textIds + 1, openTextId := Some(id)), Next(b, TextStart(id)))
  {
    var id := TextId(s.textIds);
    var b' := Next(b, TextStart(id));
    forall n: nat | TextId(n) in b'.used ensures n < s.textIds + 1 {
      if TextId(n) == id {
        NumberedInjective("text_", n, s.textIds);
      }
    }
    forall n: nat ensures ReasoningId(n) != id {
      KindsOfIds(s.textIds, n);
    }
  }

  lemma NewReasoning(s: State, b: Brackets, item: Tracked)
    requires Agrees(s, b) && ReasoningKey(s) !in s.outputItems
    ensures
      var id := ReasoningId(s.reasoningIds);
      && id !in b.used
      && Agrees(s.(outputItems := s.outputItems[ReasoningKey(s) := item]), Next(b, ReasoningStart(id)))
  {
    var id := ReasoningId(s.reasoningIds);
    var b' := Next(b, ReasoningStart(id));
    forall n: nat | ReasoningId(n) in b'.used ensures n <= s.reasoningIds {
      if ReasoningId(n) == id {
        NumberedInjective("reasoning_", n, s.reasoningIds);
      }
    }
    forall n: nat ensures TextId(n) != id {
      KindsOfIds(n, s.reasoningIds);
    }
  }

  lemma EndReasoning(s: State, b: Brackets)
    requires Agrees(s, b)
    ensures
      var (s', parts) := FinishReasoning(s);
      Bracketed(b, parts) && Agrees(s', After(b, parts))
  {
    var (s', parts) := FinishReasoning(s);
    var id := ReasoningId(s.reasoningIds);
    if ReasoningKey(s) in s.outputItems {
      One(b, ReasoningEnd(id));
      if s.openTextId.Some? {
        var n: nat :| s.openTextId.value == TextId(n);
        KindsOfIds(n, s.reasoningIds);
      }
    }
    var b' := After(b, parts);
    assert ReasoningId(s.reasoningIds + 1) !in b'.used;
  }

  lemma EventBracketed(s: State, b: Brackets, e: Event)
    requires Agrees(s, b) && NaturalIndex(e)
    ensures
      var (s', parts) := MapEvent(s, e);
      Bracketed(b, parts) && Agrees(s', After(b, parts))
  {
    hide TextId, ReasoningId, NumberedInt, Numbered, Allowed, Next, After, Bracketed;
    var (s', parts) := MapEvent(s, e);
    match e
    case ItemAdded(index, item) =>
      if item.kind == "message" {
        MessageBracketed(s, b, index, item);
      } else {
        ToolsOnly(b, parts);
      }
    case TextDelta(delta) => TextBracketed(s, b, delta);
    case TextDone => TextDoneBracketed(s, b);
    case ReasoningDelta(delta) => ReasoningBracketed(s, b, delta);
    case ReasoningDone => EndReasoning(s, b);
    case _ => ToolsOnly(b, parts);
  }

  lemma MessageBracketed(s: State, b: Brackets, index: nat, item: Item)
    requires Agrees(s, b) && item.kind == "message"
    ensures
      var (s', parts) := AddItem(s, index, item);
      Bracketed(b, parts) && Agrees(s', After(b, parts))
  {
    hide TextId, ReasoningId, NumberedInt;
    NewText(s, b);
    One(b, TextStart(TextId(s.textIds)));
  }

  lemma TextBracketed(s: State, b: Brackets, delta: string)
    requires Agrees(s, b)
    ensures
      var (s', parts) := AddText(s, delta);
      Bracketed(b, parts) && Agrees(s', After(b, parts))
  {
    hide TextId, ReasoningId;
    if s.openTextId.None? {
      var id := TextId(s.textIds);
      NewText(s, b);
      Two(b, TextStart(id), TextChunk(id, delta));
    } else {
      One(b, TextChunk(s.openTextId.value, delta));
    }
  }

  lemma TextDoneBracketed(s: State, b: Brackets)
    requires Agrees(s, b)
    ensures
      var (s', parts) := MapEvent(s, TextDone);
      Bracketed(b, parts) && Agrees(s', After(b, parts))
  {
    hide TextId, ReasoningId;
    if s.openTextId.Some? {
      var n: nat :| s.openTextId.value == TextId(n);
      KindsOfIds(n, s.reasoningIds);
      One(b, TextEnd(s.openTextId.value));
    }
  }

  lemma ReasoningBracketed(s: State, b: Brackets, delta: string)
    requires Agrees(s, b)
    ensures
      var (s', parts) := AddReasoning(s, delta);
      Bracketed(b, parts) && Agrees(s', After(b, parts))
  {
    hide TextId, ReasoningId;
    var id := ReasoningId(s.reasoningIds);
    if ReasoningKey(s) !in s.outputItems {
      NewReasoning(s, b, Tracked("reasoning", id, None, None));
      Two(b, ReasoningStart(id), ReasoningChunk(id, delta));
    } else {
      One(b, ReasoningChunk(id, delta));
    }
  }

  // ---------------------------------------------------------------- whole streams

  lemma {:induction false} EmittedBracketed(h: seq<Event>)
    requires forall e | e in h :: NaturalIndex(e)
    ensures Bracketed(NONE, Emitted(h)) && Agrees(ResponseStream.After(h), After(NONE, Emitted(h)))
    decreases |h|
  {
    hide Agrees, MapEvent;
    if h == [] {
      StartAgrees();
    } else {
      EmittedBracketed(Front(h));
      var s := ResponseStream.After(Front(h));
      EventBracketed(s, After(NONE, Emitted(Front(h))), Last(h));
      BracketedAppend(NONE, Emitted(Front(h)), MapEvent(s, Last(h)).1);
    }
  }

  lemma StartAgrees()
    ensures Agrees(START, NONE)
  {
  }

  lemma {:induction false} FlushIsTools(s: State, order: seq<int>)
    ensures forall p | p in FlushCalls(s, order).1 :: IsTool(p) && !p.Finish?
    decreases order
  {
    if order != [] {
      var (s1, _) := FlushOne(s, order[0]);
      FlushIsTools(s1, order[1..]);
    }
  }

  /** The last terminal event decides the finish reason. */
  function Terminal(h: seq<Event>): Option<FinishReason> {
    if h == [] then None
    else
      match Last(h)
      case Completed(response) => Some(StatusReason(response))
      case Incomplete(response) => Some(IncompleteReason(response))
      case Failed(_) => Some(ErrorReason)
      case Error(_) => Some(ErrorReason)
      case _ => Terminal(Front(h))
  }

  lemma {:induction false} TerminalIsKept(h: seq<Event>)
    ensures ResponseStream.After(h).finishReason == Terminal(h)
    decreases |h|
  {
    if h != [] {
      TerminalIsKept(Front(h));
    }
  }

  lemma {:induction false} FlushKeeps(s: State, order: seq<int>)
    ensures FlushCalls(s, order).0.finishReason == s.finishReason
    decreases order
  {
    if order != [] {
      var (s1, _) := FlushOne(s, order[0]);
      FlushKeeps(s1, order[1..]);
    }
  }

  lemma NoFinishEvent(s: State, e: Event)
    ensures forall p | p in MapEvent(s, e).1 :: !p.Finish?
  {
    hide NumberedInt, Numbered;
  }

  lemma {:induction false} NoFinishYet(h: seq<Event>)
    ensures forall p | p in Emitted(h) :: !p.Finish?
    decreases |h|
  {
    hide MapEvent;
    if h != [] {
      NoFinishYet(Front(h));
      NoFinishEvent(ResponseStream.After(Front(h)), Last(h));
    }
  }

  /** For every event sequence with natural output indices, legal or not: starts use new ids,
      deltas and ends refer to open parts, and the output ends with its one `Finish`, whose
      reason is unknown exactly when no terminal event arrived. */
  lemma OutputIsBracketed(h: seq<Event>)
    requires forall e | e in h :: NaturalIndex(e)
    ensures
      var out := Output(h);
      && Bracketed(NONE, out)
      && out != [] && Last(out).Finish?
      && (forall p | p in Front(out) :: !p.Finish?)
      && (Last(out).reason == Unknown <==> Terminal(h).None?)
      && (Terminal(h).Some? && Terminal(h) != Some(Stop) ==> Last(out).reason == Terminal(h).value)
      && (Terminal(h) == Some(Stop) ==> Last(out).reason in {Stop, ToolCalls})
  {
    hide Agrees, MapEvent, FlushCalls, Emitted, Terminal, Bracketed, After;
    EmittedBracketed(h);
    NoFinishYet(h);
    TerminalIsKept(h);
    var s := ResponseStream.After(h);
    var b := After(NONE, Emitted(h));
    var closed := s.(openTextId := None);
    var (s1, calls) := FlushCalls(closed, s.toolArgs.order);
    FlushIsTools(closed, s.toolArgs.order);
    FlushKeeps(closed, s.toolArgs.order);
    var rest := calls + [Finish(Reason(s1), s1.usage, IfTruthy(s1.responseId))];
    ClosingText(s, b);
    ToolsOnly(After(b, CloseText(s)), rest);
    BracketedAppend(b, CloseText(s), rest);
    assert CloseText(s) + rest == Ending(s);
    BracketedAppend(NONE, Emitted(h), Ending(s));
    assert Front(Output(h)) == Emitted(h) + CloseText(s) + calls;
    TerminalReasons(h);
  }

  lemma ClosingText(s: State, b: Brackets)
    requires Agrees(s, b)
    ensures Bracketed(b, CloseText(s))
  {
    if s.openTextId.Some? {
      One(b, TextEnd(s.openTextId.value));
    }
  }

  lemma {:induction false} TerminalReasons(h: seq<Event>)
    ensures Terminal(h) != Some(Unknown) && Terminal(h) != Some(ToolCalls)
    decreases |h|
  {
    if h != [] {
      TerminalReasons(Front(h));
    }
  }

  /** Natural indices are needed: an item added under the reasoning key makes a reasoning
      delta refer to a part that was never started. */
  lemma NegativeIndexBreaksBrackets(item: Item, delta: string)
    requires item.kind == "other"
    ensures !Bracketed(NONE, Output([ItemAdded(-1000, item), ReasoningDelta(delta)]))
  {
    var h := [ItemAdded(-1000, item), ReasoningDelta(delta)];
    assert Front(h) == [ItemAdded(-1000, item)] && Front(Front(h)) == [];
    var chunk := ReasoningChunk(ReasoningId(0), delta);
    assert Emitted(Front(h)) == [];
    assert Emitted(h) == [chunk];
    One(NONE, chunk);
    BracketedAppend(NONE, Emitted(h), Ending(ResponseStream.After(h)));
  }
}
