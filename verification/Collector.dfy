/** The non-streaming collectors: the fold over a stream's parts, and the loop that computes it. */
module Collector {
  import opened Common
  import opened ResponseStream
  import opened ToolCalls

  datatype Content = Text(text: string) | Reasoning(text: string) | Call(id: string, toolName: string, input: string)

  datatype Tool = Tool(toolName: string, input: string)

  datatype Gathered = Gathered(
    texts: map<string, string>, reasonings: map<string, string>, tools: map<string, Tool>,
    content: seq<Content>, reason: FinishReason, usage: Option<Usage>)

  datatype Result = Returned(content: seq<Content>, reason: FinishReason, usage: Option<Usage>) | Thrown(message: string)

  const EMPTY := Gathered(map[], map[], map[], [], OtherReason, None)

  function Lookup(m: map<string, string>, id: string): string {
    if id in m then m[id] else ""
  }

  function WithContent(s: Gathered, c: Content): Gathered {
    s.(content := s.content + [c])
  }

  function Collect(s: Gathered, p: Part): Gathered {
    match p
    case TextStart(id) => s.(texts := s.texts[id := ""])
    case TextChunk(id, delta) => s.(texts := s.texts[id := Lookup(s.texts, id) + delta])
    case TextEnd(id) => if Lookup(s.texts, id) != "" then WithContent(s, Text(s.texts[id])) else s
    case ReasoningStart(id) => s.(reasonings := s.reasonings[id := ""])
    case ReasoningChunk(id, delta) => s.(reasonings := s.reasonings[id := Lookup(s.reasonings, id) + delta])
    case ReasoningEnd(id) =>
      if Lookup(s.reasonings, id) != "" then WithContent(s, Reasoning(s.reasonings[id])) else s
    case ToolInputStart(id, toolName) => s.(tools := s.tools[id := Tool(toolName, "")])
    case ToolInputDelta(id, delta) =>
      if id in s.tools then s.(tools := s.tools[id := s.tools[id].(input := s.tools[id].input + delta)]) else s
    case ToolInputEnd(id) =>
      if id in s.tools then WithContent(s, Call(id, s.tools[id].toolName, s.tools[id].input)) else s
    case Finish(reason, usage, _) => s.(reason := reason, usage := usage)
    case ToolCall(_, _, _, _) => s
    case ErrorPart(_) => s
  }

  function CollectAll(s: Gathered, parts: seq<Part>): Gathered {
    if parts == [] then s else Collect(CollectAll(s, Front(parts)), Last(parts))
  }

  /** The message of the first error part, which is thrown. */
  function FirstError(parts: seq<Part>): Option<string> {
    if parts == [] then None
    else if FirstError(Front(parts)).Some? then FirstError(Front(parts))
    else if Last(parts).ErrorPart? then Some(Last(parts).message)
    else None
  }

  lemma {:induction false} NoErrorFound(parts: seq<Part>)
    requires forall p | p in parts :: !p.ErrorPart?
    ensures FirstError(parts).None?
    decreases |parts|
  {
    if parts != [] {
      assert Last(parts) in parts;
      NoErrorFound(Front(parts));
    }
  }

  lemma {:induction false} ErrorOfBoth(p: seq<Part>, q: seq<Part>)
    ensures FirstError(p + q) == if FirstError(p).Some? then FirstError(p) else FirstError(q)
    decreases |q|
  {
    if q == [] {
      assert p + q == p;
    } else {
      ErrorOfBoth(p, Front(q));
      assert Front(p + q) == p + Front(q);
    }
  }

  lemma ErrorOfOne(p: Part)
    ensures FirstError([p]) == if p.ErrorPart? then Some(p.message) else None
  {
    assert Front([p]) == [];
  }

  function Generated(parts: seq<Part>): Result {
    if FirstError(parts).Some? then Thrown(FirstError(parts).value)
    else var s := CollectAll(EMPTY, parts); Returned(s.content, s.reason, s.usage)
  }

  lemma {:induction false} FirstErrorStays(parts: seq<Part>, n: nat)
    requires n <= |parts| && FirstError(parts[..n]).Some?
    ensures FirstError(parts) == FirstError(parts[..n])
    decreases |parts|
  {
    if n < |parts| {
      assert Front(parts)[..n] == parts[..n];
      FirstErrorStays(Front(parts), n);
    } else {
      assert parts[..n] == parts;
    }
  }

  /** `doGenerate`, once the stream is there. */
  method DoGenerate(parts: seq<Part>) returns (r: Result)
    ensures r == Generated(parts)
  {
    var content: seq<Content> := [];
    var reason, usage := OtherReason, None;
    var textParts: map<string, string>, reasoningParts: map<string, string> := map[], map[];
    var toolInputParts: map<string, Tool> := map[];
    for i := 0 to |parts|
      invariant FirstError(parts[..i]).None?
      invariant Gathered(textParts, reasoningParts, toolInputParts, content, reason, usage) == CollectAll(EMPTY, parts[..i])
    {
      assert Front(parts[..i + 1]) == parts[..i];
      match parts[i]
      case TextStart(id) => textParts := textParts[id := ""];
      case TextChunk(id, delta) =>
        textParts := textParts[id := (if id in textParts then textParts[id] else "") + delta];
      case TextEnd(id) =>
        if id in textParts && textParts[id] != "" {
          content := content + [Text(textParts[id])];
        }
      case ReasoningStart(id) => reasoningParts := reasoningParts[id := ""];
      case ReasoningChunk(id, delta) =>
        reasoningParts := reasoningParts[id := (if id in reasoningParts then reasoningParts[id] else "") + delta];
      case ReasoningEnd(id) =>
        if id in reasoningParts && reasoningParts[id] != "" {
          content := content + [Reasoning(reasoningParts[id])];
        }
      case ToolInputStart(id, toolName) => toolInputParts := toolInputParts[id := Tool(toolName, "")];
      case ToolInputDelta(id, delta) =>
        if id in toolInputParts {
          var tool := toolInputParts[id];
          toolInputParts := toolInputParts[id := tool.(input := tool.input + delta)];
        }
      case ToolInputEnd(id) =>
        if id in toolInputParts {
          content := content + [Call(id, toolInputParts[id].toolName, toolInputParts[id].input)];
        }
      case Finish(r, u, _) => reason, usage := r, u;
      case ToolCall(_, _, _, _) =>
      case ErrorPart(message) =>
        FirstErrorStays(parts, i + 1);
        return Thrown(message);
    }
    assert parts[..|parts|] == parts;
    r := Returned(content, reason, usage);
  }

  lemma {:induction false} CollectAppend(s: Gathered, p: seq<Part>, q: seq<Part>)
    ensures CollectAll(s, p + q) == CollectAll(CollectAll(s, p), q)
    decreases |q|
  {
    hide Collect;
    if q == [] {
      assert p + q == p;
    } else {
      CollectAppend(s, p, Front(q));
      assert Front(p + q) == p + Front(q);
    }
  }

  lemma CollectOne(s: Gathered, p: Part)
    ensures CollectAll(s, [p]) == Collect(s, p)
  {
    assert Front([p]) == [];
  }

  lemma CollectTwo(s: Gathered, p: Part, q: Part)
    ensures CollectAll(s, [p, q]) == Collect(Collect(s, p), q)
  {
    hide Collect;
    assert Front([p, q]) == [p];
    CollectOne(s, p);
  }

  lemma CollectFour(s: Gathered, p: Part, q: Part, r: Part, t: Part)
    ensures CollectAll(s, [p, q, r, t]) == Collect(Collect(Collect(Collect(s, p), q), r), t)
  {
    hide Collect;
    CollectAppend(s, [p, q], [r, t]);
    assert [p, q] + [r, t] == [p, q, r, t];
    CollectTwo(s, p, q);
    CollectTwo(Collect(Collect(s, p), q), r, t);
  }
}
