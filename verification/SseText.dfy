/** What the two line parsers take out of a text, said in terms of how its lines are written
    rather than of how they are read. */
module SseText {
  import opened Common
  import opened SseLines

  /** A line, by what is in it. `Other` is a comment, an event type or anything else. */
  datatype Line =
    | Data(left: string, payload: string, right: string)
    | Mark(left: string, right: string)
    | NoPayload(left: string, right: string)
    | Blank(left: string)
    | Other(left: string, text: string)

  function Written(line: Line): string {
    match line
    case Data(left, payload, right) => left + ("data: " + payload + right)
    case Mark(left, right) => left + ("data: [DONE]" + right)
    case NoPayload(left, right) => left + ("data:" + right)
    case Blank(left) => left
    case Other(left, text) => left + text
  }

  ghost predicate Spaces(s: string) {
    forall c | c in s :: IsSpace(c) && c != '\n'
  }

  /** A payload may begin with white space, but what ends it is no white space. */
  ghost predicate Good(line: Line) {
    Spaces(line.left) &&
    match line
    case Data(_, payload, right) =>
      '\n' !in payload && payload != "" && !IsSpace(Last(payload)) && payload != "[DONE]" && Spaces(right)
    case Mark(_, right) => Spaces(right)
    case NoPayload(_, right) => Spaces(right)
    case Blank(_) => true
    case Other(_, text) => '\n' !in text && text != "" && !IsSpace(text[0]) && !("data: " <= text)
  }

  ghost predicate AllGood(lines: seq<Line>) {
    forall i | 0 <= i < |lines| :: Good(lines[i])
  }

  function Text(lines: seq<Line>): string {
    if lines == [] then "" else Written(lines[0]) + "\n" + Text(lines[1..])
  }

  function Parsed<E>(payload: string, parse: string -> Option<E>): seq<E> {
    match parse(payload)
    case Some(event) => [event]
    case None => []
  }

  /** The payloads that parse, in order, up to the first end mark. */
  function UpToMark<E>(lines: seq<Line>, parse: string -> Option<E>): seq<E> {
    if lines == [] then []
    else
      match lines[0]
      case Data(_, payload, _) => Parsed(payload, parse) + UpToMark(lines[1..], parse)
      case Mark(_, _) => []
      case _ => UpToMark(lines[1..], parse)
  }

  /** The payloads that parse, in order; the end mark is a payload like any other. */
  function AllPayloads<E>(lines: seq<Line>, parse: string -> Option<E>): seq<E> {
    if lines == [] then []
    else
      match lines[0]
      case Data(_, payload, _) => Parsed(payload, parse) + AllPayloads(lines[1..], parse)
      case Mark(_, _) => Parsed("[DONE]", parse) + AllPayloads(lines[1..], parse)
      case _ => AllPayloads(lines[1..], parse)
  }

  // ---------------------------------------------------------------- white space

  /** Among the characters up to 127, white space is the space, the tab, the line feed, the
      vertical tab, the form feed and the carriage return. */
  lemma AsciiSpace(c: char)
    requires c < 128 as char
    ensures IsSpace(c) <==> c as int in {9, 10, 11, 12, 13, 32}
  {
  }

  lemma {:induction false} TrimLeft(left: string, s: string)
    requires Spaces(left)
    ensures Trim(left + s) == Trim(s)
  {
    if left == "" {
      assert left + s == s;
    } else {
      assert left[0] in left;
      assert (left + s)[1..] == left[1..] + s;
      TrimLeft(left[1..], s);
    }
  }

  lemma {:induction false} TrimRight(s: string, right: string)
    requires Spaces(right) && s != "" && !IsSpace(s[0]) && !IsSpace(Last(s))
    ensures Trim(s + right) == s
  {
    if right == "" {
      assert s + right == s;
    } else {
      assert Last(right) in right;
      assert (s + right)[..|s + right| - 1] == s + Front(right);
      TrimRight(s, Front(right));
    }
  }

  /** What begins with no white space keeps its first character, and is cut only at its end. */
  lemma {:induction false} TrimKeeps(s: string)
    requires s != "" && !IsSpace(s[0])
    ensures Trim(s) != "" && Trim(s) <= s && Trim(s)[0] == s[0]
  {
    if IsSpace(Last(s)) {
      TrimKeeps(Front(s));
    }
  }

  // ---------------------------------------------------------------- one line

  lemma LineRead<E>(line: Line, parse: string -> Option<E>)
    requires Good(line)
    ensures IsDone(Written(line)) <==> line.Mark?
    ensures
      LineEvent(Written(line), parse) == if line.Data? then Parsed(line.payload, parse) else []
    ensures
      PayloadEvent(Written(line), parse)
      == if line.Data? then Parsed(line.payload, parse) else if line.Mark? then Parsed("[DONE]", parse) else []
  {
    hide IsSpace;
    Letters();
    match line
    case Data(left, payload, right) =>
      hide Trim;
      var field := "data: " + payload;
      assert field[6..] == payload && (payload != "[DONE]" ==> field != DONE);
      TrimLeft(left, field + right);
      TrimRight(field, right);
    case Mark(left, right) =>
      hide Trim;
      assert DONE[6..] == "[DONE]";
      TrimLeft(left, "data: [DONE]" + right);
      TrimRight("data: [DONE]", right);
    case NoPayload(left, right) =>
      hide Trim;
      TrimLeft(left, "data:" + right);
      TrimRight("data:", right);
    case Blank(left) =>
      assert left + "" == left;
      TrimLeft(left, "");
    case Other(left, text) =>
      hide Trim;
      TrimLeft(left, text);
      TrimKeeps(text);
      OtherPrefix(Trim(text), text);
  }

  lemma Letters()
    ensures !IsSpace('d') && !IsSpace(']') && !IsSpace(':')
  {
  }

  lemma OtherPrefix(s: string, text: string)
    requires s <= text && !("data: " <= text)
    ensures !("data: " <= s) && s != "data: [DONE]"
  {
  }

  // ---------------------------------------------------------------- whole texts

  function Lines(lines: seq<Line>): (texts: seq<string>)
    ensures |texts| == |lines|
  {
    if lines == [] then [] else [Written(lines[0])] + Lines(lines[1..])
  }

  lemma OneLine(line: Line)
    requires Good(line)
    ensures '\n' !in Written(line)
  {
  }

  lemma {:induction false} SplitText(lines: seq<Line>, tail: string)
    requires AllGood(lines) && '\n' !in tail
    ensures Split(Text(lines) + tail) == Lines(lines) + [tail]
  {
    hide Split, Written, Good;
    if lines == [] {
      assert Text(lines) + tail == tail;
      NoNewline(tail);
    } else {
      OneLine(lines[0]);
      SplitText(lines[1..], tail);
      var rest := Text(lines[1..]) + tail;
      assert Text(lines) + tail == Written(lines[0]) + ("\n" + rest);
      SplitAppend(Written(lines[0]), "\n" + rest);
      NoNewline(Written(lines[0]));
      SplitTerminated(Written(lines[0]), rest);
    }
  }

  lemma {:induction false} SplitTerminated(line: string, rest: string)
    requires '\n' !in line
    ensures Split(line + ("\n" + rest)) == [line] + Split(rest)
  {
    if line == "" {
      assert line + ("\n" + rest) == "\n" + rest;
      assert ("\n" + rest)[1..] == rest;
    } else {
      assert line[0] in line;
      SplitTerminated(line[1..], rest);
      assert (line + ("\n" + rest))[1..] == line[1..] + ("\n" + rest);
      assert line == [line[0]] + line[1..];
    }
  }

  lemma {:induction false} ScanLinesRead<E>(lines: seq<Line>, parse: string -> Option<E>)
    requires AllGood(lines)
    ensures Scan(Lines(lines), parse) == UpToMark(lines, parse)
  {
    hide Written, IsDone, LineEvent, Good;
    if lines != [] {
      LineRead(lines[0], parse);
      ScanLinesRead(lines[1..], parse);
      assert Lines(lines)[1..] == Lines(lines[1..]);
    }
  }

  lemma {:induction false} PayloadsRead<E>(lines: seq<Line>, parse: string -> Option<E>)
    requires AllGood(lines)
    ensures Payloads(Lines(lines), parse) == AllPayloads(lines, parse)
  {
    hide Written, PayloadEvent, Good;
    if lines == [] {
      BlankPayloads(parse);
    } else {
      LineRead(lines[0], parse);
      PayloadsRead(lines[1..], parse);
      PayloadsAppend([Written(lines[0])], Lines(lines[1..]), parse);
      OnePayload(Written(lines[0]), parse);
    }
  }

  /** The Codex parser: of a text of any lines, with any unterminated rest, exactly the
      payloads before the first `data: [DONE]` are parsed, without their white space. */
  lemma CodexTakesPayloads<E>(lines: seq<Line>, tail: string, parse: string -> Option<E>)
    requires AllGood(lines) && '\n' !in tail
    ensures CodexEvents(Text(lines) + tail, parse) == UpToMark(lines, parse)
  {
    SplitText(lines, tail);
    ScanLinesRead(lines, parse);
    assert Front(Lines(lines) + [tail]) == Lines(lines);
  }

  /** The Anthropic parser: exactly the payloads are parsed, that of an unterminated last line
      among them; event types, comments and blank lines say nothing, and no mark ends the
      stream. */
  lemma AnthropicTakesPayloads<E>(lines: seq<Line>, last: Line, parse: string -> Option<E>)
    requires AllGood(lines) && Good(last)
    ensures
      AnthropicEvents(Text(lines) + Written(last), parse)
      == AllPayloads(lines, parse) + AllPayloads([last], parse)
  {
    hide Split, Text, PayloadEvent;
    OneLine(last);
    SplitText(lines, Written(last));
    PayloadsRead(lines, parse);
    PayloadsRead([last], parse);
    assert Lines([last]) == [Written(last)];
    PayloadsAppend(Lines(lines), [Written(last)], parse);
  }

  // ---------------------------------------------------------------- every line is one of these

  lemma {:induction false} SplitLeft(s: string) returns (left: string, rest: string)
    requires '\n' !in s
    ensures s == left + rest && Spaces(left) && (rest != "" ==> !IsSpace(rest[0]))
  {
    if s == "" || !IsSpace(s[0]) {
      left, rest := "", s;
    } else {
      assert s[0] in s;
      left, rest := SplitLeft(s[1..]);
      assert s == [s[0]] + s[1..];
      left := [s[0]] + left;
    }
  }

  lemma {:induction false} SplitRight(s: string) returns (rest: string, right: string)
    requires '\n' !in s
    ensures s == rest + right && Spaces(right) && (rest != "" ==> !IsSpace(Last(rest)))
  {
    if s == "" || !IsSpace(Last(s)) {
      rest, right := s, "";
    } else {
      assert Last(s) in s;
      rest, right := SplitRight(Front(s));
      assert s == Front(s) + [Last(s)];
      right := right + [Last(s)];
    }
  }

  lemma EveryLineIsOne(s: string) returns (line: Line)
    requires '\n' !in s
    ensures Good(line) && Written(line) == s
  {
    var left, rest := SplitLeft(s);
    if rest == "" {
      line := Blank(left);
    } else if "data: " <= rest {
      assert rest == "data: " + rest[6..];
      var payload, right := SplitRight(rest[6..]);
      if payload == "" {
        SpaceCharacter();
        assert "data: " + right == "data:" + (" " + right);
        line := NoPayload(left, " " + right);
      } else if payload == "[DONE]" {
        assert "data: " + "[DONE]" == "data: [DONE]";
        line := Mark(left, right);
      } else {
        line := Data(left, payload, right);
        assert "data: " + payload + right == "data: " + (payload + right);
      }
    } else {
      line := Other(left, rest);
    }
  }

  lemma SpaceCharacter()
    ensures IsSpace(' ')
  {
  }

  /** So the two theorems speak of every text. */
  lemma EveryTextIsOne(s: string)
    ensures exists lines, last :: AllGood(lines) && Good(last) && s == Text(lines) + Written(last)
  {
    SplitIsLossless(s);
    var lines, last := EveryJoin(Split(s));
  }

  lemma {:induction false} EveryJoin(pieces: seq<string>) returns (lines: seq<Line>, last: Line)
    requires |pieces| > 0 && forall piece | piece in pieces :: '\n' !in piece
    ensures AllGood(lines) && Good(last) && JoinLines(pieces) == Text(lines) + Written(last)
  {
    hide Written, Good;
    assert pieces[0] in pieces;
    var first := EveryLineIsOne(pieces[0]);
    if |pieces| == 1 {
      lines, last := [], first;
    } else {
      var rest;
      rest, last := EveryJoin(pieces[1..]);
      lines := [first] + rest;
      assert lines[1..] == rest;
    }
  }
}
