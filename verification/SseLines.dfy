/** The chunked line parsers of the two providers. Both are proved to compute a function of
    the whole text, so the way the text was cut into chunks does not matter. */
module SseLines {
  import opened Common

  // ---------------------------------------------------------------- text

  /** White space as `trim` strips it. */
  predicate IsSpace(c: char) {
    || '\t' <= c <= '\r' || c == ' ' || c == '\U{a0}' || c == '\U{1680}' || '\U{2000}' <= c <= '\U{200a}'
    || c == '\U{2028}' || c == '\U{2029}' || c == '\U{202f}' || c == '\U{205f}' || c == '\U{3000}' || c == '\U{feff}'
  }

  function Trim(s: string): string {
    if s == "" then ""
    else if IsSpace(s[0]) then Trim(s[1..])
    else if IsSpace(s[|s| - 1]) then Trim(s[..|s| - 1])
    else s
  }

  /** The pieces of a text between newlines; there is always at least one. */
  function Split(s: string): (pieces: seq<string>)
    ensures |pieces| > 0
  {
    if s == "" then [""]
    else if s[0] == '\n' then [""] + Split(s[1..])
    else
      var rest := Split(s[1..]);
      [[s[0]] + rest[0]] + rest[1..]
  }

  function JoinLines(pieces: seq<string>): string {
    if |pieces| == 0 then ""
    else if |pieces| == 1 then pieces[0]
    else pieces[0] + "\n" + JoinLines(pieces[1..])
  }

  /** Splitting is the inverse of joining newline-free pieces: it loses nothing, and there is
      no other way to cut the text at its newlines. */
  lemma {:induction false} SplitIsLossless(s: string)
    ensures JoinLines(Split(s)) == s
    ensures forall piece | piece in Split(s) :: '\n' !in piece
  {
    if s != "" {
      SplitIsLossless(s[1..]);
      var rest := Split(s[1..]);
      if s[0] == '\n' {
        assert ([""] + rest)[1..] == rest;
      } else {
        var pieces := [[s[0]] + rest[0]] + rest[1..];
        assert rest == [rest[0]] + rest[1..];
        assert pieces[1..] == rest[1..];
        assert JoinLines(pieces) == [s[0]] + JoinLines(rest);
      }
    }
  }

  lemma {:induction false} SplitIsUnique(pieces: seq<string>)
    requires |pieces| > 0 && forall piece | piece in pieces :: '\n' !in piece
    ensures Split(JoinLines(pieces)) == pieces
    decreases |pieces|, |pieces[0]|
  {
    var s := JoinLines(pieces);
    if pieces[0] == "" {
      if |pieces| > 1 {
        assert s[1..] == JoinLines(pieces[1..]);
        SplitIsUnique(pieces[1..]);
      }
    } else {
      var shorter := [pieces[0][1..]] + pieces[1..];
      assert pieces[0] == [pieces[0][0]] + pieces[0][1..];
      assert shorter[1..] == pieces[1..];
      assert s[1..] == JoinLines(shorter);
      assert pieces[0][0] in pieces[0];
      forall piece | piece in shorter ensures '\n' !in piece {
        if piece == shorter[0] {
          assert pieces[0] in pieces;
        }
      }
      SplitIsUnique(shorter);
    }
  }

  /** A character that is not a newline goes in front of the first piece. */
  function Prepend(c: char, pieces: seq<string>): seq<string>
    requires |pieces| > 0
  {
    [[c] + pieces[0]] + pieces[1..]
  }

  lemma SplitNothing()
    ensures Split("") == [""]
  {
  }

  lemma SplitCons(s: string)
    requires s != ""
    ensures Split(s) == if s[0] == '\n' then [""] + Split(s[1..]) else Prepend(s[0], Split(s[1..]))
  {
  }

  lemma PrependContinues(c: char, rest: seq<string>, b: string)
    requires |rest| > 0 && c != '\n'
    ensures Front(Prepend(c, rest)) + Split(Last(Prepend(c, rest)) + b)
         == Prepend(c, Front(rest) + Split(Last(rest) + b))
  {
    var pieces := Prepend(c, rest);
    if |rest| == 1 {
      assert [c] + rest[0] + b == [c] + (rest[0] + b);
      SplitCons([c] + (rest[0] + b));
      assert ([c] + (rest[0] + b))[1..] == rest[0] + b;
      assert Front(pieces) == [] && Front(rest) == [];
      assert [] + Split(rest[0] + b) == Split(rest[0] + b);
    } else {
      hide Split;
      var tail := Split(Last(rest) + b);
      assert Front(pieces) == [[c] + rest[0]] + Front(rest)[1..];
      assert Last(pieces) == Last(rest);
      assert (Front(rest) + tail)[0] == rest[0];
      assert (Front(rest) + tail)[1..] == Front(rest)[1..] + tail;
    }
  }

  /** More text only continues the last piece. */
  lemma {:induction false} SplitAppend(a: string, b: string)
    ensures Split(a + b) == Front(Split(a)) + Split(Last(Split(a)) + b)
  {
    hide Split;
    if a == "" {
      SplitNothing();
      assert a + b == b && Last([""]) + b == b && Front([""]) == [];
      assert [] + Split(b) == Split(b);
    } else {
      SplitAppend(a[1..], b);
      SplitCons(a);
      SplitCons(a + b);
      assert (a + b)[1..] == a[1..] + b;
      var rest := Split(a[1..]);
      if a[0] == '\n' {
        assert Front([""] + rest) == [""] + Front(rest);
        assert Last([""] + rest) == Last(rest);
      } else {
        PrependContinues(a[0], rest, b);
      }
    }
  }

  function Concat(chunks: seq<string>): string {
    if chunks == [] then "" else Concat(Front(chunks)) + Last(chunks)
  }

  lemma ConcatSnoc(chunks: seq<string>, i: nat)
    requires i < |chunks|
    ensures Concat(chunks[..i + 1]) == Concat(chunks[..i]) + chunks[i]
  {
    assert Front(chunks[..i + 1]) == chunks[..i];
  }

  // ---------------------------------------------------------------- the Codex parser

  const DATA := "data: "
  const DONE := "data: [DONE]"

  predicate IsDone(line: string) {
    Trim(line) == DONE
  }

  /** The event of a line, if it has one; a payload that does not parse is skipped. */
  function LineEvent<E>(line: string, parse: string -> Option<E>): seq<E> {
    var trimmed := Trim(line);
    if trimmed == "" || trimmed[0] == ':' || trimmed == DONE then []
    else if DATA <= trimmed then
      var event := parse(trimmed[|DATA|..]);
      if event.Some? then [event.value] else []
    else []
  }

  /** The events of the lines before the first end mark. */
  function Scan<E>(lines: seq<string>, parse: string -> Option<E>): seq<E> {
    if lines == [] || IsDone(lines[0]) then []
    else LineEvent(lines[0], parse) + Scan(lines[1..], parse)
  }

  predicate HasDone(lines: seq<string>) {
    exists i | 0 <= i < |lines| :: IsDone(lines[i])
  }

  /** What the Codex parser makes of a text: the events of its complete lines, up to the end
      mark. An unterminated last line is dropped. */
  function CodexEvents<E>(text: string, parse: string -> Option<E>): seq<E> {
    Scan(Front(Split(text)), parse)
  }

  lemma HasDoneCons(a: seq<string>)
    requires a != []
    ensures HasDone(a) <==> IsDone(a[0]) || HasDone(a[1..])
  {
    hide IsDone;
    if HasDone(a) {
      var i :| 0 <= i < |a| && IsDone(a[i]);
      if i > 0 {
        assert a[1..][i - 1] == a[i];
      }
    }
    if HasDone(a[1..]) {
      var i :| 0 <= i < |a[1..]| && IsDone(a[1..][i]);
      assert a[i + 1] == a[1..][i];
    }
  }

  lemma {:induction false} ScanAppend<E>(a: seq<string>, b: seq<string>, parse: string -> Option<E>)
    ensures Scan(a + b, parse) == Scan(a, parse) + if HasDone(a) then [] else Scan(b, parse)
  {
    hide IsDone, LineEvent, HasDone;
    if a == [] {
      assert a + b == b;
      NoneDone();
    } else {
      HasDoneCons(a);
      assert (a + b)[0] == a[0] && (a + b)[1..] == a[1..] + b;
      if !IsDone(a[0]) {
        ScanAppend(a[1..], b, parse);
      }
    }
  }

  lemma NoneDone()
    ensures !HasDone([])
  {
  }

  lemma ScanNone<E>(parse: string -> Option<E>)
    ensures Scan([], parse) == []
  {
  }

  lemma ScanOneMore<E>(lines: seq<string>, line: string, parse: string -> Option<E>)
    requires !HasDone(lines) && !IsDone(line)
    ensures !HasDone(lines + [line])
    ensures Scan(lines + [line], parse) == Scan(lines, parse) + LineEvent(line, parse)
  {
    ScanAppend(lines, [line], parse);
  }

  /** The inner loop of `parseSSEStream`: the lines of one chunk, up to the end mark. */
  method ScanLines<E>(lines: seq<string>, parse: string -> Option<E>) returns (events: seq<E>, done: bool)
    ensures events == Scan(lines, parse) && done == HasDone(lines)
  {
    hide Scan, HasDone, Trim;
    events, done := [], false;
    NoneDone();
    ScanNone(parse);
    var j := 0;
    while j < |lines|
      invariant 0 <= j <= |lines|
      invariant !HasDone(lines[..j]) && events == Scan(lines[..j], parse)
    {
      assert lines == lines[..j] + lines[j..];
      assert lines[..j + 1] == lines[..j] + [lines[j]];
      var trimmed := Trim(lines[j]);
      if trimmed != "" && trimmed[0] != ':' {
        if trimmed == "data: [DONE]" {
          ScanAtMark(lines[..j], lines[j..], parse);
          return events, true;
        }
        if "data: " <= trimmed {
          var event := parse(trimmed[6..]);
          if event.Some? {
            events := events + [event.value];
          }
        }
      }
      ScanOneMore(lines[..j], lines[j], parse);
      j := j + 1;
    }
    assert lines[..|lines|] == lines;
  }

  lemma ScanAtMark<E>(seen: seq<string>, rest: seq<string>, parse: string -> Option<E>)
    requires !HasDone(seen) && |rest| > 0 && IsDone(rest[0])
    ensures Scan(seen + rest, parse) == Scan(seen, parse) && HasDone(seen + rest)
  {
    ScanAppend(seen, rest, parse);
    assert (seen + rest)[|seen|] == rest[0];
  }

  lemma HasDoneAppend(a: seq<string>, b: seq<string>)
    ensures HasDone(a + b) <==> HasDone(a) || HasDone(b)
  {
    hide IsDone;
    if HasDone(a) {
      var i :| 0 <= i < |a| && IsDone(a[i]);
      assert (a + b)[i] == a[i];
    }
    if HasDone(b) {
      var i :| 0 <= i < |b| && IsDone(b[i]);
      assert (a + b)[|a| + i] == b[i];
    }
  }

  /** `parseSSEStream`. */
  method ParseSseStream<E>(chunks: seq<string>, parse: string -> Option<E>) returns (events: seq<E>)
    ensures events == CodexEvents(Concat(chunks), parse)
  {
    hide Scan, HasDone, Split;
    events := [];
    var buffer := "";
    var i := 0;
    SplitNothing();
    NoneDone();
    ScanNone(parse);
    while i < |chunks|
      invariant 0 <= i <= |chunks|
      invariant !HasDone(Front(Split(Concat(chunks[..i]))))
      invariant events == Scan(Front(Split(Concat(chunks[..i]))), parse)
      invariant buffer == Last(Split(Concat(chunks[..i])))
    {
      ghost var before := Front(Split(Concat(chunks[..i])));
      ConcatSnoc(chunks, i);
      SplitAppend(Concat(chunks[..i]), chunks[i]);
      var pieces := Split(buffer + chunks[i]);
      var lines := Front(pieces);
      buffer := Last(pieces);
      i := i + 1;
      assert Front(Split(Concat(chunks[..i]))) == before + lines;
      ScanAppend(before, lines, parse);
      HasDoneAppend(before, lines);
      var more, done := ScanLines(lines, parse);
      events := events + more;
      if done {
        EndMark(chunks, i, parse);
        return;
      }
    }
    assert chunks[..|chunks|] == chunks;
  }

  /** Once the end mark has been reached the remaining chunks do not count. */
  lemma EndMark<E>(chunks: seq<string>, i: nat, parse: string -> Option<E>)
    requires i <= |chunks| && HasDone(Front(Split(Concat(chunks[..i]))))
    ensures CodexEvents(Concat(chunks), parse) == CodexEvents(Concat(chunks[..i]), parse)
  {
    hide Split, Concat, HasDone, Scan;
    ConcatSplit(chunks, i);
    SplitAppend(Concat(chunks[..i]), Concat(chunks[i..]));
    var seen := Front(Split(Concat(chunks[..i])));
    var later := Split(Last(Split(Concat(chunks[..i]))) + Concat(chunks[i..]));
    assert Front(Split(Concat(chunks))) == seen + Front(later);
    ScanAppend(seen, Front(later), parse);
  }

  lemma {:induction false} ConcatSplit(chunks: seq<string>, i: nat)
    requires i <= |chunks|
    ensures Concat(chunks) == Concat(chunks[..i]) + Concat(chunks[i..])
    decreases |chunks| - i
  {
    if i == |chunks| {
      assert chunks[..i] == chunks;
    } else {
      ConcatSplit(chunks, i + 1);
      ConcatSnoc(chunks, i);
      ConcatCons(chunks[i], chunks[i + 1..]);
      assert chunks[i..] == [chunks[i]] + chunks[i + 1..];
    }
  }

  lemma {:induction false} ConcatCons(chunk: string, chunks: seq<string>)
    ensures Concat([chunk] + chunks) == chunk + Concat(chunks)
  {
    if chunks == [] {
      assert Front([chunk]) == [];
    } else {
      ConcatCons(chunk, Front(chunks));
      assert Front([chunk] + chunks) == [chunk] + Front(chunks);
    }
  }

  // ---------------------------------------------------------------- the Anthropic parser

  function PayloadEvent<E>(line: string, parse: string -> Option<E>): seq<E> {
    var trimmed := Trim(line);
    if trimmed == "" || "event: " <= trimmed || !(DATA <= trimmed) then []
    else
      var event := parse(trimmed[|DATA|..]);
      if event.Some? then [event.value] else []
  }

  function Payloads<E>(lines: seq<string>, parse: string -> Option<E>): seq<E> {
    if lines == [] then [] else Payloads(Front(lines), parse) + PayloadEvent(Last(lines), parse)
  }

  /** What the Anthropic parser makes of a text: the events of all its lines, the last one
      included even if it is not terminated. */
  function AnthropicEvents<E>(text: string, parse: string -> Option<E>): seq<E> {
    Payloads(Split(text), parse)
  }

  lemma {:induction false} PayloadsAppend<E>(a: seq<string>, b: seq<string>, parse: string -> Option<E>)
    ensures Payloads(a + b, parse) == Payloads(a, parse) + Payloads(b, parse)
  {
    hide PayloadEvent;
    if b == [] {
      assert a + b == a;
    } else {
      PayloadsAppend(a, Front(b), parse);
      assert Front(a + b) == a + Front(b);
    }
  }

  /** `processLines`; the event type it keeps is never consulted. */
  method ProcessLines<E>(text: string, parse: string -> Option<E>, eventType: string)
    returns (events: seq<E>, currentEventType: string)
    ensures events == Payloads(Split(text), parse)
  {
    events, currentEventType := [], eventType;
    var lines := Split(text);
    var i := 0;
    while i < |lines|
      invariant 0 <= i <= |lines|
      invariant events == Payloads(lines[..i], parse)
    {
      assert Front(lines[..i + 1]) == lines[..i];
      var trimmed := Trim(lines[i]);
      i := i + 1;
      if trimmed == "" {
        currentEventType := "";
      } else if "event: " <= trimmed {
        currentEventType := Trim(trimmed[7..]);
      } else if DATA <= trimmed {
        var event := parse(trimmed[|DATA|..]);
        if event.Some? {
          events := events + [event.value];
        }
      }
    }
    assert lines[..|lines|] == lines;
  }

  method LastIndexOfNewline(text: string) returns (at: int)
    ensures -1 <= at < |text|
    ensures at >= 0 ==> text[at] == '\n'
    ensures '\n' !in text[at + 1..]
  {
    at := |text| - 1;
    while at >= 0 && text[at] != '\n'
      invariant -1 <= at < |text|
      invariant '\n' !in text[at + 1..]
    {
      at := at - 1;
    }
  }

  /** Cutting behind the last newline: an empty piece ends the first part. */
  lemma {:induction false} SplitAtNewline(text: string, at: nat)
    requires at < |text| && text[at] == '\n' && '\n' !in text[at + 1..]
    ensures Split(text[..at + 1]) == Front(Split(text)) + [""]
    ensures text[at + 1..] == Last(Split(text))
  {
    var whole := text[..at + 1] + text[at + 1..];
    assert whole == text;
    SplitAppend(text[..at + 1], text[at + 1..]);
    EndsInNewline(text[..at + 1]);
    NoNewline(text[at + 1..]);
    assert "" + text[at + 1..] == text[at + 1..];
  }

  lemma {:induction false} EndsInNewline(s: string)
    requires |s| > 0 && s[|s| - 1] == '\n'
    ensures Last(Split(s)) == ""
  {
    if |s| > 1 {
      EndsInNewline(s[1..]);
      if s[0] != '\n' {
        PiecesOf(s[1..]);
      }
    } else {
      assert s[1..] == "";
    }
  }

  lemma {:induction false} PiecesOf(s: string)
    requires |s| > 0 && s[|s| - 1] == '\n'
    ensures |Split(s)| > 1
  {
    if |s| > 1 && s[0] != '\n' {
      PiecesOf(s[1..]);
    }
  }

  lemma {:induction false} NoNewline(s: string)
    requires '\n' !in s
    ensures Split(s) == [s]
  {
    if s != "" {
      assert s[0] in s;
      NoNewline(s[1..]);
      assert s == [s[0]] + s[1..];
    }
  }

  lemma BlankPayloads<E>(parse: string -> Option<E>)
    ensures Payloads([], parse) == []
    ensures Payloads([""], parse) == []
  {
  }

  lemma OnePayload<E>(line: string, parse: string -> Option<E>)
    ensures Payloads([line], parse) == PayloadEvent(line, parse)
  {
    assert Front([line]) == [];
  }

  /** `parseAnthropicSSE`, reading until the body ends. */
  method ParseAnthropicSse<E>(chunks: seq<string>, parse: string -> Option<E>) returns (events: seq<E>)
    ensures events == AnthropicEvents(Concat(chunks), parse)
  {
    hide Split, Payloads, Trim;
    SplitNothing();
    BlankPayloads(parse);
    events := [];
    var remainder, eventType := "", "";
    var i := 0;
    while i < |chunks|
      invariant 0 <= i <= |chunks|
      invariant events == Payloads(Front(Split(Concat(chunks[..i]))), parse)
      invariant remainder == Last(Split(Concat(chunks[..i])))
    {
      ghost var before := Front(Split(Concat(chunks[..i])));
      ConcatSnoc(chunks, i);
      SplitAppend(Concat(chunks[..i]), chunks[i]);
      var text := remainder + chunks[i];
      i := i + 1;
      assert Front(Split(Concat(chunks[..i]))) == before + Front(Split(text));
      PayloadsAppend(before, Front(Split(text)), parse);
      var lastNewline := LastIndexOfNewline(text);
      if lastNewline == -1 {
        NoNewline(text);
        remainder := text;
      } else {
        SplitAtNewline(text, lastNewline);
        var more;
        more, eventType := ProcessLines(text[..lastNewline + 1], parse, eventType);
        PayloadsAppend(Front(Split(text)), [""], parse);
        events := events + more;
        remainder := text[lastNewline + 1..];
      }
    }
    assert chunks[..|chunks|] == chunks;
    ghost var pieces := Split(Concat(chunks));
    assert pieces == Front(pieces) + [Last(pieces)];
    SplitIsLossless(Concat(chunks));
    NoNewline(remainder);
    PayloadsAppend(Front(pieces), [Last(pieces)], parse);
    OnePayload(remainder, parse);
    if Trim(remainder) != "" {
      var more;
      more, eventType := ProcessLines(remainder, parse, eventType);
      events := events + more;
    }
  }
}
