# Verified models of opencode's protocol, parser and data-structure cores

The project models the intricate cores of the opencode repository in Dafny and proves what they are
for.
Each core has a specification on values (functions, and state machines with their runs) and, where
the program changes objects, arrays or variables step by step, classes and methods that are proved
to follow that specification.

- **Delta protocol** (`DeltaChain`, `DeltaRuns`, `ReaderRuns`, `SessionRules`, `WsTransport`,
  `TransportSteps`): the Codex
  WebSocket transport as a step machine over many sessions, run against a server that remembers
  every completed chain. Timeouts are steps that may happen. The environment's promises are in `Enabled`: one request per
  session, resets between requests, completions with an id, an account on every call, and inputs
  that extend the one before when they grow. Session ids have no colon. `WsTransport` holds the
  session records and handlers, `TransportSteps` proves that the objects take the machine's steps,
  and `Continuation` is the file-backed store below them.
- **Event streams** (`SseLines`, `SseText`, `ResponseStream`, `StreamMapper`, `Bracketing`,
  `FinishReasons`, `Failures`, `OpenParts`, `ToolCalls`, `CallParts`, `Collector`,
  `CollectedStream`, `CollectedCalls`, `CollectedContent`, `AnthropicStream`): both providers' line
  parsers, the transducer from Responses API events to stream parts with its recovery from
  truncation, and the collectors. JSON parsing is a function parameter; texts are decoded
  characters.
- **Terminal serializer** (`Sgr`, `Colours`, `Terminal`, `Serializer`, `SerializeHandler`, `Brushes`,
  `Placement`, `Lagging`, `Replay`, `EmptyContinuation`, `RepaintedSpace`, `PrivateUse`): the printer,
  and a terminal that reads it (SGR and CUP of ECMA-48, sections 8.3.117 and 8.3.21, CR LF, and printing with deferred wrap).
- **Gateway structures** (`AuthRing`, `BanSet`, `Routes`, `Base64Url`, `Jwt`): the authentication
  ring between event loop and worker threads, the ban set and failure counters, the route table,
  and signed tokens (section 5 of RFC 4648, section 7.1 of RFC 7515) with HMAC as a parameter.
- **Small algorithms** (`WriteBehind`, `WorkspacePath`, `PathResolution`, `Identifier`): the desktop's write-behind
  storage, path normalisation, and time-ordered ids.

## Where the code falls short of a simple statement

Each of these has a lemma with a concrete input, or an exact condition.

- SGR 22 switches off bold and dim together, so a style change between the two loses one
  (`Sgr.TurnOrder`, `Sgr.DimIsLost`); a coloured style without flags whose two colour values are
  the null cell's passes for default (`Sgr.StepExact`, `Sgr.BlackIsLost`). `Brushes.LooksExact`
  says when a whole buffer keeps its looks.
- Width-1 characters from U+F000 on, private-use icons among them, count as garbage and are
  serialized as blanks (`Replay.GarbageIsLost`, `PrivateUse.IconIsLost`).
- Behind a wrapped row with no text and one look, the cursor falls a row behind at the hard line
  break, and text below is lost from its place (`Replay.ContentReplay`, `Replay.PrintedInPlace`;
  `EmptyContinuation.EmptyContinuationShiftsRows` is an instance). A cursor
  waiting to wrap, beyond the last column, comes back inside the row (`Replay.SerializeReplay`).
- A completion without an id leaves the old id with the new length
  (`DeltaRuns.CompletionWithoutId`, `DeltaRuns.NextCallAfterNoId`, `DeltaRuns.LostItem`).
- When calls are announced and none is heard of again, the finish reason is tool-calls with no
  call to run (`FinishReasons.AnnouncedOnly`, `FinishReasons.AnnouncedIsEnough`).
- A message added over an open text leaves that text part open for good, and the collector drops
  its text; so it does with reasoning that is not ended (`CollectedStream.StreamedEqualsCollected`,
  `CollectedStream.InterruptedTextIsLost`, `OpenParts.NothingLeftOpen`).
- The collector takes a call's input from the deltas and the streamed part takes it from the
  closing event, and a second closing event makes the collector return the call twice
  (`CollectedCalls.CollectedCallsExact`, `CollectedCalls.FinalArgumentsAreLost`); all conditions on
  the collected content together are in `CollectedContent.ContentExact`.
- An Anthropic block that is cut off, or started over at its index, is streamed and not collected
  (`AnthropicStream.AllIsCollected`, `AnthropicStream.CutOffTextIsLost`).
- The desktop storage's `getItem` can miss a write that is in flight
  (`WriteBehind.ReadsOwnWrites`, `WriteBehind.ReadAfterMiss`, `WriteBehind.ReadMissesTheBatch`), and
  a flush asked for in one moment settles without having delivered (`WriteBehind.FlushInTheGap`,
  `WriteBehind.FlushInTheGapDeliversNothing`).
- `//.` loses its root and `./C:/x` gains one (`WorkspacePath.SamePlace`).
- The Anthropic dispatcher's comment on message stop says that the reason defaults to stop and
  comes from the last message delta; the code reads a field of the stop event itself and defaults
  to other, so announced reasons are lost (`AnthropicStream.BareStopsLoseTheReason`,
  `AnthropicStream.ToolUseReasonIsLost`). The model follows the code.
- The base64url decoder writes before it compares with the capacity
  (`Base64Url.DecoderWritesFit`, `Base64Url.LongTextOverruns`).

## Model

| member | source | states |
|---|---|---|
| `DeltaChain.EveryRunIsCovered` | packages/opencode-codex-provider/src/transport-ws.ts:178-618 | In every run of calls, connects, frames, errors, closes, timeouts, account switches, resets and restarts, each request that went out is covered: what the server held for its `previous_response_id` followed by what was sent is the caller's conversation; without an id the whole conversation is sent, by the HTTP fallback too. The invariant behind it holds at every point. |
| `DeltaChain.StepOk` | packages/opencode-codex-provider/src/transport-ws.ts:178-618 | Every single step, of every kind, keeps the invariant: a stored id was completed on this very connection and has no length or the length its chain covers. |
| `DeltaChain.CallOk` | packages/opencode-codex-provider/src/transport-ws.ts:509-618 | A call, in each of its branches (carry-over from disk, account switch, sticky fallback, reuse, dead socket, new connection), keeps the invariant. |
| `DeltaChain.SendOk` | packages/opencode-codex-provider/src/transport-ws.ts:187-217 | Handing a request to a connection whose chain is in order logs a covered request and leaves the session in order. |
| `DeltaChain.ReceivedOk` | packages/opencode-codex-provider/src/transport-ws.ts:294-411 | Every frame, of every kind, keeps the invariant; completion moves id and covered length together. |
| `DeltaChain.BreaksForget` | packages/opencode-codex-provider/src/transport-ws.ts:250-292 | Errors, closes and timeouts of a request, and late ones of abandoned sockets, keep the invariant, and the chain is kept in session and store or forgotten in both, with the whole family. |
| `DeltaChain.ProbeTimeoutOk` | packages/opencode-codex-provider/src/transport-ws.ts:452-464 | A first-frame timeout keeps the invariant although the handlers stay on the abandoned socket. |
| `DeltaChain.ConnectDoneOk` | packages/opencode-codex-provider/src/transport-ws.ts:589-617 | A connect that succeeds starts a chain of its own; one that fails falls back to HTTP with the full input. |
| `DeltaRuns.ChainAffinity` | packages/opencode-codex-provider/src/transport-ws.ts:523-578 | Every `previous_response_id` on the wire was completed by an earlier step of the same process, on the connection it is now sent over, which was opened for the account of the request; ids from disk or from an account shard never get there. |
| `DeltaRuns.MemoryOrigin` | packages/opencode-codex-provider/src/transport-ws.ts:361-395 | Whatever chain the server remembers for a connection was completed there by a step of the run. |
| `DeltaRuns.CallOnLiveConnection` | packages/opencode-codex-provider/src/transport-ws.ts:199-217 | On a live connection the chain is continued exactly when there is an id and the input is strictly longer than a positive stored length, and then with exactly the tail; otherwise everything goes out and the chain is dropped. |
| `DeltaRuns.NextCallSendsTheTail` | packages/opencode-codex-provider/src/transport-ws.ts:361-395 | After a response that completes undisturbed the next, longer, call sends its tail only: the delta mode is really used. |
| `DeltaRuns.CompletionWithoutId` | packages/opencode-codex-provider/src/transport-ws.ts:361-375 | After a completion without an id the chain is in order if and only if no id or no length is stored, so never after a chained request that nothing disturbed. |
| `DeltaRuns.NextCallAfterNoId` | packages/opencode-codex-provider/src/transport-ws.ts:361-375 | The next longer call after it, on the live connection, is covered if and only if no id or no length was stored. |
| `DeltaRuns.LostItem` | packages/opencode-codex-provider/src/transport-ws.ts:361-375 | A concrete run in which a completion without an id makes a later call lose one item. |
| `ReaderRuns.ReaderGetsTheAnswer` | packages/opencode-codex-provider/src/transport-ws.ts:294-424 | In every run, for every session at every point: the reader of its latest request has got the frames that arrived since the request went out, in order, without rate limits, unparsable frames and error frames; its stream goes on or has ended as the last frame or the broken socket says; and the request is probing exactly as long as its reader has got nothing. |
| `ReaderRuns.RunReads` | packages/opencode-codex-provider/src/transport-ws.ts:294-424 | The frames that the world records for a request are those of the run's steps since it went out. |
| `ReaderRuns.StepReads` | packages/opencode-codex-provider/src/transport-ws.ts:294-424 | Every step, of every kind, keeps what readers have got in step with what arrived. |
| `ReaderRuns.FrameReply` | packages/opencode-codex-provider/src/transport-ws.ts:294-411 | A frame is handed on if and only if it is an ordinary, completed, incomplete or failed one; the last three and error frames end the stream, normally or with an error. |
| `ReaderRuns.FrameRead` | packages/opencode-codex-provider/src/transport-ws.ts:357-411 | One more frame: it is recorded as arrived, and its reader gets it if it is part of the answer. |
| `ReaderRuns.BreakRead` | packages/opencode-codex-provider/src/transport-ws.ts:250-292 | A broken socket or silence ends the stream with an error if nothing had arrived, and cuts it off otherwise. |
| `SessionRules.CallRoute` | packages/opencode-codex-provider/src/transport-ws.ts:534-578 | A call goes by HTTP exactly when the session has given up on connections and stays with its account, over its own connection exactly when that is open and ready and the account stays, and otherwise over a new one; the input is handed on whole. |
| `SessionRules.CallAfterResponse` | packages/opencode-codex-provider/src/transport-ws.ts:361-407 | After a completed or incomplete response the next call goes over the same connection, after a failed one over a new one. |
| `SessionRules.StickyFallback` | packages/opencode-codex-provider/src/transport-ws.ts:554-617 | A session that has given up on connections stays so under every step but a call for another account and a restart, and each of its calls goes by HTTP. |
| `SessionRules.SwitchSavesAndLoads` | packages/opencode-codex-provider/src/transport-ws.ts:533-552 | An account switch keeps the chain in the old account's shard and changes no other key, loads the new account's chain and lifts the fallback. |
| `SessionRules.SwitchBackRestores` | packages/opencode-codex-provider/src/transport-ws.ts:533-552 | Switching away and back gives the first chain again, whatever happens in between that leaves its shard alone. |
| `SessionRules.CompletionIsKept` | packages/opencode-codex-provider/src/transport-ws.ts:361-375 | A completion with an id is in the session and in the store, with the length of the request and its account, and no other key changes. |
| `SessionRules.CarryOverIsDropped` | packages/opencode-codex-provider/src/transport-ws.ts:513-531 | A new process reads that chain back and its first call forgets it, in the whole family, before anything is sent. |
| `SessionRules.ResetForgets` | packages/opencode-codex-provider/src/transport-ws.ts:70-84 | After a reset no chain of the session is left in the record or in the family. |
| `SessionRules.LostProbe` | packages/opencode-codex-provider/src/transport-ws.ts:438-470 | A request whose reader gets nothing is tried once more over a new connection if its own was reused, and otherwise goes by HTTP; says exactly when the session then gives up on connections. |
| `WsTransport.Transport.GetSession` | packages/opencode-codex-provider/src/transport-ws.ts:49-67 | Creates the record from the store at the first use of a session and returns the same record afterwards. |
| `WsTransport.Transport.Invalidate` | packages/opencode-codex-provider/src/transport-ws.ts:288-292 | Forgets id and length in the record and in the whole family in the store. |
| `WsTransport.Transport.ResetWsSession` | packages/opencode-codex-provider/src/transport-ws.ts:70-84 | The record and the store after a reset are those of the protocol's reset step; without a record nothing changes. |
| `WsTransport.Transport.CloseWsSession` | packages/opencode-codex-provider/src/transport-ws.ts:86-95 | Drops the connection and keeps the rest of the record. |
| `WsTransport.Transport.WsRequest` | packages/opencode-codex-provider/src/transport-ws.ts:178-217 | What goes on the wire and the record afterwards are those of the protocol's send, and the caller's body is unchanged. |
| `WsTransport.Transport.DropCarryOver` | packages/opencode-codex-provider/src/transport-ws.ts:523-531 | An id from disk that this process has not validated is dropped, with its family. |
| `WsTransport.Transport.ChangeAccount` | packages/opencode-codex-provider/src/transport-ws.ts:534-552 | On a switch the chain is stored under the old account's shard, the connection is gone, and the new shard's values are loaded. |
| `WsTransport.Transport.Choose` | packages/opencode-codex-provider/src/transport-ws.ts:554-578 | HTTP, reuse of the connection with its request, or a new connection, with the record and the store it leaves. |
| `WsTransport.Transport.AbandonConnection` | packages/opencode-codex-provider/src/transport-ws.ts:569-571 | The record after an unsuccessful attempt on an existing connection. |
| `WsTransport.Transport.Connected` | packages/opencode-codex-provider/src/transport-ws.ts:589-604 | A new connection starts with no chain and sends the full input. |
| `WsTransport.Transport.Fallback` | packages/opencode-codex-provider/src/transport-ws.ts:613-617 | WebSockets are disabled for good and the input handed to HTTP is the caller's, untouched. |
| `WsTransport.Transport.ProbeTimedOut` | packages/opencode-codex-provider/src/transport-ws.ts:452-464 | The record and the store after the first-frame timeout. |
| `WsTransport.RequestHandlers.OnMessage` | packages/opencode-codex-provider/src/transport-ws.ts:294-411 | Record, store, forwarding and end of the stream for every kind of frame are those of the protocol's handler, about whose forwarding `ReaderRuns.ReaderGetsTheAnswer` speaks. |
| `WsTransport.RequestHandlers.Break` | packages/opencode-codex-provider/src/transport-ws.ts:250-292 | The same for a socket error or an idle timeout, which depend on whether a frame has arrived. |
| `WsTransport.RequestHandlers.Close` | packages/opencode-codex-provider/src/transport-ws.ts:418-424 | The same for a close, which matters only to a streaming session. |
| `TransportSteps.StartCall` | packages/opencode-codex-provider/src/transport-ws.ts:509-578 | The object's whole start of a call (record, carry-over, account switch, choice) takes it from any state that mirrors the protocol's world to one that mirrors the world after the call step, and its decision is that world's log entry or pending connect; so what is proved of all runs holds of the object. |
| `TransportSteps.FinishConnect` | packages/opencode-codex-provider/src/transport-ws.ts:589-617 | The same for the end of a connection attempt: the request that goes out, or the input for HTTP, is the world's log entry. |
| `TransportSteps.ExpireProbe` | packages/opencode-codex-provider/src/transport-ws.ts:452-464 | The same for a first-frame timeout: connecting after a reused connection, HTTP after a new one, with the world's log entry. |
| `TransportSteps.ReceiveFrame` | packages/opencode-codex-provider/src/transport-ws.ts:294-411 | The same for every frame, with what the call does next if the probe is lost. |
| `TransportSteps.BreakRequest` | packages/opencode-codex-provider/src/transport-ws.ts:250-292 | The same for a socket error and for an idle timeout, with what the call does next. |
| `TransportSteps.CloseRequest` | packages/opencode-codex-provider/src/transport-ws.ts:418-424 | The same for a close, with what the call does next. |
| `TransportSteps.BreakLate` | packages/opencode-codex-provider/src/transport-ws.ts:413-416 | The same for a late error of an abandoned socket. |
| `TransportSteps.CloseLate` | packages/opencode-codex-provider/src/transport-ws.ts:418-424 | The same for a late close. |
| `TransportSteps.ResetSession` | packages/opencode-codex-provider/src/transport-ws.ts:70-84 | The same for a reset. |
| `TransportSteps.CloseSession` | packages/opencode-codex-provider/src/transport-ws.ts:86-95 | The same for closing a session. |
| `TransportSteps.RestartTransport` | packages/opencode-codex-provider/src/transport-ws.ts:47-47 | A new process starts in the restarted world. |
| `Continuation.FamilyMembers` | packages/opencode-codex-provider/src/continuation.ts:98-109 | The keys that a family invalidation touches are the session itself and exactly its account shards. |
| `Continuation.FamiliesDisjoint` | packages/opencode-codex-provider/src/continuation.ts:98-109 | Session ids without a colon have disjoint families. |
| `Continuation.FamilyInvalidated` | packages/opencode-codex-provider/src/continuation.ts:98-109 | Ids and lengths are gone in the family; account ids, and every other key, are as they were. |
| `Continuation.UpdateReads` | packages/opencode-codex-provider/src/continuation.ts:67-71 | A partial update sets the given fields of one key, undefined included, and leaves the other fields and keys as they were. |
| `Continuation.InvalidateReads` | packages/opencode-codex-provider/src/continuation.ts:83-91 | Forgetting one key leaves its account id and every other key. |
| `Continuation.ShardsApart` | packages/opencode-codex-provider/src/transport-ws.ts:535-539 | A session has a shard of its own for every account. |
| `Continuation.ContinuationStore.constructor` | packages/opencode-codex-provider/src/continuation.ts:14-25 | A new process starts from the file, whether no path is set or the file is missing, corrupt or valid. |
| `Continuation.ContinuationStore.Load` | packages/opencode-codex-provider/src/continuation.ts:27-41 | Returns the map model and caches it; the file is read at most once. |
| `Continuation.ContinuationStore.Save` | packages/opencode-codex-provider/src/continuation.ts:43-60 | The model becomes the given store and a flush is pending. |
| `Continuation.ContinuationStore.Flush` | packages/opencode-codex-provider/src/continuation.ts:43-60 | A successful flush makes file and model equal; a failed one is remembered, and without a path nothing is written. |
| `Continuation.ContinuationStore.GetContinuation` | packages/opencode-codex-provider/src/continuation.ts:62-65 | Reads the model; an unknown key has no continuation. |
| `Continuation.ContinuationStore.UpdateContinuation` | packages/opencode-codex-provider/src/continuation.ts:67-71 | Merges the given fields into one key and changes no other; what was written or not stays so. |
| `Continuation.ContinuationStore.ClearContinuation` | packages/opencode-codex-provider/src/continuation.ts:73-81 | Removes one key and no other. |
| `Continuation.ContinuationStore.InvalidateContinuation` | packages/opencode-codex-provider/src/continuation.ts:83-91 | Forgets id and length of one key, if it is there. |
| `Continuation.ContinuationStore.InvalidateContinuationFamily` | packages/opencode-codex-provider/src/continuation.ts:98-109 | The loop over the keys, in any order, gives the invalidated map. |
| `Continuation.PerformAll` | packages/opencode-codex-provider/src/continuation.ts:27-109 | After any run of operations whose writes succeed, on a store with a path, the cache holds the map that the operations mean, and the file holds another one only while the flush timer is armed. |
| `Continuation.Perform` | packages/opencode-codex-provider/src/continuation.ts:27-109 | Each operation means what it means for a plain map, and no write fails on the way. |
| `Continuation.RunAndRestart` | packages/opencode-codex-provider/src/continuation.ts:27-60 | After a run and one more firing of the timer a new process starts with the map that the run meant. |
| `SseLines.ParseSseStream` | packages/opencode-codex-provider/src/sse.ts:24-65 | For every way of cutting a text into chunks the events are those of the text's complete lines up to the first end mark; an unterminated last line is dropped. What a line's event is, is `SseText.CodexTakesPayloads`. |
| `SseLines.ScanLines` | packages/opencode-codex-provider/src/sse.ts:40-55 | The inner loop emits the events before the end mark and reports whether it has met it. |
| `SseLines.EndMark` | packages/opencode-codex-provider/src/sse.ts:43-46 | Once the end mark has been reached no later chunk changes the events. |
| `SseLines.ParseAnthropicSse` | packages/opencode-claude-provider/src/sse.ts:45-81 | For every way of cutting a text into chunks the events are those of all its lines, the unterminated last one included. |
| `SseLines.ProcessLines` | packages/opencode-claude-provider/src/sse.ts:83-115 | The events of the lines of a text, in order; the remembered event type has no effect. |
| `SseLines.LastIndexOfNewline` | packages/opencode-claude-provider/src/sse.ts:67-72 | Finds the last newline, or reports that there is none. |
| `SseLines.SplitAtNewline` | packages/opencode-claude-provider/src/sse.ts:74-75 | Cutting a text behind its last newline keeps its lines: an empty piece ends the first part. |
| `SseLines.SplitIsLossless` | packages/opencode-codex-provider/src/sse.ts:36-38 | Joining the pieces of a text with newlines gives the text back, and no piece has a newline. |
| `SseLines.SplitIsUnique` | packages/opencode-codex-provider/src/sse.ts:36-38 | There is no other way to cut a text at its newlines. |
| `SseLines.SplitAppend` | packages/opencode-codex-provider/src/sse.ts:36-38 | More text only continues the last piece, which is why the kept buffer suffices. |
| `SseText.CodexTakesPayloads` | packages/opencode-codex-provider/src/sse.ts:24-65 | Of any text, given by how its lines are written: exactly the payloads after `data: ` before the first `data: [DONE]` are parsed, without the white space around the line; comments, blank lines, empty payloads, anything else and the unterminated rest say nothing. |
| `SseText.AnthropicTakesPayloads` | packages/opencode-claude-provider/src/sse.ts:83-115 | The same for the other parser: all payloads are parsed, that of an unterminated last line and `[DONE]` too, whatever event types come before. |
| `SseText.LineRead` | packages/opencode-codex-provider/src/sse.ts:40-55 | For both parsers, what every kind of line means. |
| `SseText.EveryTextIsOne` | packages/opencode-codex-provider/src/sse.ts:36-55 | Every text is lines of these kinds, so the two theorems cover all inputs. |
| `SseText.AsciiSpace` | packages/opencode-codex-provider/src/sse.ts:41-41 | Which characters below 128 are white space. |
| `Bracketing.OutputIsBracketed` | packages/opencode-codex-provider/src/sse.ts:122-187 | For every event sequence with natural output indices, legal or not: starts use fresh ids, deltas and ends refer to open parts, and the output ends with its only finish, with reason unknown exactly when no terminal event came. |
| `Bracketing.EventBracketed` | packages/opencode-codex-provider/src/sse.ts:204-432 | Every event keeps the output bracketed and the counters in step with it. |
| `Bracketing.EmittedBracketed` | packages/opencode-codex-provider/src/sse.ts:126-134 | The same after any number of events. |
| `Bracketing.TerminalIsKept` | packages/opencode-codex-provider/src/sse.ts:377-428 | The state remembers the reason of the last terminal event. |
| `Bracketing.NegativeIndexBreaksBrackets` | packages/opencode-codex-provider/src/sse.ts:323-351 | Natural indices are needed: an item at index -1000 makes a reasoning delta refer to a part that was never started. |
| `OpenParts.LeftOpen` | packages/opencode-codex-provider/src/sse.ts:136-187 | For every event sequence with natural output indices the parts that the finished output leaves open are the texts that another message interrupted and a reasoning summary that was not ended, by their ids. |
| `OpenParts.NothingLeftOpen` | packages/opencode-codex-provider/src/sse.ts:136-187 | Nothing stays open if and only if no message was added over an open text and every reasoning summary was ended. |
| `FinishReasons.FinishTellsToolCalls` | packages/opencode-codex-provider/src/sse.ts:165-184 | For every event sequence the reason is tool-calls if and only if the last terminal event said stop and a tool call was announced or emitted. |
| `FinishReasons.AnnouncedOnly` | packages/opencode-codex-provider/src/sse.ts:165-184 | For every legal stream: the reason is tool-calls and no tool-call part comes out if and only if the stream was completed normally, a call was added, and no call was ever heard of again. |
| `FinishReasons.SomeCallEmitted` | packages/opencode-codex-provider/src/sse.ts:136-163 | For every legal stream a tool-call part comes out if and only if some added call was settled or got a delta. |
| `FinishReasons.AnnouncedIsEnough` | packages/opencode-codex-provider/src/sse.ts:228-233 | A call that is only announced: the smallest stream of that kind. |
| `Failures.FailuresAreThrown` | packages/opencode-codex-provider/src/provider.ts:352-354 | For every event sequence, legal or not: `doGenerate` throws if and only if the stream has a failed response or an error event, and then the message of the first one, "Response failed" if it has none. |
| `Failures.LastPartTells` | packages/opencode-codex-provider/src/sse.ts:165-186 | For every event sequence the last part carries the last usage that ended a response, the last response id that is not empty, and the reason of the last terminal event by the table of statuses. |
| `Failures.ErrorOfEvent` | packages/opencode-codex-provider/src/sse.ts:409-428 | An event puts out an error part if it reports a failure, with its message and nothing else, and none otherwise. |
| `CallParts.CallsAreJustified` | packages/opencode-codex-provider/src/sse.ts:204-375 | For every event sequence with natural indices, each tool-call part was called for by an added item with arguments, finished arguments, a finished item or the end of the stream, which give its id, its name (or `unknown`), its item id and, but for buffered arguments, its input. |
| `CallParts.CallAnnounced` | packages/opencode-codex-provider/src/sse.ts:228-256 | A call added with arguments other than `{}` comes out whole at once; without such arguments it is only announced. |
| `ResponseStream.NumberedInjective` | packages/opencode-codex-provider/src/sse.ts:226-230 | Counted ids differ when their numbers do. |
| `ToolCalls.ExactlyOnce` | packages/opencode-codex-provider/src/sse.ts:136-163 | When a legal stream ends, complete or cut off anywhere, each function call has exactly the tool-call part it is owed: one if inline arguments, a delta or a closing event was seen, with the arguments of the first closing event or else the concatenated deltas (or `{}`), and none otherwise. |
| `ToolCalls.NoStrayCalls` | packages/opencode-codex-provider/src/sse.ts:215-256 | No tool-call part carries an id other than that of an added call. |
| `ToolCalls.Invariant` | packages/opencode-codex-provider/src/sse.ts:204-375 | Per call: emitted as soon as it is settled, and until then its deltas are in the buffer. |
| `ToolCalls.FlushPays` | packages/opencode-codex-provider/src/sse.ts:148-163 | The flush emits what is still owed, once, whatever the order of the buffer. |
| `StreamMapper.StreamState.MapEvent` | packages/opencode-codex-provider/src/sse.ts:204-432 | The event switch updates the state object and returns the parts as the transducer function says; the theorems above are about that function. |
| `StreamMapper.StreamState.ItemAdded` | packages/opencode-codex-provider/src/sse.ts:215-256 | The same for an added item. |
| `StreamMapper.StreamState.TextDelta` | packages/opencode-codex-provider/src/sse.ts:258-268 | The same for text, which opens a part when none is open. |
| `StreamMapper.StreamState.ArgsDone` | packages/opencode-codex-provider/src/sse.ts:295-321 | The same for finished arguments, with duplicates suppressed. |
| `StreamMapper.StreamState.ReasoningDelta` | packages/opencode-codex-provider/src/sse.ts:323-333 | The same for reasoning summaries, whose part is opened lazily. |
| `StreamMapper.StreamState.ReasoningDone` | packages/opencode-codex-provider/src/sse.ts:335-351 | The same for the end of a reasoning summary. |
| `StreamMapper.StreamState.ItemDone` | packages/opencode-codex-provider/src/sse.ts:353-375 | The same for a finished item. |
| `StreamMapper.StreamState.Flush` | packages/opencode-codex-provider/src/sse.ts:148-163 | The synthesis loop over the argument buffer gives the flush of the transducer. |
| `StreamMapper.MapResponseStream` | packages/opencode-codex-provider/src/sse.ts:122-187 | The whole stream, read until it ends, gives the output that the theorems speak about. |
| `Collector.DoGenerate` | packages/opencode-codex-provider/src/provider.ts:284-357 | The collector's loop returns the fold of the parts before the first error, or throws that error. |
| `Collector.FirstErrorStays` | packages/opencode-codex-provider/src/provider.ts:352-354 | Whatever follows the first error part does not matter. |
| `CollectedStream.StreamedEqualsCollected` | packages/opencode-codex-provider/src/provider.ts:284-357 | For every complete stream the collector returns the direct fold over the source events, in completion order with empty text and reasoning dropped and with the stream's reason and usage, if and only if no message is added while a text with something in it is open and no such reasoning is left open. |
| `CollectedStream.InterruptedTextIsLost` | packages/opencode-codex-provider/src/sse.ts:222-228 | The smallest complete stream that loses something: its text is streamed and not collected. |
| `CollectedStream.CollectedIsGathered` | packages/opencode-codex-provider/src/provider.ts:284-357 | What the collector returns for every complete stream, lossy or not. |
| `CollectedStream.CollectedCallsMatch` | packages/opencode-codex-provider/src/provider.ts:328-347 | For complete streams the calls in the returned content are the tool-call parts of the stream: same ids, names, arguments and order. |
| `CollectedCalls.CollectedCallsExact` | packages/opencode-codex-provider/src/provider.ts:328-347 | For every legal stream without errors, complete or cut off, the calls returned are the tool-call parts, in order, if and only if every closing event is the call's first and repeats the deltas and the name, and no call is cut off with empty deltas only. |
| `CollectedCalls.FinalArgumentsAreLost` | packages/opencode-codex-provider/src/sse.ts:295-321 | Arguments that come only with the closing event are streamed and not collected. |
| `CollectedContent.ContentExact` | packages/opencode-codex-provider/src/provider.ts:284-357 | For every legal stream without errors, complete or cut off, the collector returns exactly what the stream says, in its order, if and only if no message interrupted a text, no reasoning was left open, every closing event repeats what was sent, and no call was cut off with empty deltas only. |
| `CollectedStream.CallsMatch` | packages/opencode-codex-provider/src/provider.ts:328-347 | The same for the direct fold over the events. |
| `CollectedStream.CompleteEnding` | packages/opencode-codex-provider/src/sse.ts:136-187 | A complete stream needs no synthesis at its end. |
| `AnthropicStream.StreamedEqualsCollected` | packages/opencode-claude-provider/src/provider.ts:256-325 | For every event sequence in which open blocks have distinct ids and no error arrives, the collector returns the blocks that ended, in that order, with the reason of the last message stop. |
| `AnthropicStream.AllIsCollected` | packages/opencode-claude-provider/src/provider.ts:256-325 | All that the blocks say is collected if and only if no block with something in it is started over at its index or left open at the end. |
| `AnthropicStream.CutOffTextIsLost` | packages/opencode-claude-provider/src/sse.ts:184-199 | A text cut off before its block ends is streamed and not collected. |
| `AnthropicStream.AnnouncedReasonKept` | packages/opencode-claude-provider/src/sse.ts:201-219 | The collected reason is that of the last message delta if and only if the last message stop's own field stands for the same. |
| `AnthropicStream.BareStopsLoseTheReason` | packages/opencode-claude-provider/src/sse.ts:210-219 | With message stops that have no such field the collected reason is other, and an announced reason is lost if and only if it is one of the five with a meaning. |
| `AnthropicStream.ToolUseReasonIsLost` | packages/opencode-claude-provider/src/sse.ts:201-219 | A message that stops for a tool is collected as one that stopped for another reason. |
| `AnthropicStream.Invariant` | packages/opencode-claude-provider/src/sse.ts:143-199 | At every point the collector holds the text of every open block under its id. |
| `AnthropicStream.Dispatcher.DispatchEvent` | packages/opencode-claude-provider/src/sse.ts:117-235 | The event switch with its block table and counter computes the dispatch function. |
| `AnthropicStream.CountedIdsDiffer` | packages/opencode-claude-provider/src/sse.ts:144-148 | Counted block ids never clash. |
| `AnthropicStream.ErrorsAreThrown` | packages/opencode-claude-provider/src/provider.ts:320-321 | For every event sequence: the collector throws if and only if an error event arrives, and then the message of the first one. |
| `AnthropicStream.ReasonTable` | packages/opencode-claude-provider/src/sse.ts:244-261 | The five stop reasons with a meaning, as a table. |
| `Replay.SerializeReplay` | packages/app/src/addons/serialize.ts:193-498 | For every buffer with rows of the terminal's width, any styles and any null cell: after the output a fresh terminal has all text but single spaces in its own place and look if and only if no blank wrapped row (no text, one look) comes before a hard break with such text below and each such cell keeps its look; the whole buffer, spaces included, if no text is below such a row and all looks are kept. If the buffer fits on one screen the cursor's row comes back, and its column exactly when it lay inside the row. |
| `Replay.ContentReplay` | packages/app/src/addons/serialize.ts:193-484 | The same for the content, in terms of the handler's brush instead of looks and with no condition on styles; with wrap marks exactly where the buffer has them if there is no such row at all. |
| `Brushes.LooksExact` | packages/app/src/addons/serialize.ts:298-409 | Every cell is painted in its own look if and only if every step from a cell to the next is safe. |
| `Brushes.OrdinaryIsSafe` | packages/app/src/addons/serialize.ts:374-409 | Every step is safe if no style of the range passes for default without looking default and none loses bold or dim against another. |
| `Brushes.BrushRows` | packages/app/src/addons/serialize.ts:411-458 | The terminal's pen and the handler's style are those of the brush after every row, wherever the cursor is. |
| `Replay.SafeReplay` | packages/app/src/addons/serialize.ts:193-498 | With safe steps only, the condition on looks falls away from the replay theorem. |
| `Replay.PenRestored` | packages/app/src/addons/serialize.ts:487-495 | The pen put back has the look of the cell under the cursor if and only if the step to it from the last cell is safe. |
| `Replay.CursorCell` | packages/app/src/addons/serialize.ts:487-495 | The style that is put back is that of the cell which covers the cursor, the second half of a wide one included, and the null cell's where there is none. |
| `Replay.CursorAbove` | packages/app/src/addons/serialize.ts:482-484 | Above the range the cursor is put in the first row. |
| `Replay.PrintedInPlace` | packages/app/src/addons/serialize.ts:411-458 | Cell by cell, single spaces included: a cell with text is printed at its own place if and only if no blank wrapped row comes before a hard break above it. |
| `RepaintedSpace.SpaceRepainted` | packages/app/src/addons/serialize.ts:274-280 | A buffer in which a row with a single space is skipped and later padding paints that space: why the condition on the screen is about other text. |
| `Replay.GarbageIsLost` | packages/app/src/addons/serialize.ts:418-421 | A visible cell survives, painted with the brush, if and only if it does not count as garbage. |
| `Replay.EmptyCells` | packages/app/src/addons/serialize.ts:418-421 | Which cells print nothing, in code points. |
| `PrivateUse.IconIsLost` | packages/app/src/addons/serialize.ts:418-421 | A one-cell buffer with U+F000: the character is gone. |
| `Placement.CellKeeps` | packages/app/src/addons/serialize.ts:411-458 | One cell keeps cursor, pen, grid and pending blanks in step with the terminal. |
| `Placement.RowsDone` | packages/app/src/addons/serialize.ts:274-296 | So do whole rows with their separators, padded wrapped rows included, up to the first blank wrapped row before a hard break. |
| `Placement.BlankPrintsNothing` | packages/app/src/addons/serialize.ts:411-458 | A row emits a print if and only if it has text or two of its cells look different. |
| `Sgr.SilentMeans` | packages/app/src/addons/serialize.ts:300-308 | Nothing is emitted between two styles if and only if they are equal or both pass for default. |
| `Lagging.FallBehind` | packages/app/src/addons/serialize.ts:274-296 | After a blank wrapped row and its hard break the cursor is one row behind, in the skipped row. |
| `Lagging.LagRows` | packages/app/src/addons/serialize.ts:274-296 | It stays behind through all following rows, whatever they hold, and does not touch the rows above. |
| `Placement.QuietRows` | packages/app/src/addons/serialize.ts:463-468 | Rows dropped after the last content row have no text and leave the pen alone. |
| `EmptyContinuation.EmptyContinuationShiftsRows` | packages/app/src/addons/serialize.ts:274-296 | The smallest buffer with such a row: the text after the break lands one row too high. |
| `Serializer.JoinPrefix` | packages/app/src/addons/serialize.ts:470-477 | Rows already written are not changed by later ones. |
| `Serializer.RowsKept` | packages/app/src/addons/serialize.ts:260-296 | After any number of rows the two row arrays have that length and nothing is pending. |
| `SerializeHandler.StringSerializeHandler.BeforeSerialize` | packages/app/src/addons/serialize.ts:260-272 | The handler object starts in the model's first state. |
| `SerializeHandler.StringSerializeHandler.NextCell` | packages/app/src/addons/serialize.ts:411-458 | One cell takes the object's fields where the model's step goes. |
| `SerializeHandler.StringSerializeHandler.RowEnd` | packages/app/src/addons/serialize.ts:274-296 | So does the end of a row. |
| `SerializeHandler.StringSerializeHandler.SerializeString` | packages/app/src/addons/serialize.ts:460-498 | The loop over rows and separators, the cursor move and the last style give the model's output. |
| `SerializeHandler.StringSerializeHandler.Serialize` | packages/app/src/addons/serialize.ts:193-224 | The nested loops give the output that the replay theorem is about. |
| `Sgr.DiffExact` | packages/app/src/addons/serialize.ts:298-372 | For all styles: interpreting the emitted parameters from the old style gives the new style if and only if no default-looking style is coloured and 22 takes away neither bold nor dim that should stay. |
| `Sgr.StepExact` | packages/app/src/addons/serialize.ts:298-409 | The same for looks, default colours standing for the null cell's: from any pen that looks like the old style the parameters lead to the look of the new one if and only if the step is safe. |
| `Sgr.DimIsLost` | packages/app/src/addons/serialize.ts:310-335 | From bold and dim to dim: the terminal ends up with neither. |
| `Sgr.BlackIsLost` | packages/app/src/addons/serialize.ts:374-409 | From bold to palette entry 0: the terminal ends up with the default colour. |
| `Sgr.DiffSound` | packages/app/src/addons/serialize.ts:298-409 | Between styles of which neither passes for default without looking default, and of which 22 takes neither bold nor dim that stays, the diff gives the right look, whatever colours the null cell has. |
| `Sgr.SilentDiff` | packages/app/src/addons/serialize.ts:300-308 | Where nothing is emitted and the step is safe, the two styles look the same. |
| `Sgr.TurnOrder` | packages/app/src/addons/serialize.ts:310-335 | The eight flag parameters in the emitted order give the wanted flags if and only if 22 does not take away the one of bold and dim that has to stay. |
| `Sgr.ApplyColours` | packages/app/src/addons/serialize.ts:336-367 | The colour parameters set exactly the changed sides. |
| `Colours.ColoursReachThePen` | packages/app/src/addons/serialize.ts:336-367 | For all bytes r, g, b and all palette entries, on both sides: with any pen, a side that differs from the style before is shown in exactly the bytes or the entry of the cell, and one that does not differ is left alone. |
| `Colours.CellLooks` | packages/app/src/addons/serialize.ts:337-345 | The look of a cell from its bytes, entries and flags: red is worth 65536, green 256, and what is above counts for nothing. |
| `Colours.StepParameters` | packages/app/src/addons/serialize.ts:298-372 | The emitted parameters in numbers: 39, 30 to 37, 90 to 97, 38;5;n and 38;2;r;g;b, ten more for the background, after those of the flags. |
| `Colours.FlagCodes` | packages/app/src/addons/serialize.ts:310-335 | The codes of all flags switched on and of all switched off, in their order. |
| `Colours.PlainCell` | packages/app/src/addons/serialize.ts:304-308 | Coming to a plain cell a reset is emitted, and when it is not. |
| `AuthRing.AnswersInOrder` | daemon/opencode-gateway.c:2852-2900 | In every interleaving of loop and workers answers go out in submission order, none twice, each with PAM's verdict on its own job. |
| `AuthRing.NoLostCompletion` | daemon/opencode-gateway.c:1504-1511 | With the loop idle and the head job done, the eventfd is set or some worker's write of it is still to come. |
| `AuthRing.SlotNotReusedEarly` | daemon/opencode-gateway.c:1518-1535 | A submission never refills a slot to which some worker still has to write. |
| `AuthRing.EveryJobProgresses` | daemon/opencode-gateway.c:1497-1514 | No waiting job is forgotten: it is done, its worker can step, or its thread is just being created. |
| `AuthRing.RollbackRestores` | daemon/opencode-gateway.c:1541-1548 | A failed thread start takes back exactly the job just enqueued, whatever workers do in between. |
| `AuthRing.WritesOwnSlot` | daemon/opencode-gateway.c:1497-1507 | A worker's writes reach the job it was started for. |
| `AuthRing.WorkersKeepRing` | daemon/opencode-gateway.c:1497-1514 | Workers change neither end of the ring nor the history. |
| `AuthRing.RefusedWhenFull` | daemon/opencode-gateway.c:1519-1524 | A submission is refused exactly when one slot fewer than the ring has is taken. |
| `AuthRing.EveryRunOk` | daemon/opencode-gateway.c:1497-1551 | The ring invariant holds after every run. |
| `AuthRing.StepOk` | daemon/opencode-gateway.c:1497-1551 | Each atomic section keeps it. |
| `AuthRing.AuthQueue.Enqueue` | daemon/opencode-gateway.c:1518-1535 | Appends a fresh job or refuses a full ring and changes nothing; the ring then is that of the machine after the submission. |
| `AuthRing.AuthQueue.Rollback` | daemon/opencode-gateway.c:1543-1545 | Removes the youngest job, as the machine's failed thread start does. |
| `AuthRing.AuthQueue.TakeDone` | daemon/opencode-gateway.c:2860-2873 | Takes the oldest job if it is done and otherwise changes nothing, as a draining step of the machine, whose answer is the job's. |
| `AuthRing.AuthQueue.WriteResult` | daemon/opencode-gateway.c:1498-1502 | A worker's verdict and the wiped password, as in the machine. |
| `AuthRing.AuthQueue.MarkDone` | daemon/opencode-gateway.c:1505-1507 | A worker's done flag, as in the machine. |
| `BanSet.StopAtFree` | daemon/opencode-gateway.c:1393-1400 | A search may stop at the first free slot: the address is not in the set. |
| `BanSet.WholePathSeen` | daemon/opencode-gateway.c:1393-1400 | A whole path, around the end of the table, visits every slot. |
| `BanSet.FillFree` | daemon/opencode-gateway.c:1402-1414 | Filling the first free slot of a path adds that address and keeps every other path intact. |
| `BanSet.BanList.Load` | daemon/opencode-gateway.c:1439-1465 | After loading, the set holds only addresses of the file that are not whitelisted, and all of them while there is room. |
| `BanSet.BanList.BanCheck` | daemon/opencode-gateway.c:1391-1400 | Answers membership exactly, through wrap-around, collisions and a full table; false for whitelisted addresses. |
| `BanSet.BanList.BanInsertMemory` | daemon/opencode-gateway.c:1402-1414 | Adds the address if there is room and loses none. |
| `BanSet.BanList.BanAdd` | daemon/opencode-gateway.c:1416-1419 | The same, except for whitelisted addresses. |
| `BanSet.BanList.ConsecFailRecord` | daemon/opencode-gateway.c:1471-1487 | The set grows by the address exactly at its fifth failure in a row, and the counters stay the streaks of the history. |
| `BanSet.BanList.ConsecFailClear` | daemon/opencode-gateway.c:1489-1494 | A success ends the streak of its address and bans nobody. |
| `BanSet.StreakIsUnbroken` | daemon/opencode-gateway.c:1471-1494 | A streak of n is n failures with no success, eviction or ban of that address between. |
| `BanSet.BanMeansFiveFailures` | daemon/opencode-gateway.c:1483-1486 | The failure that gets an address banned is its fifth with no success between. |
| `BanSet.FiveFailuresBan` | daemon/opencode-gateway.c:1471-1487 | Whatever has happened before: the fifth failure of an address that is not whitelisted, with no success of it and no failure of another address of its slot in between, bans it at the latest. |
| `BanSet.RecordAll` | daemon/opencode-gateway.c:2876-2888 | After any run of results recorded one after the other every address with five such failures is in the set, unless the table is full, and every new member had a failure that bans it. |
| `BanSet.WhitelistIs` | daemon/opencode-gateway.c:1380-1385 | Whitelisted are 127.x.x.x and 192.168.x.x. |
| `BanSet.RecordedFailure` | daemon/opencode-gateway.c:1471-1487 | Recording a failure in its slot keeps every address's streak. |
| `BanSet.ClearedFailures` | daemon/opencode-gateway.c:1489-1494 | Clearing keeps every other address's streak. |
| `Routes.RouteTable.MatchWebRoute` | daemon/opencode-gateway.c:275-285 | Returns the longest prefix that ends at a segment boundary, or nothing exactly when none does. |
| `Routes.RouteTable.SortWebRoutes` | daemon/opencode-gateway.c:213-223 | The in-place exchange sort gives a permutation sorted by non-increasing prefix length. |
| `Routes.RouteTable.Publish` | daemon/opencode-gateway.c:406-450 | All four refusals, or one more registered route; table sorted and duplicate-free. |
| `Routes.RouteTable.Remove` | daemon/opencode-gateway.c:394-404 | Exactly that route is gone, or an error; table sorted and duplicate-free. |
| `Routes.RouteTable.ShiftDown` | daemon/opencode-gateway.c:398-399 | Closing the gap in place removes one element and keeps the order of the rest. |
| `Routes.RouteTable.FindWebRoute` | daemon/opencode-gateway.c:287-292 | Finds the prefix if it is there. |
| `Routes.RouteTable.constructor` | daemon/opencode-gateway.c:225-255 | The loaded table is a sorted permutation of the lines that fit. |
| `Routes.LongestMatchIsUnique` | daemon/opencode-gateway.c:275-285 | A table without duplicates has at most one longest match, so the unstable sort cannot show. |
| `Routes.FirstMatchIsLongest` | daemon/opencode-gateway.c:275-285 | In a sorted table the first match is the longest. |
| `Routes.MatchMeans` | daemon/opencode-gateway.c:277-282 | A prefix matches itself and what is below it, and no other text that begins with it. |
| `Routes.PermutationKeepsMatches` | daemon/opencode-gateway.c:213-223 | Rearranging a table changes no lookup. |
| `Base64Url.RoundTrip` | daemon/opencode-gateway.c:1017-1038 | Decoding an encoded text gives the bytes back if and only if the text is shorter than 1020 characters and the bytes leave room for the terminator. |
| `Base64Url.DecoderWritesFit` | daemon/opencode-gateway.c:1026-1034 | The decoder writes group by group before it looks at the capacity: for every text the writes stay inside the buffer if and only if the text is not decoded at all, is no longer than the buffer's whole groups stand for, or has a bad character before the first group too many is complete. |
| `Base64Url.LongTextOverruns` | daemon/opencode-gateway.c:1030-1034 | 684 good characters write more than 512 bytes. |
| `Base64Url.DecodedIsWritten` | daemon/opencode-gateway.c:1030-1033 | A text that decodes is written out whole. |
| `Base64Url.HelperAgrees` | packages/util/src/encode.ts:1-5 | The TypeScript helper writes the same text as the gateway. |
| `Base64Url.TextUnpads` | daemon/opencode-gateway.c:1009-1013 | The written text is the padded one translated and cut at its padding. |
| `Base64Url.ThreeBytesText` | daemon/opencode-gateway.c:1000-1006 | Three bytes are four characters of the published alphabet, each for six of their bits. |
| `Base64Url.LastBytesText` | daemon/opencode-gateway.c:1001-1006 | One byte left is two characters, and two bytes are three, filled up with zero bits. |
| `Base64Url.GoodCharacters` | daemon/opencode-gateway.c:1022-1025 | The decoder takes the published alphabet, the standard one and the padding sign, and nothing else. |
| `Base64Url.DecodeBtoa` | daemon/opencode-gateway.c:1030-1033 | Decoding the padded text gives the bytes and one zero for each padding sign. |
| `Base64Url.Recombined` | daemon/opencode-gateway.c:1000-1006 | Four six-bit groups put together again are the three bytes. |
| `Base64Url.B64UrlEncode` | daemon/opencode-gateway.c:996-1015 | The two loops leave exactly the unpadded base64url text in the buffer. |
| `Base64Url.EncodePadded` | daemon/opencode-gateway.c:999-1008 | The first loop writes padded base64. |
| `Base64Url.TranslateInPlace` | daemon/opencode-gateway.c:1009-1013 | The second loop translates in place and stops at the padding. |
| `Jwt.SignedTokenVerifies` | daemon/opencode-gateway.c:1254-1283 | A token of any payload that fits the signing buffer (up to 381 bytes) is split back into that payload, for every HMAC function. |
| `Jwt.SignedPayloadFits` | daemon/opencode-gateway.c:1280-1283 | For every token that was signed here the decoder's writes stay inside the verifier's buffer. |
| `Jwt.OnlySignedTokensVerify` | daemon/opencode-gateway.c:1254-1278 | What is accepted, at any length, has the form that signing gives: two dot-free fields under their own signature, followed by nothing unless the form fills the verifier's buffer. What the signature is, is `Jwt.AcceptedIsAuthentic`. |
| `Jwt.AcceptedIsAuthentic` | daemon/opencode-gateway.c:1262-1281 | When a token below the buffer size is accepted, its third field decodes to the HMAC of its first two, for every HMAC function. |
| `Jwt.ForgedIsRefused` | daemon/opencode-gateway.c:1278-1281 | A token whose third field does not decode to the HMAC of its first two is refused. |
| `Jwt.MacDecodes` | daemon/opencode-gateway.c:1280-1281 | The 32 bytes of an HMAC come back from their text. |
| `Jwt.VerifyFields` | daemon/opencode-gateway.c:1262-1282 | Verifying three fields succeeds exactly when the signature matches and the payload decodes. |
| `Jwt.CutAt` | daemon/opencode-gateway.c:1264-1267 | The first dot ends the first field. |
| `Jwt.CutGives` | daemon/opencode-gateway.c:1264-1267 | A cut loses nothing and cuts at the first dot. |
| `Jwt.JwtSign` | daemon/opencode-gateway.c:1228-1247 | The token in the buffer is the signed form and fits, and its third field decodes to the 32 bytes that HMAC gives for the rest. |
| `WriteBehind.EveryRunKeepsOrder` | packages/desktop/src/index.tsx:201-255 | In every interleaving waiting writes have an armed timer or a running flush loop, and for each key what has reached the store, then what is in flight, then what waits, is what was issued, in that order, with only superseded writes left out. |
| `WriteBehind.Quiescence` | packages/desktop/src/index.tsx:206-235 | When callers stop, each internal step leaves less work and one is possible until the storage is quiet; then the store holds the last write of every key. |
| `WriteBehind.StepOk` | packages/desktop/src/index.tsx:201-255 | Every step keeps the invariant. |
| `WriteBehind.ReadsOwnWrites` | packages/desktop/src/index.tsx:239-247 | A read whose two looks see one state shows the last write of its key if and only if the key waits, or is not in flight, or the store already shows what is in flight. |
| `WriteBehind.ReadAfterMiss` | packages/desktop/src/index.tsx:239-247 | With any steps between its two looks, a read that found nothing waiting and is not overtaken by a new write to its key shows the last write if and only if, at the second look, the key is not in flight or the store already shows what is. |
| `WriteBehind.ReadMissesTheBatch` | packages/desktop/src/index.tsx:211-220 | A read right after the flush has taken its batch finds nothing of the write. |
| `WriteBehind.LateReadIsStable` | packages/desktop/src/index.tsx:239-247 | Without a new write to a key that neither waits nor is in flight, its value in the store stays the last one written. |
| `WriteBehind.FlushSettlesDelivered` | packages/desktop/src/index.tsx:206-227 | A flush asked for in any phase but the gap, idle included, settles with a store that held, when the loop ended, the last write of every key, those before the call included. |
| `WriteBehind.FlushInTheGap` | packages/desktop/src/index.tsx:206-227 | A flush asked for in the gap between the loop's end and its `finally` settles with the store as it was, up to date if and only if every waiting write says what the store says already. |
| `WriteBehind.FlushInTheGapDeliversNothing` | packages/desktop/src/index.tsx:206-227 | A run in which it does not. |
| `WriteBehind.Storage.SetItem` | packages/desktop/src/index.tsx:248-251 | Issues a write and arms the timer, as the run model does. |
| `WriteBehind.Storage.RemoveItem` | packages/desktop/src/index.tsx:252-255 | Issues a removal and arms the timer. |
| `WriteBehind.Storage.Flush` | packages/desktop/src/index.tsx:206-227 | Starts a flush unless one is running. |
| `WriteBehind.Storage.FireTimer` | packages/desktop/src/index.tsx:229-235 | The timer's callback. |
| `WriteBehind.Storage.OpenStore` | packages/desktop/src/index.tsx:209-213 | The flush after the store has been opened: takes the first batch or ends. |
| `WriteBehind.Storage.FinishOperation` | packages/desktop/src/index.tsx:214-220 | One store operation of the batch, and the next batch after the last. |
| `WorkspacePath.SamePlace` | packages/util/src/workspace.ts:21-44 | The normal form names the same place as the input if and only if the place is not a bare `//` root and is not relative with a drive-like first name above others. |
| `WorkspacePath.Idempotent` | packages/util/src/workspace.ts:21-44 | Normalising is idempotent on every string, the two exceptions included. |
| `WorkspacePath.Canonical` | packages/util/src/workspace.ts:21-44 | Away from the exceptions two paths have the same normal form if and only if they name the same place. |
| `WorkspacePath.NormalFormShape` | packages/util/src/workspace.ts:21-44 | A normal form has no empty and no `.` segment, and `..` only in front and without a root. |
| `PathResolution.LeadsAlike` | packages/util/src/workspace.ts:21-44 | Resolved name by name from any current directory, the normal form leads where the path does, below the same root, away from the two exceptions. |
| `PathResolution.PlaceLeads` | packages/util/src/workspace.ts:27-40 | Every path, exceptions included, leads to the place that is read from it. |
| `PathResolution.BackslashRun` | packages/util/src/workspace.ts:22-22 | A run of backslashes is one slash. |
| `PathResolution.PartsAtSlash` | packages/util/src/workspace.ts:25-25 | Cutting at any slash cuts the parts. |
| `WorkspacePath.NormalizeWorkspaceDirectory` | packages/util/src/workspace.ts:21-44 | The stack loop and the final trim compute the normal form of the place that the input names. |
| `WorkspacePath.TrimRender` | packages/util/src/workspace.ts:15-19 | The final trim changes only a bare `//`, because it looks for the root again. |
| `WorkspacePath.ReadBack` | packages/util/src/workspace.ts:5-13 | What a written path is read as, for every place. |
| `WorkspacePath.NetworkRootOccurs` | packages/util/src/workspace.ts:15-19 | `//.` is normalised to the empty path. |
| `WorkspacePath.ExposedDriveOccurs` | packages/util/src/workspace.ts:21-44 | `./C:/x` is normalised to an absolute path. |
| `Identifier.OrderedRun` | packages/util/src/identifier.ts:28-46 | With a clock that does not go back, fewer than 4096 calls in any millisecond and times in one aligned window of 2^36 ms, ascending ids strictly increase and descending ids strictly decrease, both kinds sharing the counter, whatever their tails. |
| `Identifier.OrderedIds` | packages/util/src/identifier.ts:28-46 | The same under the exact step condition instead: each call in between advances and the numbers share a 48-bit window. |
| `Identifier.TickAdvances` | packages/util/src/identifier.ts:31-37 | The next number is larger if and only if the millisecond is the same or later by enough for the counter. |
| `Identifier.CounterCounts` | packages/util/src/identifier.ts:31-35 | The counter is the number of calls that have seen the current millisecond. |
| `Identifier.TextOrder` | packages/util/src/identifier.ts:39-46 | Texts of numbers of one window compare as the numbers, those of complements the other way round. |
| `Identifier.CounterOverflow` | packages/util/src/identifier.ts:35-44 | The 4097th id of a millisecond has the digits of the next one's first. |
| `Identifier.TimeBytes` | packages/util/src/identifier.ts:41-44 | The loop fills the buffer with the six low bytes, most significant first. |
| `Identifier.DigitsTell` | packages/util/src/identifier.ts:28-46 | The first twelve characters of an id, read as a number, are the millisecond times 4096 plus the number of calls that have seen it, in 48 bits, or the complement; the tail follows. |
| `Identifier.CharsDiffer` | packages/util/src/identifier.ts:19-19 | The 62 characters of the table are all different. |
| `Identifier.RandomBase62` | packages/util/src/identifier.ts:18-26 | Each character of the tail is the table entry of its byte modulo 62. |
| `Identifier.Generator.Create` | packages/util/src/identifier.ts:28-46 | The object's clock ticks and the id is the text of its number followed by the tail. |

## Left out

- Replay.SerializeReplay: speaks about tokens (print, CR LF, SGR parameters, CUP), not about the decimal digits and escape characters that spell them; cursor restoration is not stated when the buffer is taller than the screen; every row has exactly `cols` cells, all present, and the range starts in column 0. When a row is skipped, the final screen is decided for all text but single spaces, which later padding can paint (`RepaintedSpace.SpaceRepainted`); where they are printed is `Replay.PrintedInPlace`.
- Sgr.StepExact: palette entries are 8-bit; other palette values are not covered.
- DeltaChain.EveryRunIsCovered: the promises of the environment listed above are part of when a step is enabled, and a send that throws is not a step.
- ReaderRuns.ReaderGetsTheAnswer: speaks of what is put into the reader's stream; a stream that ends with an error may discard what its reader has not taken by then.
- BanSet.RecordAll: the loop over results stands for the event loop that drains them; its order is arbitrary.
- TransportSteps.StartCall: the awaits of the call are the places between the methods; the tests of error texts and codes are reduced to the kind of error frame.
- Continuation.ContinuationStore.Flush: setting another path later is not modelled; the file's JSON text and the debounce time are not modelled; the outcome of the write is a parameter.
- AnthropicStream.StreamedEqualsCollected: usage, raw and metadata parts and the start of the stream are not modelled.
- Jwt.SignedTokenVerifies: covers the split, the signature and the payload's decoding; the checks of the payload's subject, expiry and user are not modelled.
- Base64Url.RoundTrip: OpenSSL's block decoder is modelled on text without white space, and returns nothing on a bad character.
- AnthropicStream.Dispatcher.DispatchEvent: message starts, usage and raw parts are one event without effect.
- BanSet.BanList.BanAdd: the append to the ban file is not modelled.
- BanSet.BanList.Load: takes addresses; the reading of the file's lines is not modelled.
- Routes.RouteTable.Publish: the JSON request, the fixed buffer lengths of prefix and host, and the writing of the route file are not modelled.
- Routes.RouteTable.constructor: takes the parsed lines; the rules of the line format are not modelled.
- AuthRing.AnswersInOrder: user name, socket and flags of a job are reduced to a ticket; PAM's answer is an arbitrary verdict.
- WriteBehind.EveryRunKeepsOrder: store operations succeed, and `clear`, `key` and `getLength` are not modelled.
- Identifier.OrderedRun: the six bytes are compared as 48-bit numbers of the clock; time stamps are integers.
- Connections, epoll, processes, PAM, the OAuth redirect flow, header parsing and HTTP routing of the gateway.
- Real time: durations, debouncing and token expiry.
- Plain-text serialization and the alternate screen buffer.
- Parsing of JSON and decoding of UTF-8.
- Prompt conversion, model catalogs, request headers and OAuth refresh of the two providers.
- `Binary`, `retry`, `lazy`, `checksum` and other helpers, which would only add easy members.
