/** The transport module itself: session records and request handlers that assign their
    fields, each method tied to the protocol's step functions. */
module WsTransport {
  import opened Common
  import opened Continuation
  import opened DeltaChain

  /** A request body: an object the caller owns. */
  class RequestBody {
    var previousResponseId: Option<string>
    var input: seq<Item>

    constructor (previousResponseId: Option<string>, input: seq<Item>)
      ensures this.previousResponseId == previousResponseId && this.input == input
    {
      this.previousResponseId := previousResponseId;
      this.input := input;
    }
  }

  /** A session's state record. */
  class SessionState {
    var ws: Option<Conn>
    var status: Status
    var accountId: Option<string>
    var lastResponseId: Option<string>
    var lastInputLength: Option<nat>
    var disableWebsockets: bool
    var continuationInvalidated: bool
    var validatedInProcess: bool
    var continuationFromDisk: bool

    constructor (e: Entry)
      ensures View() == Hydrated(e)
    {
      ws, status := None, Idle;
      disableWebsockets, continuationInvalidated := false, false;
      lastResponseId, lastInputLength, accountId := e.lastResponseId, e.lastInputLength, e.accountId;
      validatedInProcess, continuationFromDisk := false, Truthy(e.lastResponseId);
    }

    ghost function View(): Session
      reads this
    {
      Session(ws, status, accountId, lastResponseId, lastInputLength, disableWebsockets,
              continuationInvalidated, validatedInProcess, continuationFromDisk)
    }

    method Clear()
      modifies this`lastResponseId, this`lastInputLength
      ensures View() == Forget(old(View()))
    {
      lastResponseId := None;
      lastInputLength := None;
    }
  }

  /** What a call does next: fall back to HTTP, use the open connection, or connect. */
  datatype Decision = UseHttp | Reuse(request: WireRequest) | Connect

  /** What goes over the wire. */
  datatype WireRequest = WireRequest(conn: Conn, previous: Option<string>, items: seq<Item>)

  /** The choice of transport, with the record and the store it leaves. */
  function Chosen(s: Session, store: Store, sid: string, input: seq<Item>, ready: bool): (Session, Store, Decision) {
    if s.disableWebsockets then (s, store, UseHttp)
    else if s.ws.Some? && s.status == Open && ready then
      var out := Trim(s.lastInputLength, if Truthy(s.lastResponseId) then s.lastResponseId else None, input);
      (Sending(s, out, input), if out.dropped then InvalidateFamily(store, sid) else store,
       Reuse(WireRequest(s.ws.value, out.previous, out.items)))
    else if s.ws.Some? then (Forget(s).(ws := None, status := Failed), Continuation.Invalidate(store, sid), Connect)
    else (s, store, Connect)
  }

  class Transport {
    const store: ContinuationStore
    var sessions: map<string, SessionState>

    constructor (store: ContinuationStore)
      ensures this.store == store && sessions == map[]
    {
      this.store := store;
      sessions := map[];
    }

    method GetSession(sid: string) returns (state: SessionState)
      requires store.Valid()
      modifies this`sessions, store`cache
      ensures store.Valid() && store.model == old(store.model)
      ensures sid in old(sessions) ==> state == old(sessions)[sid] && sessions == old(sessions)
      ensures sid !in old(sessions) ==> fresh(state) && state.View() == Hydrated(Get(store.model, sid))
      ensures sessions == old(sessions)[sid := state]
    {
      if sid in sessions {
        state := sessions[sid];
      } else {
        var persisted := store.GetContinuation(sid);
        state := new SessionState(persisted);
        sessions := sessions[sid := state];
      }
    }

    /** Forgetting a chain: the session's pointer and the whole family in the store. */
    method Invalidate(sid: string, state: SessionState)
      requires store.Valid()
      modifies state, store
      ensures store.Valid() && store.model == InvalidateFamily(old(store.model), sid)
      ensures state.View() == Forget(old(state.View()))
    {
      state.Clear();
      store.InvalidateContinuationFamily(sid);
    }

    method ResetWsSession(sid: string)
      requires store.Valid()
      modifies store, if sid in sessions then {sessions[sid]} else {}
      ensures store.Valid()
      ensures sid in sessions ==>
        && sessions[sid].View() == Forget(old(sessions[sid].View())).(ws := None, status := Idle)
        && store.model == InvalidateFamily(old(store.model), sid)
      ensures sid !in sessions ==> store.model == old(store.model)
    {
      if sid in sessions {
        var state := sessions[sid];
        state.ws := None;
        state.status := Idle;
        Invalidate(sid, state);
      }
    }

    method CloseWsSession(sid: string)
      modifies if sid in sessions then {sessions[sid]} else {}
      ensures sid in sessions ==>
        sessions[sid].View() ==
          (if old(sessions[sid].ws).Some? then old(sessions[sid].View()).(ws := None, status := Idle)
           else old(sessions[sid].View()))
    {
      if sid in sessions && sessions[sid].ws.Some? {
        sessions[sid].ws := None;
        sessions[sid].status := Idle;
      }
    }

    /** The sending half of a request. The caller's body is copied before the copy's input is
        trimmed, so the body itself is not in the frame. */
    method WsRequest(sid: string, state: SessionState, conn: Conn, body: RequestBody)
      returns (request: WireRequest)
      requires store.Valid()
      modifies state, store
      ensures store.Valid()
      ensures
        var out := Trim(old(state.lastInputLength), body.previousResponseId, body.input);
        && request == WireRequest(conn, out.previous, out.items)
        && state.View() == Sending(old(state.View()), out, body.input)
        && store.model == if out.dropped then InvalidateFamily(old(store.model), sid) else old(store.model)
    {
      var wsBody := new RequestBody(body.previousResponseId, body.input);
      var fullInputLength := |wsBody.input|;
      if Truthy(wsBody.previousResponseId) {
        var lastLen := if state.lastInputLength.Some? then state.lastInputLength.value else 0;
        if lastLen > 0 && |wsBody.input| > lastLen {
          wsBody.input := wsBody.input[lastLen..];
        } else {
          wsBody.previousResponseId := None;
          Invalidate(sid, state);
        }
      } else {
        wsBody.previousResponseId := None;
      }
      state.lastInputLength := Some(fullInputLength);
      state.status := Streaming;
      request := WireRequest(conn, wsBody.previousResponseId, wsBody.input);
    }

    /** The daemon-restart safeguard at the start of a call. */
    method DropCarryOver(sid: string, state: SessionState)
      requires store.Valid()
      modifies state, store
      ensures store.Valid()
      ensures (state.View(), store.model) == DropDiskCarryOver(old(state.View()), old(store.model), sid)
    {
      if state.continuationFromDisk && !state.validatedInProcess && Truthy(state.lastResponseId) {
        Invalidate(sid, state);
        state.continuationFromDisk := false;
      }
    }

    /** The account switch at the start of a call. */
    method ChangeAccount(sid: string, state: SessionState, account: string)
      requires store.Valid()
      modifies state, store
      ensures store.Valid()
      ensures (state.View(), store.model) == SwitchAccount(old(state.View()), old(store.model), sid, account)
    {
      hide Shard;
      if state.accountId.Some? && state.accountId.value != account {
        store.UpdateContinuation(Shard(sid, state.accountId.value),
          Patch(Set(state.lastResponseId), Set(state.lastInputLength), Set(state.accountId)));
        state.ws := None;
        state.status := Idle;
        state.disableWebsockets := false;
        var restored := store.GetContinuation(Shard(sid, account));
        state.lastResponseId := restored.lastResponseId;
        state.lastInputLength := restored.lastInputLength;
      }
    }

    /** The choice of transport. `ready` is whether the socket still reports itself open. */
    method Choose(sid: string, state: SessionState, body: RequestBody, ready: bool) returns (d: Decision)
      requires store.Valid() && body.previousResponseId.None?
      modifies state, store
      ensures store.Valid()
      ensures (state.View(), store.model, d) == Chosen(old(state.View()), old(store.model), sid, body.input, ready)
    {
      hide InvalidateFamily, Continuation.Invalidate;
      if state.disableWebsockets {
        return UseHttp;
      }
      if state.ws.Some? && state.status == Open && ready {
        var reqBody := new RequestBody(body.previousResponseId, body.input);
        if Truthy(state.lastResponseId) {
          reqBody.previousResponseId := state.lastResponseId;
        }
        var request := WsRequest(sid, state, state.ws.value, reqBody);
        return Reuse(request);
      } else if state.ws.Some? {
        state.ws := None;
        state.status := Failed;
        state.Clear();
        store.InvalidateContinuation(sid);
      }
      d := Connect;
    }

    /** After an unsuccessful probe on an existing connection. */
    method AbandonConnection(state: SessionState)
      modifies state
      ensures state.View() == Abandon(old(state.View()))
    {
      state.ws := None;
      state.status := Failed;
      state.continuationInvalidated := false;
    }

    /** A new connection is open: it starts without any chain. */
    method Connected(sid: string, state: SessionState, conn: Conn, account: string, body: RequestBody)
      returns (request: WireRequest)
      requires store.Valid()
      modifies state, store
      ensures store.Valid()
      ensures
        var out := Trim(None, None, body.input);
        && request == WireRequest(conn, None, body.input)
        && state.View() ==
             Sending(Forget(old(state.View())).(ws := Some(conn), status := Open, accountId := Some(account)), out, body.input)
        && store.model == Continuation.Invalidate(old(store.model), sid)
    {
      state.ws := Some(conn);
      state.status := Open;
      state.accountId := Some(account);
      var reqBody := new RequestBody(body.previousResponseId, body.input);
      reqBody.previousResponseId := None;
      state.Clear();
      store.InvalidateContinuation(sid);
      request := WsRequest(sid, state, conn, reqBody);
    }

    /** Everything failed: sticky fallback to HTTP, which sends the caller's body as it is. */
    method Fallback(state: SessionState, body: RequestBody) returns (input: seq<Item>)
      modifies state
      ensures state.View() == GiveUp(old(state.View())) && input == body.input
    {
      state.disableWebsockets := true;
      state.ws := None;
      state.status := Failed;
      input := body.input;
    }

    /** No first event in time. The socket's handlers stay behind. */
    method ProbeTimedOut(sid: string, state: SessionState)
      requires store.Valid()
      modifies state, store
      ensures store.Valid() && store.model == Continuation.Invalidate(old(store.model), sid)
      ensures state.View() == Forget(old(state.View())).(disableWebsockets := true, ws := None, status := Failed)
    {
      state.Clear();
      store.InvalidateContinuation(sid);
      state.disableWebsockets := true;
      state.ws := None;
      state.status := Failed;
    }
  }

  /** The handlers of one request, with the frame count they share. `installed` is false once
      they have been taken off the socket. */
  class RequestHandlers {
    const transport: Transport
    const sid: string
    const state: SessionState
    var frameCount: nat
    var installed: bool

    constructor (transport: Transport, sid: string, state: SessionState)
      ensures this.transport == transport && this.sid == sid && this.state == state
      ensures frameCount == 0 && installed
    {
      this.transport := transport;
      this.sid := sid;
      this.state := state;
      frameCount, installed := 0, true;
    }

    method EndStream() returns (end: End)
      modifies this`installed, state`status
      ensures !installed && end == Closed && state.View() == old(state.View()).(status := Open)
    {
      installed := false;
      state.status := Open;
      end := Closed;
    }

    method EndWithError() returns (end: End)
      modifies this`installed, state`status
      ensures !installed && end == Errored && state.View() == old(state.View()).(status := Failed)
    {
      installed := false;
      state.status := Failed;
      end := Errored;
    }

    method OnMessage(f: Frame) returns (forwarded: bool, end: End)
      requires transport.store.Valid() && installed
      modifies this, state, transport.store
      ensures transport.store.Valid()
      ensures Reply(state.View(), transport.store.model, forwarded, end)
           == DeltaChain.OnMessage(old(state.View()), old(transport.store.model), sid, f)
      ensures frameCount == old(frameCount) + 1 && (installed <==> end == Running)
    {
      hide InvalidateFamily, Update;
      frameCount := frameCount + 1;
      forwarded, end := false, Running;
      match f
      case RateLimits =>
      case Unparsable =>
      case ErrorFrame(notFound, overflow) =>
        if notFound || overflow {
          state.continuationInvalidated := true;
        }
        transport.Invalidate(sid, state);
        end := EndWithError();
      case Completed(id) =>
        forwarded := true;
        if Truthy(id) {
          state.lastResponseId := id;
          transport.store.UpdateContinuation(sid,
            Patch(Set(id), Set(state.lastInputLength), Set(state.accountId)));
        }
        state.validatedInProcess := true;
        state.continuationFromDisk := false;
        end := EndStream();
      case Incomplete =>
        forwarded := true;
        transport.Invalidate(sid, state);
        end := EndStream();
      case ResponseFailed =>
        forwarded := true;
        transport.Invalidate(sid, state);
        end := EndWithError();
      case Event =>
        forwarded := true;
    }

    /** A socket error, or an idle timeout. */
    method Break() returns (end: End)
      requires transport.store.Valid()
      modifies this`installed, state, transport.store
      ensures transport.store.Valid() && !installed
      ensures Reply(state.View(), transport.store.model, false, end)
           == OnBreak(old(state.View()), old(transport.store.model), sid, frameCount)
    {
      transport.Invalidate(sid, state);
      if frameCount == 0 {
        end := EndWithError();
      } else {
        end := EndStream();
      }
    }

    method Close() returns (end: End)
      requires transport.store.Valid()
      modifies this`installed, state, transport.store
      ensures transport.store.Valid()
      ensures Reply(state.View(), transport.store.model, false, end)
           == OnClose(old(state.View()), old(transport.store.model), sid, frameCount)
      ensures end != Running ==> !installed
      ensures end == Running ==> installed == old(installed)
    {
      end := Running;
      if state.status == Streaming {
        transport.Invalidate(sid, state);
        state.status := Failed;
        if frameCount == 0 {
          end := EndWithError();
        } else {
          end := EndStream();
        }
      }
    }
  }
}
