/** The transport object takes the protocol's steps: its records and its store stay those of the
    protocol's world, so the theorems about runs speak about the object. */
module TransportSteps {
  import opened Common
  import opened Continuation
  import opened DeltaChain
  import opened WsTransport

  /** One record for each session of the world, with its fields, and the world's store. */
  ghost predicate Mirrors(t: Transport, w: World)
    reads t, t.store, t.sessions.Values
  {
    && t.store.Valid() && t.store.model == w.store
    && t.sessions.Keys == w.cells.Keys
    && (forall sid | sid in t.sessions :: t.sessions[sid].View() == w.cells[sid].session)
    && (forall a, b | a in t.sessions && b in t.sessions && a != b :: t.sessions[a] != t.sessions[b])
  }

  /** The same for every session but one, whose record is nobody else's. */
  ghost predicate OthersMirror(t: Transport, w: World, sid: string)
    reads t, t.sessions.Values
  {
    && sid in t.sessions && t.sessions.Keys == w.cells.Keys + {sid}
    && (forall other | other in t.sessions && other != sid ::
          t.sessions[other] != t.sessions[sid] && t.sessions[other].View() == w.cells[other].session)
    && (forall a, b | a in t.sessions && b in t.sessions && a != b :: t.sessions[a] != t.sessions[b])
  }

  lemma Apart(t: Transport, w: World, sid: string)
    requires Mirrors(t, w) && sid in w.cells
    ensures OthersMirror(t, w, sid) && t.sessions[sid].View() == w.cells[sid].session
    ensures t.store.Valid() && t.store.model == w.store
  {
  }

  lemma Together(t: Transport, w: World, w': World, sid: string)
    requires OthersMirror(t, w, sid) && t.store.Valid() && t.store.model == w'.store
    requires w'.cells.Keys == w.cells.Keys + {sid} && t.sessions[sid].View() == w'.cells[sid].session
    requires forall other | other in w.cells && other != sid :: w'.cells[other] == w.cells[other]
    ensures Mirrors(t, w')
  {
  }

  /** What a call has decided, as the protocol's world shows it. */
  ghost predicate Decided(w: World, w': World, sid: string, account: string, input: seq<Item>, d: Decision) {
    sid in w'.cells &&
    match d
    case UseHttp => w'.cells[sid].phase.Quiet? && w'.log == w.log + [OverHttp(input, input)]
    case Reuse(request) => w'.cells[sid].phase.Requesting? && Logged(w, w', request, account, input)
    case Connect => w'.cells[sid].phase == Connecting(account, input) && w'.log == w.log
  }

  /** A request that went out is the world's next log entry. */
  ghost predicate Logged(w: World, w': World, r: WireRequest, account: string, input: seq<Item>) {
    w'.log == w.log + [OverWs(r.conn, account, r.previous, r.items, input, Held(w.server, r.conn, r.previous), w.process)]
  }

  /** The protocol's call, as the three parts of the object's. */
  lemma CallIs(w: World, sid: string, account: string, input: seq<Item>, ready: bool)
    ensures
      var w' := DoCall(w, sid, account, input, ready);
      var s0 := if sid in w.cells then w.cells[sid].session else Hydrated(Get(w.store, sid));
      var (s1, store1) := DropDiskCarryOver(s0, w.store, sid);
      var (s2, store2) := SwitchAccount(s1, store1, sid, account);
      var (s3, store3, d) := Chosen(s2, store2, sid, input, ready);
      && w'.cells.Keys == w.cells.Keys + {sid} && w'.cells[sid].session == s3 && w'.store == store3
      && (IsQuiet(w, sid) ==> Decided(w, w', sid, account, input, d))
      && forall other | other in w.cells && other != sid :: w'.cells[other] == w.cells[other]
  {
    hide DropDiskCarryOver, SwitchAccount, Trim, Forget, Invalidate, InvalidateFamily, Receive, Hydrated, Get, Sending;
  }

  method OpenSession(t: Transport, sid: string, ghost w: World) returns (state: SessionState)
    requires Mirrors(t, w)
    modifies t, t.store
    ensures OthersMirror(t, w, sid) && state == t.sessions[sid]
    ensures state in old(t.sessions.Values) || fresh(state)
    ensures t.store.Valid() && t.store.model == w.store
    ensures state.View() == if sid in w.cells then w.cells[sid].session else Hydrated(Get(w.store, sid))
  {
    hide Hydrated, Get;
    state := t.GetSession(sid);
  }

  method PrepareCall(t: Transport, sid: string, account: string, state: SessionState, ghost w: World)
    requires OthersMirror(t, w, sid) && state == t.sessions[sid] && t.store.Valid()
    modifies state, t.store
    ensures OthersMirror(t, w, sid) && t.store.Valid()
    ensures
      var (s1, store1) := DropDiskCarryOver(old(state.View()), old(t.store.model), sid);
      (state.View(), t.store.model) == SwitchAccount(s1, store1, sid, account)
  {
    hide DropDiskCarryOver, SwitchAccount;
    t.DropCarryOver(sid, state);
    t.ChangeAccount(sid, state, account);
  }

  method ChooseWay(t: Transport, sid: string, state: SessionState, body: RequestBody, ready: bool, ghost w: World)
    returns (d: Decision)
    requires OthersMirror(t, w, sid) && state == t.sessions[sid] && t.store.Valid() && body.previousResponseId.None?
    modifies state, t.store
    ensures OthersMirror(t, w, sid) && t.store.Valid()
    ensures (state.View(), t.store.model, d) == Chosen(old(state.View()), old(t.store.model), sid, body.input, ready)
  {
    hide Chosen;
    d := t.Choose(sid, state, body, ready);
  }

  /** The start of `tryWsTransport`, up to its first wait. */
  method StartCall(t: Transport, sid: string, account: string, body: RequestBody, ready: bool, ghost w: World)
    returns (state: SessionState, d: Decision)
    requires Mirrors(t, w) && IsQuiet(w, sid) && body.previousResponseId.None?
    modifies t, t.store, t.sessions.Values
    ensures Mirrors(t, DoCall(w, sid, account, body.input, ready))
    ensures sid in t.sessions && state == t.sessions[sid]
    ensures Decided(w, DoCall(w, sid, account, body.input, ready), sid, account, body.input, d)
  {
    hide DoCall, Decided, Chosen, DropDiskCarryOver, SwitchAccount, Hydrated, Get;
    CallIs(w, sid, account, body.input, ready);
    state := OpenSession(t, sid, w);
    PrepareCall(t, sid, account, state, w);
    d := ChooseWay(t, sid, state, body, ready, w);
    hide OthersMirror, Mirrors;
    Together(t, w, DoCall(w, sid, account, body.input, ready), sid);
  }

  lemma ConnectedIs(w: World, sid: string, account: string, input: seq<Item>)
    requires sid in w.cells && w.cells[sid].phase == Connecting(account, input)
    ensures
      var conn := Conn(w.nextConn, sid, account);
      var w' := DoConnectDone(w, sid, true);
      && w'.cells.Keys == w.cells.Keys && w'.store == Invalidate(w.store, sid)
      && w'.cells[sid].session == Sending(Forget(w.cells[sid].session).(ws := Some(conn), status := Open, accountId := Some(account)),
                                          Trim(None, None, input), input)
      && Logged(w, w', WireRequest(conn, None, input), account, input)
      && forall other | other in w.cells && other != sid :: w'.cells[other] == w.cells[other]
  {
    hide Invalidate, InvalidateFamily, Receive;
  }

  /** The connection attempt has ended. */
  method FinishConnect(t: Transport, sid: string, ok: bool, conn: Conn, account: string, body: RequestBody, ghost w: World)
    returns (request: Option<WireRequest>)
    requires Mirrors(t, w) && sid in w.cells && w.cells[sid].phase == Connecting(account, body.input)
    requires conn == Conn(w.nextConn, sid, account)
    modifies t.store, t.sessions.Values
    ensures Mirrors(t, DoConnectDone(w, sid, ok))
    ensures request.Some? <==> ok
    ensures ok ==> Logged(w, DoConnectDone(w, sid, ok), request.value, account, body.input)
    ensures !ok ==> DoConnectDone(w, sid, ok).log == w.log + [OverHttp(body.input, body.input)]
  {
    hide Invalidate, Logged, Send;
    Apart(t, w, sid);
    var state := t.sessions[sid];
    if ok {
      hide DoConnectDone;
      ConnectedIs(w, sid, account, body.input);
      var r := t.Connected(sid, state, conn, account, body);
      hide Mirrors, Sending, Trim;
      Together(t, w, DoConnectDone(w, sid, true), sid);
      return Some(r);
    }
    var input := t.Fallback(state, body);
    hide Mirrors;
    Together(t, w, DoConnectDone(w, sid, false), sid);
    request := None;
  }

  /** What becomes of a session when its probe comes back without a stream. */
  function Lost(s: Session, reused: bool): Session {
    if reused then Abandon(s) else GiveUp(s)
  }

  /** What the call does then: it connects, or it hands the input to HTTP. */
  function AfterLoss(reused: bool): Decision {
    if reused then Connect else UseHttp
  }

  method LoseProbe(t: Transport, state: SessionState, reused: bool, body: RequestBody) returns (d: Decision)
    modifies state
    ensures state.View() == Lost(old(state.View()), reused) && d == AfterLoss(reused)
  {
    if reused {
      t.AbandonConnection(state);
      d := Connect;
    } else {
      var input := t.Fallback(state, body);
      d := UseHttp;
    }
  }

  /** What the session's call does next is what the world shows; if nothing, the request goes on or
      its stream has ended. */
  ghost predicate Followed(w: World, w': World, sid: string, account: string, input: seq<Item>, next: Option<Decision>) {
    sid in w'.cells &&
    if next.Some? then Decided(w, w', sid, account, input, next.value)
    else !w'.cells[sid].phase.Connecting? && w'.log == w.log
  }

  lemma LossIs(w: World, sid: string, c: Cell)
    requires c.phase.Requesting?
    ensures Decided(w, ProbeLost(w, sid, c), sid, c.phase.account, c.phase.input, AfterLoss(c.phase.reused))
  {
    hide Abandon, GiveUp;
  }

  /** No first event in time: an attempt on an existing connection goes on to connect, one on a
      new connection falls back. */
  method ExpireProbe(t: Transport, sid: string, reused: bool, body: RequestBody, ghost w: World) returns (d: Decision)
    requires Mirrors(t, w) && sid in w.cells && w.cells[sid].phase.Requesting?
    requires reused == w.cells[sid].phase.reused && body.input == w.cells[sid].phase.input
    modifies t.store, t.sessions.Values
    ensures Mirrors(t, DoProbeTimeout(w, sid))
    ensures Decided(w, DoProbeTimeout(w, sid), sid, w.cells[sid].phase.account, body.input, d)
  {
    hide Invalidate, Mirrors, Decided;
    Apart(t, w, sid);
    var state := t.sessions[sid];
    t.ProbeTimedOut(sid, state);
    d := LoseProbe(t, state, reused, body);
    ExpiryDecides(w, sid);
    Together(t, w, DoProbeTimeout(w, sid), sid);
  }

  lemma ExpiryDecides(w: World, sid: string)
    requires sid in w.cells && w.cells[sid].phase.Requesting?
    ensures
      var p := w.cells[sid].phase;
      Decided(w, DoProbeTimeout(w, sid), sid, p.account, p.input, AfterLoss(p.reused))
  {
    hide Invalidate, Abandon, GiveUp;
  }

  /** The session after a handler's reply has reached the stream's reader. */
  function Delivered(r: Reply, probing: bool, reused: bool): Session {
    if r.forwarded || !probing || r.end.Running? then r.session
    else if r.end.Closed? then Lost(r.session.(disableWebsockets := true), reused)
    else Lost(r.session, reused)
  }

  /** What the call does after the reply, if it does anything. */
  function NextMove(r: Reply, probing: bool, reused: bool): (next: Option<Decision>)
    ensures next.Some? ==> !next.value.Reuse?
  {
    if r.forwarded || !probing || r.end.Running? then None else Some(AfterLoss(reused))
  }

  lemma DeliverIs(w: World, sid: string, c: Cell, r: Reply)
    requires c.phase.Requesting?
    ensures var w' := Deliver(w, sid, c, r);
      && Followed(w, w', sid, c.phase.account, c.phase.input, NextMove(r, c.phase.probing, c.phase.reused))
      && w'.store == r.store && w'.cells.Keys == w.cells.Keys + {sid}
      && w'.cells[sid].session == Delivered(r, c.phase.probing, c.phase.reused)
      && forall other | other in w.cells && other != sid :: w'.cells[other] == w.cells[other]
  {
    hide Abandon, GiveUp;
  }

  /** The reader's side of a handler's reply: the probe, as long as it waits. */
  method ReadReply(t: Transport, state: SessionState, forwarded: bool, end: End, probing: bool, reused: bool,
                   body: RequestBody, ghost store: Store)
    returns (next: Option<Decision>)
    modifies state
    ensures state.View() == Delivered(Reply(old(state.View()), store, forwarded, end), probing, reused)
    ensures next == NextMove(Reply(old(state.View()), store, forwarded, end), probing, reused)
  {
    next := None;
    if !forwarded && probing && end != Running {
      if end == Closed {
        state.disableWebsockets := true;
      }
      var d := LoseProbe(t, state, reused, body);
      next := Some(d);
    }
  }

  ghost predicate Handles(t: Transport, sid: string, handlers: RequestHandlers, frames: nat)
    reads t, handlers
  {
    && handlers.transport == t && handlers.sid == sid
    && sid in t.sessions && handlers.state == t.sessions[sid]
    && handlers.frameCount == frames
  }

  lemma SameLog(w: World, w1: World, w': World, sid: string, account: string, input: seq<Item>, next: Option<Decision>)
    requires w1.log == w.log && (next.Some? ==> !next.value.Reuse?)
    ensures Followed(w, w', sid, account, input, next) <==> Followed(w1, w', sid, account, input, next)
  {
  }

  /** A frame of any kind arrives for the request of a session. */
  method ReceiveFrame(t: Transport, sid: string, handlers: RequestHandlers, f: Frame, probing: bool, reused: bool,
                      body: RequestBody, ghost w: World)
    returns (next: Option<Decision>)
    requires Mirrors(t, w) && sid in w.cells && w.cells[sid].phase.Requesting?
    requires probing == w.cells[sid].phase.probing && reused == w.cells[sid].phase.reused
    requires body.input == w.cells[sid].phase.input
    requires Handles(t, sid, handlers, w.cells[sid].phase.frames) && handlers.installed
    modifies handlers, t.store, t.sessions.Values
    ensures Mirrors(t, DoReceived(w, sid, f))
    ensures Handles(t, sid, handlers, w.cells[sid].phase.frames + 1)
    ensures Followed(w, DoReceived(w, sid, f), sid, w.cells[sid].phase.account, body.input, next)
  {
    hide NextMove, Followed, DeltaChain.OnMessage, Delivered, Deliver, Lost, Mirrors;
    Apart(t, w, sid);
    var forwarded, end := handlers.OnMessage(f);
    next := ReadReply(t, handlers.state, forwarded, end, probing, reused, body, t.store.model);
    ghost var c := w.cells[sid];
    ghost var w1 := if f.Completed? then w.(server := Remember(w.server, c.phase.conn, f.id)) else w;
    SameLog(w, w1, DoReceived(w, sid, f), sid, c.phase.account, body.input, next);
    DeliverIs(w1, sid, Arrived(c, f, DeltaChain.OnMessage(c.session, w.store, sid, f).forwarded),
              DeltaChain.OnMessage(c.session, w.store, sid, f));
    Together(t, w, DoReceived(w, sid, f), sid);
  }

  /** The socket fails, or nothing has come for too long. */
  method BreakRequest(t: Transport, sid: string, handlers: RequestHandlers, probing: bool, reused: bool,
                      body: RequestBody, ghost w: World)
    returns (next: Option<Decision>)
    requires Mirrors(t, w) && sid in w.cells && w.cells[sid].phase.Requesting?
    requires probing == w.cells[sid].phase.probing && reused == w.cells[sid].phase.reused
    requires body.input == w.cells[sid].phase.input
    requires Handles(t, sid, handlers, w.cells[sid].phase.frames)
    modifies handlers, t.store, t.sessions.Values
    ensures Mirrors(t, Do(w, SocketError(sid))) && Mirrors(t, Do(w, IdleTimeout(sid)))
    ensures Followed(w, Do(w, SocketError(sid)), sid, w.cells[sid].phase.account, body.input, next)
    ensures Followed(w, Do(w, IdleTimeout(sid)), sid, w.cells[sid].phase.account, body.input, next)
  {
    hide NextMove, Followed, OnBreak, Delivered, Deliver, Lost, Mirrors;
    Apart(t, w, sid);
    var end := handlers.Break();
    next := ReadReply(t, handlers.state, false, end, probing, reused, body, t.store.model);
    ghost var c := w.cells[sid];
    DeliverIs(w, sid, Broken(c), OnBreak(c.session, w.store, sid, c.phase.frames));
    Together(t, w, Do(w, SocketError(sid)), sid);
  }

  method CloseRequest(t: Transport, sid: string, handlers: RequestHandlers, probing: bool, reused: bool,
                      body: RequestBody, ghost w: World)
    returns (next: Option<Decision>)
    requires Mirrors(t, w) && sid in w.cells && w.cells[sid].phase.Requesting?
    requires probing == w.cells[sid].phase.probing && reused == w.cells[sid].phase.reused
    requires body.input == w.cells[sid].phase.input
    requires Handles(t, sid, handlers, w.cells[sid].phase.frames)
    modifies handlers, t.store, t.sessions.Values
    ensures Mirrors(t, Do(w, SocketClose(sid)))
    ensures Followed(w, Do(w, SocketClose(sid)), sid, w.cells[sid].phase.account, body.input, next)
  {
    hide NextMove, Followed, OnClose, Delivered, Deliver, Lost, Mirrors;
    Apart(t, w, sid);
    var end := handlers.Close();
    next := ReadReply(t, handlers.state, false, end, probing, reused, body, t.store.model);
    ghost var c := w.cells[sid];
    DeliverIs(w, sid, if c.session.status == Streaming then Broken(c) else c,
              OnClose(c.session, w.store, sid, c.phase.frames));
    Together(t, w, Do(w, SocketClose(sid)), sid);
  }

  /** The handlers of an abandoned connection speak up late. */
  method BreakLate(t: Transport, sid: string, handlers: RequestHandlers, ghost zombie: nat, ghost w: World)
    requires Mirrors(t, w) && sid in w.cells && zombie < |w.cells[sid].zombies|
    requires Handles(t, sid, handlers, w.cells[sid].zombies[zombie])
    modifies handlers, t.store, t.sessions.Values
    ensures Mirrors(t, Do(w, LateBreak(sid, zombie)))
  {
    hide OnBreak, Mirrors;
    Apart(t, w, sid);
    var end := handlers.Break();
    Together(t, w, Do(w, LateBreak(sid, zombie)), sid);
  }

  method CloseLate(t: Transport, sid: string, handlers: RequestHandlers, ghost zombie: nat, ghost w: World)
    requires Mirrors(t, w) && sid in w.cells && zombie < |w.cells[sid].zombies|
    requires Handles(t, sid, handlers, w.cells[sid].zombies[zombie])
    modifies handlers, t.store, t.sessions.Values
    ensures Mirrors(t, Do(w, LateClose(sid, zombie)))
  {
    hide OnClose, Mirrors;
    Apart(t, w, sid);
    var end := handlers.Close();
    Together(t, w, Do(w, LateClose(sid, zombie)), sid);
  }

  method ResetSession(t: Transport, sid: string, ghost w: World)
    requires Mirrors(t, w)
    modifies t.store, t.sessions.Values
    ensures Mirrors(t, DoReset(w, sid))
  {
    hide InvalidateFamily;
    t.ResetWsSession(sid);
  }

  method CloseSession(t: Transport, sid: string, ghost w: World)
    requires Mirrors(t, w)
    modifies t.sessions.Values
    ensures Mirrors(t, DoClose(w, sid))
  {
    t.CloseWsSession(sid);
  }

  /** A new process has no records, and a store of its own that reads the file. */
  method RestartTransport(store: ContinuationStore, ghost w: World) returns (t: Transport)
    requires store.Valid()
    ensures Mirrors(t, Do(w, Restart(store.model)))
  {
    t := new Transport(store);
  }
}
