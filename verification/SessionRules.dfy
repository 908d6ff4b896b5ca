/** What calls and frames do to a session, in terms of its fields and of what is sent: which way a
    call goes, what survives an account switch, a completion, a restart or a reset, and what
    becomes of a request that brings nothing. */
module SessionRules {
  import opened Common
  import opened Continuation
  import opened DeltaChain

  /** Nothing from disk is waiting to be dropped. */
  predicate NoCarryOver(s: Session) {
    !(s.continuationFromDisk && !s.validatedInProcess && Truthy(s.lastResponseId))
  }

  predicate Switches(s: Session, account: string) {
    s.accountId.Some? && s.accountId.value != account
  }

  ghost predicate NoChainIn(store: Store, sid: string) {
    forall key | InFamily(key, sid) :: Get(store, key).lastResponseId.None? && Get(store, key).lastInputLength.None?
  }

  // ---------------------------------------------------------------- which way a call goes

  /** By HTTP when the session has given up on connections for this account; over its connection
      when it is open and ready and stays with its account; otherwise over a new one. The input
      is handed on whole in any case. */
  lemma CallRoute(w: World, sid: string, account: string, input: seq<Item>, ready: bool)
    requires sid in w.cells
    ensures
      var s := w.cells[sid].session;
      var w' := DoCall(w, sid, account, input, ready);
      var after := w'.cells[sid];
      if s.disableWebsockets && !Switches(s, account) then
        w'.log == w.log + [OverHttp(input, input)] && after.phase == Quiet
      else if s.ws.Some? && s.status == Open && ready && !Switches(s, account) then
        && |w'.log| == |w.log| + 1 && w.log <= w'.log && Last(w'.log).OverWs?
        && Last(w'.log).conn == s.ws.value && Last(w'.log).full == input
        && after.phase == Requesting(s.ws.value, 0, true, true, account, input)
        && after.session.ws == s.ws && after.session.status == Streaming
        && after.session.lastInputLength == Some(|input|)
      else
        w'.log == w.log && after.phase == Connecting(account, input) && after.session.ws.None?
  {
    hide InvalidateFamily, Update, Get, Invalidate, Receive, Held, Trim;
  }

  /** The first call of a session opens a connection. */
  lemma FirstCallConnects(w: World, sid: string, account: string, input: seq<Item>, ready: bool)
    requires sid !in w.cells
    ensures
      var w' := DoCall(w, sid, account, input, ready);
      w'.log == w.log && sid in w'.cells && w'.cells[sid].phase == Connecting(account, input)
  {
    hide InvalidateFamily, Update, Get, Invalidate;
  }

  /** After a response that is completed or incomplete the next call goes over the same connection,
      if it is still ready; after one that failed, over a new one. */
  lemma CallAfterResponse(w: World, sid: string, f: Frame, input: seq<Item>)
    requires WorldOk(w) && Enabled(w, Received(sid, f)) && !w.cells[sid].session.disableWebsockets
    requires f.Completed? || f.Incomplete? || f.ResponseFailed?
    ensures
      var c := w.cells[sid];
      var w1 := DoReceived(w, sid, f);
      && sid in w1.cells && w1.cells[sid].phase.Quiet? && w1.log == w.log
      && var w2 := DoCall(w1, sid, c.phase.account, input, true);
         if f.ResponseFailed? then w2.log == w.log && w2.cells[sid].phase == Connecting(c.phase.account, input)
         else |w2.log| == |w.log| + 1 && Last(w2.log).OverWs? && Last(w2.log).conn == c.phase.conn
  {
    hide WorldOk, InvalidateFamily, Update, Get, Invalidate, Receive, Held, Trim, DoCall, Remember;
    CellInOrder(w, sid);
    CallRoute(DoReceived(w, sid, f), sid, w.cells[sid].phase.account, input, true);
  }

  lemma CellInOrder(w: World, sid: string)
    requires WorldOk(w) && sid in w.cells && w.cells[sid].phase.Requesting?
    ensures
      var c := w.cells[sid];
      c.session.ws == Some(c.phase.conn) && c.session.accountId == Some(c.phase.account)
  {
    assert CellOk(w, sid, w.cells[sid]);
  }

  /** Once a session has given up on connections, nothing but another account or a new process
      makes it try one again by itself, and each of its calls goes by HTTP. */
  lemma StickyFallback(w: World, step: Step, sid: string)
    requires Enabled(w, step) && sid in w.cells && w.cells[sid].session.disableWebsockets && !step.Restart?
    requires step.Call? && step.sid == sid ==> !Switches(w.cells[sid].session, step.account)
    ensures sid in Do(w, step).cells && Do(w, step).cells[sid].session.disableWebsockets
    ensures step.Call? && step.sid == sid ==> Do(w, step).log == w.log + [OverHttp(step.input, step.input)]
  {
    hide InvalidateFamily, Update, Get, Invalidate, Receive, Held, Trim, Remember;
    hide DoCall, DoConnectDone, DoReceived, Deliver, OnBreak, OnClose;
    match step
    case Call(s, account, input, ready) =>
      CallStays(w, s, account, input, ready);
    case ConnectDone(s, ok) => ConnectStays(w, s, ok);
    case Received(s, f) => ReceivedStays(w, s, f);
    case SocketError(s) => BreakStays(w, step);
    case SocketClose(s) => BreakStays(w, step);
    case IdleTimeout(s) => BreakStays(w, step);
    case _ =>
      BreaksKeepIt(w, step);
  }

  /** The other sessions stay as they are, and this one stays without connections. */
  predicate StaysDisabled(w: World, w': World, sid: string) {
    && sid in w'.cells && (sid in w.cells && w.cells[sid].session.disableWebsockets ==> w'.cells[sid].session.disableWebsockets)
    && forall other | other in w.cells && other != sid :: other in w'.cells && w'.cells[other] == w.cells[other]
  }

  lemma CallStays(w: World, sid: string, account: string, input: seq<Item>, ready: bool)
    ensures
      var w' := DoCall(w, sid, account, input, ready);
      && (forall other | other in w.cells && other != sid :: other in w'.cells && w'.cells[other] == w.cells[other])
      && (sid in w.cells && w.cells[sid].session.disableWebsockets && !Switches(w.cells[sid].session, account) ==>
            sid in w'.cells && w'.cells[sid].session.disableWebsockets && w'.log == w.log + [OverHttp(input, input)])
  {
    hide InvalidateFamily, Update, Get, Invalidate, Receive, Held, Trim;
  }

  lemma ConnectStays(w: World, sid: string, ok: bool)
    requires sid in w.cells && w.cells[sid].phase.Connecting?
    ensures StaysDisabled(w, DoConnectDone(w, sid, ok), sid)
  {
    hide Invalidate, InvalidateFamily, Receive, Held, Trim;
  }

  lemma DeliverStays(w: World, sid: string, c: Cell, r: Reply)
    requires sid in w.cells && c.phase.Requesting?
    requires w.cells[sid].session.disableWebsockets ==> r.session.disableWebsockets
    ensures StaysDisabled(w, Deliver(w, sid, c, r), sid)
  {
  }

  lemma ReceivedStays(w: World, sid: string, f: Frame)
    requires sid in w.cells && w.cells[sid].phase.Requesting?
    ensures StaysDisabled(w, DoReceived(w, sid, f), sid)
  {
    hide Remember, InvalidateFamily, Update, Deliver;
    var c := w.cells[sid];
    var r := OnMessage(c.session, w.store, sid, f);
    DeliverStays(if f.Completed? then w.(server := Remember(w.server, c.phase.conn, f.id)) else w, sid,
                 Arrived(c, f, r.forwarded), r);
  }

  lemma BreakStays(w: World, step: Step)
    requires Enabled(w, step) && (step.SocketError? || step.SocketClose? || step.IdleTimeout?)
    ensures StaysDisabled(w, Do(w, step), step.sid)
  {
    hide InvalidateFamily, Deliver;
    var c := w.cells[step.sid];
    DeliverStays(w, step.sid, Broken(c), OnBreak(c.session, w.store, step.sid, c.phase.frames));
    DeliverStays(w, step.sid, Broken(c), OnClose(c.session, w.store, step.sid, c.phase.frames));
    DeliverStays(w, step.sid, c, OnClose(c.session, w.store, step.sid, c.phase.frames));
  }

  lemma BreaksKeepIt(w: World, step: Step)
    requires Enabled(w, step)
    requires step.ProbeTimeout? || step.LateBreak? || step.LateClose? || step.Reset? || step.CloseSession?
    ensures step.sid in w.cells ==> StaysDisabled(w, Do(w, step), step.sid)
    ensures step.sid !in w.cells ==> Do(w, step) == w
  {
    hide InvalidateFamily, Invalidate;
  }

  // ---------------------------------------------------------------- accounts

  /** Switching to another account: the chain is kept in the old account's shard and nowhere else,
      the chain of the new account's shard is loaded, and connections are tried again. */
  lemma SwitchSavesAndLoads(w: World, sid: string, account: string, input: seq<Item>, ready: bool)
    requires sid in w.cells && Switches(w.cells[sid].session, account) && NoCarryOver(w.cells[sid].session)
    ensures
      var s := w.cells[sid].session;
      var w' := DoCall(w, sid, account, input, ready);
      var s' := w'.cells[sid].session;
      && s'.ws.None? && s'.status == Idle && !s'.disableWebsockets
      && s'.lastResponseId == Get(w.store, Shard(sid, account)).lastResponseId
      && s'.lastInputLength == Get(w.store, Shard(sid, account)).lastInputLength
      && Get(w'.store, Shard(sid, s.accountId.value)) == Entry(s.lastResponseId, s.lastInputLength, s.accountId)
      && (forall key | key != Shard(sid, s.accountId.value) :: Get(w'.store, key) == Get(w.store, key))
  {
    if Shard(sid, account) == Shard(sid, w.cells[sid].session.accountId.value) {
      ShardsApart(sid, account, w.cells[sid].session.accountId.value);
    }
  }

  /** Switching away and back: whatever happens in between, as long as it leaves the shard of the
      first account alone, its chain is there again. */
  lemma SwitchBackRestores(w: World, w2: World, sid: string, other: string, input: seq<Item>, input2: seq<Item>)
    requires sid in w.cells && Switches(w.cells[sid].session, other) && NoCarryOver(w.cells[sid].session)
    requires sid in w2.cells && w2.cells[sid].session.accountId == Some(other) && NoCarryOver(w2.cells[sid].session)
    requires
      var shard := Shard(sid, w.cells[sid].session.accountId.value);
      Get(w2.store, shard) == Get(DoCall(w, sid, other, input, true).store, shard)
    ensures
      var s := w.cells[sid].session;
      var s' := DoCall(w2, sid, s.accountId.value, input2, true).cells[sid].session;
      s'.lastResponseId == s.lastResponseId && s'.lastInputLength == s.lastInputLength
  {
    hide DoCall;
    SwitchSavesAndLoads(w, sid, other, input, true);
    SwitchSavesAndLoads(w2, sid, w.cells[sid].session.accountId.value, input2, true);
  }

  // ---------------------------------------------------------------- completion and restart

  /** A completion with an id is kept in the session and on disk, with the length of the request
      and its account. */
  lemma CompletionIsKept(w: World, sid: string, id: string)
    requires sid in w.cells && w.cells[sid].phase.Requesting? && id != ""
    ensures
      var s := w.cells[sid].session;
      var w' := DoReceived(w, sid, Completed(Some(id)));
      && sid in w'.cells && w'.cells[sid].session.lastResponseId == Some(id)
      && w'.cells[sid].session.lastInputLength == s.lastInputLength
      && Get(w'.store, sid) == Entry(Some(id), s.lastInputLength, s.accountId)
      && (forall key | key != sid :: Get(w'.store, key) == Get(w.store, key))
  {
  }

  /** A new process reads that chain back, and its first call drops it, in the whole family, before
      anything is sent. */
  lemma CarryOverIsDropped(w: World, sid: string, account: string, input: seq<Item>, ready: bool)
    requires sid !in w.cells && Truthy(Get(w.store, sid).lastResponseId)
    ensures
      var s := Hydrated(Get(w.store, sid));
      s.lastResponseId == Get(w.store, sid).lastResponseId && s.lastInputLength == Get(w.store, sid).lastInputLength
    ensures
      var w' := DoCall(w, sid, account, input, ready);
      && w'.log == w.log && sid in w'.cells
      && w'.cells[sid].session.lastResponseId.None? && w'.cells[sid].session.lastInputLength.None?
      && NoChainIn(w'.store, sid)
  {
    hide Trim, Receive, Held;
    NoChainLeft(w.store, sid);
    var s := Forget(Hydrated(Get(w.store, sid))).(continuationFromDisk := false);
    SwitchKeepsNone(s, InvalidateFamily(w.store, sid), sid, account);
    hide InvalidateFamily, SwitchAccount, NoChainIn;
  }

  lemma SwitchKeepsNone(s: Session, store: Store, sid: string, account: string)
    requires NoChainIn(store, sid) && s.lastResponseId.None? && s.lastInputLength.None?
    ensures
      var (s', store') := SwitchAccount(s, store, sid, account);
      && NoChainIn(store', sid) && s'.lastResponseId.None? && s'.lastInputLength.None?
  {
    ShardIsNoSession(sid, account);
  }

  lemma NoChainLeft(store: Store, sid: string)
    ensures NoChainIn(InvalidateFamily(store, sid), sid)
  {
    forall key | InFamily(key, sid)
      ensures Get(InvalidateFamily(store, sid), key).lastResponseId.None?
      ensures Get(InvalidateFamily(store, sid), key).lastInputLength.None?
    {
      FamilyMembers(key, sid);
      FamilyInvalidated(store, sid, key);
    }
  }

  /** A reset leaves no chain of the session anywhere, and no connection. */
  lemma ResetForgets(w: World, sid: string)
    requires sid in w.cells
    ensures
      var w' := DoReset(w, sid);
      && sid in w'.cells && w'.cells[sid].session.ws.None? && w'.cells[sid].session.status == Idle
      && w'.cells[sid].session.lastResponseId.None? && w'.cells[sid].session.lastInputLength.None?
      && NoChainIn(w'.store, sid)
  {
    NoChainLeft(w.store, sid);
    hide InvalidateFamily, NoChainIn;
  }

  // ---------------------------------------------------------------- requests that bring nothing

  /** The request ends before its reader has got a frame. */
  predicate LosesProbe(w: World, step: Step)
    requires Enabled(w, step)
  {
    match step
    case SocketError(sid) => w.cells[sid].phase.probing
    case IdleTimeout(sid) => w.cells[sid].phase.probing
    case SocketClose(sid) => w.cells[sid].phase.probing && w.cells[sid].session.status == Streaming
    case Received(sid, frame) => w.cells[sid].phase.probing && frame.ErrorFrame?
    case ProbeTimeout(_) => true
    case _ => false
  }

  /** On a connection that was reused the request is tried once more over a new one; on a new one
      it goes by HTTP, and so will all later ones. The session gives up on connections also when
      it timed out, or broke after frames that were no answer. */
  lemma LostProbe(w: World, step: Step)
    requires Enabled(w, step) && LosesProbe(w, step)
    ensures
      var c := w.cells[step.sid];
      var w' := Do(w, step);
      && step.sid in w'.cells
      && var s' := w'.cells[step.sid].session;
         && s'.ws.None? && s'.status == Failed && s'.lastResponseId.None? && s'.lastInputLength.None?
         && (s'.disableWebsockets <==>
               || c.session.disableWebsockets || !c.phase.reused || step.ProbeTimeout?
               || (!step.Received? && c.phase.frames > 0))
         && (if c.phase.reused then
               w'.log == w.log && w'.cells[step.sid].phase == Connecting(c.phase.account, c.phase.input)
             else
               w'.log == w.log + [OverHttp(c.phase.input, c.phase.input)] && w'.cells[step.sid].phase.Quiet?)
  {
    hide InvalidateFamily, Invalidate;
  }
}
