/** What runs of the delta protocol have in common: where a chained id comes from, that the
    chain is really used, and why a completion has to carry an id. */
module DeltaRuns {
  import opened Common
  import opened Continuation
  import opened DeltaChain

  // ---------------------------------------------------------------- origin of ids

  /** Step `j` of the run completed `id` on connection `conn`. */
  ghost predicate CompletesOn(worlds: seq<World>, steps: seq<Step>, j: nat, conn: Conn, id: string)
    requires IsRun(worlds, steps) && j < |steps|
  {
    && steps[j] == Received(conn.session, Completed(Some(id)))
    && worlds[j].cells[conn.session].phase.conn == conn
  }

  /** A step adds at most one completed chain to the server's memory and at most one request
      to the log, for which it records what the server held. */
  ghost predicate Effects(w: World, w': World, step: Step) {
    && (forall key: (Conn, string) | key in w'.server.memory && key !in w.server.memory ::
          && step.Received? && step.frame == Completed(Some(key.1))
          && step.sid == key.0.session && step.sid in w.cells && w.cells[step.sid].phase.Requesting?
          && w.cells[step.sid].phase.conn == key.0)
    && w.log <= w'.log && |w'.log| <= |w.log| + 1
    && (|w'.log| > |w.log| && w'.log[|w.log|].OverWs? ==>
          var e := w'.log[|w.log|];
          e.held == Held(w.server, e.conn, e.previous) && e.process == w.process)
    && w.nextConn <= w'.nextConn
    && (w'.process == w.process || w'.process == w.nextConn)
  }

  lemma CallEffects(w: World, step: Step)
    requires WorldOk(w) && Enabled(w, step) && (step.Call? || step.ConnectDone?)
    ensures Effects(w, Do(w, step), step)
  {
    hide Trim, Sending, SwitchAccount, DropDiskCarryOver;
  }

  lemma DeliverEffects(w: World, sid: string, c: Cell, r: Reply, step: Step)
    requires c.phase.Requesting?
    ensures Effects(w, Deliver(w, sid, c, r), step)
    ensures Deliver(w, sid, c, r).server == w.server
    ensures var log := Deliver(w, sid, c, r).log; |log| > |w.log| ==> log[|w.log|].OverHttp?
  {
  }

  lemma ReceivedEffects(w: World, step: Step)
    requires WorldOk(w) && Enabled(w, step) && step.Received?
    ensures Effects(w, Do(w, step), step)
  {
    hide Deliver, OnMessage;
    var c := w.cells[step.sid];
    assert CellOk(w, step.sid, c);
    var c1 := Arrived(c, step.frame, OnMessage(c.session, w.store, step.sid, step.frame).forwarded);
    var w1 := if step.frame.Completed? then w.(server := Remember(w.server, c.phase.conn, step.frame.id)) else w;
    DeliverEffects(w1, step.sid, c1, OnMessage(c.session, w.store, step.sid, step.frame), step);
  }

  lemma StepEffects(w: World, step: Step)
    requires WorldOk(w) && Enabled(w, step)
    ensures Effects(w, Do(w, step), step)
  {
    hide Effects, DoCall, DoConnectDone, DoReceived;
    match step
    case Call(_, _, _, _) => CallEffects(w, step);
    case ConnectDone(_, _) => CallEffects(w, step);
    case Received(_, _) => ReceivedEffects(w, step);
    case SocketError(sid) =>
      DeliverEffects(w, sid, Broken(w.cells[sid]), OnBreak(w.cells[sid].session, w.store, sid, w.cells[sid].phase.frames), step);
    case SocketClose(sid) =>
      DeliverEffects(w, sid, if w.cells[sid].session.status == Streaming then Broken(w.cells[sid]) else w.cells[sid],
                     OnClose(w.cells[sid].session, w.store, sid, w.cells[sid].phase.frames), step);
    case IdleTimeout(sid) =>
      DeliverEffects(w, sid, Broken(w.cells[sid]), OnBreak(w.cells[sid].session, w.store, sid, w.cells[sid].phase.frames), step);
    case _ => OtherEffects(w, step);
  }

  lemma OtherEffects(w: World, step: Step)
    requires Enabled(w, step)
    requires step.ProbeTimeout? || step.LateBreak? || step.LateClose? || step.Reset? || step.CloseSession? || step.Restart?
    ensures Effects(w, Do(w, step), step)
  {
  }

  lemma {:induction false} MemoryOrigin(worlds: seq<World>, steps: seq<Step>, i: nat, conn: Conn, id: string)
    requires IsRun(worlds, steps) && i < |worlds|
    requires (conn, id) in worlds[i].server.memory
    ensures exists j: nat :: j < i && j < |steps| && CompletesOn(worlds, steps, j, conn, id)
    decreases i
  {
    hide Do, Enabled;
    if i > 0 {
      EveryRunIsCovered(worlds, steps, i - 1);
      StepEffects(worlds[i - 1], steps[i - 1]);
      if (conn, id) in worlds[i - 1].server.memory {
        MemoryOrigin(worlds, steps, i - 1, conn, id);
      } else {
        assert CompletesOn(worlds, steps, i - 1, conn, id);
      }
    }
  }

  /** Connection numbers keep processes apart. */
  lemma {:induction false} ProcessOrder(worlds: seq<World>, steps: seq<Step>, j: nat, i: nat)
    requires IsRun(worlds, steps) && j <= i < |worlds|
    ensures worlds[i].process == worlds[j].process || worlds[j].nextConn <= worlds[i].process
    ensures worlds[j].nextConn <= worlds[i].nextConn
    decreases i
  {
    hide Do, Enabled;
    if j < i {
      ProcessOrder(worlds, steps, j, i - 1);
      EveryRunIsCovered(worlds, steps, i - 1);
      StepEffects(worlds[i - 1], steps[i - 1]);
    }
  }

  /** Chain affinity, over every run: a request that continues response `p` was sent over the
      connection on which an earlier step of the same process completed `p`, and that
      connection was opened for the account of the request. Ids read from disk or restored
      from an account's shard have no such step, so they never reach the wire. */
  lemma {:induction false} ChainAffinity(worlds: seq<World>, steps: seq<Step>, i: nat, k: nat)
    requires IsRun(worlds, steps) && i < |worlds| && k < |worlds[i].log|
    requires worlds[i].log[k].OverWs? && worlds[i].log[k].previous.Some?
    ensures
      var e := worlds[i].log[k];
      && e.conn.account == e.account
      && exists j: nat :: j < i && j < |steps| && CompletesOn(worlds, steps, j, e.conn, e.previous.value)
                          && worlds[j].process == e.process
    decreases i
  {
    hide Do, Enabled, CellOk;
    EveryRunIsCovered(worlds, steps, i);
    var e := worlds[i].log[k];
    assert Covered(e);
    if i > 0 {
      EveryRunIsCovered(worlds, steps, i - 1);
      StepEffects(worlds[i - 1], steps[i - 1]);
      if k < |worlds[i - 1].log| {
        assert worlds[i - 1].log[k] == e;
        ChainAffinity(worlds, steps, i - 1, k);
        var j: nat :| j < i - 1 && j < |steps| && CompletesOn(worlds, steps, j, e.conn, e.previous.value)
                          && worlds[j].process == e.process;
      } else {
        MemoryOrigin(worlds, steps, i - 1, e.conn, e.previous.value);
        var j: nat :| j < i - 1 && j < |steps| && CompletesOn(worlds, steps, j, e.conn, e.previous.value);
        ProcessOrder(worlds, steps, j, i - 1);
        CompletedInProcess(worlds, steps, j, e.conn, e.previous.value);
      }
    }
  }

  lemma CompletedInProcess(worlds: seq<World>, steps: seq<Step>, j: nat, conn: Conn, id: string)
    requires IsRun(worlds, steps) && j < |steps| && CompletesOn(worlds, steps, j, conn, id)
    ensures worlds[j].process <= conn.serial < worlds[j].nextConn
  {
    hide Do;
    EveryRunIsCovered(worlds, steps, j);
    assert Enabled(worlds[j], steps[j]);
    assert CellOk(worlds[j], conn.session, worlds[j].cells[conn.session]);
  }

  // ---------------------------------------------------------------- the chain is used

  /** Exactly when a call on a live connection continues the chain, and with what: the input
      must be strictly longer than the length stored with the id. Otherwise the whole input
      goes out and the chain is dropped. */
  lemma CallOnLiveConnection(w: World, sid: string, account: string, input: seq<Item>)
    requires WorldOk(w) && Enabled(w, Call(sid, account, input, true)) && sid in w.cells
    requires
      var s := w.cells[sid].session;
      && s.ws.Some? && s.status == Open && s.accountId == Some(account) && !s.disableWebsockets
      && !(s.continuationFromDisk && !s.validatedInProcess)
    ensures
      var s := w.cells[sid].session;
      var w' := DoCall(w, sid, account, input, true);
      var e := w'.log[|w.log|];
      && |w'.log| == |w.log| + 1 && e.OverWs? && e.conn == s.ws.value
      && (e.previous.Some? <==>
            Truthy(s.lastResponseId) && s.lastInputLength.Some? && 0 < s.lastInputLength.value < |input|)
      && (e.previous.Some? ==> e.previous == s.lastResponseId && e.items == input[s.lastInputLength.value..])
      && (e.previous.None? ==> e.items == input && !Truthy(w'.cells[sid].session.lastResponseId))
  {
  }

  /** A response that completes undisturbed makes the next, longer, call send its tail only. */
  lemma NextCallSendsTheTail(w: World, sid: string, id: string, input: seq<Item>)
    requires WorldOk(w) && Enabled(w, Received(sid, Completed(Some(id))))
    requires
      var c := w.cells[sid];
      && !c.session.disableWebsockets && c.session.lastInputLength.Some?
      && 0 < |c.phase.input| < |input| && c.phase.input <= input
    ensures
      var c := w.cells[sid];
      var w1 := DoReceived(w, sid, Completed(Some(id)));
      var w2 := DoCall(w1, sid, c.phase.account, input, true);
      && Enabled(w1, Call(sid, c.phase.account, input, true))
      && |w2.log| == |w.log| + 1
      && w2.log[|w.log|] == OverWs(c.phase.conn, c.phase.account, Some(id), input[|c.phase.input|..], input,
                                   Some(c.phase.input), w.process)
  {
    hide Update, InvalidateFamily;
    assert CellOk(w, sid, w.cells[sid]);
    ReceivedOk(w, sid, Completed(Some(id)));
    var w1 := DoReceived(w, sid, Completed(Some(id)));
    CallOnLiveConnection(w1, sid, w.cells[sid].phase.account, input);
  }

  // ---------------------------------------------------------------- completions without id

  /** The environment's promise that a completion carries an id is needed. Without it the
      old id stays while the length has already moved on, so the chain is out of order whenever
      both are there: */
  lemma CompletionWithoutId(w: World, sid: string)
    requires WorldOk(w) && sid in w.cells && w.cells[sid].phase.Requesting?
    ensures
      var c := w.cells[sid];
      var w' := DoReceived(w, sid, Completed(None));
      && w'.cells[sid].phase.Quiet? && w'.cells[sid].session.ws == c.session.ws
      && w'.cells[sid].session.lastResponseId == c.session.lastResponseId
      && w'.cells[sid].session.lastInputLength == c.session.lastInputLength
      && (CellOk(w', sid, w'.cells[sid]) <==>
            !Truthy(c.session.lastResponseId) || c.session.lastInputLength.None?)
  {
    assert CellOk(w, sid, w.cells[sid]);
  }

  /** What that means for the next call: a longer one, extending a conversation that was not empty,
      is covered exactly when no id or no length was there. */
  lemma NextCallAfterNoId(w: World, sid: string, input: seq<Item>)
    requires WorldOk(w) && sid in w.cells && w.cells[sid].phase.Requesting?
    requires !w.cells[sid].session.disableWebsockets
    requires 0 < |w.cells[sid].phase.input| < |input| && w.cells[sid].phase.input <= input
    ensures
      var c := w.cells[sid];
      var w' := DoCall(DoReceived(w, sid, Completed(None)), sid, c.phase.account, input, true);
      && w'.log != []
      && (Covered(w'.log[|w'.log| - 1]) <==> !Truthy(c.session.lastResponseId) || c.session.lastInputLength.None?)
  {
    hide WorldOk;
    var c := w.cells[sid];
    assert CellOk(w, sid, c) by { CellOfWorld(w, sid); }
    var w1 := DoReceived(w, sid, Completed(None));
    assert w1.cells[sid].phase.Quiet? && w1.cells[sid].session.status == Open;
    assert w1.server == w.server;
    var w2 := DoCall(w1, sid, c.phase.account, input, true);
    var e := w2.log[|w2.log| - 1];
    if Truthy(c.session.lastResponseId) && c.session.lastInputLength.Some? {
      var held := Held(w.server, c.phase.conn, c.session.lastResponseId);
      assert e.held == held && e.items == input[|c.phase.input|..];
      assert |held.value + e.items| < |input|;
    }
  }

  lemma CellOfWorld(w: World, sid: string)
    requires WorldOk(w) && sid in w.cells
    ensures CellOk(w, sid, w.cells[sid])
  {
  }

  /** ... and a third call loses an item: the server holds one, the tail starts after two. */
  lemma LostItem(x: Item, y: Item, z: Item)
    ensures
      var w1 := DoCall(Initial(map[]), "s", "a", [x], true);
      var w2 := DoConnectDone(w1, "s", true);
      var w3 := DoReceived(w2, "s", Completed(Some("r")));
      var w4 := DoCall(w3, "s", "a", [x, y], true);
      var w5 := DoReceived(w4, "s", Completed(None));
      var w6 := DoCall(w5, "s", "a", [x, y, z], true);
      |w6.log| == 3 && w6.log[2].previous == Some("r") && w6.log[2].held == Some([x]) && w6.log[2].items == [z]
  {
    var conn := Conn(0, "s", "a");
    var w1 := DoCall(Initial(map[]), "s", "a", [x], true);
    assert w1.cells["s"].phase == Connecting("a", [x]);
    var w2 := DoConnectDone(w1, "s", true);
    assert w2.server.pending[conn] == [x];
    var w3 := DoReceived(w2, "s", Completed(Some("r")));
    assert w3.cells["s"].phase == Quiet && w3.server.memory[(conn, "r")] == [x];
    var w4 := DoCall(w3, "s", "a", [x, y], true);
    assert w4.cells["s"].phase == Requesting(conn, 0, true, true, "a", [x, y]);
    var w5 := DoReceived(w4, "s", Completed(None));
    assert w5.cells["s"].session.lastInputLength == Some(2);
    assert [x, y, z][2..] == [z];
  }
}
