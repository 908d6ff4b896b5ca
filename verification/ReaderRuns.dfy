/** What the reader of a request gets, over all runs of the delta protocol. */
module ReaderRuns {
  import opened Common
  import opened Continuation
  import opened DeltaChain

  /** The frames that are part of the answer. Rate limits, frames that do not parse and error frames
      are not. */
  predicate IsAnswer(f: Frame) {
    f.Event? || f.Completed? || f.Incomplete? || f.ResponseFailed?
  }

  function Answer(frames: seq<Frame>): seq<Frame> {
    if frames == [] then [] else Answer(Front(frames)) + (if IsAnswer(Last(frames)) then [Last(frames)] else [])
  }

  /** How the reader's stream ends: normally with a response that is completed or incomplete, with an
      error after a failed response or an error frame; and if the socket breaks, with an error when
      nothing had arrived, and otherwise cut off. */
  function Outcome(arrived: seq<Frame>, broken: bool): End {
    if arrived != [] && (Last(arrived).Completed? || Last(arrived).Incomplete?) then Closed
    else if arrived != [] && (Last(arrived).ResponseFailed? || Last(arrived).ErrorFrame?) then Errored
    else if !broken then Running
    else if arrived == [] then Errored
    else Closed
  }

  /** The reader has got the answer so far, and a request is probing exactly as long as it has got
      nothing. */
  predicate StreamOk(c: Cell) {
    var s := c.stream;
    && s.read == Answer(s.arrived) && s.end == Outcome(s.arrived, s.broken)
    && (c.phase.Requesting? ==>
          && c.phase.frames == |s.arrived| && s.end == Running
          && (c.phase.probing <==> s.read == []))
  }

  predicate AllStreamsOk(w: World) {
    forall sid | sid in w.cells :: StreamOk(w.cells[sid])
  }

  // ---------------------------------------------------------------- one step

  /** Only one session's cell changes. */
  predicate OthersStay(w: World, w': World, sid: string) {
    forall other | other in w'.cells && other != sid :: other in w.cells && w'.cells[other] == w.cells[other]
  }

  lemma DeliveredStream(w: World, sid: string, c: Cell, r: Reply)
    requires c.phase.Requesting?
    requires c.stream.read == Answer(c.stream.arrived) && c.phase.frames == |c.stream.arrived|
    requires r.end == Outcome(c.stream.arrived, c.stream.broken)
    requires if r.forwarded then c.stream.read != [] else (c.phase.probing <==> c.stream.read == [])
    ensures
      var w' := Deliver(w, sid, c, r);
      OthersStay(w, w', sid) && sid in w'.cells && StreamOk(w'.cells[sid]) && w'.cells[sid].stream == c.stream.(end := r.end)
  {
    hide Answer, Outcome, Abandon, GiveUp;
  }

  /** What one more frame adds to the answer. */
  lemma AnswerGrows(arrived: seq<Frame>, f: Frame)
    ensures Answer(arrived + [f]) == Answer(arrived) + (if IsAnswer(f) then [f] else [])
  {
    assert Front(arrived + [f]) == arrived;
  }

  /** Which frames the handler hands on, and which of them end the stream, and how. */
  lemma FrameReply(s: Session, store: Store, sid: string, f: Frame, arrived: seq<Frame>)
    ensures
      var r := OnMessage(s, store, sid, f);
      (r.forwarded <==> IsAnswer(f)) && r.end == Outcome(arrived + [f], false)
  {
    hide InvalidateFamily, Update;
    assert Last(arrived + [f]) == f;
  }

  lemma FrameRead(w: World, sid: string, f: Frame)
    requires sid in w.cells && w.cells[sid].phase.Requesting? && StreamOk(w.cells[sid])
    ensures
      var w' := DoReceived(w, sid, f);
      && OthersStay(w, w', sid) && sid in w'.cells && StreamOk(w'.cells[sid])
      && w'.cells[sid].stream.arrived == w.cells[sid].stream.arrived + [f]
  {
    hide Answer, OnMessage, Deliver, IsAnswer;
    var c := w.cells[sid];
    var r := OnMessage(c.session, w.store, sid, f);
    NotBroken(c.stream);
    AnswerGrows(c.stream.arrived, f);
    FrameReply(c.session, w.store, sid, f, c.stream.arrived);
    hide Outcome;
    var w1 := if f.Completed? then w.(server := Remember(w.server, c.phase.conn, f.id)) else w;
    DeliveredStream(w1, sid, Arrived(c, f, r.forwarded), r);
  }

  lemma NotBroken(s: Stream)
    requires s.end == Running == Outcome(s.arrived, s.broken)
    ensures !s.broken
  {
  }

  lemma BreakRead(w: World, step: Step)
    requires Enabled(w, step) && (step.SocketError? || step.SocketClose? || step.IdleTimeout?)
    requires StreamOk(w.cells[step.sid])
    ensures
      var w' := Do(w, step);
      && OthersStay(w, w', step.sid) && step.sid in w'.cells && StreamOk(w'.cells[step.sid])
      && w'.cells[step.sid].stream.arrived == w.cells[step.sid].stream.arrived
  {
    hide Answer, Deliver, InvalidateFamily;
    var c := w.cells[step.sid];
    var r := if step.SocketClose? then OnClose(c.session, w.store, step.sid, c.phase.frames)
             else OnBreak(c.session, w.store, step.sid, c.phase.frames);
    var c1 := if step.SocketClose? && c.session.status != Streaming then c else Broken(c);
    assert r.end == Outcome(c1.stream.arrived, c1.stream.broken);
    DeliveredStream(w, step.sid, c1, r);
  }

  /** A step that sends a request starts a new stream; the others that remain keep it. */
  predicate Sends(w: World, w': World, sid: string) {
    |w'.log| > |w.log| && Last(w'.log).OverWs? && Last(w'.log).conn.session == sid
  }

  /** What the steps without frames do to the stream of their session. */
  predicate StreamAfter(w: World, w': World, sid: string) {
    && OthersStay(w, w', sid)
    && (sid in w'.cells ==>
          && StreamOk(w'.cells[sid])
          && w'.cells[sid].stream.arrived ==
             (if Sends(w, w', sid) || sid !in w.cells then [] else w.cells[sid].stream.arrived))
  }

  lemma SendStarts(w: World, sid: string, c: Cell, conn: Conn, reused: bool, account: string,
                   previous: Option<string>, input: seq<Item>)
    requires conn.session == sid
    ensures
      var w' := Send(w, sid, c, conn, reused, account, previous, input);
      && OthersStay(w, w', sid) && sid in w'.cells && StreamOk(w'.cells[sid])
      && w'.cells[sid].stream == NEW_STREAM && w'.log[..|w.log|] == w.log && Sends(w, w', sid)
      && w'.cells.Keys == w.cells.Keys + {sid}
  {
    hide Trim, Sending, InvalidateFamily, Receive, Held;
  }

  lemma ConnectionStays(s: Session, store: Store, sid: string, account: string)
    ensures
      var (s1, store1) := DropDiskCarryOver(s, store, sid);
      var s2 := SwitchAccount(s1, store1, sid, account).0;
      s2.ws.Some? ==> s2.ws == s.ws
  {
    hide InvalidateFamily, Update, Get;
  }

  lemma CallRead(w: World, sid: string, account: string, input: seq<Item>, ready: bool)
    requires WorldOk(w) && IsQuiet(w, sid) && AllStreamsOk(w)
    ensures StreamAfter(w, DoCall(w, sid, account, input, ready), sid)
  {
    hide Trim, Sending, SwitchAccount, DropDiskCarryOver, Invalidate, Forget, Hydrated, Get, Send, Answer, Outcome;
    NoAnswerYet();
    var cell := if sid in w.cells then w.cells[sid] else Cell(Hydrated(Get(w.store, sid)), Quiet, [], [], NEW_STREAM);
    if sid in w.cells {
      assert StreamOk(w.cells[sid]) && CellOk(w, sid, w.cells[sid]);
    } else {
      NoConnectionYet(Get(w.store, sid));
    }
    ConnectionStays(cell.session, w.store, sid, account);
    var (s1, store1) := DropDiskCarryOver(cell.session, w.store, sid);
    var (s2, store2) := SwitchAccount(s1, store1, sid, account);
    if !s2.disableWebsockets && s2.ws.Some? && s2.status == Open && ready {
      SendStarts(w.(store := store2), sid, cell.(session := s2, lastInput := input), s2.ws.value, true, account,
                 if Truthy(s2.lastResponseId) then s2.lastResponseId else None, input);
    }
  }

  lemma NoConnectionYet(e: Entry)
    ensures Hydrated(e).ws.None?
  {
  }

  lemma ConnectRead(w: World, sid: string, ok: bool)
    requires sid in w.cells && w.cells[sid].phase.Connecting? && StreamOk(w.cells[sid])
    ensures StreamAfter(w, DoConnectDone(w, sid, ok), sid)
  {
    hide Trim, Sending, Invalidate, Forget, Send, GiveUp, Answer, Outcome;
    var c := w.cells[sid];
    if ok {
      var conn := Conn(w.nextConn, sid, c.phase.account);
      var s := Forget(c.session).(ws := Some(conn), status := Open, accountId := Some(c.phase.account));
      SendStarts(w.(nextConn := w.nextConn + 1, store := Invalidate(w.store, sid)), sid, c.(session := s), conn,
                 false, c.phase.account, None, c.phase.input);
    }
  }

  lemma ProbeRead(w: World, sid: string)
    requires sid in w.cells && w.cells[sid].phase.Requesting? && StreamOk(w.cells[sid])
    ensures StreamAfter(w, DoProbeTimeout(w, sid), sid)
  {
    hide Invalidate, Forget, GiveUp, Abandon, Answer, Outcome;
  }

  lemma QuietRead(w: World, step: Step)
    requires Enabled(w, step) && AllStreamsOk(w)
    requires step.LateBreak? || step.LateClose? || step.Reset? || step.CloseSession?
    ensures StreamAfter(w, Do(w, step), step.sid)
  {
    hide InvalidateFamily, Forget, OnBreak, OnClose, Answer, Outcome;
    if step.sid in w.cells {
      assert StreamOk(w.cells[step.sid]);
    }
  }

  lemma OtherRead(w: World, step: Step)
    requires WorldOk(w) && Enabled(w, step) && AllStreamsOk(w)
    requires !step.Received? && !step.SocketError? && !step.SocketClose? && !step.IdleTimeout? && !step.Restart?
    ensures StreamAfter(w, Do(w, step), step.sid)
  {
    hide WorldOk, StreamOk, StreamAfter, DoCall, DoConnectDone, DoProbeTimeout, DoLate, DoReset, DoClose;
    match step
    case Call(sid, account, input, ready) => CallRead(w, sid, account, input, ready);
    case ConnectDone(sid, ok) => ConnectRead(w, sid, ok);
    case ProbeTimeout(sid) => ProbeRead(w, sid);
    case _ => QuietRead(w, step);
  }

  lemma NoAnswerYet()
    ensures Answer([]) == [] && Outcome([], false) == Running
  {
  }

  lemma StepReads(w: World, step: Step)
    requires WorldOk(w) && Enabled(w, step) && AllStreamsOk(w)
    ensures AllStreamsOk(Do(w, step))
    ensures forall sid | sid in Do(w, step).cells ::
      Do(w, step).cells[sid].stream.arrived == ArrivedAfter(w, step, sid)
  {
    hide StreamOk, Do, Enabled, WorldOk;
    if step.Restart? {
      RestartReads(w, step);
    } else if step.Received? {
      ReceivedEnabled(w, step);
      FrameRead(w, step.sid, step.frame);
    } else if step.SocketError? || step.SocketClose? || step.IdleTimeout? {
      BrokenEnabled(w, step);
      BreakRead(w, step);
      NothingSent(w, step);
    } else {
      OtherRead(w, step);
    }
  }

  lemma ReceivedEnabled(w: World, step: Step)
    requires Enabled(w, step) && step.Received?
    ensures step.sid in w.cells && w.cells[step.sid].phase.Requesting? && Do(w, step) == DoReceived(w, step.sid, step.frame)
  {
  }

  lemma BrokenEnabled(w: World, step: Step)
    requires Enabled(w, step) && (step.SocketError? || step.SocketClose? || step.IdleTimeout?)
    ensures step.sid in w.cells
  {
  }

  lemma NothingSent(w: World, step: Step)
    requires Enabled(w, step) && (step.SocketError? || step.SocketClose? || step.IdleTimeout?)
    ensures !Sends(w, Do(w, step), step.sid)
  {
    hide OnBreak, OnClose, Abandon, GiveUp;
  }

  lemma RestartReads(w: World, step: Step)
    requires Enabled(w, step) && step.Restart?
    ensures Do(w, step).cells == map[]
  {
  }

  // ---------------------------------------------------------------- runs

  /** The frames that have arrived for the latest request of a session after one more step. */
  function ArrivedAfter(w: World, step: Step, sid: string): seq<Frame>
    requires Enabled(w, step)
  {
    var before := if sid in w.cells then w.cells[sid].stream.arrived else [];
    if step.Restart? then []
    else if step.sid != sid then before
    else if step.Received? then before + [step.frame]
    else if Sends(w, Do(w, step), sid) then []
    else before
  }

  /** The frames of a session's steps since its latest request went out. */
  function FramesSince(worlds: seq<World>, steps: seq<Step>, i: nat, sid: string): seq<Frame>
    requires IsRun(worlds, steps) && i < |worlds|
  {
    if i == 0 then []
    else
      var before := FramesSince(worlds, steps, i - 1, sid);
      var step := steps[i - 1];
      if step.Restart? then []
      else if step.sid != sid then before
      else if step.Received? then before + [step.frame]
      else if Sends(worlds[i - 1], worlds[i], sid) then []
      else before
  }

  lemma {:induction false} RunReads(worlds: seq<World>, steps: seq<Step>, i: nat)
    requires IsRun(worlds, steps) && i < |worlds|
    ensures WorldOk(worlds[i]) && AllStreamsOk(worlds[i])
    ensures forall sid | sid in worlds[i].cells :: worlds[i].cells[sid].stream.arrived == FramesSince(worlds, steps, i, sid)
    ensures forall sid | sid !in worlds[i].cells :: FramesSince(worlds, steps, i, sid) == []
    decreases i
  {
    hide StreamOk, Do, Enabled, WorldOk, Sends;
    EveryRunIsCovered(worlds, steps, i);
    if i > 0 {
      RunReads(worlds, steps, i - 1);
      StepReads(worlds[i - 1], steps[i - 1]);
      CellsStay(worlds[i - 1], steps[i - 1]);
    }
  }

  /** Cells stay until a restart, and frames arrive only where there is a cell. */
  lemma CellsStay(w: World, step: Step)
    requires Enabled(w, step)
    ensures !step.Restart? ==> w.cells.Keys <= Do(w, step).cells.Keys
    ensures !step.Restart? ==> forall sid | sid in Do(w, step).cells && sid !in w.cells :: sid == step.sid && !step.Received?
    ensures step.Received? ==> step.sid in w.cells
    ensures !step.Restart? && !step.Received? && step.sid !in Do(w, step).cells ==> !Sends(w, Do(w, step), step.sid)
  {
    hide DoCall, DoConnectDone, DoProbeTimeout, DoLate, Deliver, OnBreak, OnClose, OnMessage, Forget, InvalidateFamily;
    match step
    case Call(sid, account, input, ready) => CallKeys(w, sid, account, input, ready);
    case ConnectDone(sid, ok) => ConnectKeys(w, sid, ok);
    case ProbeTimeout(sid) => ProbeKeys(w, sid);
    case Received(sid, f) =>
      var c := w.cells[sid];
      var r := OnMessage(c.session, w.store, sid, f);
      DeliveredKeys(if f.Completed? then w.(server := Remember(w.server, c.phase.conn, f.id)) else w, sid,
                    Arrived(c, f, r.forwarded), r);
    case SocketError(sid) =>
      DeliveredKeys(w, sid, Broken(w.cells[sid]), OnBreak(w.cells[sid].session, w.store, sid, w.cells[sid].phase.frames));
    case SocketClose(sid) =>
      DeliveredKeys(w, sid, if w.cells[sid].session.status == Streaming then Broken(w.cells[sid]) else w.cells[sid],
                    OnClose(w.cells[sid].session, w.store, sid, w.cells[sid].phase.frames));
    case IdleTimeout(sid) =>
      DeliveredKeys(w, sid, Broken(w.cells[sid]), OnBreak(w.cells[sid].session, w.store, sid, w.cells[sid].phase.frames));
    case LateBreak(sid, z) => LateKeys(w, sid, z, OnBreak(w.cells[sid].session, w.store, sid, w.cells[sid].zombies[z]));
    case LateClose(sid, z) => LateKeys(w, sid, z, OnClose(w.cells[sid].session, w.store, sid, w.cells[sid].zombies[z]));
    case Reset(_) =>
    case CloseSession(_) =>
    case Restart(_) =>
  }

  lemma CallKeys(w: World, sid: string, account: string, input: seq<Item>, ready: bool)
    ensures DoCall(w, sid, account, input, ready).cells.Keys == w.cells.Keys + {sid}
  {
    hide Trim, Sending, SwitchAccount, DropDiskCarryOver, Invalidate, InvalidateFamily, Forget, Hydrated, Get, Receive, Held;
  }

  lemma ConnectKeys(w: World, sid: string, ok: bool)
    requires sid in w.cells && w.cells[sid].phase.Connecting?
    ensures DoConnectDone(w, sid, ok).cells.Keys == w.cells.Keys
  {
    hide Trim, Sending, Invalidate, InvalidateFamily, Forget, Receive, Held, GiveUp;
  }

  lemma ProbeKeys(w: World, sid: string)
    requires sid in w.cells && w.cells[sid].phase.Requesting?
    ensures DoProbeTimeout(w, sid).cells.Keys == w.cells.Keys
  {
    hide Invalidate, Forget, GiveUp, Abandon;
  }

  lemma DeliveredKeys(w: World, sid: string, c: Cell, r: Reply)
    requires sid in w.cells && c.phase.Requesting?
    ensures Deliver(w, sid, c, r).cells.Keys == w.cells.Keys
  {
    hide GiveUp, Abandon;
  }

  lemma LateKeys(w: World, sid: string, zombie: nat, r: Reply)
    requires sid in w.cells && zombie < |w.cells[sid].zombies|
    ensures DoLate(w, sid, zombie, r).cells.Keys == w.cells.Keys
  {
  }

  /** In every run, for every session at every point: the reader of its latest request has got the
      frames that arrived since the request went out, in order, without those that are no answer;
      its stream goes on or has ended as the last of them, or the broken socket, says; and a
      request that is still probing has got nothing, one that has got a frame is not probing. */
  lemma ReaderGetsTheAnswer(worlds: seq<World>, steps: seq<Step>, i: nat, sid: string)
    requires IsRun(worlds, steps) && i < |worlds| && sid in worlds[i].cells
    ensures
      var c := worlds[i].cells[sid];
      var frames := FramesSince(worlds, steps, i, sid);
      && c.stream.read == Answer(frames)
      && c.stream.end == Outcome(frames, c.stream.broken)
      && (c.phase.Requesting? ==> c.stream.end == Running && (c.phase.probing <==> Answer(frames) == []))
  {
    hide Answer, Outcome;
    RunReads(worlds, steps, i);
    assert StreamOk(worlds[i].cells[sid]);
  }
}
