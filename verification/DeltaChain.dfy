/** The delta protocol of the Codex WebSocket transport, as a machine whose steps are the
    turns of the event loop, run against a server that remembers every completed chain. */
module DeltaChain {
  import opened Common
  import opened Continuation

  datatype Item = Item(content: string)

  datatype Status = Idle | Open | Streaming | Failed

  /** A connection, with its place in the order of connections, and whose it is. */
  datatype Conn = Conn(serial: nat, session: string, account: string)

  /** The fields of a session's state record. */
  datatype Session = Session(
    ws: Option<Conn>, status: Status, accountId: Option<string>,
    lastResponseId: Option<string>, lastInputLength: Option<nat>,
    disableWebsockets: bool, continuationInvalidated: bool,
    validatedInProcess: bool, continuationFromDisk: bool)

  function Forget(s: Session): Session {
    s.(lastResponseId := None, lastInputLength := None)
  }

  function Hydrated(e: Entry): Session {
    Session(None, Idle, e.accountId, e.lastResponseId, e.lastInputLength, false, false, false, Truthy(e.lastResponseId))
  }

  // ---------------------------------------------------------------- sending

  /** The decision about the chain: what goes on the wire and whether the chain is dropped. */
  datatype Outgoing = Outgoing(previous: Option<string>, items: seq<Item>, dropped: bool)

  function Trim(lastInputLength: Option<nat>, previous: Option<string>, input: seq<Item>): Outgoing {
    if !Truthy(previous) then Outgoing(None, input, false)
    else
      var last := if lastInputLength.Some? then lastInputLength.value else 0;
      if 0 < last < |input| then Outgoing(previous, input[last..], false)
      else Outgoing(None, input, true)
  }

  function Sending(s: Session, out: Outgoing, input: seq<Item>): Session {
    (if out.dropped then Forget(s) else s).(lastInputLength := Some(|input|), status := Streaming)
  }

  // ---------------------------------------------------------------- receiving

  datatype Frame =
    | RateLimits
    | Unparsable
    | ErrorFrame(notFound: bool, overflow: bool)
    | Completed(id: Option<string>)
    | Incomplete
    | ResponseFailed
    | Event

  datatype End = Running | Closed | Errored

  /** What a handler does: the session, the store, and the stream it feeds. */
  datatype Reply = Reply(session: Session, store: Store, forwarded: bool, end: End)

  function OnMessage(s: Session, store: Store, sid: string, f: Frame): Reply {
    match f
    case RateLimits => Reply(s, store, false, Running)
    case Unparsable => Reply(s, store, false, Running)
    case ErrorFrame(notFound, overflow) =>
      Reply(Forget(s).(status := Failed,
                       continuationInvalidated := s.continuationInvalidated || notFound || overflow),
            InvalidateFamily(store, sid), false, Errored)
    case Completed(id) =>
      var s1 := if Truthy(id) then s.(lastResponseId := id) else s;
      Reply(s1.(validatedInProcess := true, continuationFromDisk := false, status := Open),
            if Truthy(id) then Update(store, sid, Patch(Set(id), Set(s.lastInputLength), Set(s.accountId))) else store,
            true, Closed)
    case Incomplete => Reply(Forget(s).(status := Open), InvalidateFamily(store, sid), true, Closed)
    case ResponseFailed => Reply(Forget(s).(status := Failed), InvalidateFamily(store, sid), true, Errored)
    case Event => Reply(s, store, true, Running)
  }

  /** A socket error or an idle timeout. */
  function OnBreak(s: Session, store: Store, sid: string, frames: nat): Reply {
    Reply(Forget(s).(status := if frames == 0 then Failed else Open), InvalidateFamily(store, sid), false,
          if frames == 0 then Errored else Closed)
  }

  /** A close matters only to a session that believes it is streaming. */
  function OnClose(s: Session, store: Store, sid: string, frames: nat): Reply {
    if s.status == Streaming then OnBreak(s, store, sid, frames) else Reply(s, store, false, Running)
  }

  // ---------------------------------------------------------------- the world

  /** What a session is doing. `input` is the conversation the caller passed in. */
  datatype Phase =
    | Quiet
    | Connecting(account: string, input: seq<Item>)
    | Requesting(conn: Conn, frames: nat, probing: bool, reused: bool, account: string, input: seq<Item>)

  /** `zombies` are handlers left on abandoned sockets, with their frame counts. `stream` is what
      became of the session's latest request. */
  datatype Cell = Cell(session: Session, phase: Phase, zombies: seq<nat>, lastInput: seq<Item>, stream: Stream)

  /** The frames that arrived for a request, whether its socket broke, and what its reader got: the
      frames handed on, and how they ended. */
  datatype Stream = Stream(arrived: seq<Frame>, broken: bool, read: seq<Frame>, end: End)

  const NEW_STREAM := Stream([], false, [], Running)

  /** The server: the client items held along each completed chain, and for each connection
      the items of the request it is working on, chain included. */
  datatype Server = Server(memory: map<(Conn, string), seq<Item>>, pending: map<Conn, seq<Item>>)

  function Held(server: Server, conn: Conn, previous: Option<string>): Option<seq<Item>> {
    if previous.Some? && (conn, previous.value) in server.memory
    then Some(server.memory[(conn, previous.value)]) else None
  }

  function Receive(server: Server, conn: Conn, previous: Option<string>, items: seq<Item>): Server {
    var held := Held(server, conn, previous);
    server.(pending := server.pending[conn := (if held.Some? then held.value else []) + items])
  }

  function Remember(server: Server, conn: Conn, id: Option<string>): Server {
    if id.Some? then
      server.(memory := server.memory[(conn, id.value) :=
        if conn in server.pending then server.pending[conn] else []])
    else server
  }

  /** A request as it left: over a connection, or by the HTTP fallback. `full` is the
      conversation it stands for, `held` what the server then held for `previous`, and
      `process` the first connection number of the process that sent it. */
  datatype Sent =
    | OverWs(conn: Conn, account: string, previous: Option<string>, items: seq<Item>,
             full: seq<Item>, held: Option<seq<Item>>, process: nat)
    | OverHttp(items: seq<Item>, full: seq<Item>)

  datatype World = World(
    cells: map<string, Cell>, store: Store, server: Server, nextConn: nat, process: nat, log: seq<Sent>)

  function Initial(disk: Store): World {
    World(map[], disk, Server(map[], map[]), 0, 0, [])
  }

  // ---------------------------------------------------------------- the steps

  datatype Step =
    | Call(sid: string, account: string, input: seq<Item>, ready: bool)
    | ConnectDone(sid: string, ok: bool)
    | Received(sid: string, frame: Frame)
    | SocketError(sid: string)
    | SocketClose(sid: string)
    | IdleTimeout(sid: string)
    | ProbeTimeout(sid: string)
    | LateBreak(sid: string, zombie: nat)
    | LateClose(sid: string, zombie: nat)
    | Reset(sid: string)
    | CloseSession(sid: string)
    | Restart(disk: Store)

  /** A carry-over from disk is dropped before the first request of a process. */
  function DropDiskCarryOver(s: Session, store: Store, sid: string): (Session, Store) {
    if s.continuationFromDisk && !s.validatedInProcess && Truthy(s.lastResponseId)
    then (Forget(s).(continuationFromDisk := false), InvalidateFamily(store, sid))
    else (s, store)
  }

  function SwitchAccount(s: Session, store: Store, sid: string, account: string): (Session, Store) {
    if s.accountId.Some? && s.accountId.value != account then
      var saved := Update(store, Shard(sid, s.accountId.value),
                          Patch(Set(s.lastResponseId), Set(s.lastInputLength), Set(s.accountId)));
      var restored := Get(saved, Shard(sid, account));
      (s.(ws := None, status := Idle, disableWebsockets := false,
          lastResponseId := restored.lastResponseId, lastInputLength := restored.lastInputLength), saved)
    else (s, store)
  }

  /** Sticky fallback. */
  function GiveUp(s: Session): Session {
    s.(disableWebsockets := true, ws := None, status := Failed)
  }

  /** After an unsuccessful attempt on an existing connection. */
  function Abandon(s: Session): Session {
    s.(ws := None, status := Failed, continuationInvalidated := false)
  }

  function PutCell(w: World, sid: string, c: Cell): World {
    w.(cells := w.cells[sid := c])
  }

  /** Hands a request to a connection. */
  function Send(w: World, sid: string, c: Cell, conn: Conn, reused: bool, account: string,
                previous: Option<string>, input: seq<Item>): World {
    var out := Trim(c.session.lastInputLength, previous, input);
    var cell := c.(session := Sending(c.session, out, input), stream := NEW_STREAM,
                   phase := Requesting(conn, 0, true, reused, account, input));
    PutCell(w, sid, cell).(
      store := if out.dropped then InvalidateFamily(w.store, sid) else w.store,
      server := Receive(w.server, conn, out.previous, out.items),
      log := w.log + [OverWs(conn, account, out.previous, out.items, input,
                             Held(w.server, conn, out.previous), w.process)])
  }

  function FallBack(w: World, sid: string, c: Cell, input: seq<Item>): World {
    PutCell(w, sid, c.(phase := Quiet)).(log := w.log + [OverHttp(input, input)])
  }

  function DoCall(w: World, sid: string, account: string, input: seq<Item>, ready: bool): World {
    var cell := if sid in w.cells then w.cells[sid] else Cell(Hydrated(Get(w.store, sid)), Quiet, [], [], NEW_STREAM);
    var (s1, store1) := DropDiskCarryOver(cell.session, w.store, sid);
    var (s2, store2) := SwitchAccount(s1, store1, sid, account);
    var w2 := w.(store := store2);
    var c2 := cell.(session := s2, lastInput := input);
    if s2.disableWebsockets then FallBack(w2, sid, c2, input)
    else if s2.ws.Some? && s2.status == Open && ready then
      Send(w2, sid, c2, s2.ws.value, true, account, if Truthy(s2.lastResponseId) then s2.lastResponseId else None, input)
    else if s2.ws.Some? then
      PutCell(w2, sid, c2.(session := Forget(s2).(ws := None, status := Failed), phase := Connecting(account, input)))
        .(store := Invalidate(store2, sid))
    else
      PutCell(w2, sid, c2.(phase := Connecting(account, input)))
  }

  function DoConnectDone(w: World, sid: string, ok: bool): World
    requires sid in w.cells && w.cells[sid].phase.Connecting?
  {
    var c := w.cells[sid];
    var p := c.phase;
    if ok then
      var conn := Conn(w.nextConn, sid, p.account);
      var s := Forget(c.session).(ws := Some(conn), status := Open, accountId := Some(p.account));
      Send(w.(nextConn := w.nextConn + 1, store := Invalidate(w.store, sid)), sid, c.(session := s), conn,
           false, p.account, None, p.input)
    else FallBack(w, sid, c.(session := GiveUp(c.session)), p.input)
  }

  /** The first-frame probe came back without a stream. */
  function ProbeLost(w: World, sid: string, c: Cell): World
    requires c.phase.Requesting?
  {
    var p := c.phase;
    if p.reused then PutCell(w, sid, c.(session := Abandon(c.session), phase := Connecting(p.account, p.input)))
    else FallBack(w, sid, c.(session := GiveUp(c.session)), p.input)
  }

  /** Carries a handler's reply to the stream's reader, which is the probe until the first
      event has come through. */
  function Deliver(w: World, sid: string, c: Cell, r: Reply): World
    requires c.phase.Requesting?
  {
    var w1 := w.(store := r.store);
    var c1 := c.(session := r.session, stream := c.stream.(end := r.end));
    if r.forwarded || !c.phase.probing then
      PutCell(w1, sid, c1.(phase := if r.end == Running then c.phase.(probing := false) else Quiet))
    else
      match r.end
      case Running => PutCell(w1, sid, c1)
      case Closed => ProbeLost(w1, sid, c1.(session := r.session.(disableWebsockets := true)))
      case Errored => ProbeLost(w1, sid, c1)
  }

  function DoReceived(w: World, sid: string, f: Frame): World
    requires sid in w.cells && w.cells[sid].phase.Requesting?
  {
    var c := w.cells[sid];
    var r := OnMessage(c.session, w.store, sid, f);
    var w1 := if f.Completed? then w.(server := Remember(w.server, c.phase.conn, f.id)) else w;
    Deliver(w1, sid, Arrived(c, f, r.forwarded), r)
  }

  /** One more frame of the request, handed on to its reader or not. */
  function Arrived(c: Cell, f: Frame, forwarded: bool): Cell
    requires c.phase.Requesting?
  {
    c.(phase := c.phase.(frames := c.phase.frames + 1),
       stream := c.stream.(arrived := c.stream.arrived + [f],
                           read := if forwarded then c.stream.read + [f] else c.stream.read))
  }

  /** The socket has failed under the request, or has been silent for too long. */
  function Broken(c: Cell): Cell {
    c.(stream := c.stream.(broken := true))
  }

  function DoProbeTimeout(w: World, sid: string): World
    requires sid in w.cells && w.cells[sid].phase.Requesting?
  {
    var c := w.cells[sid];
    var s := Forget(c.session).(disableWebsockets := true, ws := None, status := Failed);
    ProbeLost(w.(store := Invalidate(w.store, sid)), sid, c.(session := s, zombies := c.zombies + [c.phase.frames]))
  }

  function DoLate(w: World, sid: string, zombie: nat, r: Reply): World
    requires sid in w.cells && zombie < |w.cells[sid].zombies|
  {
    var c := w.cells[sid];
    var left := if r.end == Running then c.zombies else c.zombies[..zombie] + c.zombies[zombie + 1..];
    PutCell(w, sid, c.(session := r.session, zombies := left)).(store := r.store)
  }

  function DoReset(w: World, sid: string): World {
    if sid in w.cells then
      var c := w.cells[sid];
      PutCell(w, sid, c.(session := Forget(c.session).(ws := None, status := Idle)))
        .(store := InvalidateFamily(w.store, sid))
    else w
  }

  function DoClose(w: World, sid: string): World {
    if sid in w.cells && w.cells[sid].session.ws.Some? then
      var c := w.cells[sid];
      PutCell(w, sid, c.(session := c.session.(ws := None, status := Idle)))
    else w
  }

  predicate IsQuiet(w: World, sid: string) {
    sid in w.cells ==> w.cells[sid].phase.Quiet?
  }

  /** When a step can happen, including what the environment promises: one request per
      session, resets between requests, a completion carries an id, and an input that has
      grown extends the input of the call before. */
  predicate Enabled(w: World, step: Step) {
    match step
    case Call(sid, _, input, _) =>
      IsQuiet(w, sid)
      && (sid in w.cells && |w.cells[sid].lastInput| < |input| ==> w.cells[sid].lastInput <= input)
    case ConnectDone(sid, _) => sid in w.cells && w.cells[sid].phase.Connecting?
    case Received(sid, frame) =>
      sid in w.cells && w.cells[sid].phase.Requesting? && (frame.Completed? ==> Truthy(frame.id))
    case SocketError(sid) => sid in w.cells && w.cells[sid].phase.Requesting?
    case SocketClose(sid) => sid in w.cells && w.cells[sid].phase.Requesting?
    case IdleTimeout(sid) => sid in w.cells && w.cells[sid].phase.Requesting?
    case ProbeTimeout(sid) => sid in w.cells && w.cells[sid].phase.Requesting? && w.cells[sid].phase.probing
    case LateBreak(sid, zombie) => sid in w.cells && zombie < |w.cells[sid].zombies|
    case LateClose(sid, zombie) => sid in w.cells && zombie < |w.cells[sid].zombies|
    case Reset(sid) => IsQuiet(w, sid)
    case CloseSession(sid) => IsQuiet(w, sid)
    case Restart(_) => true
  }

  function Do(w: World, step: Step): World
    requires Enabled(w, step)
  {
    match step
    case Call(sid, account, input, ready) => DoCall(w, sid, account, input, ready)
    case ConnectDone(sid, ok) => DoConnectDone(w, sid, ok)
    case Received(sid, frame) => DoReceived(w, sid, frame)
    case SocketError(sid) =>
      Deliver(w, sid, Broken(w.cells[sid]), OnBreak(w.cells[sid].session, w.store, sid, w.cells[sid].phase.frames))
    case SocketClose(sid) =>
      Deliver(w, sid, if w.cells[sid].session.status == Streaming then Broken(w.cells[sid]) else w.cells[sid],
              OnClose(w.cells[sid].session, w.store, sid, w.cells[sid].phase.frames))
    case IdleTimeout(sid) =>
      Deliver(w, sid, Broken(w.cells[sid]), OnBreak(w.cells[sid].session, w.store, sid, w.cells[sid].phase.frames))
    case ProbeTimeout(sid) => DoProbeTimeout(w, sid)
    case LateBreak(sid, z) => DoLate(w, sid, z, OnBreak(w.cells[sid].session, w.store, sid, w.cells[sid].zombies[z]))
    case LateClose(sid, z) => DoLate(w, sid, z, OnClose(w.cells[sid].session, w.store, sid, w.cells[sid].zombies[z]))
    case Reset(sid) => DoReset(w, sid)
    case CloseSession(sid) => DoClose(w, sid)
    case Restart(disk) => w.(cells := map[], store := disk, process := w.nextConn)
  }

  // ---------------------------------------------------------------- the invariant

  /** A stored id was completed on this very connection and has either no length or the
      length its chain covers; the covered items are the caller's last input. */
  predicate ChainOk(server: Server, conn: Conn, c: Cell) {
    Truthy(c.session.lastResponseId) ==>
      var held := Held(server, conn, c.session.lastResponseId);
      && held.Some?
      && (c.session.lastInputLength.Some? ==>
            && c.session.lastInputLength.value == |held.value|
            && (!c.session.disableWebsockets ==> held.value == c.lastInput))
  }

  predicate CellOk(w: World, sid: string, c: Cell) {
    && (c.session.ws.Some? ==>
          var conn := c.session.ws.value;
          && conn.session == sid && w.process <= conn.serial < w.nextConn
          && c.session.accountId == Some(conn.account))
    && match c.phase
       case Quiet => c.session.ws.Some? ==> ChainOk(w.server, c.session.ws.value, c)
       case Connecting(_, input) => c.session.ws.None? && c.lastInput == input
       case Requesting(conn, _, _, _, account, input) =>
         && c.session.ws == Some(conn) && conn.account == account && c.lastInput == input
         && conn in w.server.pending && w.server.pending[conn] == input
         && c.session.lastInputLength in {None, Some(|input|)}
         && (Truthy(c.session.lastResponseId) ==>
               var held := Held(w.server, conn, c.session.lastResponseId);
               held.Some? && (c.session.lastInputLength.Some? ==> |held.value| < |input|))
  }

  /** What the whole protocol is for: the server ends up with the caller's conversation, each
      item once and in order, and a chain is only continued on the connection on which it was
      completed, by the process and for the account that did so. */
  predicate Covered(e: Sent) {
    match e
    case OverWs(conn, account, previous, items, full, held, process) =>
      && conn.account == account && process <= conn.serial
      && (previous.None? ==> items == full)
      && (previous.Some? ==> held.Some? && held.value + items == full)
    case OverHttp(items, full) => items == full
  }

  ghost predicate WorldOk(w: World) {
    && w.process <= w.nextConn
    && (forall sid | sid in w.cells :: CellOk(w, sid, w.cells[sid]))
    && (forall i | 0 <= i < |w.log| :: Covered(w.log[i]))
  }

  /** Nothing about other sessions changes. */
  ghost predicate OthersKept(w: World, w': World, sid: string) {
    && w'.process == w.process && w.nextConn <= w'.nextConn
    && (forall other | other != sid :: (other in w'.cells <==> other in w.cells)
                                    && (other in w.cells ==> w'.cells[other] == w.cells[other]))
    && (forall conn: Conn | conn.session != sid ::
          (conn in w'.server.pending <==> conn in w.server.pending)
          && (conn in w.server.pending ==> w'.server.pending[conn] == w.server.pending[conn]))
    && (forall key: (Conn, string) | key.0.session != sid ::
          (key in w'.server.memory <==> key in w.server.memory)
          && (key in w.server.memory ==> w'.server.memory[key] == w.server.memory[key]))
  }

  /** The invariant, except perhaps for one session. */
  ghost predicate OthersOk(w: World, sid: string) {
    && w.process <= w.nextConn
    && (forall other | other in w.cells && other != sid :: CellOk(w, other, w.cells[other]))
    && (forall i | 0 <= i < |w.log| :: Covered(w.log[i]))
  }

  /** A step that touches one session, leaves it in order and logs only covered requests. */
  lemma OneSession(w: World, w': World, sid: string)
    requires OthersOk(w, sid) && OthersKept(w, w', sid)
    requires sid in w'.cells ==> CellOk(w', sid, w'.cells[sid])
    requires w.log <= w'.log && forall i | |w.log| <= i < |w'.log| :: Covered(w'.log[i])
    ensures WorldOk(w')
  {
    forall other | other in w'.cells ensures CellOk(w', other, w'.cells[other]) {
      if other != sid {
        assert CellOk(w, other, w.cells[other]);
      }
    }
    forall i | 0 <= i < |w'.log| ensures Covered(w'.log[i]) {
      if i < |w.log| {
        assert w'.log[i] == w.log[i];
      }
    }
  }

  // ---------------------------------------------------------------- one step

  /** Sending on a connection of this session whose chain, if it is used, is in order. */
  lemma SendOk(w: World, sid: string, c: Cell, conn: Conn, reused: bool, account: string,
               previous: Option<string>, input: seq<Item>)
    requires OthersOk(w, sid)
    requires conn.session == sid && conn.account == account && w.process <= conn.serial < w.nextConn
    requires c.session.ws == Some(conn) && c.session.accountId == Some(account) && c.lastInput == input
    requires previous.None? ==> !Truthy(c.session.lastResponseId)
    requires previous.Some? ==> Truthy(previous) && previous == c.session.lastResponseId
    requires previous.Some? ==>
      var held := Held(w.server, conn, previous);
      && held.Some?
      && (c.session.lastInputLength.Some? && c.session.lastInputLength.value < |input| ==>
            c.session.lastInputLength.value == |held.value| && held.value <= input)
    ensures WorldOk(Send(w, sid, c, conn, reused, account, previous, input))
  {
    var w' := Send(w, sid, c, conn, reused, account, previous, input);
    assert Covered(w'.log[|w.log|]);
    assert CellOk(w', sid, w'.cells[sid]);
    OneSession(w, w', sid);
  }

  /** What is left of a session when the disk carry-over and a switch of accounts have been
      dealt with: a connection it still has belongs to the caller's account. */
  lemma PreparedOk(w: World, sid: string, account: string, cell: Cell)
    requires CellOk(w, sid, cell) && cell.phase.Quiet?
    ensures
      var (s1, store1) := DropDiskCarryOver(cell.session, w.store, sid);
      var (s2, _) := SwitchAccount(s1, store1, sid, account);
      s2.ws.Some? ==>
        && s2.ws == cell.session.ws && s2.accountId == Some(account) == cell.session.accountId
        && s2.disableWebsockets == cell.session.disableWebsockets
        && (Truthy(s2.lastResponseId) ==>
              s2.lastResponseId == cell.session.lastResponseId && s2.lastInputLength == cell.session.lastInputLength)
  {
  }

  lemma CallOk(w: World, sid: string, account: string, input: seq<Item>, ready: bool)
    requires WorldOk(w) && Enabled(w, Call(sid, account, input, ready))
    ensures WorldOk(DoCall(w, sid, account, input, ready))
  {
    hide Update, Merge, InvalidateFamily, Invalidate;
    var cell := if sid in w.cells then w.cells[sid] else Cell(Hydrated(Get(w.store, sid)), Quiet, [], [], NEW_STREAM);
    assert CellOk(w, sid, cell);
    PreparedOk(w, sid, account, cell);
    var (s1, store1) := DropDiskCarryOver(cell.session, w.store, sid);
    var (s2, store2) := SwitchAccount(s1, store1, sid, account);
    hide SwitchAccount, DropDiskCarryOver;
    var w2 := w.(store := store2);
    var c2 := cell.(session := s2, lastInput := input);
    assert OthersOk(w2, sid);
    var w' := DoCall(w, sid, account, input, ready);
    if !s2.disableWebsockets && s2.ws.Some? && s2.status == Open && ready {
      SendOk(w2, sid, c2, s2.ws.value, true, account,
             if Truthy(s2.lastResponseId) then s2.lastResponseId else None, input);
    } else {
      assert CellOk(w', sid, w'.cells[sid]);
      OneSession(w, w', sid);
    }
  }

  lemma ConnectDoneOk(w: World, sid: string, ok: bool)
    requires WorldOk(w) && Enabled(w, ConnectDone(sid, ok))
    ensures WorldOk(DoConnectDone(w, sid, ok))
  {
    var c := w.cells[sid];
    var p := c.phase;
    assert CellOk(w, sid, c);
    if ok {
      var conn := Conn(w.nextConn, sid, p.account);
      var s := Forget(c.session).(ws := Some(conn), status := Open, accountId := Some(p.account));
      var w1 := w.(nextConn := w.nextConn + 1, store := Invalidate(w.store, sid));
      assert OthersOk(w1, sid);
      SendOk(w1, sid, c.(session := s), conn, false, p.account, None, p.input);
    } else {
      OneSession(w, DoConnectDone(w, sid, ok), sid);
    }
  }

  lemma ProbeLostOk(w: World, sid: string, c: Cell)
    requires OthersOk(w, sid) && c.phase.Requesting? && c.lastInput == c.phase.input
    ensures WorldOk(ProbeLost(w, sid, c))
  {
    var w' := ProbeLost(w, sid, c);
    assert CellOk(w', sid, w'.cells[sid]);
    OneSession(w, w', sid);
  }

  /** A reply that keeps the session going, or ends it with a chain that is in order. */
  lemma DeliverOk(w: World, sid: string, c: Cell, r: Reply)
    requires OthersOk(w, sid) && c.phase.Requesting? && c.lastInput == c.phase.input
    requires r.end == Running ==> CellOk(w, sid, c.(session := r.session))
    requires r.end != Running ==> CellOk(w, sid, c.(session := r.session, phase := Quiet))
    ensures WorldOk(Deliver(w, sid, c, r))
  {
    hide ProbeLost;
    var w' := Deliver(w, sid, c, r);
    var w1 := w.(store := r.store);
    var c1 := c.(session := r.session, stream := c.stream.(end := r.end));
    assert OthersOk(w1, sid);
    if r.forwarded || !c.phase.probing || r.end == Running {
      assert CellOk(w', sid, w'.cells[sid]);
      OneSession(w, w', sid);
    } else if r.end == Closed {
      ProbeLostOk(w1, sid, c1.(session := r.session.(disableWebsockets := true)));
    } else {
      ProbeLostOk(w1, sid, c1);
    }
  }

  /** Every way a request can end: completed, incomplete, failed or with an error event. */
  lemma ReceivedOk(w: World, sid: string, f: Frame)
    requires WorldOk(w) && Enabled(w, Received(sid, f))
    ensures WorldOk(DoReceived(w, sid, f))
  {
    hide Deliver, Update, InvalidateFamily;
    var c := w.cells[sid];
    assert CellOk(w, sid, c);
    var c1 := Arrived(c, f, OnMessage(c.session, w.store, sid, f).forwarded);
    var w1 := if f.Completed? then w.(server := Remember(w.server, c.phase.conn, f.id)) else w;
    forall other | other in w.cells && other != sid ensures CellOk(w1, other, w.cells[other]) {
      assert CellOk(w, other, w.cells[other]);
    }
    DeliverOk(w1, sid, c1, OnMessage(c.session, w.store, sid, f));
  }

  /** Errors, closes and timeouts: the request either goes on or everything is forgotten. */
  lemma BrokenOk(w: World, sid: string, c: Cell, r: Reply)
    requires WorldOk(w) && sid in w.cells && w.cells[sid].phase.Requesting?
    requires c == w.cells[sid].(stream := c.stream)
    requires (r.session == w.cells[sid].session && r.end == Running)
          || exists status :: r.session == Forget(w.cells[sid].session).(status := status)
    ensures WorldOk(Deliver(w, sid, c, r))
  {
    hide Deliver;
    assert CellOk(w, sid, w.cells[sid]);
    DeliverOk(w, sid, c, r);
  }

  lemma ProbeTimeoutOk(w: World, sid: string)
    requires WorldOk(w) && Enabled(w, ProbeTimeout(sid))
    ensures WorldOk(DoProbeTimeout(w, sid))
  {
    hide ProbeLost;
    var c := w.cells[sid];
    assert CellOk(w, sid, c);
    var s := Forget(c.session).(disableWebsockets := true, ws := None, status := Failed);
    ProbeLostOk(w.(store := Invalidate(w.store, sid)), sid, c.(session := s, zombies := c.zombies + [c.phase.frames]));
  }

  /** An abandoned socket can only make a session forget. */
  lemma LateOk(w: World, sid: string, zombie: nat, r: Reply)
    requires WorldOk(w) && sid in w.cells && zombie < |w.cells[sid].zombies|
    requires r.session == w.cells[sid].session
          || exists status :: r.session == Forget(w.cells[sid].session).(status := status)
    ensures WorldOk(DoLate(w, sid, zombie, r))
  {
    assert CellOk(w, sid, w.cells[sid]);
    OneSession(w, DoLate(w, sid, zombie, r), sid);
  }

  lemma StepOk(w: World, step: Step)
    requires WorldOk(w) && Enabled(w, step)
    ensures WorldOk(Do(w, step))
  {
    hide CellOk, DoCall, DoConnectDone, DoReceived, DoProbeTimeout, DoLate, Deliver;
    match step
    case Call(sid, account, input, ready) => CallOk(w, sid, account, input, ready);
    case ConnectDone(sid, ok) => ConnectDoneOk(w, sid, ok);
    case Received(sid, frame) => ReceivedOk(w, sid, frame);
    case SocketError(sid) => BrokenOk(w, sid, Broken(w.cells[sid]), OnBreak(w.cells[sid].session, w.store, sid, w.cells[sid].phase.frames));
    case SocketClose(sid) =>
      BrokenOk(w, sid, if w.cells[sid].session.status == Streaming then Broken(w.cells[sid]) else w.cells[sid], OnClose(w.cells[sid].session, w.store, sid, w.cells[sid].phase.frames));
    case IdleTimeout(sid) => BrokenOk(w, sid, Broken(w.cells[sid]), OnBreak(w.cells[sid].session, w.store, sid, w.cells[sid].phase.frames));
    case ProbeTimeout(sid) => ProbeTimeoutOk(w, sid);
    case LateBreak(sid, z) => LateOk(w, sid, z, OnBreak(w.cells[sid].session, w.store, sid, w.cells[sid].zombies[z]));
    case LateClose(sid, z) => LateOk(w, sid, z, OnClose(w.cells[sid].session, w.store, sid, w.cells[sid].zombies[z]));
    case Reset(sid) => ResetOk(w, sid);
    case CloseSession(sid) => CloseOk(w, sid);
    case Restart(disk) =>
  }

  lemma ResetOk(w: World, sid: string)
    requires WorldOk(w) && IsQuiet(w, sid)
    ensures WorldOk(DoReset(w, sid))
  {
    if sid in w.cells {
      assert CellOk(w, sid, w.cells[sid]);
      OneSession(w, DoReset(w, sid), sid);
    }
  }

  lemma CloseOk(w: World, sid: string)
    requires WorldOk(w) && IsQuiet(w, sid)
    ensures WorldOk(DoClose(w, sid))
  {
    if sid in w.cells {
      assert CellOk(w, sid, w.cells[sid]);
      OneSession(w, DoClose(w, sid), sid);
    }
  }

  /** What a breaking connection does to the chain of its session: nothing, or it is forgotten in
      the session and in the store, with its whole family. */
  predicate KeptOrForgotten(s: Session, store: Store, s': Session, store': Store, sid: string) {
    || (s'.lastResponseId == s.lastResponseId && s'.lastInputLength == s.lastInputLength && store' == store)
    || (s'.lastResponseId.None? && s'.lastInputLength.None? && store' == InvalidateFamily(store, sid))
  }

  lemma RepliesForget(s: Session, store: Store, sid: string, frames: nat)
    ensures var r := OnBreak(s, store, sid, frames); KeptOrForgotten(s, store, r.session, r.store, sid)
    ensures var r := OnClose(s, store, sid, frames); KeptOrForgotten(s, store, r.session, r.store, sid)
  {
    hide InvalidateFamily;
  }

  lemma ProbeLostChain(w: World, sid: string, c: Cell)
    requires c.phase.Requesting?
    ensures
      var w' := ProbeLost(w, sid, c);
      && sid in w'.cells && w'.store == w.store
      && w'.cells[sid].session.lastResponseId == c.session.lastResponseId
      && w'.cells[sid].session.lastInputLength == c.session.lastInputLength
  {
  }

  lemma DeliveredChain(w: World, sid: string, c: Cell, r: Reply)
    requires c.phase.Requesting?
    ensures
      var w' := Deliver(w, sid, c, r);
      && sid in w'.cells && w'.store == r.store
      && w'.cells[sid].session.lastResponseId == r.session.lastResponseId
      && w'.cells[sid].session.lastInputLength == r.session.lastInputLength
  {
    hide ProbeLost;
    var w1 := w.(store := r.store);
    var c1 := c.(session := r.session, stream := c.stream.(end := r.end));
    ProbeLostChain(w1, sid, c1);
    ProbeLostChain(w1, sid, c1.(session := r.session.(disableWebsockets := true)));
  }

  /** Errors, closes and timeouts of a request, and late ones of abandoned sockets. */
  lemma BreaksForget(w: World, step: Step)
    requires WorldOk(w) && Enabled(w, step)
    requires step.SocketError? || step.SocketClose? || step.IdleTimeout? || step.LateBreak? || step.LateClose?
    ensures WorldOk(Do(w, step))
    ensures
      var w' := Do(w, step);
      && step.sid in w.cells && step.sid in w'.cells
      && KeptOrForgotten(w.cells[step.sid].session, w.store, w'.cells[step.sid].session, w'.store, step.sid)
  {
    StepOk(w, step);
    hide WorldOk, InvalidateFamily, Deliver, OnBreak, OnClose;
    var c := w.cells[step.sid];
    if step.LateBreak? || step.LateClose? {
      RepliesForget(c.session, w.store, step.sid, c.zombies[step.zombie]);
    } else {
      RepliesForget(c.session, w.store, step.sid, c.phase.frames);
      DeliveredChain(w, step.sid, Broken(c), OnBreak(c.session, w.store, step.sid, c.phase.frames));
      DeliveredChain(w, step.sid, c, OnClose(c.session, w.store, step.sid, c.phase.frames));
      DeliveredChain(w, step.sid, Broken(c), OnClose(c.session, w.store, step.sid, c.phase.frames));
    }
  }

  // ---------------------------------------------------------------- whole runs

  /** The worlds that a run passes through. */
  ghost predicate IsRun(worlds: seq<World>, steps: seq<Step>) {
    && |worlds| == |steps| + 1
    && (exists disk :: worlds[0] == Initial(disk))
    && forall i | 0 <= i < |steps| :: Enabled(worlds[i], steps[i]) && worlds[i + 1] == Do(worlds[i], steps[i])
  }

  /** In every run, whatever fails and whenever: each request the transport or its fallback
      ever sent was covered, and the invariant holds at every point. */
  lemma {:induction false} EveryRunIsCovered(worlds: seq<World>, steps: seq<Step>, i: nat)
    requires IsRun(worlds, steps) && i < |worlds|
    ensures WorldOk(worlds[i])
    ensures forall e | e in worlds[i].log :: Covered(e)
    decreases i
  {
    if i > 0 {
      EveryRunIsCovered(worlds, steps, i - 1);
      StepOk(worlds[i - 1], steps[i - 1]);
    }
  }
}
