/** The desktop's write-behind storage: writes wait in a map, a timer starts a flush, and the
    flush empties the map into the store batch by batch. The asynchronous flush is cut at its
    awaits; each piece between two awaits is one step. */
module WriteBehind {
  import opened Common

  /** A write of a key, or its removal when there is no value. */
  datatype Write = Write(key: string, value: Option<string>)

  /** Where the flush stands. `Exited` is the moment between the end of its loop and the
      `finally` that clears `flushing`; only microtasks run there, so no timer fires. */
  datatype Phase = Idle | AwaitStore | Batch(rest: seq<Write>) | Exited

  datatype State = State(pending: seq<Write>, timer: bool, phase: Phase, store: map<string, string>)

  // ---------------------------------------------------------------- the steps

  /** `Map.set`: a key that is present keeps its place. */
  function PendingSet(pending: seq<Write>, w: Write): seq<Write> {
    if pending == [] then [w]
    else if pending[0].key == w.key then [w] + pending[1..]
    else [pending[0]] + PendingSet(pending[1..], w)
  }

  function Lookup(store: map<string, string>, key: string): Option<string> {
    if key in store then Some(store[key]) else None
  }

  function ApplyOne(store: map<string, string>, w: Write): map<string, string> {
    if w.value.Some? then store[w.key := w.value.value] else store - {w.key}
  }

  /** `setItem` and `removeItem`. */
  function Issue(s: State, w: Write): State {
    s.(pending := PendingSet(s.pending, w), timer := true)
  }

  function FlushCall(s: State): State {
    if s.phase.Idle? then s.(phase := AwaitStore) else s
  }

  function TimerFires(s: State): State
    requires s.timer && !s.phase.Exited?
  {
    FlushCall(s.(timer := false))
  }

  /** The test of the flush loop. */
  function LoopTest(s: State): State {
    if s.pending != [] then s.(phase := Batch(s.pending), pending := []) else s.(phase := Exited)
  }

  function StoreReady(s: State): State
    requires s.phase.AwaitStore?
  {
    LoopTest(s)
  }

  /** The store operation in flight takes effect and the loop goes on. */
  function OperationDone(s: State): State
    requires s.phase.Batch? && s.phase.rest != []
  {
    var done := s.(store := ApplyOne(s.store, s.phase.rest[0]), phase := Batch(s.phase.rest[1..]));
    if done.phase.rest == [] then LoopTest(done) else done
  }

  function Settled(s: State): State
    requires s.phase.Exited?
  {
    s.(phase := Idle)
  }

  function InFlight(s: State): seq<Write> {
    if s.phase.Batch? then s.phase.rest else []
  }

  // ---------------------------------------------------------------- runs with their history

  /** A state with all writes issued so far and all that have reached the store. */
  datatype History = History(state: State, first: map<string, string>, issued: seq<Write>, landed: seq<Write>)

  datatype Event = Issued(w: Write) | FlushCalled | TimerFired | StoreOpened | Landed | FlushSettled

  predicate Enabled(s: State, e: Event) {
    match e
    case Issued(_) => true
    case FlushCalled => true
    case TimerFired => s.timer && !s.phase.Exited?
    case StoreOpened => s.phase.AwaitStore?
    case Landed => s.phase.Batch? && s.phase.rest != []
    case FlushSettled => s.phase.Exited?
  }

  function Next(s: State, e: Event): State
    requires Enabled(s, e)
  {
    match e
    case Issued(w) => Issue(s, w)
    case FlushCalled => FlushCall(s)
    case TimerFired => TimerFires(s)
    case StoreOpened => StoreReady(s)
    case Landed => OperationDone(s)
    case FlushSettled => Settled(s)
  }

  function Step(h: History, e: Event): History
    requires Enabled(h.state, e)
  {
    h.(state := Next(h.state, e),
       issued := if e.Issued? then h.issued + [e.w] else h.issued,
       landed := if e.Landed? then h.landed + [h.state.phase.rest[0]] else h.landed)
  }

  function Start(first: map<string, string>): History {
    History(State([], false, Idle, first), first, [], [])
  }

  predicate Runs(h: History, events: seq<Event>)
    decreases |events|
  {
    events == [] || (Enabled(h.state, events[0]) && Runs(Step(h, events[0]), events[1..]))
  }

  function Run(h: History, events: seq<Event>): History
    requires Runs(h, events)
    decreases |events|
  {
    if events == [] then h else Run(Step(h, events[0]), events[1..])
  }

  // ---------------------------------------------------------------- what is promised

  /** The writes of one key, in order. */
  function On(ws: seq<Write>, key: string): seq<Option<string>> {
    if ws == [] then [] else (if ws[0].key == key then [ws[0].value] else []) + On(ws[1..], key)
  }

  /** `a` is `b` with some elements left out. */
  predicate Subsequence<T(==)>(a: seq<T>, b: seq<T>)
    decreases |b|
  {
    || a == []
    || (b != [] && a[|a| - 1] == b[|b| - 1] && Subsequence(a[..|a| - 1], b[..|b| - 1]))
    || (b != [] && Subsequence(a, b[..|b| - 1]))
  }

  /** Nothing out of order, nothing invented, and the last one kept. */
  predicate InOrder<T(==)>(a: seq<T>, b: seq<T>) {
    && Subsequence(a, b)
    && (b != [] ==> a != [] && a[|a| - 1] == b[|b| - 1])
  }

  /** What a key holds after some writes. */
  function After(before: Option<string>, ws: seq<Option<string>>): Option<string> {
    if ws == [] then before else ws[|ws| - 1]
  }

  function LastWritten(h: History, key: string): Option<string> {
    After(Lookup(h.first, key), On(h.issued, key))
  }

  /** What `getItem` answers when its two reads see one state. */
  function GetItem(s: State, key: string): Option<string> {
    var waiting := On(s.pending, key);
    if waiting != [] then waiting[0] else Lookup(s.store, key)
  }

  /** The part about one key. */
  ghost predicate KeyOk(h: History, key: string) {
    && |On(h.state.pending, key)| <= 1
    && |On(InFlight(h.state), key)| <= 1
    && InOrder(On(h.landed, key) + On(InFlight(h.state), key) + On(h.state.pending, key), On(h.issued, key))
    && Lookup(h.state.store, key) == After(Lookup(h.first, key), On(h.landed, key))
  }

  /** Waiting writes have someone who will take them. */
  predicate Attended(s: State) {
    && (s.pending != [] ==> s.timer || s.phase.AwaitStore? || s.phase.Batch?)
    && (s.phase.Batch? ==> s.phase.rest != [])
  }

  ghost predicate Invariant(h: History) {
    Attended(h.state) && forall key :: KeyOk(h, key)
  }

  // ---------------------------------------------------------------- lemmas about sequences

  lemma OnFirst(ws: seq<Write>, key: string)
    requires ws != []
    ensures On(ws, key) == (if ws[0].key == key then [ws[0].value] else []) + On(ws[1..], key)
  {
  }

  lemma {:induction false} OnAppend(a: seq<Write>, b: seq<Write>, key: string)
    ensures On(a + b, key) == On(a, key) + On(b, key)
  {
    if a == [] {
      assert a + b == b;
    } else {
      hide On;
      assert (a + b)[1..] == a[1..] + b && (a + b)[0] == a[0];
      OnFirst(a, key);
      OnFirst(a + b, key);
      OnAppend(a[1..], b, key);
    }
  }

  lemma {:induction false} OnPendingSet(pending: seq<Write>, w: Write, key: string)
    requires |On(pending, w.key)| <= 1
    ensures On(PendingSet(pending, w), key) == if key == w.key then [w.value] else On(pending, key)
  {
    if pending != [] {
      if pending[0].key == w.key {
        assert ([w] + pending[1..])[1..] == pending[1..];
      } else {
        OnPendingSet(pending[1..], w, key);
        assert ([pending[0]] + PendingSet(pending[1..], w))[1..] == PendingSet(pending[1..], w);
      }
    }
  }

  lemma {:induction false} SubsequenceDropLast<T>(a: seq<T>, b: seq<T>)
    requires a != [] && Subsequence(a, b)
    ensures Subsequence(a[..|a| - 1], b)
    decreases |b|
  {
    if b != [] && a[|a| - 1] == b[|b| - 1] && Subsequence(a[..|a| - 1], b[..|b| - 1]) {
      assert Subsequence(a[..|a| - 1], b);
    } else {
      SubsequenceDropLast(a, b[..|b| - 1]);
    }
  }

  lemma SubsequencePush<T>(a: seq<T>, b: seq<T>, x: T)
    requires Subsequence(a, b)
    ensures Subsequence(a + [x], b + [x])
  {
    assert (a + [x])[..|a + [x]| - 1] == a && (b + [x])[..|b + [x]| - 1] == b;
  }

  // ---------------------------------------------------------------- each step keeps the invariant

  /** A new write takes the place of the one that waits, if any. */
  lemma InOrderReplace<T>(reached: seq<T>, waiting: seq<T>, issued: seq<T>, x: T)
    requires |waiting| <= 1 && InOrder(reached + waiting, issued)
    ensures InOrder(reached + [x], issued + [x])
  {
    var all := reached + waiting;
    if waiting != [] {
      SubsequenceDropLast(all, issued);
      assert all[..|all| - 1] == reached;
    } else {
      assert all == reached;
    }
    SubsequencePush(reached, issued, x);
    hide Subsequence;
  }

  lemma OnOne(w: Write, key: string)
    ensures On([w], key) == if w.key == key then [w.value] else []
  {
    assert [w][1..] == [];
  }

  lemma IssuedOk(h: History, w: Write, key: string)
    requires KeyOk(h, key) && KeyOk(h, w.key)
    ensures KeyOk(Step(h, Issued(w)), key)
  {
    OnPendingSet(h.state.pending, w, key);
    OnAppend(h.issued, [w], key);
    OnOne(w, key);
    hide InOrder, PendingSet, On, After;
    if key == w.key {
      InOrderReplace(On(h.landed, key) + On(InFlight(h.state), key), On(h.state.pending, key), On(h.issued, key), w.value);
    } else {
      assert On(h.issued, key) + [] == On(h.issued, key);
    }
  }

  lemma Regroup<T>(landed: seq<T>, one: seq<T>, rest: seq<T>, waiting: seq<T>)
    ensures landed + (one + rest) + waiting == (landed + one) + rest + waiting
    ensures rest == [] ==> landed + (one + rest) + waiting == (landed + one) + waiting + []
  {
  }

  lemma LandedValue(before: Option<string>, landed: seq<Option<string>>, store: map<string, string>, w: Write, key: string)
    requires Lookup(store, key) == After(before, landed)
    ensures Lookup(ApplyOne(store, w), key) == After(before, landed + (if w.key == key then [w.value] else []))
  {
    if w.key != key {
      assert landed + [] == landed;
    }
  }

  lemma LandedStep(h: History)
    requires Enabled(h.state, Landed)
    ensures
      var w, rest, next := h.state.phase.rest[0], h.state.phase.rest[1..], Step(h, Landed);
      && next.first == h.first && next.issued == h.issued && next.landed == h.landed + [w]
      && next.state.store == ApplyOne(h.state.store, w)
      && InFlight(next.state) == (if rest == [] then h.state.pending else rest)
      && next.state.pending == (if rest == [] then [] else h.state.pending)
  {
  }

  /** Landing moves one write from what is in flight to what has landed. */
  lemma LandedOn(h: History, key: string)
    requires Enabled(h.state, Landed)
    ensures
      var w, rest, next := h.state.phase.rest[0], h.state.phase.rest[1..], Step(h, Landed);
      var one, waiting := (if w.key == key then [w.value] else []), On(h.state.pending, key);
      && On(h.state.phase.rest, key) == one + On(rest, key)
      && On(next.landed, key) == On(h.landed, key) + one
      && (rest != [] ==> On(InFlight(next.state), key) == On(rest, key) && On(next.state.pending, key) == waiting)
      && (rest == [] ==> On(rest, key) == [] && On(InFlight(next.state), key) == waiting && On(next.state.pending, key) == [])
  {
    LandedStep(h);
    OnAppend(h.landed, [h.state.phase.rest[0]], key);
    OnOne(h.state.phase.rest[0], key);
    assert On([], key) == [];
    hide Step;
  }

  lemma LandedOk(h: History, key: string)
    requires Enabled(h.state, Landed) && KeyOk(h, key)
    ensures KeyOk(Step(h, Landed), key)
  {
    LandedStep(h);
    LandedOn(h, key);
    hide InOrder, On, ApplyOne, After, Lookup, Step;
    var w, rest := h.state.phase.rest[0], h.state.phase.rest[1..];
    var one := if w.key == key then [w.value] else [];
    Regroup(On(h.landed, key), one, On(rest, key), On(h.state.pending, key));
    LandedValue(Lookup(h.first, key), On(h.landed, key), h.state.store, w, key);
  }

  lemma StoreOpenedOk(h: History, key: string)
    requires Enabled(h.state, StoreOpened) && KeyOk(h, key)
    ensures KeyOk(Step(h, StoreOpened), key)
  {
    hide Subsequence;
    var landed, waiting := On(h.landed, key), On(h.state.pending, key);
    assert landed + [] + waiting == landed + waiting + [];
  }

  /** Every step of every kind. */
  lemma StepOk(h: History, e: Event)
    requires Invariant(h) && Enabled(h.state, e)
    ensures Invariant(Step(h, e))
  {
    hide InOrder;
    forall key ensures KeyOk(Step(h, e), key) {
      assert KeyOk(h, key);
      match e
      case Issued(w) => IssuedOk(h, w, key);
      case StoreOpened => StoreOpenedOk(h, key);
      case Landed => LandedOk(h, key);
      case FlushCalled =>
      case TimerFired =>
      case FlushSettled =>
    }
  }

  lemma {:induction false} RunOk(h: History, events: seq<Event>)
    requires Invariant(h) && Runs(h, events)
    ensures Invariant(Run(h, events))
    decreases |events|
  {
    hide Invariant;
    if events != [] {
      StepOk(h, events[0]);
      RunOk(Step(h, events[0]), events[1..]);
    }
  }

  lemma StartOk(first: map<string, string>)
    ensures Invariant(Start(first))
  {
  }

  // ---------------------------------------------------------------- main results

  /** In every interleaving: waiting writes are attended to, and for each key what has reached
      the store, then what is in flight, then what waits, is what was issued, in that order,
      with only superseded writes left out. */
  lemma EveryRunKeepsOrder(first: map<string, string>, events: seq<Event>, key: string)
    requires Runs(Start(first), events)
    ensures
      var h := Run(Start(first), events);
      && (h.state.pending != [] ==> h.state.timer || h.state.phase.AwaitStore? || h.state.phase.Batch?)
      && InOrder(On(h.landed, key) + On(InFlight(h.state), key) + On(h.state.pending, key), On(h.issued, key))
  {
    hide Subsequence;
    StartOk(first);
    RunOk(Start(first), events);
    assert KeyOk(Run(Start(first), events), key);
  }

  /** The internal steps, those that happen without a caller. */
  predicate Internal(e: Event) { !e.Issued? && !e.FlushCalled? }

  function Work(s: State): nat {
    (if s.timer then 3 else 0) + |s.pending|
    + (match s.phase case Idle => 0 case AwaitStore => 2 case Batch(rest) => 1 + |rest| case Exited => 1)
  }

  /** When callers stop, every internal step leaves less work, and one is possible until the
      storage is quiet; then the store holds the last write of every key. */
  lemma Quiescence(h: History)
    requires Invariant(h)
    ensures forall e | Internal(e) && Enabled(h.state, e) :: Work(Next(h.state, e)) < Work(h.state)
    ensures (exists e :: Internal(e) && Enabled(h.state, e)) || h.state == State([], false, Idle, h.state.store)
    ensures h.state.phase.Idle? && !h.state.timer ==> forall key :: Lookup(h.state.store, key) == LastWritten(h, key)
  {
    hide Subsequence;
    forall e | Internal(e) && Enabled(h.state, e) ensures Work(Next(h.state, e)) < Work(h.state) {
    }
    assert Internal(TimerFired) && Internal(StoreOpened) && Internal(Landed) && Internal(FlushSettled);
    if h.state.phase.Exited? {
      assert Enabled(h.state, FlushSettled);
    } else if h.state.phase.AwaitStore? {
      assert Enabled(h.state, StoreOpened);
    } else if h.state.phase.Batch? {
      assert Enabled(h.state, Landed);
    } else if h.state.timer {
      assert Enabled(h.state, TimerFired);
    } else {
      forall key ensures Lookup(h.state.store, key) == LastWritten(h, key) {
        LandedAll(h, key);
      }
    }
  }

  lemma LandedAll(h: History, key: string)
    requires KeyOk(h, key) && On(h.state.pending, key) == [] && On(InFlight(h.state), key) == []
    ensures Lookup(h.state.store, key) == LastWritten(h, key)
  {
    var landed := On(h.landed, key);
    assert landed + [] + [] == landed;
    if On(h.issued, key) == [] {
      assert Subsequence(landed, []);
    }
  }

  /** Within a running flush, the moment its loop ends: the store then holds the last write of
      every key, those before the call included. */
  lemma {:induction false} FlushLoopEnds(h: History, events: seq<Event>) returns (n: nat)
    requires Invariant(h) && Runs(h, events)
    requires h.state.phase.AwaitStore? || h.state.phase.Batch?
    requires Run(h, events).state.phase.Exited?
    ensures 0 < n <= |events| && Runs(h, events[..n])
    ensures
      var end := Run(h, events[..n]);
      && h.issued <= end.issued && end.state.phase.Exited?
      && forall key :: Lookup(end.state.store, key) == LastWritten(end, key)
    decreases |events|
  {
    hide Invariant, KeyOk, LastWritten, Lookup;
    var next := Step(h, events[0]);
    StepOk(h, events[0]);
    if next.state.phase.Exited? {
      n := 1;
      LoopEndsEmpty(h, events[0]);
      assert events[..1] == [events[0]];
      assert events[..1][1..] == [];
    } else {
      var m := FlushLoopEnds(next, events[1..]);
      n := m + 1;
      assert events[..n][1..] == events[1..][..m];
      assert events[..n][0] == events[0];
    }
  }

  lemma LoopEndsEmpty(h: History, e: Event)
    requires Invariant(h) && Enabled(h.state, e)
    requires !h.state.phase.Exited? && Next(h.state, e).phase.Exited?
    ensures h.issued <= Step(h, e).issued
    ensures forall key :: Lookup(Step(h, e).state.store, key) == LastWritten(Step(h, e), key)
  {
    hide Subsequence;
    StepOk(h, e);
    var next := Step(h, e);
    assert next.state.pending == [] && InFlight(next.state) == [];
    forall key ensures Lookup(next.state.store, key) == LastWritten(next, key) {
      assert KeyOk(next, key);
      LandedAll(next, key);
    }
  }

  // ---------------------------------------------------------------- what a flush promises

  lemma {:induction false} RunSplit(h: History, events: seq<Event>, n: nat)
    requires Runs(h, events) && n <= |events|
    ensures Runs(h, events[..n]) && Runs(Run(h, events[..n]), events[n..])
    ensures Run(h, events) == Run(Run(h, events[..n]), events[n..])
    decreases n
  {
    hide Step, Enabled;
    if n == 0 {
      assert events[..0] == [] && events[0..] == events;
    } else {
      RunSplit(Step(h, events[0]), events[1..], n - 1);
      assert events[..n][1..] == events[1..][..n - 1] && events[..n][0] == events[0];
      assert events[n..] == events[1..][n - 1..];
    }
  }

  /** Between the end of the loop and its `finally` only callers act, and the store rests. */
  lemma {:induction false} GapKeepsStore(h: History, events: seq<Event>)
    requires Runs(h, events) && h.state.phase.Exited?
    requires forall e | e in events :: !e.FlushSettled?
    ensures Run(h, events).state.phase.Exited? && Run(h, events).state.store == h.state.store
    decreases |events|
  {
    hide PendingSet;
    if events != [] {
      assert events[0] in events;
      GapKeepsStore(Step(h, events[0]), events[1..]);
    }
  }

  lemma {:induction false} Waiting(pending: seq<Write>, w: Write)
    requires w in pending && |On(pending, w.key)| <= 1
    ensures On(pending, w.key) == [w.value]
  {
    OnFirst(pending, w.key);
    if pending[0] != w {
      Waiting(pending[1..], w);
    } else {
      assert On(pending, w.key)[0] == w.value;
    }
  }

  lemma {:induction false} WaitingOne(pending: seq<Write>, key: string) returns (w: Write)
    requires On(pending, key) != []
    ensures w in pending && w.key == key && w.value == On(pending, key)[0]
  {
    if pending[0].key == key {
      w := pending[0];
    } else {
      w := WaitingOne(pending[1..], key);
    }
  }

  lemma LastIsWaiting(h: History, key: string)
    requires KeyOk(h, key) && On(InFlight(h.state), key) == []
    ensures LastWritten(h, key) ==
            if On(h.state.pending, key) != [] then On(h.state.pending, key)[0] else Lookup(h.state.store, key)
  {
    var landed, waiting := On(h.landed, key), On(h.state.pending, key);
    if waiting == [] {
      LandedAll(h, key);
    } else {
      var all := landed + [] + waiting;
      assert all[|all| - 1] == waiting[0];
      assert On(h.issued, key) != [];
    }
  }

  /** When the loop has ended, the store is up to date exactly when every write that waits again
      says what the store says already. */
  lemma UpToDateInTheGap(h: History)
    requires Invariant(h) && h.state.phase.Exited?
    ensures (forall key :: Lookup(h.state.store, key) == LastWritten(h, key))
      <==> forall w | w in h.state.pending :: Lookup(h.state.store, w.key) == w.value
  {
    hide InOrder, Lookup, LastWritten;
    forall key ensures LastWritten(h, key) ==
      if On(h.state.pending, key) != [] then On(h.state.pending, key)[0] else Lookup(h.state.store, key)
    {
      assert KeyOk(h, key);
      LastIsWaiting(h, key);
    }
    forall w | w in h.state.pending ensures On(h.state.pending, w.key) == [w.value] {
      assert KeyOk(h, w.key);
      Waiting(h.state.pending, w);
    }
    forall key | On(h.state.pending, key) != []
      ensures exists w :: w in h.state.pending && w.key == key && w.value == On(h.state.pending, key)[0]
    {
      var w := WaitingOne(h.state.pending, key);
    }
  }

  /** A flush, from the call to the moment its promise settles. */
  ghost predicate FlushRun(h: History, events: seq<Event>) {
    && events != [] && events[|events| - 1].FlushSettled?
    && (forall e | e in events[..|events| - 1] :: !e.FlushSettled?)
    && Runs(Step(h, FlushCalled), events)
  }

  /** Asked for in any phase but one, `Idle` included, a flush delivers: the store it settles with
      held, when the loop ended, the last write of every key, those before the call included. */
  lemma FlushSettlesDelivered(h: History, events: seq<Event>)
    requires Invariant(h) && FlushRun(h, events) && !h.state.phase.Exited?
    ensures exists n | 0 < n <= |events| ::
      && Runs(Step(h, FlushCalled), events[..n])
      && var loop := Run(Step(h, FlushCalled), events[..n]);
        && h.issued <= loop.issued
        && (forall key :: Lookup(loop.state.store, key) == LastWritten(loop, key))
        && Run(Step(h, FlushCalled), events).state.store == loop.state.store
  {
    hide Invariant, LastWritten, Lookup, Run, Runs, Step;
    var n := DeliveredAt(h, events);
  }

  lemma SettledStore(called: History, events: seq<Event>)
    requires events != [] && events[|events| - 1].FlushSettled? && Runs(called, events)
    ensures Runs(called, events[..|events| - 1])
    ensures Run(called, events[..|events| - 1]).state.phase.Exited?
    ensures Run(called, events).state.store == Run(called, events[..|events| - 1]).state.store
  {
    var m := |events| - 1;
    RunSplit(called, events, m);
    assert events[m..] == [FlushSettled] && events[m..][1..] == [];
    assert Runs(Run(called, events[..m]), events[m..]);
  }

  lemma DeliveredAt(h: History, events: seq<Event>) returns (n: nat)
    requires Invariant(h) && FlushRun(h, events) && !h.state.phase.Exited?
    ensures 0 < n <= |events| && Runs(Step(h, FlushCalled), events[..n])
    ensures
      var loop := Run(Step(h, FlushCalled), events[..n]);
      && h.issued <= loop.issued
      && (forall key :: Lookup(loop.state.store, key) == LastWritten(loop, key))
      && Run(Step(h, FlushCalled), events).state.store == loop.state.store
  {
    hide Invariant, KeyOk, LastWritten, Lookup, PendingSet, LoopTest, ApplyOne;
    var called := Step(h, FlushCalled);
    StepOk(h, FlushCalled);
    SettledStore(called, events);
    var front := events[..|events| - 1];
    hide Run, Runs;
    n := FlushLoopEnds(called, front);
    assert front[..n] == events[..n];
    RunSplit(called, front, n);
    GapKeepsStore(Run(called, front[..n]), front[n..]);
  }

  /** Asked for between the end of the loop and its `finally`, a flush starts nothing: it settles
      with the store as it was, up to date exactly when every waiting write says what the store
      says already. */
  lemma FlushInTheGap(h: History, events: seq<Event>)
    requires Invariant(h) && FlushRun(h, events) && h.state.phase.Exited?
    ensures
      var store := Run(Step(h, FlushCalled), events).state.store;
      && store == h.state.store
      && ((forall key :: Lookup(store, key) == LastWritten(h, key))
          <==> forall w | w in h.state.pending :: Lookup(store, w.key) == w.value)
  {
    hide Invariant, KeyOk, LastWritten, Lookup, PendingSet, LoopTest, ApplyOne;
    var called := Step(h, FlushCalled);
    assert called == h;
    SettledStore(called, events);
    GapKeepsStore(called, events[..|events| - 1]);
    UpToDateInTheGap(h);
  }

  /** But asked for at the moment between the loop's end and its `finally`, a flush starts
      nothing: the write just made is still waiting when the returned promise settles. */
  lemma FlushInTheGapDeliversNothing()
    ensures
      var w := Write("k", Some("v"));
      var events := [FlushCalled, StoreOpened, Issued(w), FlushCalled, FlushSettled];
      && Runs(Start(map[]), events)
      && var end := Run(Start(map[]), events);
        && end.state.phase.Idle? && end.state.timer && end.state.pending == [w]
        && Lookup(end.state.store, "k") != LastWritten(end, "k")
  {
    var w := Write("k", Some("v"));
    var h0 := Start(map[]);
    var h1 := Step(h0, FlushCalled);
    var h2 := Step(h1, StoreOpened);
    var h3 := Step(h2, Issued(w));
    var h4 := Step(h3, FlushCalled);
    var h5 := Step(h4, FlushSettled);
    var e5: seq<Event> := [];
    var e4 := [FlushSettled];
    var e3 := [FlushCalled, FlushSettled];
    var e2 := [Issued(w), FlushCalled, FlushSettled];
    var e1 := [StoreOpened, Issued(w), FlushCalled, FlushSettled];
    var e0 := [FlushCalled, StoreOpened, Issued(w), FlushCalled, FlushSettled];
    assert e0[1..] == e1 && e1[1..] == e2 && e2[1..] == e3 && e3[1..] == e4 && e4[1..] == e5;
    assert Runs(h4, e4) && Run(h4, e4) == h5;
    assert Runs(h3, e3) && Run(h3, e3) == h5;
    assert Runs(h2, e2) && Run(h2, e2) == h5;
    assert Runs(h1, e1) && Run(h1, e1) == h5;
    assert h5.issued == [w];
    assert On([w], "k") == [Some("v")] by { assert [w][1..] == []; }
  }

  /** A read sees the last write of its key exactly when the key waits, or is not among the
      operations in flight, or the store shows already what is in flight. */
  lemma ReadsOwnWrites(h: History, key: string)
    requires Invariant(h)
    ensures GetItem(h.state, key) == LastWritten(h, key)
      <==> (|| On(h.state.pending, key) != []
            || On(InFlight(h.state), key) == []
            || Lookup(h.state.store, key) == On(InFlight(h.state), key)[0])
  {
    assert KeyOk(h, key);
    var landed, flying, waiting := On(h.landed, key), On(InFlight(h.state), key), On(h.state.pending, key);
    var all := landed + flying + waiting;
    if On(h.issued, key) == [] {
      assert Subsequence(all, []);
      assert all == [];
    } else if waiting != [] {
      assert all[|all| - 1] == waiting[0];
    } else if flying != [] {
      assert all[|all| - 1] == flying[0];
    } else {
      LandedAll(h, key);
    }
  }

  /** A read right after the flush has taken its batch finds nothing of the write. */
  lemma ReadMissesTheBatch()
    ensures
      var events := [Issued(Write("k", Some("v"))), FlushCalled, StoreOpened];
      && Runs(Start(map[]), events)
      && var h := Run(Start(map[]), events);
        GetItem(h.state, "k") == None && LastWritten(h, "k") == Some("v")
  {
    var w := Write("k", Some("v"));
    var h0 := Start(map[]);
    var h1 := Step(h0, Issued(w));
    var h2 := Step(h1, FlushCalled);
    var h3 := Step(h2, StoreOpened);
    var e3: seq<Event> := [];
    var e2 := [StoreOpened];
    var e1 := [FlushCalled, StoreOpened];
    var e0 := [Issued(w), FlushCalled, StoreOpened];
    assert e0[1..] == e1 && e1[1..] == e2 && e2[1..] == e3;
    assert Runs(h2, e2) && Run(h2, e2) == h3;
    assert Runs(h1, e1) && Run(h1, e1) == h3;
    assert h3.issued == [w];
    assert On([w], "k") == [Some("v")] by { assert [w][1..] == []; }
  }

  /** With no new write to a key that neither waits nor is in flight, the store's value stays the
      last one written, however late `getItem` reads it. */
  lemma {:induction false} LateReadIsStable(h: History, events: seq<Event>, key: string)
    requires Invariant(h) && Runs(h, events)
    requires On(h.state.pending, key) == [] && On(InFlight(h.state), key) == []
    requires forall e | e in events :: e.Issued? ==> e.w.key != key
    ensures Lookup(Run(h, events).state.store, key) == LastWritten(h, key)
    decreases |events|
  {
    assert KeyOk(h, key);
    hide Subsequence, InOrder, Invariant;
    if events == [] {
      LandedAll(h, key);
    } else {
      StepOk(h, events[0]);
      StaysAway(h, events[0], key);
      hide On, KeyOk, Step, Lookup;
      LateReadIsStable(Step(h, events[0]), events[1..], key);
    }
  }

  /** `getItem` reads twice: a key that did not wait at the first read and is not written again
      shows its last write at the second read exactly when it is then not in flight, or the
      store already shows what is. */
  lemma ReadAfterMiss(h: History, events: seq<Event>, key: string)
    requires Invariant(h) && Runs(h, events)
    requires On(h.state.pending, key) == []
    requires forall e | e in events :: e.Issued? ==> e.w.key != key
    ensures
      var end := Run(h, events);
      Lookup(end.state.store, key) == LastWritten(h, key)
      <==> (|| On(InFlight(end.state), key) == []
            || Lookup(end.state.store, key) == On(InFlight(end.state), key)[0])
  {
    hide Invariant, KeyOk, On, InFlight, Lookup;
    NothingWaits(h, events, key);
    RunOk(h, events);
    ReadsOwnWrites(Run(h, events), key);
  }

  lemma {:induction false} NothingWaits(h: History, events: seq<Event>, key: string)
    requires Invariant(h) && Runs(h, events)
    requires On(h.state.pending, key) == []
    requires forall e | e in events :: e.Issued? ==> e.w.key != key
    ensures On(Run(h, events).state.pending, key) == [] && LastWritten(Run(h, events), key) == LastWritten(h, key)
    decreases |events|
  {
    if events != [] {
      assert events[0] in events;
      StepOk(h, events[0]);
      StillNotWaiting(h, events[0], key);
      hide Invariant, On, Step, KeyOk;
      NothingWaits(Step(h, events[0]), events[1..], key);
    }
  }

  lemma StillNotWaiting(h: History, e: Event, key: string)
    requires Invariant(h) && Enabled(h.state, e) && (e.Issued? ==> e.w.key != key)
    requires On(h.state.pending, key) == []
    ensures
      var next := Step(h, e);
      && next.first == h.first && On(next.state.pending, key) == [] && On(next.issued, key) == On(h.issued, key)
  {
    hide InOrder;
    if e.Issued? {
      assert KeyOk(h, e.w.key);
      OnPendingSet(h.state.pending, e.w, key);
      OnAppend(h.issued, [e.w], key);
      OnOne(e.w, key);
      assert On(h.issued, key) + [] == On(h.issued, key);
    }
  }

  lemma StaysAway(h: History, e: Event, key: string)
    requires Invariant(h) && Enabled(h.state, e) && (e.Issued? ==> e.w.key != key)
    requires On(h.state.pending, key) == [] && On(InFlight(h.state), key) == []
    ensures
      var next := Step(h, e);
      && On(next.state.pending, key) == [] && On(InFlight(next.state), key) == []
      && On(next.issued, key) == On(h.issued, key)
  {
    hide InOrder, PendingSet, ApplyOne;
    assert forall ws: seq<Write> | ws != [] && On(ws, key) == [] :: On(ws[1..], key) == [];
    if e.Issued? {
      assert KeyOk(h, e.w.key);
      OnPendingSet(h.state.pending, e.w, key);
      OnAppend(h.issued, [e.w], key);
      OnOne(e.w, key);
      assert On(h.issued, key) + [] == On(h.issued, key);
    }
  }

  // ---------------------------------------------------------------- the storage object

  class Storage {
    var pending: seq<Write>
    var timer: bool
    /** `flushing` is set in every phase but `Idle`. */
    var phase: Phase
    var store: map<string, string>
    ghost var history: History

    ghost predicate Valid()
      reads this
    {
      Invariant(history) && history.state == State(pending, timer, phase, store)
    }

    constructor (first: map<string, string>)
      ensures Valid() && history == Start(first)
    {
      pending, timer, phase, store := [], false, Idle, first;
      history := Start(first);
      StartOk(first);
    }

    method Schedule()
      modifies this`timer
      ensures timer
    {
      if timer {
        return;
      }
      timer := true;
    }

    method SetItem(key: string, value: string)
      requires Valid()
      modifies this
      ensures Valid() && history == Step(old(history), Issued(Write(key, Some(value))))
    {
      StepOk(history, Issued(Write(key, Some(value))));
      pending := PendingSet(pending, Write(key, Some(value)));
      Schedule();
      history := Step(history, Issued(Write(key, Some(value))));
    }

    method RemoveItem(key: string)
      requires Valid()
      modifies this
      ensures Valid() && history == Step(old(history), Issued(Write(key, None)))
    {
      StepOk(history, Issued(Write(key, None)));
      pending := PendingSet(pending, Write(key, None));
      Schedule();
      history := Step(history, Issued(Write(key, None)));
    }

    method Flush()
      requires Valid()
      modifies this
      ensures Valid() && history == Step(old(history), FlushCalled)
    {
      StepOk(history, FlushCalled);
      history := Step(history, FlushCalled);
      if phase != Idle {
        return;
      }
      phase := AwaitStore;
    }

    method FireTimer()
      requires Valid() && timer && !phase.Exited?
      modifies this
      ensures Valid() && history == Step(old(history), TimerFired)
    {
      StepOk(history, TimerFired);
      history := Step(history, TimerFired);
      timer := false;
      if phase == Idle {
        phase := AwaitStore;
      }
    }

    method TestLoop()
      modifies this`pending, this`phase
      ensures State(pending, timer, phase, store) == LoopTest(old(State(pending, timer, phase, store)))
    {
      if |pending| > 0 {
        phase := Batch(pending);
        pending := [];
      } else {
        phase := Exited;
      }
    }

    /** The flush after `getStore`. */
    method OpenStore()
      requires Valid() && phase.AwaitStore?
      modifies this
      ensures Valid() && history == Step(old(history), StoreOpened)
    {
      StepOk(history, StoreOpened);
      history := Step(history, StoreOpened);
      TestLoop();
    }

    /** The flush after a store operation. */
    method FinishOperation()
      requires Valid() && phase.Batch?
      modifies this
      ensures Valid() && history == Step(old(history), Landed)
    {
      StepOk(history, Landed);
      history := Step(history, Landed);
      var w := phase.rest[0];
      if w.value.None? {
        store := store - {w.key};
      } else {
        store := store[w.key := w.value.value];
      }
      phase := Batch(phase.rest[1..]);
      if phase.rest == [] {
        TestLoop();
      }
    }

    method SettleFlush()
      requires Valid() && phase.Exited?
      modifies this
      ensures Valid() && history == Step(old(history), FlushSettled)
    {
      StepOk(history, FlushSettled);
      history := Step(history, FlushSettled);
      phase := Idle;
    }
  }
}
