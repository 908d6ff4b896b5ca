/** The gateway's authentication ring, shared by the event loop and its worker threads, as a
    machine whose steps are the atomic sections of the two sides, in any order. */
module AuthRing {

  const MAX_AUTH_QUEUE: nat := 32

  /** A job slot. The ticket stands for the client waiting for the answer. */
  datatype Job = Job(ticket: nat, password: string, result: bool, done: bool)

  /** Where a worker is: asking PAM, holding the written result, or past the done flag with
      only the eventfd left to write. */
  datatype Stage = Checking | Checked | Signalling

  datatype Worker = Worker(slot: nat, stage: Stage)

  /** The event loop: waiting, between enqueueing a job and starting its thread, or draining. */
  datatype Loop = Idle | Creating | Draining

  /** `accepted`, `answered` and `verdicts` record the history: the jobs taken in order, the
      answers given in order, and what PAM said about each ticket. */
  datatype State = State(
    slots: seq<Job>, head: nat, tail: nat, eventfd: nat, loop: Loop,
    workers: map<nat, Worker>, nextTicket: nat,
    accepted: seq<nat>, answered: seq<(nat, bool)>, verdicts: map<nat, bool>)

  function Next(i: nat): nat { (i + 1) % MAX_AUTH_QUEUE }

  function Count(head: nat, tail: nat): nat
    requires head < MAX_AUTH_QUEUE && tail < MAX_AUTH_QUEUE
  {
    (tail - head + MAX_AUTH_QUEUE) % MAX_AUTH_QUEUE
  }

  /** The slot of the i-th waiting job. */
  function At(head: nat, i: nat): nat { (head + i) % MAX_AUTH_QUEUE }

  predicate Shape(s: State) {
    |s.slots| == MAX_AUTH_QUEUE && s.head < MAX_AUTH_QUEUE && s.tail < MAX_AUTH_QUEUE
  }

  function Size(s: State): nat
    requires Shape(s)
  {
    Count(s.head, s.tail)
  }

  function Waiting(s: State, i: nat): Job
    requires Shape(s)
  {
    s.slots[At(s.head, i)]
  }

  /** The waiting tickets, oldest first. */
  function Queue(s: State): seq<nat>
    requires Shape(s)
  {
    seq(Size(s), i requires 0 <= i < Size(s) => Waiting(s, i).ticket)
  }

  function Answered(s: State): seq<nat> {
    seq(|s.answered|, i requires 0 <= i < |s.answered| => s.answered[i].0)
  }

  const EMPTY_JOB := Job(0, "", false, false)

  function Initial(): State {
    State(seq(MAX_AUTH_QUEUE, _ => EMPTY_JOB), 0, 0, 0, Idle, map[], 0, [], [], map[])
  }

  // ---------------------------------------------------------------- steps

  datatype Step =
    | Submit(password: string)
    | ThreadStarted(ok: bool)
    | PamReturns(ticket: nat, verdict: bool)
    | SetDone(ticket: nat)
    | WriteEventfd(ticket: nat)
    | Wake
    | DrainOne

  predicate Full(s: State) {
    Next(s.tail) == s.head
  }

  /** The ticket of the job enqueued last. */
  function LastTicket(s: State): nat
    requires Shape(s)
  {
    s.slots[(s.tail + MAX_AUTH_QUEUE - 1) % MAX_AUTH_QUEUE].ticket
  }

  predicate Enabled(s: State, step: Step) {
    Shape(s) &&
    match step
    case Submit(_) => s.loop == Idle
    case ThreadStarted(_) => s.loop == Creating && |s.accepted| > 0
    case PamReturns(t, _) => t in s.workers && s.workers[t].stage == Checking && s.workers[t].slot < MAX_AUTH_QUEUE
    case SetDone(t) => t in s.workers && s.workers[t].stage == Checked && s.workers[t].slot < MAX_AUTH_QUEUE
    case WriteEventfd(t) => t in s.workers && s.workers[t].stage == Signalling
    case Wake => s.loop == Idle && s.eventfd > 0
    case DrainOne => s.loop == Draining
  }

  function Do(s: State, step: Step): State
    requires Enabled(s, step)
  {
    match step
    case Submit(password) =>
      if Full(s) then s
      else s.(slots := s.slots[s.tail := Job(s.nextTicket, password, false, false)], tail := Next(s.tail),
              nextTicket := s.nextTicket + 1, accepted := s.accepted + [s.nextTicket], loop := Creating)
    case ThreadStarted(ok) =>
      var slot := (s.tail + MAX_AUTH_QUEUE - 1) % MAX_AUTH_QUEUE;
      if ok then s.(workers := s.workers[LastTicket(s) := Worker(slot, Checking)], loop := Idle)
      else s.(tail := slot, accepted := s.accepted[..|s.accepted| - 1], loop := Idle)
    case PamReturns(t, verdict) =>
      var slot := s.workers[t].slot;
      s.(slots := s.slots[slot := s.slots[slot].(result := verdict, password := "")],
         workers := s.workers[t := Worker(slot, Checked)], verdicts := s.verdicts[t := verdict])
    case SetDone(t) =>
      var slot := s.workers[t].slot;
      s.(slots := s.slots[slot := s.slots[slot].(done := true)], workers := s.workers[t := Worker(slot, Signalling)])
    case WriteEventfd(t) => s.(eventfd := s.eventfd + 1, workers := s.workers - {t})
    case Wake => s.(eventfd := 0, loop := Draining)
    case DrainOne =>
      if s.head == s.tail || !s.slots[s.head].done then s.(loop := Idle)
      else s.(answered := s.answered + [(s.slots[s.head].ticket, s.slots[s.head].result)], head := Next(s.head))
  }

  // ---------------------------------------------------------------- the invariant

  /** The i-th waiting job has its worker still at work, or is done with PAM's verdict in it,
      or is the one whose thread is just being created. */
  predicate JobOk(s: State, i: nat)
    requires Shape(s)
  {
    var job := Waiting(s, i);
    if s.loop == Creating && i + 1 == Size(s) then !job.done && job.ticket !in s.workers
    else if job.done then
      && (job.ticket in s.workers ==> s.workers[job.ticket].stage == Signalling)
      && job.ticket in s.verdicts && s.verdicts[job.ticket] == job.result
    else
      && job.ticket in s.workers && s.workers[job.ticket].slot == At(s.head, i)
      && s.workers[job.ticket].stage != Signalling
      && (s.workers[job.ticket].stage == Checked ==>
            job.ticket in s.verdicts && s.verdicts[job.ticket] == job.result && job.password == "")
  }

  /** A worker that has not set the done flag works on a waiting job, in that job's slot. */
  ghost predicate WorkerOk(s: State, t: nat)
    requires Shape(s)
  {
    t in s.workers && s.workers[t].stage != Signalling ==>
      exists i: nat :: i < Size(s) && Waiting(s, i).ticket == t && s.workers[t].slot == At(s.head, i)
                       && !Waiting(s, i).done
  }

  /** No completion is lost: a done head job that nobody is draining has a wake-up pending. */
  ghost predicate WakeUpPending(s: State)
    requires Shape(s)
  {
    s.loop != Draining && Size(s) > 0 && Waiting(s, 0).done ==>
      s.eventfd > 0 || exists t :: t in s.workers && s.workers[t].stage == Signalling
  }

  /** Every waiting job and every worker is in order. */
  ghost predicate JobsOk(s: State)
    requires Shape(s)
  {
    && (forall i: nat | i < Size(s) :: JobOk(s, i))
    && (forall t :: WorkerOk(s, t))
    && (s.loop == Creating ==> Size(s) > 0)
  }

  /** Tickets are handed out in order. */
  ghost predicate TicketsOk(s: State)
    requires Shape(s)
  {
    && (forall t | t in s.workers :: t < s.nextTicket)
    && (forall t | t in s.verdicts :: t < s.nextTicket)
  }

  /** Accepted jobs have been answered, oldest first, or wait; answers are PAM's verdicts. */
  ghost predicate HistoryOk(s: State)
    requires Shape(s)
  {
    && s.accepted == Answered(s) + Queue(s)
    && (forall i, j | 0 <= i < j < |s.accepted| :: s.accepted[i] < s.accepted[j])
    && (forall i | 0 <= i < |s.accepted| :: s.accepted[i] < s.nextTicket)
    && (forall i | 0 <= i < |s.answered| ::
          && s.answered[i].0 in s.verdicts && s.verdicts[s.answered[i].0] == s.answered[i].1
          && (s.answered[i].0 in s.workers ==> s.workers[s.answered[i].0].stage == Signalling))
  }

  ghost predicate Inv(s: State) {
    Shape(s) && JobsOk(s) && TicketsOk(s) && HistoryOk(s) && WakeUpPending(s)
  }

  // ---------------------------------------------------------------- ring arithmetic

  lemma AtInjective(head: nat, i: nat, j: nat)
    requires head < MAX_AUTH_QUEUE && i < MAX_AUTH_QUEUE && j < MAX_AUTH_QUEUE
    ensures At(head, i) < MAX_AUTH_QUEUE
    ensures At(head, i) == At(head, j) <==> i == j
  {
  }

  /** The ring arithmetic without remainders. */
  lemma Unrolled(head: nat, tail: nat, i: nat)
    requires head < MAX_AUTH_QUEUE && tail < MAX_AUTH_QUEUE && i < MAX_AUTH_QUEUE
    ensures Count(head, tail) == if head <= tail then tail - head else tail + MAX_AUTH_QUEUE - head
    ensures Next(tail) == if tail + 1 == MAX_AUTH_QUEUE then 0 else tail + 1
    ensures At(head, i) == if head + i < MAX_AUTH_QUEUE then head + i else head + i - MAX_AUTH_QUEUE
  {
  }

  lemma Enqueued(head: nat, tail: nat)
    requires head < MAX_AUTH_QUEUE && tail < MAX_AUTH_QUEUE
    ensures At(head, Count(head, tail)) == tail && Next(tail) < MAX_AUTH_QUEUE
    ensures Next(tail) == head <==> Count(head, tail) == MAX_AUTH_QUEUE - 1
    ensures Next(tail) != head ==> Count(head, Next(tail)) == Count(head, tail) + 1
    ensures head == tail <==> Count(head, tail) == 0
    ensures Count(head, tail) < MAX_AUTH_QUEUE
  {
    Unrolled(head, tail, Count(head, tail));
    Unrolled(head, Next(tail), 0);
    hide Count, Next, At;
  }

  lemma RolledBack(head: nat, tail: nat)
    requires head < MAX_AUTH_QUEUE && tail < MAX_AUTH_QUEUE && Count(head, tail) > 0
    ensures
      var back := (tail + MAX_AUTH_QUEUE - 1) % MAX_AUTH_QUEUE;
      back < MAX_AUTH_QUEUE && Count(head, back) == Count(head, tail) - 1 && At(head, Count(head, tail) - 1) == back
  {
    var back := (tail + MAX_AUTH_QUEUE - 1) % MAX_AUTH_QUEUE;
    assert back == if tail == 0 then MAX_AUTH_QUEUE - 1 else tail - 1;
    Unrolled(head, tail, 0);
    Unrolled(head, back, Count(head, tail) - 1);
    hide Count, Next, At;
  }

  lemma Dequeued(head: nat, tail: nat)
    requires head < MAX_AUTH_QUEUE && tail < MAX_AUTH_QUEUE && Count(head, tail) > 0
    ensures Next(head) < MAX_AUTH_QUEUE && Count(Next(head), tail) == Count(head, tail) - 1
    ensures At(head, 0) == head
    ensures forall i: nat :: At(Next(head), i) == At(head, i + 1)
  {
  }

  /** Waiting jobs are different jobs, and none of them has been answered. */
  lemma WaitingDiffer(s: State, i: nat, j: nat)
    requires Shape(s) && HistoryOk(s) && i < j < Size(s)
    ensures Waiting(s, i).ticket < Waiting(s, j).ticket < s.nextTicket
  {
    hide At, Count;
    assert s.accepted[|s.answered| + i] == Queue(s)[i] == Waiting(s, i).ticket;
    assert s.accepted[|s.answered| + j] == Queue(s)[j] == Waiting(s, j).ticket;
  }

  lemma WaitingKnown(s: State, i: nat)
    requires Shape(s) && HistoryOk(s) && i < Size(s)
    ensures Waiting(s, i).ticket < s.nextTicket
  {
    hide At, Count;
    assert s.accepted[|s.answered| + i] == Queue(s)[i] == Waiting(s, i).ticket;
  }

  lemma NotAnswered(s: State, i: nat, k: nat)
    requires Shape(s) && HistoryOk(s) && i < Size(s) && k < |s.answered|
    ensures s.answered[k].0 != Waiting(s, i).ticket
  {
    hide At, Count;
    assert s.accepted[k] == Answered(s)[k] == s.answered[k].0;
    assert s.accepted[|s.answered| + i] == Queue(s)[i] == Waiting(s, i).ticket;
  }

  // ---------------------------------------------------------------- one step

  lemma SubmitOk(s: State, password: string)
    requires Inv(s) && Enabled(s, Submit(password))
    ensures Inv(Do(s, Submit(password)))
  {
    hide At, Count, Next;
    var s' := Do(s, Submit(password));
    Enqueued(s.head, s.tail);
    if !Full(s) {
      var n := Size(s);
      assert Size(s') == n + 1;
      forall i: nat | i < n ensures Waiting(s', i) == Waiting(s, i) {
        AtInjective(s.head, i, n);
        assert At(s.head, n) == s.tail && At(s.head, i) != s.tail;
        assert s'.slots[At(s.head, i)] == s.slots[At(s.head, i)];
        assert s'.head == s.head;
        assert Waiting(s', i) == s'.slots[At(s'.head, i)];
      }
      assert Waiting(s', n) == Job(s.nextTicket, password, false, false);
      forall i: nat | i < n + 1 ensures JobOk(s', i) {
        if i < n {
          assert JobOk(s, i);
        }
      }
      forall t ensures WorkerOk(s', t) {
        assert WorkerOk(s, t);
      }
      assert Answered(s') == Answered(s);
      assert Queue(s') == Queue(s) + [s.nextTicket];
    }
  }

  lemma ThreadStartedOk(s: State)
    requires Inv(s) && Enabled(s, ThreadStarted(true))
    ensures Inv(Do(s, ThreadStarted(true)))
  {
    hide At, Count, Next;
    var s' := Do(s, ThreadStarted(true));
    RolledBack(s.head, s.tail);
    var n := Size(s);
    assert JobOk(s, n - 1);
    assert Waiting(s, n - 1).ticket == LastTicket(s);
    WaitingKnown(s, n - 1);
    forall i: nat | i < n ensures JobOk(s', i) {
      assert JobOk(s, i);
      assert Waiting(s', i) == Waiting(s, i);
      if i < n - 1 {
        WaitingDiffer(s, i, n - 1);
      }
    }
    forall t ensures WorkerOk(s', t) {
      assert WorkerOk(s, t);
      if t == LastTicket(s) {
        assert Waiting(s', n - 1).ticket == t;
      } else if t in s.workers && s.workers[t].stage != Signalling {
        var i: nat :| i < Size(s) && Waiting(s, i).ticket == t && s.workers[t].slot == At(s.head, i) && !Waiting(s, i).done;
        assert Waiting(s', i).ticket == t;
      }
    }
    assert Answered(s') == Answered(s) && Queue(s') == Queue(s);
    forall i | 0 <= i < |s'.answered| && s'.answered[i].0 in s'.workers
      ensures s'.workers[s'.answered[i].0].stage == Signalling {
      NotAnswered(s, n - 1, i);
    }
    if s'.loop != Draining && n > 0 && Waiting(s', 0).done && s'.eventfd == 0 {
      assert WakeUpPending(s);
      var t :| t in s.workers && s.workers[t].stage == Signalling;
      assert t in s'.workers && s'.workers[t].stage == Signalling;
    }
  }

  lemma RollbackOk(s: State)
    requires Inv(s) && Enabled(s, ThreadStarted(false))
    ensures Inv(Do(s, ThreadStarted(false)))
  {
    hide At, Count, Next;
    var s' := Do(s, ThreadStarted(false));
    RolledBack(s.head, s.tail);
    var n := Size(s);
    assert JobOk(s, n - 1);
    assert Size(s') == n - 1;
    forall i: nat | i < n - 1 ensures JobOk(s', i) {
      assert JobOk(s, i);
      assert Waiting(s', i) == Waiting(s, i);
    }
    forall t ensures WorkerOk(s', t) {
      assert WorkerOk(s, t);
      if t in s.workers && s.workers[t].stage != Signalling {
        var i: nat :| i < Size(s) && Waiting(s, i).ticket == t && s.workers[t].slot == At(s.head, i) && !Waiting(s, i).done;
        assert i < n - 1;
        assert Waiting(s', i).ticket == t;
      }
    }
    assert Answered(s') == Answered(s);
    assert Queue(s) == Queue(s') + [Waiting(s, n - 1).ticket];
    assert s'.accepted == Answered(s) + Queue(s');
  }

  /** A worker that is not signalling owns one waiting job that is not done. */
  lemma OwnJob(s: State, t: nat) returns (i: nat)
    requires Inv(s) && t in s.workers && s.workers[t].stage != Signalling
    ensures i < Size(s) && Waiting(s, i).ticket == t && s.workers[t].slot == At(s.head, i) && !Waiting(s, i).done
    ensures !(s.loop == Creating && i + 1 == Size(s))
    ensures forall j: nat | j < Size(s) && j != i :: Waiting(s, j).ticket != t
    ensures i < MAX_AUTH_QUEUE
  {
    hide At, Count;
    assert WorkerOk(s, t);
    i :| i < Size(s) && Waiting(s, i).ticket == t && s.workers[t].slot == At(s.head, i) && !Waiting(s, i).done;
    assert JobOk(s, i);
    Enqueued(s.head, s.tail);
    forall j: nat | j < Size(s) && j != i ensures Waiting(s, j).ticket != t {
      if j < i {
        WaitingDiffer(s, j, i);
      } else {
        WaitingDiffer(s, i, j);
      }
    }
  }

  /** A worker writing into its job's slot: ring and history stay, the other jobs too. */
  lemma WriteSlot(s: State, s': State, t: nat, i: nat)
    requires Inv(s) && t in s.workers && s.workers[t].stage != Signalling
    requires i < Size(s) && Waiting(s, i).ticket == t && s.workers[t].slot == At(s.head, i) && !Waiting(s, i).done
    requires i < MAX_AUTH_QUEUE
    requires forall j: nat | j < Size(s) && j != i :: Waiting(s, j).ticket != t
    requires s' == s.(slots := s'.slots, workers := s'.workers, verdicts := s'.verdicts)
    requires Shape(s') && s'.slots == s.slots[At(s.head, i) := s'.slots[At(s.head, i)]]
    requires s'.slots[At(s.head, i)].ticket == t
    requires s'.workers.Keys == s.workers.Keys && s'.workers[t].slot == s.workers[t].slot
    requires forall u | u in s.workers && u != t :: s'.workers[u] == s.workers[u]
    requires s'.workers[t].stage == Signalling <==> s'.slots[At(s.head, i)].done
    requires s'.verdicts == s.verdicts || s'.verdicts == s.verdicts[t := s'.slots[At(s.head, i)].result]
    requires JobOk(s', i)
    requires s'.workers[t].stage == Checked || s'.workers[t].stage == Signalling
    ensures Inv(s')
  {
    hide At, Count;
    var n := Size(s);
    Enqueued(s.head, s.tail);
    assert !(s.loop == Creating && i + 1 == n) by {
      assert JobOk(s, i);
    }
    forall j: nat | j < n && j != i ensures Waiting(s', j) == Waiting(s, j) {
      AtInjective(s.head, j, i);
      assert s'.slots[At(s.head, j)] == s.slots[At(s.head, j)];
    }
    assert Waiting(s', i).ticket == t;
    forall j: nat | j < n ensures JobOk(s', j) {
      assert JobOk(s, j);
    }
    forall u ensures WorkerOk(s', u) {
      if u in s'.workers && s'.workers[u].stage != Signalling {
        assert WorkerOk(s, u);
        var j: nat :| j < Size(s) && Waiting(s, j).ticket == u && s.workers[u].slot == At(s.head, j) && !Waiting(s, j).done;
        assert Waiting(s', j).ticket == u && !Waiting(s', j).done;
      }
    }
    assert Answered(s') == Answered(s) && Queue(s') == Queue(s);
    forall k | 0 <= k < |s.answered| ensures s.answered[k].0 != t {
      NotAnswered(s, i, k);
    }
    if s'.loop != Draining && Waiting(s', 0).done && s'.eventfd == 0 {
      if i == 0 {
        assert t in s'.workers && s'.workers[t].stage == Signalling;
      } else {
        assert WakeUpPending(s);
        var u :| u in s.workers && s.workers[u].stage == Signalling;
        assert s'.workers[u].stage == Signalling;
      }
    }
  }

  lemma PamReturnsOk(s: State, t: nat, verdict: bool)
    requires Inv(s) && Enabled(s, PamReturns(t, verdict))
    ensures Inv(Do(s, PamReturns(t, verdict)))
  {
    hide At, Count;
    var i := OwnJob(s, t);
    WriteSlot(s, Do(s, PamReturns(t, verdict)), t, i);
  }

  lemma SetDoneOk(s: State, t: nat)
    requires Inv(s) && Enabled(s, SetDone(t))
    ensures Inv(Do(s, SetDone(t)))
  {
    hide At, Count;
    var i := OwnJob(s, t);
    assert JobOk(s, i);
    WriteSlot(s, Do(s, SetDone(t)), t, i);
  }

  lemma WriteEventfdOk(s: State, t: nat)
    requires Inv(s) && Enabled(s, WriteEventfd(t))
    ensures Inv(Do(s, WriteEventfd(t)))
  {
    hide At, Count;
    var s' := Do(s, WriteEventfd(t));
    forall i: nat | i < Size(s) ensures JobOk(s', i) {
      assert JobOk(s, i);
      assert Waiting(s', i) == Waiting(s, i);
    }
    forall u ensures WorkerOk(s', u) {
      assert WorkerOk(s, u);
      if u in s'.workers && s'.workers[u].stage != Signalling {
        var j: nat :| j < Size(s) && Waiting(s, j).ticket == u && s.workers[u].slot == At(s.head, j) && !Waiting(s, j).done;
        assert Waiting(s', j).ticket == u;
      }
    }
    assert Answered(s') == Answered(s) && Queue(s') == Queue(s);
  }

  lemma WakeOk(s: State)
    requires Inv(s) && Enabled(s, Wake)
    ensures Inv(Do(s, Wake))
  {
    hide At, Count;
    var s' := Do(s, Wake);
    SameJobs(s, s');
  }

  /** Only the loop's mode and the eventfd have changed, and no thread is being created. */
  lemma SameJobs(s: State, s': State)
    requires Inv(s) && s' == s.(loop := s'.loop, eventfd := s'.eventfd)
    requires s.loop != Creating && s'.loop != Creating
    requires WakeUpPending(s')
    ensures Inv(s')
  {
    hide At, Count, WakeUpPending;
    forall i: nat | i < Size(s) ensures JobOk(s', i) {
      assert JobOk(s, i);
      assert Waiting(s', i) == Waiting(s, i);
    }
    forall u ensures WorkerOk(s', u) {
      assert WorkerOk(s, u);
      if u in s'.workers && s'.workers[u].stage != Signalling {
        var j: nat :| j < Size(s) && Waiting(s, j).ticket == u && s.workers[u].slot == At(s.head, j) && !Waiting(s, j).done;
        assert Waiting(s', j).ticket == u;
      }
    }
    assert Answered(s') == Answered(s) && Queue(s') == Queue(s);
  }

  lemma DrainOneOk(s: State)
    requires Inv(s) && Enabled(s, DrainOne)
    ensures Inv(Do(s, DrainOne))
  {
    hide At, Count, Next;
    var s' := Do(s, DrainOne);
    Enqueued(s.head, s.tail);
    if s.head == s.tail {
      SameJobs(s, s');
    } else {
      Dequeued(s.head, s.tail);
      assert Waiting(s, 0) == s.slots[s.head];
      if !s.slots[s.head].done {
        SameJobs(s, s');
      } else {
        AnswerOk(s);
      }
    }
  }

  lemma AnswerOk(s: State)
    requires Inv(s) && s.loop == Draining && Size(s) > 0 && Waiting(s, 0).done && s.slots[s.head] == Waiting(s, 0)
    ensures Inv(s.(answered := s.answered + [(s.slots[s.head].ticket, s.slots[s.head].result)], head := Next(s.head)))
  {
    hide At, Count, Next;
    var s' := s.(answered := s.answered + [(s.slots[s.head].ticket, s.slots[s.head].result)], head := Next(s.head));
    Dequeued(s.head, s.tail);
    var n := Size(s);
    assert Size(s') == n - 1;
    forall i: nat | i < n - 1 ensures Waiting(s', i) == Waiting(s, i + 1) {
    }
    assert JobOk(s, 0);
    forall i: nat | i < n - 1 ensures JobOk(s', i) {
      assert JobOk(s, i + 1);
    }
    forall u ensures WorkerOk(s', u) {
      assert WorkerOk(s, u);
      if u in s'.workers && s'.workers[u].stage != Signalling {
        var j: nat :| j < Size(s) && Waiting(s, j).ticket == u && s.workers[u].slot == At(s.head, j) && !Waiting(s, j).done;
        assert j > 0;
        assert Waiting(s', j - 1).ticket == u;
      }
    }
    assert Queue(s) == [Waiting(s, 0).ticket] + Queue(s');
    assert Answered(s') == Answered(s) + [Waiting(s, 0).ticket];
  }

  lemma StepOk(s: State, step: Step)
    requires Inv(s) && Enabled(s, step)
    ensures Inv(Do(s, step))
  {
    hide Inv;
    match step
    case Submit(password) => SubmitOk(s, password);
    case ThreadStarted(ok) => if ok { ThreadStartedOk(s); } else { RollbackOk(s); }
    case PamReturns(t, verdict) => PamReturnsOk(s, t, verdict);
    case SetDone(t) => SetDoneOk(s, t);
    case WriteEventfd(t) => WriteEventfdOk(s, t);
    case Wake => WakeOk(s);
    case DrainOne => DrainOneOk(s);
  }

  lemma InitialOk()
    ensures Inv(Initial())
  {
    assert Queue(Initial()) == [] && Answered(Initial()) == [];
  }

  // ---------------------------------------------------------------- whole runs

  ghost predicate IsRun(states: seq<State>, steps: seq<Step>) {
    && |states| == |steps| + 1 && states[0] == Initial()
    && forall i | 0 <= i < |steps| :: Enabled(states[i], steps[i]) && states[i + 1] == Do(states[i], steps[i])
  }

  lemma {:induction false} EveryRunOk(states: seq<State>, steps: seq<Step>, i: nat)
    requires IsRun(states, steps) && i < |states|
    ensures Inv(states[i])
    decreases i
  {
    hide Inv, Do, Enabled;
    if i == 0 {
      InitialOk();
    } else {
      EveryRunOk(states, steps, i - 1);
      StepOk(states[i - 1], steps[i - 1]);
    }
  }

  /** In every interleaving: answers go out in submission order, none twice, and each carries
      what PAM said about its own ticket. */
  lemma AnswersInOrder(states: seq<State>, steps: seq<Step>, i: nat)
    requires IsRun(states, steps) && i < |states|
    ensures
      var s := states[i];
      && Answered(s) <= s.accepted
      && (forall j, k | 0 <= j < k < |s.answered| :: s.answered[j].0 < s.answered[k].0)
      && (forall j | 0 <= j < |s.answered| ::
            s.answered[j].0 in s.verdicts && s.verdicts[s.answered[j].0] == s.answered[j].1)
  {
    EveryRunOk(states, steps, i);
    var s := states[i];
    forall j, k | 0 <= j < k < |s.answered| ensures s.answered[j].0 < s.answered[k].0 {
      assert s.accepted[j] == s.answered[j].0 && s.accepted[k] == s.answered[k].0;
    }
  }

  /** A slot is never refilled before its worker has finished with it: when a submission takes
      the tail slot, every worker that still has to write to a slot writes to another one. */
  lemma SlotNotReusedEarly(s: State, password: string, t: nat)
    requires Inv(s) && Enabled(s, Submit(password)) && !Full(s)
    requires t in s.workers && s.workers[t].stage != Signalling
    ensures s.workers[t].slot != s.tail
  {
    hide At, Count;
    var i := OwnJob(s, t);
    Enqueued(s.head, s.tail);
    AtInjective(s.head, i, Size(s));
  }

  /** A worker's writes reach the job it was started for. */
  lemma WritesOwnSlot(s: State, t: nat)
    requires Inv(s) && t in s.workers && s.workers[t].stage != Signalling
    ensures s.workers[t].slot < MAX_AUTH_QUEUE && s.slots[s.workers[t].slot].ticket == t
  {
    var i := OwnJob(s, t);
  }

  /** No completion is lost: with the loop idle and the head job done, either the eventfd is
      set, so that the loop can wake, or some worker's write of it is still to come. */
  lemma NoLostCompletion(states: seq<State>, steps: seq<Step>, i: nat)
    requires IsRun(states, steps) && i < |states|
    requires states[i].loop == Idle
    requires Shape(states[i]) && Size(states[i]) > 0 && Waiting(states[i], 0).done
    ensures Enabled(states[i], Wake) || exists t :: Enabled(states[i], WriteEventfd(t))
  {
    EveryRunOk(states, steps, i);
    var s := states[i];
    if s.eventfd == 0 {
      var t :| t in s.workers && s.workers[t].stage == Signalling;
      assert Enabled(s, WriteEventfd(t));
    }
  }

  /** Nor is a waiting job ever forgotten: it is done, or its worker can still take a step, or
      its thread is just being created. */
  lemma EveryJobProgresses(s: State, i: nat)
    requires Inv(s) && i < Size(s) && !Waiting(s, i).done
    ensures
      || s.loop == Creating
      || Enabled(s, SetDone(Waiting(s, i).ticket))
      || (forall verdict :: Enabled(s, PamReturns(Waiting(s, i).ticket, verdict)))
  {
    hide Count;
    assert JobOk(s, i);
  }

  predicate IsWorkerStep(step: Step) {
    step.PamReturns? || step.SetDone? || step.WriteEventfd?
  }

  /** Workers change neither the ring's ends nor the history. */
  lemma {:induction false} WorkersKeepRing(states: seq<State>, steps: seq<Step>, i: nat)
    requires |states| == |steps| + 1 && i < |states| && Inv(states[0])
    requires forall j | 0 <= j < |steps| ::
      IsWorkerStep(steps[j]) && Enabled(states[j], steps[j]) && states[j + 1] == Do(states[j], steps[j])
    ensures Inv(states[i])
    ensures
      var s0, s := states[0], states[i];
      s.head == s0.head && s.tail == s0.tail && s.loop == s0.loop && s.accepted == s0.accepted && s.answered == s0.answered
    decreases i
  {
    hide Inv;
    if i > 0 {
      WorkersKeepRing(states, steps, i - 1);
      StepOk(states[i - 1], steps[i - 1]);
    }
  }

  /** A failed thread start takes back exactly the job enqueued before it, whatever the workers
      do in between. */
  lemma RollbackRestores(s: State, password: string, states: seq<State>, steps: seq<Step>)
    requires Inv(s) && Enabled(s, Submit(password)) && !Full(s)
    requires |states| == |steps| + 1 && states[0] == Do(s, Submit(password))
    requires forall j | 0 <= j < |steps| ::
      IsWorkerStep(steps[j]) && Enabled(states[j], steps[j]) && states[j + 1] == Do(states[j], steps[j])
    ensures
      var last := states[|steps|];
      Enabled(last, ThreadStarted(false)) &&
      var s' := Do(last, ThreadStarted(false));
      s'.accepted == s.accepted && Queue(s') == Queue(s) && s'.tail == s.tail && s'.head == s.head
  {
    hide At, Count, Next, JobsOk, TicketsOk, WakeUpPending;
    Enqueued(s.head, s.tail);
    StepOk(s, Submit(password));
    WorkersKeepRing(states, steps, |steps|);
    var last := states[|steps|];
    RolledBack(last.head, last.tail);
    StepOk(last, ThreadStarted(false));
    var s' := Do(last, ThreadStarted(false));
    assert s'.accepted == s.accepted;
    assert Answered(s') == Answered(s);
    assert Queue(s') == s.accepted[|s.answered|..] == Queue(s);
    PreviousSlot(s.tail);
  }

  lemma PreviousSlot(tail: nat)
    requires tail < MAX_AUTH_QUEUE
    ensures (Next(tail) + MAX_AUTH_QUEUE - 1) % MAX_AUTH_QUEUE == tail
  {
  }

  /** A submission is refused exactly when 31 jobs wait. */
  lemma RefusedWhenFull(s: State)
    requires Inv(s)
    ensures Full(s) <==> |Queue(s)| == MAX_AUTH_QUEUE - 1
  {
    Enqueued(s.head, s.tail);
  }

  // ---------------------------------------------------------------- the code's own form

  /** The globals of the gateway; each method is one critical section. */
  class AuthQueue {
    var queue: array<Job>
    var head: nat
    var tail: nat

    ghost predicate Valid()
      reads this
    {
      queue.Length == MAX_AUTH_QUEUE && head < MAX_AUTH_QUEUE && tail < MAX_AUTH_QUEUE
    }

    /** The waiting jobs, oldest first. */
    ghost function Contents(): seq<Job>
      requires Valid()
      reads this, queue
    {
      seq(Count(head, tail), i requires Valid() && 0 <= i < Count(head, tail) reads this, queue => queue[At(head, i)])
    }

    /** The ring is that of a state of the machine. */
    ghost predicate Mirrors(s: State)
      reads this, queue
    {
      Valid() && Shape(s) && queue[..] == s.slots && head == s.head && tail == s.tail
    }

    constructor ()
      ensures Valid() && fresh(queue) && Contents() == []
      ensures Mirrors(Initial())
    {
      queue := new Job[MAX_AUTH_QUEUE](_ => EMPTY_JOB);
      head, tail := 0, 0;
    }

    /** The critical section of a submission. */
    method Enqueue(ticket: nat, password: string, ghost s: State) returns (accepted: bool)
      requires Mirrors(s) && Enabled(s, Submit(password)) && ticket == s.nextTicket
      modifies this`tail, queue
      ensures Valid()
      ensures accepted <==> |old(Contents())| < MAX_AUTH_QUEUE - 1
      ensures Contents() == if accepted then old(Contents()) + [Job(ticket, password, false, false)] else old(Contents())
      ensures Mirrors(Do(s, Submit(password))) && (accepted <==> !Full(s))
    {
      Enqueued(head, tail);
      forall i: nat | i < Count(head, tail) ensures At(head, i) != tail {
        AtInjective(head, i, Count(head, tail));
      }
      var next := (tail + 1) % MAX_AUTH_QUEUE;
      if next == head {
        return false;
      }
      queue[tail] := Job(ticket, password, false, false);
      tail := next;
      return true;
    }

    /** The critical section after a thread could not be started. */
    method Rollback(ghost s: State)
      requires Mirrors(s) && Enabled(s, ThreadStarted(false)) && Contents() != []
      modifies this`tail
      ensures Valid() && Contents() == old(Contents())[..|old(Contents())| - 1]
      ensures Mirrors(Do(s, ThreadStarted(false)))
    {
      RolledBack(head, tail);
      tail := (tail + MAX_AUTH_QUEUE - 1) % MAX_AUTH_QUEUE;
    }

    /** The critical section of a draining loop: takes the oldest job if it is done. */
    method TakeDone(ghost s: State) returns (job: Job, taken: bool)
      requires Mirrors(s) && Enabled(s, DrainOne)
      modifies this`head
      ensures Valid()
      ensures taken <==> old(Contents()) != [] && old(Contents())[0].done
      ensures Contents() == if taken then old(Contents())[1..] else old(Contents())
      ensures taken ==> job == old(Contents())[0]
      ensures Mirrors(Do(s, DrainOne))
      ensures Do(s, DrainOne).answered == if taken then s.answered + [(job.ticket, job.result)] else s.answered
    {
      job, taken := EMPTY_JOB, false;
      Enqueued(head, tail);
      if head != tail {
        Dequeued(head, tail);
        if queue[head].done {
          job, taken := queue[head], true;
          head := (head + 1) % MAX_AUTH_QUEUE;
        }
      }
    }

    /** A worker's answer from PAM, and the password's end. */
    method WriteResult(slot: nat, verdict: bool, ghost ticket: nat, ghost s: State)
      requires Mirrors(s) && Enabled(s, PamReturns(ticket, verdict)) && slot == s.workers[ticket].slot
      modifies queue
      ensures Mirrors(Do(s, PamReturns(ticket, verdict)))
    {
      queue[slot] := queue[slot].(result := verdict);
      queue[slot] := queue[slot].(password := "");
    }

    /** A worker's critical section. */
    method MarkDone(slot: nat, ghost ticket: nat, ghost s: State)
      requires Mirrors(s) && Enabled(s, SetDone(ticket)) && slot == s.workers[ticket].slot
      modifies queue
      ensures Mirrors(Do(s, SetDone(ticket)))
    {
      queue[slot] := queue[slot].(done := true);
    }
  }
}
