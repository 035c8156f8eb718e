/** The asynchronous event bus: publishers, editors, closers and workers over a read-write lock, a bounded
    queue, a wait counter and a once. Every primitive operation is one step; calls interleave freely. */
module EventBus {
  type Listener = nat

  datatype Job = Job(event: string, listeners: seq<Listener>)

  /** A Publish call. All but the last hold the read lock. */
  datatype Publisher =
    | Entered(event: string)
    | Admitted(event: string)
    | Counted(event: string)
    | Sending(job: Job)
    | Abandoning
    | Leaving
    | Returned

  datatype Purpose = Register(listener: Listener) | Clear | Close

  /** A call that takes the write lock; Close goes on to flush and to close the queue. */
  datatype Writer =
    | Locked(purpose: Purpose)
    | Unlocking(purpose: Purpose)
    | Waiting
    | Flushed
    | Succeeded
    | TimedOut

  /** serial is the place of the job in the order of acceptance. */
  datatype Worker = Idle | Busy(job: Job, serial: nat, done: nat) | Ended

  /** A listener called with an event. */
  datatype Call = Call(event: string, listener: Listener)

  datatype Delivery = Delivery(serial: nat, call: Call)

  /** The calls a job asks for: each of its listeners, in order, with its event. */
  function Calls(job: Job): seq<Call> {
    seq(|job.listeners|, i requires 0 <= i < |job.listeners| => Call(job.event, job.listeners[i]))
  }

  /** What the bus holds, where every call is, and a record: the jobs accepted, how many of them
      workers have received, and every call of a listener in order. */
  datatype State = State(
    listeners: seq<Listener>,
    closed: bool,
    queue: seq<Job>,
    capacity: nat,
    closings: nat,
    once: bool,
    counter: int,
    publishers: map<nat, Publisher>,
    writers: map<nat, Writer>,
    workers: map<nat, Worker>,
    accepted: seq<Job>,
    received: nat,
    log: seq<Delivery>)

  datatype Action =
    | Enter(c: nat, event: string)
    | CheckClosed(c: nat)
    | AddOne(c: nat)
    | Snapshot(c: nat)
    | Send(c: nat)
    | GiveUp(c: nat)
    | TakeBack(c: nat)
    | Leave(c: nat)
    | Lock(c: nat, purpose: Purpose)
    | Write(c: nat)
    | Unlock(c: nat)
    | SeeZero(c: nat)
    | TimeOut(c: nat)
    | CloseQueue(c: nat)
    | Receive(w: nat)
    | Dispatch(w: nat)
    | Finish(w: nat)
    | End(w: nat)

  predicate Reads(p: Publisher) {
    !p.Returned?
  }

  predicate Writes(p: Writer) {
    p.Locked? || p.Unlocking?
  }

  predicate NoWriter(s: State) {
    forall c :: c in s.writers ==> !Writes(s.writers[c])
  }

  predicate NoReader(s: State) {
    forall c :: c in s.publishers ==> !Reads(s.publishers[c])
  }

  predicate Enabled(s: State, a: Action) {
    match a
    case Enter(c, _) => c !in s.publishers && NoWriter(s)
    case CheckClosed(c) => c in s.publishers && s.publishers[c].Entered?
    case AddOne(c) => c in s.publishers && s.publishers[c].Admitted?
    case Snapshot(c) => c in s.publishers && s.publishers[c].Counted?
    case Send(c) => c in s.publishers && s.publishers[c].Sending? && |s.queue| < s.capacity
    case GiveUp(c) => c in s.publishers && s.publishers[c].Sending?
    case TakeBack(c) => c in s.publishers && s.publishers[c].Abandoning?
    case Leave(c) => c in s.publishers && s.publishers[c].Leaving?
    case Lock(c, _) => c !in s.writers && NoWriter(s) && NoReader(s)
    case Write(c) => c in s.writers && s.writers[c].Locked?
    case Unlock(c) => c in s.writers && s.writers[c].Unlocking?
    case SeeZero(c) => c in s.writers && s.writers[c].Waiting? && s.counter == 0
    case TimeOut(c) => c in s.writers && s.writers[c].Waiting?
    case CloseQueue(c) => c in s.writers && s.writers[c].Flushed?
    case Receive(w) => w in s.workers && s.workers[w].Idle? && s.queue != []
    case Dispatch(w) => w in s.workers && s.workers[w].Busy? && s.workers[w].done < |s.workers[w].job.listeners|
    case Finish(w) => w in s.workers && s.workers[w].Busy? && s.workers[w].done >= |s.workers[w].job.listeners|
    case End(w) => w in s.workers && s.workers[w].Idle? && s.queue == [] && s.closings > 0
  }

  function PublishStep(s: State, a: Action): State
    requires Enabled(s, a)
  {
    match a
    case Enter(c, event) => s.(publishers := s.publishers[c := Entered(event)])
    case CheckClosed(c) =>
      s.(publishers := s.publishers[c := if s.closed then Leaving else Admitted(s.publishers[c].event)])
    case AddOne(c) => s.(counter := s.counter + 1, publishers := s.publishers[c := Counted(s.publishers[c].event)])
    case Snapshot(c) => s.(publishers := s.publishers[c := Sending(Job(s.publishers[c].event, s.listeners))])
    case Send(c) =>
      var job := s.publishers[c].job;
      s.(queue := s.queue + [job], accepted := s.accepted + [job], publishers := s.publishers[c := Leaving])
    case GiveUp(c) => s.(publishers := s.publishers[c := Abandoning])
    case TakeBack(c) => s.(counter := s.counter - 1, publishers := s.publishers[c := Leaving])
    case Leave(c) => s.(publishers := s.publishers[c := Returned])
    case _ => s
  }

  function WriterStep(s: State, a: Action): State
    requires Enabled(s, a)
  {
    match a
    case Lock(c, purpose) => s.(writers := s.writers[c := Locked(purpose)])
    case Write(c) =>
      var purpose := s.writers[c].purpose;
      var next := s.(writers := s.writers[c := Unlocking(purpose)]);
      (match purpose
       case Register(l) => next.(listeners := s.listeners + [l])
       case Clear => next.(listeners := [])
       case Close => next.(closed := true))
    case Unlock(c) => s.(writers := if s.writers[c].purpose.Close? then s.writers[c := Waiting] else s.writers - {c})
    case SeeZero(c) => s.(writers := s.writers[c := Flushed])
    case TimeOut(c) => s.(writers := s.writers[c := TimedOut])
    case CloseQueue(c) =>
      s.(once := true, closings := if s.once then s.closings else s.closings + 1, writers := s.writers[c := Succeeded])
    case _ => s
  }

  function WorkerStep(s: State, a: Action): State
    requires Enabled(s, a)
  {
    match a
    case Receive(w) =>
      s.(queue := s.queue[1..], received := s.received + 1,
         workers := s.workers[w := Busy(s.queue[0], s.received, 0)])
    case Dispatch(w) =>
      var b := s.workers[w];
      s.(workers := s.workers[w := b.(done := b.done + 1)],
         log := s.log + [Delivery(b.serial, Call(b.job.event, b.job.listeners[b.done]))])
    case Finish(w) => s.(counter := s.counter - 1, workers := s.workers[w := Idle])
    case End(w) => s.(workers := s.workers[w := Ended])
    case _ => s
  }

  function Next(s: State, a: Action): State
    requires Enabled(s, a)
  {
    match a
    case Enter(_, _) | CheckClosed(_) | AddOne(_) | Snapshot(_) | Send(_) | GiveUp(_) | TakeBack(_) | Leave(_) =>
      PublishStep(s, a)
    case Lock(_, _) | Write(_) | Unlock(_) | SeeZero(_) | TimeOut(_) | CloseQueue(_) => WriterStep(s, a)
    case Receive(_) | Dispatch(_) | Finish(_) | End(_) => WorkerStep(s, a)
  }

  predicate Init(s: State) {
    && s.publishers == map[] && s.writers == map[] && (forall w :: w in s.workers ==> s.workers[w].Idle?)
    && s.queue == [] && !s.closed && !s.once && s.closings == 0 && s.counter == 0
    && s.accepted == [] && s.received == 0 && s.log == []
  }

  predicate Step(s: State, a: Action, s': State) {
    Enabled(s, a) && s' == Next(s, a)
  }

  predicate Run(states: seq<State>, actions: seq<Action>) {
    && |states| == |actions| + 1 && Init(states[0])
    && forall i :: 0 <= i < |actions| ==> Step(states[i], actions[i], states[i + 1])
  }

  // ----- what every step keeps

  /** Between the check of closed and the end of the call. */
  predicate Inside(p: Publisher) {
    p.Admitted? || p.Counted? || p.Sending? || p.Abandoning?
  }

  predicate Counts(p: Publisher) {
    p.Counted? || p.Sending? || p.Abandoning?
  }

  function Counting(publishers: map<nat, Publisher>): set<nat> {
    set c | c in publishers && Counts(publishers[c])
  }

  function Working(workers: map<nat, Worker>): set<nat> {
    set w | w in workers && workers[w].Busy?
  }

  ghost predicate LockOk(s: State) {
    && (forall c, d :: c in s.writers && d in s.writers && Writes(s.writers[c]) && Writes(s.writers[d]) ==> c == d)
    && (forall c, d :: c in s.writers && d in s.publishers && Writes(s.writers[c]) ==> !Reads(s.publishers[d]))
  }

  ghost predicate SnapshotOk(s: State) {
    forall c :: c in s.publishers && s.publishers[c].Sending? ==> s.publishers[c].job.listeners == s.listeners
  }

  /** A Close call past its critical write. */
  predicate HasClosed(p: Writer) {
    !p.Locked? && (p.Unlocking? ==> p.purpose.Close?)
  }

  /** Shutting down: a call that closes the bus has seen every publisher out and the counter at zero. */
  ghost predicate ShutOk(s: State) {
    && (s.closed ==> forall c :: c in s.publishers ==> !Inside(s.publishers[c]))
    && (forall c :: c in s.writers && HasClosed(s.writers[c]) ==> s.closed)
    && (forall c :: c in s.writers && (s.writers[c].Flushed? || s.writers[c].Succeeded?) ==> s.counter == 0)
    && (forall c :: c in s.writers && s.writers[c].Succeeded? ==> s.once)
    && (s.once ==> s.closed && s.counter == 0)
    && s.closings == (if s.once then 1 else 0)
  }

  /** The wait counter is the number of publishers between Add and send or Done, plus the jobs queued,
      plus the jobs workers hold. */
  ghost predicate CountOk(s: State) {
    s.counter == |Counting(s.publishers)| + |s.queue| + |Working(s.workers)|
  }

  /** The calls made so far for one job. */
  function Delivered(log: seq<Delivery>, serial: nat): seq<Call> {
    if log == [] then []
    else
      var last := log[|log| - 1];
      Delivered(log[..|log| - 1], serial) + if last.serial == serial then [last.call] else []
  }

  ghost predicate Held(workers: map<nat, Worker>, serial: nat) {
    exists w :: w in workers && workers[w].Busy? && workers[w].serial == serial
  }

  /** The queue is what has been accepted and not yet received; no worker leaves before it is closed. */
  ghost predicate QueueOk(s: State) {
    && s.received <= |s.accepted| && s.queue == s.accepted[s.received..] && |s.queue| <= s.capacity
    && forall w :: w in s.workers && s.workers[w].Ended? ==> s.closings > 0
  }

  /** No two workers hold the same job, and a worker has made the first calls of its own. */
  ghost predicate HoldOk(s: State) {
    && (forall w :: w in s.workers && s.workers[w].Busy? ==>
          var b := s.workers[w];
          && b.serial < s.received <= |s.accepted| && b.job == s.accepted[b.serial] && b.done <= |b.job.listeners|
          && Delivered(s.log, b.serial) == Calls(b.job)[..b.done])
    && (forall v, w :: && v in s.workers && w in s.workers && s.workers[v].Busy? && s.workers[w].Busy?
                       && s.workers[v].serial == s.workers[w].serial
                       ==> v == w)
  }

  /** A job received and no longer held has had all its listeners called with its event, in order; a job not yet
      received has had none. */
  ghost predicate DoneOk(s: State) {
    && s.received <= |s.accepted|
    && (forall i :: 0 <= i < s.received && !Held(s.workers, i) ==> Delivered(s.log, i) == Calls(s.accepted[i]))
    && (forall i: nat :: s.received <= i ==> Delivered(s.log, i) == [])
  }

  ghost predicate Inv(s: State) {
    LockOk(s) && SnapshotOk(s) && ShutOk(s) && CountOk(s) && QueueOk(s) && HoldOk(s) && DoneOk(s)
  }

  predicate Publishes(a: Action) {
    a.Enter? || a.CheckClosed? || a.AddOne? || a.Snapshot? || a.Send? || a.GiveUp? || a.TakeBack? || a.Leave?
  }

  predicate Works(a: Action) {
    a.Receive? || a.Dispatch? || a.Finish? || a.End?
  }

  lemma PublishFrame(s: State, a: Action, s': State)
    requires Step(s, a, s') && Publishes(a)
    ensures s' == PublishStep(s, a) && s'.writers == s.writers && s'.workers == s.workers
    ensures s'.received == s.received && s'.log == s.log && s'.capacity == s.capacity
    ensures s'.listeners == s.listeners && s'.closed == s.closed && s'.once == s.once && s'.closings == s.closings
  {
  }

  lemma WorkFrame(s: State, a: Action, s': State)
    requires Step(s, a, s') && Works(a)
    ensures s' == WorkerStep(s, a) && s'.publishers == s.publishers && s'.writers == s.writers
    ensures s'.accepted == s.accepted && s'.capacity == s.capacity
    ensures s'.listeners == s.listeners && s'.closed == s.closed && s'.once == s.once && s'.closings == s.closings
  {
  }

  lemma WriteFrame(s: State, a: Action, s': State)
    requires Step(s, a, s') && !Publishes(a) && !Works(a)
    ensures s' == WriterStep(s, a) && s'.publishers == s.publishers && s'.workers == s.workers
    ensures s'.queue == s.queue && s'.counter == s.counter && s'.received == s.received && s'.log == s.log
    ensures s'.accepted == s.accepted && s'.capacity == s.capacity
  {
  }

  /** What the steps of the three kinds of call leave alone. */
  lemma Frame(s: State, a: Action, s': State)
    requires Step(s, a, s')
    ensures Publishes(a) ==> s' == PublishStep(s, a) && s'.writers == s.writers && s'.workers == s.workers
    ensures Publishes(a) ==> s'.received == s.received && s'.log == s.log
    ensures Works(a) ==> s' == WorkerStep(s, a) && s'.publishers == s.publishers && s'.writers == s.writers
    ensures !Publishes(a) ==> s'.accepted == s.accepted
    ensures !Publishes(a) && !Works(a) ==>
              && s' == WriterStep(s, a) && s'.publishers == s.publishers && s'.workers == s.workers
              && s'.queue == s.queue && s'.counter == s.counter && s'.received == s.received && s'.log == s.log
    ensures Publishes(a) || Works(a) ==>
              s'.listeners == s.listeners && s'.closed == s.closed && s'.once == s.once && s'.closings == s.closings
    ensures s'.capacity == s.capacity
  {
    hide Step, PublishStep, WorkerStep, WriterStep;
    if Publishes(a) {
      PublishFrame(s, a, s');
      assert !Works(a);
    } else if Works(a) {
      WorkFrame(s, a, s');
    } else {
      WriteFrame(s, a, s');
    }
  }

  lemma StepKeepsLock(s: State, a: Action, s': State)
    requires LockOk(s) && Step(s, a, s')
    ensures LockOk(s')
  {
    hide Next;
    Frame(s, a, s');
    if Publishes(a) {
      PublishKeepsLock(s, a);
    } else if !Works(a) {
      WriteKeepsLock(s, a);
    }
  }

  lemma PublishKeepsLock(s: State, a: Action)
    requires LockOk(s) && Enabled(s, a) && Publishes(a)
    ensures LockOk(PublishStep(s, a))
  {
    var next := PublishStep(s, a).publishers;
    assert forall d :: d in next && Reads(next[d]) ==> (d in s.publishers && Reads(s.publishers[d])) || NoWriter(s);
  }

  /** The lock is only ever taken where nobody holds it. */
  lemma LockIsTaken(s: State, a: Action, c: nat)
    requires Enabled(s, a) && !Publishes(a) && !Works(a)
    requires c in WriterStep(s, a).writers && Writes(WriterStep(s, a).writers[c])
    ensures (c in s.writers && Writes(s.writers[c])) || (a.Lock? && a.c == c && NoWriter(s) && NoReader(s))
  {
    hide NoWriter, NoReader;
  }

  lemma WriteKeepsLock(s: State, a: Action)
    requires LockOk(s) && Enabled(s, a) && !Publishes(a) && !Works(a)
    ensures LockOk(WriterStep(s, a))
  {
    assert WriterStep(s, a).publishers == s.publishers;
    hide Reads, Writes, Enabled, WriterStep;
    var next := WriterStep(s, a).writers;
    forall c | c in next && Writes(next[c])
      ensures (c in s.writers && Writes(s.writers[c])) || (a.Lock? && a.c == c && NoWriter(s) && NoReader(s))
    {
      LockIsTaken(s, a, c);
    }
  }

  lemma StepKeepsSnapshot(s: State, a: Action, s': State)
    requires LockOk(s) && SnapshotOk(s) && Step(s, a, s')
    ensures SnapshotOk(s')
  {
    hide Next;
    Frame(s, a, s');
    if a.Write? {
      assert Writes(s.writers[a.c]);
    }
  }

  lemma CountingMoves(publishers: map<nat, Publisher>, c: nat, p: Publisher)
    ensures var before := c in publishers && Counts(publishers[c]);
            |Counting(publishers[c := p])| + (if before then 1 else 0)
            == |Counting(publishers)| + if Counts(p) then 1 else 0
  {
    var others := Counting(publishers) - {c};
    assert Counting(publishers[c := p]) == if Counts(p) then others + {c} else others;
    assert Counting(publishers) == if c in publishers && Counts(publishers[c]) then others + {c} else others;
  }

  lemma WorkingMoves(workers: map<nat, Worker>, w: nat, b: Worker)
    requires w in workers
    ensures |Working(workers[w := b])| + (if workers[w].Busy? then 1 else 0)
            == |Working(workers)| + if b.Busy? then 1 else 0
  {
    var others := Working(workers) - {w};
    assert Working(workers[w := b]) == if b.Busy? then others + {w} else others;
    assert Working(workers) == if workers[w].Busy? then others + {w} else others;
  }

  lemma StepKeepsCount(s: State, a: Action, s': State)
    requires CountOk(s) && Step(s, a, s')
    ensures CountOk(s')
  {
    hide Next;
    Frame(s, a, s');
    if Publishes(a) {
      PublishKeepsCount(s, a);
    } else if Works(a) {
      WorkKeepsCount(s, a);
    }
  }

  lemma PublishKeepsCount(s: State, a: Action)
    requires CountOk(s) && Enabled(s, a) && Publishes(a)
    ensures CountOk(PublishStep(s, a))
  {
    CountingMoves(s.publishers, a.c, PublishStep(s, a).publishers[a.c]);
  }

  lemma WorkKeepsCount(s: State, a: Action)
    requires CountOk(s) && Enabled(s, a) && Works(a)
    ensures CountOk(WorkerStep(s, a))
  {
    WorkingMoves(s.workers, a.w, WorkerStep(s, a).workers[a.w]);
  }

  lemma CounterIsZero(s: State)
    requires CountOk(s) && s.counter == 0
    ensures s.queue == [] && Working(s.workers) == {} && Counting(s.publishers) == {}
    ensures forall w :: w in s.workers ==> !s.workers[w].Busy?
  {
    assert forall w :: w in s.workers && s.workers[w].Busy? ==> w in Working(s.workers);
  }

  lemma StepKeepsShut(s: State, a: Action, s': State)
    requires LockOk(s) && ShutOk(s) && CountOk(s) && Step(s, a, s')
    ensures ShutOk(s')
  {
    hide Next, LockOk;
    Frame(s, a, s');
    if s.counter == 0 {
      CounterIsZero(s);
    }
    if Publishes(a) {
      PublishKeepsShut(s, a);
    } else if !Works(a) {
      WriteKeepsShut(s, a);
    }
  }

  lemma PublishKeepsShut(s: State, a: Action)
    requires ShutOk(s) && Enabled(s, a) && Publishes(a)
    requires s.counter == 0 ==> Counting(s.publishers) == {}
    ensures ShutOk(PublishStep(s, a))
  {
    assert a.TakeBack? ==> a.c in Counting(s.publishers);
  }

  lemma WriteKeepsShut(s: State, a: Action)
    requires LockOk(s) && ShutOk(s) && Enabled(s, a) && !Publishes(a) && !Works(a)
    ensures ShutOk(WriterStep(s, a))
  {
    assert a.Write? ==> NoReader(s);
  }

  lemma DeliveredAfter(log: seq<Delivery>, d: Delivery, serial: nat)
    ensures Delivered(log + [d], serial) == Delivered(log, serial) + if d.serial == serial then [d.call] else []
  {
    assert (log + [d])[..|log|] == log;
  }

  lemma HeldAfter(workers: map<nat, Worker>, w: nat, b: Worker, i: nat)
    requires w in workers
    ensures b.Busy? && b.serial == i ==> Held(workers[w := b], i)
    ensures Held(workers, i) && !(workers[w].Busy? && workers[w].serial == i) ==> Held(workers[w := b], i)
  {
    if b.Busy? && b.serial == i {
      assert workers[w := b][w] == b;
    }
    if v :| v != w && v in workers && workers[v].Busy? && workers[v].serial == i {
      assert workers[w := b][v] == workers[v];
    }
  }

  lemma StepKeepsQueue(s: State, a: Action, s': State)
    requires QueueOk(s) && Step(s, a, s')
    ensures QueueOk(s')
  {
    hide Next;
    Frame(s, a, s');
  }

  lemma StepKeepsHold(s: State, a: Action, s': State)
    requires QueueOk(s) && HoldOk(s) && DoneOk(s) && Step(s, a, s')
    ensures HoldOk(s')
  {
    hide Delivered, Held, Next, WorkerStep, WriterStep;
    Frame(s, a, s');
    if Publishes(a) {
      assert s.accepted <= s'.accepted;
    } else if Works(a) {
      match a
      case Receive(w) => ReceiveKeepsHold(s, w);
      case Dispatch(w) => DispatchKeepsHold(s, w);
      case _ => RestKeepsHold(s, a);
    }
  }

  lemma RestKeepsHold(s: State, a: Action)
    requires HoldOk(s) && Enabled(s, a) && (a.Finish? || a.End?)
    ensures HoldOk(WorkerStep(s, a))
  {
    hide Delivered;
  }

  lemma ReceiveKeepsHold(s: State, w: nat)
    requires QueueOk(s) && HoldOk(s) && DoneOk(s) && Enabled(s, Receive(w))
    ensures HoldOk(WorkerStep(s, Receive(w)))
  {
    hide Delivered, Held;
    assert s.queue[0] == s.accepted[s.received];
  }

  lemma DispatchKeepsHold(s: State, w: nat)
    requires HoldOk(s) && Enabled(s, Dispatch(w))
    ensures HoldOk(WorkerStep(s, Dispatch(w)))
  {
    hide Delivered, Held;
    var b := s.workers[w];
    var d := Delivery(b.serial, Call(b.job.event, b.job.listeners[b.done]));
    forall i: nat
      ensures Delivered(s.log + [d], i) == Delivered(s.log, i) + if i == b.serial then [d.call] else []
    {
      DeliveredAfter(s.log, d, i);
    }
    assert Calls(b.job)[..b.done + 1] == Calls(b.job)[..b.done] + [d.call];
  }

  lemma StepKeepsDone(s: State, a: Action, s': State)
    requires QueueOk(s) && HoldOk(s) && DoneOk(s) && Step(s, a, s')
    ensures DoneOk(s')
  {
    hide Delivered, Held, Next;
    Frame(s, a, s');
    if Publishes(a) {
      assert s.accepted <= s'.accepted;
    } else if Works(a) {
      WorkKeepsDone(s, a);
    }
  }

  lemma WorkKeepsDone(s: State, a: Action)
    requires QueueOk(s) && HoldOk(s) && DoneOk(s) && Enabled(s, a) && Works(a)
    ensures DoneOk(WorkerStep(s, a))
  {
    hide Delivered, Held;
    var s' := WorkerStep(s, a);
    var b, b' := s.workers[a.w], s'.workers[a.w];
    assert s'.workers == s.workers[a.w := b'];
    forall i: nat
      ensures !Held(s'.workers, i) ==> !Held(s.workers, i) || (b.Busy? && b.serial == i)
      ensures b'.Busy? && b'.serial == i ==> Held(s'.workers, i)
    {
      HeldAfter(s.workers, a.w, b', i);
    }
    if a.Dispatch? {
      var d := Delivery(b.serial, Call(b.job.event, b.job.listeners[b.done]));
      forall i: nat ensures i != b.serial ==> Delivered(s.log + [d], i) == Delivered(s.log, i) {
        DeliveredAfter(s.log, d, i);
      }
    } else if a.Finish? {
      assert Calls(b.job)[..b.done] == Calls(b.job);
    }
  }

  lemma StepKeepsInv(s: State, a: Action, s': State)
    requires Inv(s) && Step(s, a, s')
    ensures Inv(s')
  {
    hide LockOk, SnapshotOk, ShutOk, CountOk, QueueOk, HoldOk, DoneOk, Step;
    StepKeepsLock(s, a, s');
    StepKeepsSnapshot(s, a, s');
    StepKeepsShut(s, a, s');
    StepKeepsCount(s, a, s');
    StepKeepsQueue(s, a, s');
    StepKeepsHold(s, a, s');
    StepKeepsDone(s, a, s');
  }

  lemma {:induction false} RunKeepsInv(states: seq<State>, actions: seq<Action>, n: nat)
    requires Run(states, actions) && n < |states|
    ensures Inv(states[n])
  {
    hide Step;
    if n == 0 {
      InitInv(states[0]);
    } else {
      RunKeepsInv(states, actions, n - 1);
      StepKeepsInv(states[n - 1], actions[n - 1], states[n]);
    }
  }

  lemma InitInv(s: State)
    requires Init(s)
    ensures Inv(s)
  {
    assert Counting(s.publishers) == {} && Working(s.workers) == {};
  }

  // ----- what the bus promises

  /** No send meets a closed queue, the queue is closed at most once, and no Done takes the counter
      below zero: none of the three ways to panic can happen. */
  lemma NothingPanics(states: seq<State>, actions: seq<Action>, n: nat)
    requires Run(states, actions) && n < |actions|
    ensures actions[n].Send? ==> states[n].closings == 0
    ensures states[n + 1].closings <= 1
    ensures states[n].counter >= 0 && (actions[n].TakeBack? || actions[n].Finish? ==> states[n].counter > 0)
  {
    RunKeepsInv(states, actions, n);
    RunKeepsInv(states, actions, n + 1);
    var s, a := states[n], actions[n];
    if a.TakeBack? {
      assert a.c in Counting(s.publishers);
    } else if a.Finish? {
      assert a.w in Working(s.workers);
    }
  }

  /** The event a call brought, as long as the call still has it. */
  function EventOf(p: Publisher): string {
    match p
    case Entered(event) => event
    case Admitted(event) => event
    case Counted(event) => event
    case Sending(job) => job.event
    case _ => ""
  }

  predicate HasEvent(p: Publisher) {
    p.Entered? || p.Admitted? || p.Counted? || p.Sending?
  }

  lemma {:induction false} EventStays(states: seq<State>, actions: seq<Action>, m: nat, n: nat, c: nat)
    requires Run(states, actions) && m < n < |states| && actions[m].Enter? && actions[m].c == c
    ensures c in states[n].publishers
    ensures HasEvent(states[n].publishers[c]) ==> EventOf(states[n].publishers[c]) == actions[m].event
    decreases n
  {
    hide Run, WriterStep, WorkerStep;
    if n == m + 1 {
      StepOfRun(states, actions, m);
    } else {
      EventStays(states, actions, m, n - 1, c);
      StepOfRun(states, actions, n - 1);
      EventSteps(states[n - 1], actions[n - 1], states[n], c);
    }
  }

  lemma EventSteps(s: State, a: Action, s': State, c: nat)
    requires Step(s, a, s') && c in s.publishers
    ensures c in s'.publishers
    ensures HasEvent(s'.publishers[c]) ==>
              HasEvent(s.publishers[c]) && EventOf(s'.publishers[c]) == EventOf(s.publishers[c])
  {
    hide Next, WriterStep, WorkerStep;
    Frame(s, a, s');
  }

  /** What is accepted is the event the call was given, with the listeners registered at that moment: the snapshot
      taken earlier in the call cannot have gone stale. Nothing but a send makes a job accepted. */
  lemma AcceptedAsPublished(states: seq<State>, actions: seq<Action>, m: nat, n: nat, c: nat, event: string)
    requires Run(states, actions) && m < n < |actions| && actions[m] == Enter(c, event)
    ensures if actions[n] == Send(c) then
              states[n + 1].accepted == states[n].accepted + [Job(event, states[n].listeners)]
            else !actions[n].Send? ==> states[n + 1].accepted == states[n].accepted
  {
    RunKeepsInv(states, actions, n);
    EventStays(states, actions, m, n, c);
    StepOfRun(states, actions, n);
    hide Run, Next, WriterStep, WorkerStep;
    Frame(states[n], actions[n], states[n + 1]);
  }

  /** The purpose of the last call that took the write lock as c. */
  function Intent(actions: seq<Action>, c: nat): Purpose {
    if actions == [] then Clear
    else
      var last := actions[|actions| - 1];
      if last.Lock? && last.c == c then last.purpose else Intent(actions[..|actions| - 1], c)
  }

  /** What has been registered, in order, since the last clear. */
  function Registered(initial: seq<Listener>, actions: seq<Action>): seq<Listener> {
    if actions == [] then initial
    else
      var before, last := actions[..|actions| - 1], actions[|actions| - 1];
      var registered := Registered(initial, before);
      if !last.Write? then registered
      else match Intent(before, last.c)
           case Register(l) => registered + [l]
           case Clear => []
           case Close => registered
  }

  /** Whether a Close has done its write. */
  predicate ClosedBy(actions: seq<Action>) {
    actions != []
    && var before, last := actions[..|actions| - 1], actions[|actions| - 1];
    ClosedBy(before) || (last.Write? && Intent(before, last.c).Close?)
  }

  ghost predicate KeepsRecord(initial: seq<Listener>, actions: seq<Action>, s: State) {
    && s.listeners == Registered(initial, actions) && (s.closed <==> ClosedBy(actions))
    && forall c :: c in s.writers && Writes(s.writers[c]) ==> s.writers[c].purpose == Intent(actions, c)
  }

  lemma RecordStep(initial: seq<Listener>, actions: seq<Action>, s: State, a: Action, s': State)
    requires KeepsRecord(initial, actions, s) && Step(s, a, s')
    ensures KeepsRecord(initial, actions + [a], s')
  {
    hide Next;
    Frame(s, a, s');
    assert (actions + [a])[..|actions|] == actions;
  }

  /** In every interleaving the listeners are those registered since the last clear, each as often and in the order
      they were, and the bus is closed exactly if a Close has taken the write lock and written. */
  lemma {:induction false} ListenersAreRegistered(states: seq<State>, actions: seq<Action>, n: nat)
    requires Run(states, actions) && n < |states|
    ensures KeepsRecord(states[0].listeners, actions[..n], states[n])
  {
    hide Step, KeepsRecord;
    if n == 0 {
      RecordStarts(states[0]);
      assert actions[..0] == [];
    } else {
      ListenersAreRegistered(states, actions, n - 1);
      assert actions[..n] == actions[..n - 1] + [actions[n - 1]];
      RecordStep(states[0].listeners, actions[..n - 1], states[n - 1], actions[n - 1], states[n]);
    }
  }

  lemma RecordStarts(s: State)
    requires Init(s)
    ensures KeepsRecord(s.listeners, [], s)
  {
  }

  /** Whenever a flush may return, every job accepted so far has been dispatched: each of its listeners
      was called exactly once with its event, in the order of registration. */
  lemma FlushedMeansDispatched(states: seq<State>, actions: seq<Action>, n: nat)
    requires Run(states, actions) && n < |states| && states[n].counter == 0
    ensures forall i :: 0 <= i < |states[n].accepted| ==>
              Delivered(states[n].log, i) == Calls(states[n].accepted[i])
    ensures forall i: nat :: |states[n].accepted| <= i ==> Delivered(states[n].log, i) == []
  {
    var s := states[n];
    RunKeepsInv(states, actions, n);
    CounterIsZero(s);
    assert s.received == |s.accepted|;
    assert forall i :: !Held(s.workers, i);
  }

  /** Once a Close has returned nil nothing changes any more for the accepted jobs: no event is accepted,
      and all that were have been dispatched. */
  lemma {:induction false} ClosedMeansDispatched(states: seq<State>, actions: seq<Action>, m: nat, n: nat, c: nat)
    requires Run(states, actions) && m <= n < |states|
    requires c in states[m].writers && states[m].writers[c].Succeeded?
    ensures states[n].closed && states[n].accepted == states[m].accepted && states[n].log == states[m].log
    ensures forall i :: 0 <= i < |states[n].accepted| ==>
              Delivered(states[n].log, i) == Calls(states[n].accepted[i])
    decreases n
  {
    hide Run, Step, Delivered, Inv;
    RunKeepsInv(states, actions, m);
    OnceStays(states[m], c);
    if m < n {
      ClosedMeansDispatched(states, actions, m, n - 1, c);
      OnceForAll(states, actions, m, n - 1);
      RunKeepsInv(states, actions, n - 1);
      StepOfRun(states, actions, n - 1);
      QuietStep(states[n - 1], actions[n - 1], states[n]);
    } else {
      FlushedMeansDispatched(states, actions, m);
    }
  }

  lemma StepOfRun(states: seq<State>, actions: seq<Action>, n: nat)
    requires Run(states, actions) && n + 1 < |states|
    ensures n < |actions| && Step(states[n], actions[n], states[n + 1])
  {
  }

  lemma OnceStays(s: State, c: nat)
    requires Inv(s) && c in s.writers && s.writers[c].Succeeded?
    ensures s.once && s.counter == 0 && s.closed
  {
  }

  lemma {:induction false} OnceForAll(states: seq<State>, actions: seq<Action>, m: nat, n: nat)
    requires Run(states, actions) && m <= n < |states| && states[m].once
    ensures states[n].once
  {
    hide Step, Next;
    if m < n {
      OnceForAll(states, actions, m, n - 1);
      StepOfRun(states, actions, n - 1);
      OnceStep(states[n - 1], actions[n - 1], states[n]);
    }
  }

  lemma OnceStep(s: State, a: Action, s': State)
    requires Step(s, a, s') && s.once
    ensures s'.once
  {
  }

  /** After shutdown only calls that find the bus closed, or come to close it again, still move. */
  lemma QuietStep(s: State, a: Action, s': State)
    requires Inv(s) && Step(s, a, s') && s.once
    ensures s'.closed && s'.accepted == s.accepted && s'.log == s.log
  {
    hide Next;
    Frame(s, a, s');
    CounterIsZero(s);
  }
}
