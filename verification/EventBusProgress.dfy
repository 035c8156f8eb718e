/** What the calls of the event bus achieve when nothing is in their way, and that nothing can stay in their way: from
    every reachable state the accepted jobs can be worked off. */
module EventBusProgress {
  import opened EventBus

  /** The actions, one after the other, are possible and lead from the one state to the other. */
  predicate Leads(s: State, actions: seq<Action>, s': State)
    decreases |actions|
  {
    if actions == [] then s' == s
    else Enabled(s, actions[0]) && Leads(Next(s, actions[0]), actions[1..], s')
  }

  lemma {:induction false} LeadsOn(s: State, actions: seq<Action>, t: State, actions': seq<Action>, s': State)
    requires Leads(s, actions, t) && Leads(t, actions', s')
    ensures Leads(s, actions + actions', s')
    decreases |actions|
  {
    hide Next, Enabled;
    if actions == [] {
      assert actions + actions' == actions';
    } else {
      LeadsOn(Next(s, actions[0]), actions[1..], t, actions', s');
      assert (actions + actions')[1..] == actions[1..] + actions';
    }
  }

  lemma {:induction false} LeadingKeepsInv(s: State, actions: seq<Action>, s': State)
    requires Inv(s) && Leads(s, actions, s')
    ensures Inv(s')
    decreases |actions|
  {
    hide Inv, Next, Enabled;
    if actions != [] {
      StepKeepsInv(s, actions[0], Next(s, actions[0]));
      LeadingKeepsInv(Next(s, actions[0]), actions[1..], s');
    }
  }

  /** A first action, and then some. */
  lemma LeadsBy(s: State, a: Action, rest: seq<Action>, all: seq<Action>, s': State)
    requires Enabled(s, a) && Leads(Next(s, a), rest, s') && all == [a] + rest
    ensures Leads(s, all, s')
  {
    hide Next, Enabled;
    assert all[1..] == rest;
  }

  // ----- calls with nothing in their way

  /** A publication with room in the queue is accepted, with the listeners of the moment. */
  lemma PublishAlone(s: State, c: nat, event: string)
    requires c !in s.publishers && NoWriter(s) && !s.closed && |s.queue| < s.capacity
    ensures var job := Job(event, s.listeners);
            Leads(s, [Enter(c, event), CheckClosed(c), AddOne(c), Snapshot(c), Send(c), Leave(c)],
                  s.(publishers := s.publishers[c := Returned], counter := s.counter + 1, queue := s.queue + [job],
                     accepted := s.accepted + [job]))
  {
    var job := Job(event, s.listeners);
    var sending := Prepared(s, c, event);
    var sent := Next(sending, Send(c));
    var left := Next(sent, Leave(c));
    assert left == s.(publishers := s.publishers[c := Returned], counter := s.counter + 1, queue := s.queue + [job],
                      accepted := s.accepted + [job]);
    assert Enabled(sending, Send(c)) && Enabled(sent, Leave(c));
    assert Leads(left, [], left);
    hide Next, Enabled, Leads;
    LeadsBy(sent, Leave(c), [], [Leave(c)], left);
    LeadsBy(sending, Send(c), [Leave(c)], [Send(c), Leave(c)], left);
    LeadsOn(s, [Enter(c, event), CheckClosed(c), AddOne(c), Snapshot(c)], sending, [Send(c), Leave(c)], left);
    assert [Enter(c, event), CheckClosed(c), AddOne(c), Snapshot(c)] + [Send(c), Leave(c)]
           == [Enter(c, event), CheckClosed(c), AddOne(c), Snapshot(c), Send(c), Leave(c)];
  }

  lemma Prepared(s: State, c: nat, event: string) returns (sending: State)
    requires c !in s.publishers && NoWriter(s) && !s.closed
    ensures sending == s.(publishers := s.publishers[c := Sending(Job(event, s.listeners))], counter := s.counter + 1)
    ensures Leads(s, [Enter(c, event), CheckClosed(c), AddOne(c), Snapshot(c)], sending)
  {
    var entered := Next(s, Enter(c, event));
    var admitted := Next(entered, CheckClosed(c));
    var counted := Next(admitted, AddOne(c));
    sending := Next(counted, Snapshot(c));
    assert Enabled(entered, CheckClosed(c)) && Enabled(admitted, AddOne(c)) && Enabled(counted, Snapshot(c));
    assert sending.publishers == s.publishers[c := Sending(Job(event, s.listeners))];
    assert sending ==
           s.(publishers := s.publishers[c := Sending(Job(event, s.listeners))], counter := s.counter + 1);
    assert Leads(sending, [], sending);
    hide Next, Enabled, Leads;
    LeadsBy(counted, Snapshot(c), [], [Snapshot(c)], sending);
    LeadsBy(admitted, AddOne(c), [Snapshot(c)], [AddOne(c), Snapshot(c)], sending);
    LeadsBy(entered, CheckClosed(c), [AddOne(c), Snapshot(c)], [CheckClosed(c), AddOne(c), Snapshot(c)], sending);
    LeadsBy(s, Enter(c, event), [CheckClosed(c), AddOne(c), Snapshot(c)],
            [Enter(c, event), CheckClosed(c), AddOne(c), Snapshot(c)], sending);
  }

  /** A publication that is given up, with the queue full or not, leaves everything as it was. */
  lemma GiveUpAlone(s: State, c: nat, event: string)
    requires c !in s.publishers && NoWriter(s) && !s.closed
    ensures Leads(s, [Enter(c, event), CheckClosed(c), AddOne(c), Snapshot(c), GiveUp(c), TakeBack(c), Leave(c)],
                  s.(publishers := s.publishers[c := Returned]))
  {
    var sending := Prepared(s, c, event);
    var abandoning := Next(sending, GiveUp(c));
    var leaving := Next(abandoning, TakeBack(c));
    var left := Next(leaving, Leave(c));
    assert left == s.(publishers := s.publishers[c := Returned]);
    assert Enabled(sending, GiveUp(c)) && Enabled(abandoning, TakeBack(c)) && Enabled(leaving, Leave(c));
    assert Leads(left, [], left);
    hide Next, Enabled, Leads;
    LeadsBy(leaving, Leave(c), [], [Leave(c)], left);
    LeadsBy(abandoning, TakeBack(c), [Leave(c)], [TakeBack(c), Leave(c)], left);
    LeadsBy(sending, GiveUp(c), [TakeBack(c), Leave(c)], [GiveUp(c), TakeBack(c), Leave(c)], left);
    LeadsOn(s, [Enter(c, event), CheckClosed(c), AddOne(c), Snapshot(c)], sending,
            [GiveUp(c), TakeBack(c), Leave(c)], left);
    assert [Enter(c, event), CheckClosed(c), AddOne(c), Snapshot(c)] + [GiveUp(c), TakeBack(c), Leave(c)]
           == [Enter(c, event), CheckClosed(c), AddOne(c), Snapshot(c), GiveUp(c), TakeBack(c), Leave(c)];
  }

  /** A publication that finds the bus closed returns and leaves everything as it was. */
  lemma PublishToClosed(s: State, c: nat, event: string)
    requires c !in s.publishers && NoWriter(s) && s.closed
    ensures Leads(s, [Enter(c, event), CheckClosed(c), Leave(c)], s.(publishers := s.publishers[c := Returned]))
  {
    var entered := Next(s, Enter(c, event));
    var leaving := Next(entered, CheckClosed(c));
    var left := Next(leaving, Leave(c));
    assert left == s.(publishers := s.publishers[c := Returned]);
    assert Enabled(entered, CheckClosed(c)) && Enabled(leaving, Leave(c));
    assert Leads(left, [], left);
    hide Next, Enabled, Leads;
    LeadsBy(leaving, Leave(c), [], [Leave(c)], left);
    LeadsBy(entered, CheckClosed(c), [Leave(c)], [CheckClosed(c), Leave(c)], left);
    LeadsBy(s, Enter(c, event), [CheckClosed(c), Leave(c)], [Enter(c, event), CheckClosed(c), Leave(c)], left);
  }

  /** Registering adds the listener at the end, clearing takes all away; nothing else changes. */
  lemma EditAlone(s: State, c: nat, purpose: Purpose)
    requires c !in s.writers && NoWriter(s) && NoReader(s) && !purpose.Close?
    ensures Leads(s, [Lock(c, purpose), Write(c), Unlock(c)],
                  s.(listeners := if purpose.Register? then s.listeners + [purpose.listener] else []))
  {
    var locked := Next(s, Lock(c, purpose));
    var unlocking := Next(locked, Write(c));
    var left := Next(unlocking, Unlock(c));
    assert left.writers == s.writers;
    assert left == s.(listeners := if purpose.Register? then s.listeners + [purpose.listener] else []);
    assert Enabled(s, Lock(c, purpose)) && Enabled(locked, Write(c)) && Enabled(unlocking, Unlock(c));
    assert Leads(left, [], left);
    hide Next, Enabled, Leads;
    LeadsBy(unlocking, Unlock(c), [], [Unlock(c)], left);
    LeadsBy(locked, Write(c), [Unlock(c)], [Write(c), Unlock(c)], left);
    LeadsBy(s, Lock(c, purpose), [Write(c), Unlock(c)], [Lock(c, purpose), Write(c), Unlock(c)], left);
  }

  /** A Close with everything dispatched succeeds: the bus is closed, and its queue is closed once. */
  lemma CloseAlone(s: State, c: nat)
    requires Inv(s) && c !in s.writers && NoWriter(s) && NoReader(s) && s.counter == 0
    ensures Leads(s, [Lock(c, Close), Write(c), Unlock(c), SeeZero(c), CloseQueue(c)],
                  s.(closed := true, once := true, closings := 1, writers := s.writers[c := Succeeded]))
  {
    hide LockOk, SnapshotOk, CountOk, QueueOk, HoldOk, DoneOk;
    assert s.once ==> s.closings == 1;
    assert !s.once ==> s.closings == 0;
    hide Inv, Leads;
    var waiting := s.(closed := true, writers := s.writers[c := Waiting]);
    ClosedByWriter(s, c);
    FlushedAndClosed(waiting, c);
    assert waiting.writers[c := Succeeded] == s.writers[c := Succeeded];
    LeadsOn(s, [Lock(c, Close), Write(c), Unlock(c)], waiting, [SeeZero(c), CloseQueue(c)],
            s.(closed := true, once := true, closings := 1, writers := s.writers[c := Succeeded]));
    assert [Lock(c, Close), Write(c), Unlock(c)] + [SeeZero(c), CloseQueue(c)]
           == [Lock(c, Close), Write(c), Unlock(c), SeeZero(c), CloseQueue(c)];
  }

  lemma ClosedByWriter(s: State, c: nat)
    requires c !in s.writers && NoWriter(s) && NoReader(s)
    ensures Leads(s, [Lock(c, Close), Write(c), Unlock(c)], s.(closed := true, writers := s.writers[c := Waiting]))
  {
    var locked := Next(s, Lock(c, Close));
    var unlocking := Next(locked, Write(c));
    var waiting := Next(unlocking, Unlock(c));
    assert waiting.writers == s.writers[c := Waiting];
    assert waiting == s.(closed := true, writers := s.writers[c := Waiting]);
    assert Enabled(s, Lock(c, Close)) && Enabled(locked, Write(c)) && Enabled(unlocking, Unlock(c));
    assert Leads(waiting, [], waiting);
    hide Next, Enabled, Leads;
    LeadsBy(unlocking, Unlock(c), [], [Unlock(c)], waiting);
    LeadsBy(locked, Write(c), [Unlock(c)], [Write(c), Unlock(c)], waiting);
    LeadsBy(s, Lock(c, Close), [Write(c), Unlock(c)], [Lock(c, Close), Write(c), Unlock(c)], waiting);
  }

  lemma FlushedAndClosed(s: State, c: nat)
    requires c in s.writers && s.writers[c].Waiting? && s.counter == 0
    ensures Leads(s, [SeeZero(c), CloseQueue(c)],
                  s.(once := true, closings := if s.once then s.closings else s.closings + 1,
                     writers := s.writers[c := Succeeded]))
  {
    var flushed := Next(s, SeeZero(c));
    var left := Next(flushed, CloseQueue(c));
    assert left.writers == s.writers[c := Succeeded];
    assert Enabled(s, SeeZero(c)) && Enabled(flushed, CloseQueue(c)) && Leads(left, [], left);
    hide Next, Enabled, Leads;
    LeadsBy(flushed, CloseQueue(c), [], [CloseQueue(c)], left);
    LeadsBy(s, SeeZero(c), [CloseQueue(c)], [SeeZero(c), CloseQueue(c)], left);
  }

  /** A Close that is given up while jobs are left has closed the bus, but not the queue: the workers go on. */
  lemma CloseGivenUp(s: State, c: nat)
    requires c !in s.writers && NoWriter(s) && NoReader(s)
    ensures Leads(s, [Lock(c, Close), Write(c), Unlock(c), TimeOut(c)],
                  s.(closed := true, writers := s.writers[c := TimedOut]))
  {
    var waiting := s.(closed := true, writers := s.writers[c := Waiting]);
    var left := Next(waiting, TimeOut(c));
    assert left == s.(closed := true, writers := s.writers[c := TimedOut]);
    assert Enabled(waiting, TimeOut(c)) && Leads(left, [], left);
    ClosedByWriter(s, c);
    hide Next, Enabled, Leads;
    LeadsBy(waiting, TimeOut(c), [], [TimeOut(c)], left);
    LeadsOn(s, [Lock(c, Close), Write(c), Unlock(c)], waiting, [TimeOut(c)], left);
    assert [Lock(c, Close), Write(c), Unlock(c)] + [TimeOut(c)]
           == [Lock(c, Close), Write(c), Unlock(c), TimeOut(c)];
  }

  function Idling(workers: map<nat, Worker>): set<nat> {
    set w | w in workers && workers[w].Idle?
  }

  function AllEnded(workers: map<nat, Worker>): map<nat, Worker> {
    map w | w in workers :: Ended
  }

  /** Once a Close has closed the queue every worker can end, and then all have. */
  lemma {:induction false} WorkersEnd(s: State) returns (actions: seq<Action>)
    requires Inv(s) && s.closings > 0
    ensures Leads(s, actions, s.(workers := AllEnded(s.workers))) && forall a :: a in actions ==> a.End?
    decreases |Idling(s.workers)|
  {
    hide LockOk, SnapshotOk, HoldOk, DoneOk;
    assert s.queue == [] && Working(s.workers) == {};
    if w :| w in Idling(s.workers) {
      var s' := Next(s, End(w));
      StepKeepsInv(s, End(w), s');
      assert Idling(s'.workers) < Idling(s.workers);
      SmallerSet(Idling(s'.workers), Idling(s.workers));
      var rest := WorkersEnd(s');
      assert AllEnded(s'.workers) == AllEnded(s.workers);
      actions := [End(w)] + rest;
      LeadsBy(s, End(w), rest, actions, s.(workers := AllEnded(s.workers)));
    } else {
      forall v | v in s.workers ensures s.workers[v].Ended? {
        assert v !in Idling(s.workers) && v !in Working(s.workers);
      }
      assert AllEnded(s.workers) == s.workers;
      actions := [];
      LeadsNowhere(s);
    }
  }

  lemma SmallerSet(a: set<nat>, b: set<nat>)
    requires a < b
    ensures |a| < |b|
  {
    assert |b| == |a| + |b - a|;
  }

  // ----- working off

  function Deliveries(serial: nat, calls: seq<Call>): seq<Delivery> {
    seq(|calls|, i requires 0 <= i < |calls| => Delivery(serial, calls[i]))
  }

  /** What a worker does for the job it holds. */
  function Finishing(w: nat, left: nat): seq<Action> {
    if left == 0 then [Finish(w)] else [Dispatch(w)] + Finishing(w, left - 1)
  }

  /** A worker can always finish its job: it makes the calls that remain, in order, and is free again. */
  lemma {:induction false} WorkAlone(s: State, w: nat)
    requires w in s.workers && s.workers[w].Busy? && s.workers[w].done <= |s.workers[w].job.listeners|
    ensures var b := s.workers[w];
            Leads(s, Finishing(w, |b.job.listeners| - b.done),
                  s.(workers := s.workers[w := Idle], counter := s.counter - 1,
                     log := s.log + Deliveries(b.serial, Calls(b.job)[b.done..])))
    decreases |s.workers[w].job.listeners| - s.workers[w].done
  {
    hide Leads, Next, Enabled, Calls, Deliveries;
    var b := s.workers[w];
    var left := |b.job.listeners| - b.done;
    if left == 0 {
      LastStep(s, w);
    } else {
      var s' := DispatchStep(s, w);
      WorkAlone(s', w);
      DispatchedFirst(s, w);
      LeadsBy(s, Dispatch(w), Finishing(w, left - 1), Finishing(w, left),
              s.(workers := s.workers[w := Idle], counter := s.counter - 1,
                 log := s.log + Deliveries(b.serial, Calls(b.job)[b.done..])));
    }
  }

  lemma LastStep(s: State, w: nat)
    requires w in s.workers && s.workers[w].Busy? && s.workers[w].done == |s.workers[w].job.listeners|
    ensures var b := s.workers[w];
            && |Calls(b.job)| == b.done
            && Leads(s, [Finish(w)],
                     s.(workers := s.workers[w := Idle], counter := s.counter - 1,
                        log := s.log + Deliveries(b.serial, Calls(b.job)[b.done..])))
  {
    var b := s.workers[w];
    assert s.log + Deliveries(b.serial, Calls(b.job)[b.done..]) == s.log;
    assert Leads(Next(s, Finish(w)), [], Next(s, Finish(w)));
    LeadsBy(s, Finish(w), [], [Finish(w)], Next(s, Finish(w)));
  }

  lemma DispatchStep(s: State, w: nat) returns (s': State)
    requires w in s.workers && s.workers[w].Busy? && s.workers[w].done < |s.workers[w].job.listeners|
    ensures Enabled(s, Dispatch(w)) && s' == Next(s, Dispatch(w))
    ensures var b := s.workers[w];
            s' == s.(workers := s.workers[w := b.(done := b.done + 1)],
                     log := s.log + [Delivery(b.serial, Call(b.job.event, b.job.listeners[b.done]))])
  {
    s' := Next(s, Dispatch(w));
  }

  lemma DispatchedFirst(s: State, w: nat)
    requires w in s.workers && s.workers[w].Busy? && s.workers[w].done < |s.workers[w].job.listeners|
    ensures var b := s.workers[w];
            && |Calls(b.job)| == |b.job.listeners|
            && s.workers[w := b.(done := b.done + 1)][w := Idle] == s.workers[w := Idle]
            && s.log + [Delivery(b.serial, Call(b.job.event, b.job.listeners[b.done]))]
                 + Deliveries(b.serial, Calls(b.job)[b.done + 1..])
               == s.log + Deliveries(b.serial, Calls(b.job)[b.done..])
  {
    var b := s.workers[w];
    var first := Delivery(b.serial, Call(b.job.event, b.job.listeners[b.done]));
    assert Deliveries(b.serial, Calls(b.job)[b.done..])
           == [first] + Deliveries(b.serial, Calls(b.job)[b.done + 1..]);
  }

  /** The steps that finish what has been started; none of them begins a call or gives one up. */
  predicate Finishes(a: Action) {
    a.Snapshot? || a.Send? || a.TakeBack? || a.Receive? || a.Dispatch? || a.Finish?
  }

  lemma {:induction false} FinishingFinishes(w: nat, left: nat)
    ensures forall a :: a in Finishing(w, left) ==> Finishes(a)
  {
    if left > 0 {
      FinishingFinishes(w, left - 1);
    }
  }

  /** With a job queued or held, some worker can finish one. */
  lemma OneIsFinished(s: State) returns (actions: seq<Action>, s': State)
    requires Inv(s) && s.workers != map[] && (s.queue != [] || Working(s.workers) != {})
    ensures Leads(s, actions, s') && s'.counter == s.counter - 1 && s'.publishers == s.publishers
    ensures s'.workers.Keys == s.workers.Keys && s'.capacity == s.capacity
    ensures forall a :: a in actions ==> Finishes(a)
  {
    if w :| w in Working(s.workers) {
      actions, s' := BusyOneFinishes(s, w);
    } else {
      var w := IdleOne(s);
      var received := Next(s, Receive(w));
      StepKeepsInv(s, Receive(w), received);
      assert received.counter == s.counter && received.publishers == s.publishers;
      assert received.capacity == s.capacity && received.workers[w].Busy?;
      assert Enabled(s, Receive(w)) && received.workers.Keys == s.workers.Keys;
      hide Inv, Next, Enabled;
      var rest;
      rest, s' := BusyOneFinishes(received, w);
      actions := [Receive(w)] + rest;
      LeadsBy(s, Receive(w), rest, actions, s');
    }
  }

  lemma BusyOneFinishes(s: State, w: nat) returns (actions: seq<Action>, s': State)
    requires Inv(s) && w in s.workers && s.workers[w].Busy?
    ensures Leads(s, actions, s') && s'.counter == s.counter - 1 && s'.publishers == s.publishers
    ensures s'.workers.Keys == s.workers.Keys && s'.capacity == s.capacity
    ensures forall a :: a in actions ==> Finishes(a)
  {
    hide LockOk, SnapshotOk, ShutOk, CountOk, QueueOk, DoneOk, Delivered;
    var b := s.workers[w];
    assert b.done <= |b.job.listeners|;
    hide Leads, Inv, HoldOk;
    WorkAlone(s, w);
    FinishingFinishes(w, |b.job.listeners| - b.done);
    actions := Finishing(w, |b.job.listeners| - b.done);
    s' := s.(workers := s.workers[w := Idle], counter := s.counter - 1,
             log := s.log + Deliveries(b.serial, Calls(b.job)[b.done..]));
  }

  /** While jobs are queued no worker has left. */
  lemma IdleOne(s: State) returns (w: nat)
    requires Inv(s) && s.workers != map[] && s.queue != [] && Working(s.workers) == {}
    ensures w in s.workers && s.workers[w].Idle?
  {
    hide LockOk, SnapshotOk, HoldOk, DoneOk;
    w :| w in s.workers;
    assert s.workers[w].Busy? ==> w in Working(s.workers);
    assert s.counter > 0;
  }

  /** A publisher between Add and its send can get on, or else a worker can. */
  lemma OneMovesOn(s: State) returns (actions: seq<Action>, s': State)
    requires Inv(s) && s.workers != map[] && s.capacity > 0 && s.counter != 0
    ensures Leads(s, actions, s') && s'.workers.Keys == s.workers.Keys && s'.capacity == s.capacity
    ensures forall a :: a in actions ==> Finishes(a)
    ensures || |Counting(s'.publishers)| < |Counting(s.publishers)|
            || (|Counting(s'.publishers)| == |Counting(s.publishers)| && s'.counter < s.counter)
  {
    if c :| c in Counting(s.publishers) {
      if s.publishers[c].Abandoning? {
        actions, s' := [TakeBack(c)], Next(s, TakeBack(c));
        LeadsBy(s, TakeBack(c), [], [TakeBack(c)], s');
        CountingMoves(s.publishers, c, s'.publishers[c]);
      } else if |s.queue| < s.capacity {
        actions, s' := Sends(s, c);
      } else {
        actions, s' := OneIsFinished(s);
      }
    } else {
      assert s.queue != [] || Working(s.workers) != {};
      actions, s' := OneIsFinished(s);
    }
  }

  lemma Sends(s: State, c: nat) returns (actions: seq<Action>, s': State)
    requires c in s.publishers && (s.publishers[c].Counted? || s.publishers[c].Sending?) && |s.queue| < s.capacity
    ensures Leads(s, actions, s') && s'.workers == s.workers && s'.capacity == s.capacity
    ensures forall a :: a in actions ==> Finishes(a)
    ensures |Counting(s'.publishers)| < |Counting(s.publishers)|
  {
    var sending := if s.publishers[c].Counted? then Next(s, Snapshot(c)) else s;
    s' := Next(sending, Send(c));
    CountingMoves(s.publishers, c, sending.publishers[c]);
    CountingMoves(sending.publishers, c, s'.publishers[c]);
    assert s.publishers[c := s.publishers[c]] == s.publishers;
    LeadsBy(sending, Send(c), [], [Send(c)], s');
    actions := [Send(c)];
    if s.publishers[c].Counted? {
      actions := [Snapshot(c), Send(c)];
      LeadsBy(s, Snapshot(c), [Send(c)], actions, s');
    }
  }

  lemma {:induction false} Drains(s: State) returns (actions: seq<Action>, s': State)
    requires Inv(s) && s.workers != map[] && s.capacity > 0
    ensures Leads(s, actions, s') && s'.counter == 0
    ensures forall a :: a in actions ==> Finishes(a)
    decreases |Counting(s.publishers)|, s.counter
  {
    CounterIsNatural(s);
    hide Inv, Leads, Finishes;
    if s.counter == 0 {
      LeadsNowhere(s);
      return [], s;
    }
    var first, t := OneMovesOn(s);
    LeadingKeepsInv(s, first, t);
    CounterIsNatural(t);
    var rest;
    rest, s' := Drains(t);
    LeadsOn(s, first, t, rest, s');
    actions := first + rest;
  }

  lemma LeadsNowhere(s: State)
    ensures Leads(s, [], s)
  {
  }

  lemma CounterIsNatural(s: State)
    requires Inv(s)
    ensures s.counter >= 0
  {
  }

  /** In every reachable state of a bus with a worker and room for a job, what has been started can be finished: no
      call need be begun or given up for the counter to reach zero, whatever locks are held. A flush never waits
      for something that cannot come. */
  lemma FlushCanReturn(states: seq<State>, actions: seq<Action>, n: nat)
    requires Run(states, actions) && n < |states| && states[n].workers != map[] && states[n].capacity > 0
    ensures exists more, s' :: Leads(states[n], more, s') && s'.counter == 0 && forall a :: a in more ==> Finishes(a)
  {
    RunKeepsInv(states, actions, n);
    hide Inv, Leads, Finishes, Run;
    var more, s' := Drains(states[n]);
  }
}
