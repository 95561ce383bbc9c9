/** The queues of the thread package on any number of processors are first in, first out: over
    every run, what was on a queue and is put on it comes off in that order. */
module KernelQueues {
  import opened Kernel
  import opened KernelWakeup
  import opened KernelSafety

  // ---------------------------------------------------------------- runs with their schedule

  /** Which processor steps, and what its client code asks for if it is its turn. */
  datatype Turn = Turn(p: nat, c: Call)

  predicate TurnAt(run: seq<State>, turns: seq<Turn>, i: int)
    requires 0 <= i < |turns| && |run| == |turns| + 1
  {
    var s, p, c := run[i], turns[i].p, turns[i].c;
    WellFormed(s) && Enabled(s, p, c) && run[i + 1] == Next(s, p, c)
  }

  ghost predicate Scheduled(extra: nat, run: seq<State>, turns: seq<Turn>) {
    && |run| == |turns| + 1 && run[0] == Init(extra)
    && forall i {:trigger TurnAt(run, turns, i)} | 0 <= i < |turns| :: TurnAt(run, turns, i)
  }

  /** Every run has a schedule, and every schedule gives a run. */
  lemma {:induction false} RunIsScheduled(extra: nat, run: seq<State>) returns (turns: seq<Turn>)
    requires Run(extra, run)
    ensures Scheduled(extra, run, turns)
    decreases |run|
  {
    if |run| == 1 {
      turns := [];
    } else {
      var n := |run| - 2;
      var earlier := RunIsScheduled(extra, run[..n + 1]);
      assert Step(run[n], run[n + 1]);
      var p, c :| Enabled(run[n], p, c) && run[n + 1] == Next(run[n], p, c);
      turns := earlier + [Turn(p, c)];
      forall i | 0 <= i < |turns| ensures TurnAt(run, turns, i) {
        if i < n {
          assert TurnAt(run[..n + 1], earlier, i);
        }
      }
    }
  }

  lemma ScheduledIsRun(extra: nat, run: seq<State>, turns: seq<Turn>)
    requires Scheduled(extra, run, turns)
    ensures Run(extra, run)
  {
    forall i | 0 <= i < |run| - 1 ensures Step(run[i], run[i + 1]) {
      assert TurnAt(run, turns, i);
    }
  }

  lemma TurnIs(extra: nat, run: seq<State>, turns: seq<Turn>, i: nat)
    requires Scheduled(extra, run, turns) && i < |turns|
    ensures WellFormed(run[i]) && Enabled(run[i], turns[i].p, turns[i].c)
    ensures run[i + 1] == Next(run[i], turns[i].p, turns[i].c)
  {
    assert TurnAt(run, turns, i);
  }

  // ---------------------------------------------------------------- the ready queue

  /** The thread that processor p puts on the ready queue in its next step: it has the spinlock,
      and it is in uthread_enqueue. */
  function Queuing(s: State, p: nat): (q: seq<Tid>)
    requires p < |s.procs|
    ensures |q| <= 1
  {
    var pc := s.procs[p].pc;
    if pc.Acquire? && pc.at.Held? && pc.c.ReadyEnqueue? then [pc.c.t] else []
  }

  /** The thread that processor p has just got from uthread_dequeue */
  function Taken(s: State, p: nat, s': State): (q: seq<Tid>)
    requires p < |s.procs| <= |s'.procs|
    ensures |q| <= 1
  {
    var pc' := s'.procs[p].pc;
    if !s.procs[p].pc.Dequeued? && pc'.Dequeued? && pc'.to.Some? then [pc'.to.value] else []
  }

  predicate AtDequeue(s: State, p: nat)
    requires p < |s.procs|
  {
    var pc := s.procs[p].pc;
    pc.Acquire? && pc.at.Held? && pc.c.ReadyDequeue?
  }

  lemma AcquireReady(s: State, p: nat, c: Call)
    requires WellFormed(s) && Enabled(s, p, c) && s.procs[p].pc.Acquire?
    ensures p < |s.procs| <= |Next(s, p, c).procs|
    ensures s.ready + Queuing(s, p) == Taken(s, p, Next(s, p, c)) + Next(s, p, c).ready
    ensures AtDequeue(s, p) ==> Next(s, p, c).procs[p].pc.Dequeued?
  {
  }

  lemma OtherReady(s: State, p: nat, c: Call)
    requires WellFormed(s) && Enabled(s, p, c) && !s.procs[p].pc.Acquire?
    ensures Next(s, p, c).ready == s.ready
  {
  }

  /** No other step gets a thread from the ready queue. */
  lemma MonitorTakes(s: State, p: nat, c: Call)
    requires WellFormed(s) && Enabled(s, p, c) && s.procs[p].pc.InMonitor?
    ensures p < |s.procs| <= |Next(s, p, c).procs| && !Next(s, p, c).procs[p].pc.Dequeued?
  {
  }

  lemma SwitchTakes(s: State, p: nat, c: Call)
    requires WellFormed(s) && Enabled(s, p, c) && (s.procs[p].pc.Switch? || s.procs[p].pc.Dequeued?)
    ensures p < |s.procs| <= |Next(s, p, c).procs|
    ensures s.procs[p].pc.Dequeued? || !Next(s, p, c).procs[p].pc.Dequeued?
  {
  }

  lemma RestTakes(s: State, p: nat, c: Call)
    requires WellFormed(s) && Enabled(s, p, c)
    requires !s.procs[p].pc.Acquire? && !s.procs[p].pc.InMonitor? && !s.procs[p].pc.Switch? && !s.procs[p].pc.Dequeued?
    ensures p < |s.procs| <= |Next(s, p, c).procs| && !Next(s, p, c).procs[p].pc.Dequeued?
  {
  }

  lemma OtherTakes(s: State, p: nat, c: Call)
    requires WellFormed(s) && Enabled(s, p, c) && !s.procs[p].pc.Acquire?
    ensures p < |s.procs| <= |Next(s, p, c).procs| && Queuing(s, p) == [] && Taken(s, p, Next(s, p, c)) == []
  {
    if s.procs[p].pc.InMonitor? {
      MonitorTakes(s, p, c);
    } else if s.procs[p].pc.Switch? || s.procs[p].pc.Dequeued? {
      SwitchTakes(s, p, c);
    } else {
      RestTakes(s, p, c);
    }
  }

  /** A step leaves the ready queue as it is, appends one thread at its end, or hands its first
      thread to the stepping processor. */
  lemma StepReady(s: State, p: nat, c: Call)
    requires WellFormed(s) && Enabled(s, p, c)
    ensures p < |s.procs| <= |Next(s, p, c).procs|
    ensures s.ready + Queuing(s, p) == Taken(s, p, Next(s, p, c)) + Next(s, p, c).ready
  {
    if s.procs[p].pc.Acquire? {
      AcquireReady(s, p, c);
    } else {
      OtherReady(s, p, c);
      OtherTakes(s, p, c);
    }
  }

  lemma TurnReady(extra: nat, run: seq<State>, turns: seq<Turn>, i: nat)
    requires Scheduled(extra, run, turns) && i < |turns|
    ensures turns[i].p < |run[i].procs| <= |run[i + 1].procs|
    ensures run[i].ready + Queuing(run[i], turns[i].p) == Taken(run[i], turns[i].p, run[i + 1]) + run[i + 1].ready
  {
    TurnIs(extra, run, turns, i);
    StepReady(run[i], turns[i].p, turns[i].c);
  }

  /** What the turns from i up to j put on the ready queue, in order */
  ghost function QueuedBy(extra: nat, run: seq<State>, turns: seq<Turn>, i: nat, j: nat): seq<Tid>
    requires Scheduled(extra, run, turns) && i <= j < |run|
  {
    if i == j then []
    else
      TurnReady(extra, run, turns, j - 1);
      QueuedBy(extra, run, turns, i, j - 1) + Queuing(run[j - 1], turns[j - 1].p)
  }

  /** What they take from it, in order */
  ghost function TakenBy(extra: nat, run: seq<State>, turns: seq<Turn>, i: nat, j: nat): seq<Tid>
    requires Scheduled(extra, run, turns) && i <= j < |run|
  {
    if i == j then []
    else
      TurnReady(extra, run, turns, j - 1);
      TakenBy(extra, run, turns, i, j - 1) + Taken(run[j - 1], turns[j - 1].p, run[j])
  }

  lemma Regroup(a: seq<Tid>, b: seq<Tid>, c: seq<Tid>, d: seq<Tid>, x: seq<Tid>, y: seq<Tid>, d': seq<Tid>)
    requires a + b == c + d && d + x == y + d'
    ensures a + (b + x) == (c + y) + d'
  {
    assert a + (b + x) == (a + b) + x;
    assert c + (d + x) == (c + y) + d';
  }

  /** The ready queue is first in, first out, whatever processors use it: what is taken is what
      was there and what has been put there, in that order. */
  lemma {:induction false} ReadyFifo(extra: nat, run: seq<State>, turns: seq<Turn>, i: nat, j: nat)
    requires Scheduled(extra, run, turns) && i <= j < |run|
    ensures run[i].ready + QueuedBy(extra, run, turns, i, j) == TakenBy(extra, run, turns, i, j) + run[j].ready
  {
    if i == j {
    } else {
      ReadyFifo(extra, run, turns, i, j - 1);
      TurnReady(extra, run, turns, j - 1);
      var s, p := run[j - 1], turns[j - 1].p;
      Regroup(run[i].ready, QueuedBy(extra, run, turns, i, j - 1), TakenBy(extra, run, turns, i, j - 1), s.ready,
              Queuing(s, p), Taken(s, p, run[j]), run[j].ready);
    }
  }

  /** The thread at index k of the ready queue is what the (k+1)-th later dequeue takes, on
      whatever processor, and whatever is put on the queue in between. */
  lemma ReadyInTurn(extra: nat, run: seq<State>, turns: seq<Turn>, i: nat, j: nat, k: nat)
    requires Scheduled(extra, run, turns) && i <= j < |run| && k < |run[i].ready|
    requires k < |TakenBy(extra, run, turns, i, j)|
    ensures TakenBy(extra, run, turns, i, j)[k] == run[i].ready[k]
  {
    ReadyFifo(extra, run, turns, i, j);
    assert (run[i].ready + QueuedBy(extra, run, turns, i, j))[k]
        == (TakenBy(extra, run, turns, i, j) + run[j].ready)[k];
  }

  /** Every dequeue takes a thread. */
  lemma DequeueTakes(extra: nat, run: seq<State>, turns: seq<Turn>, i: nat)
    requires Scheduled(extra, run, turns) && i < |turns|
    requires turns[i].p < |run[i].procs| && AtDequeue(run[i], turns[i].p)
    ensures run[i].ready != [] && run[i + 1].ready == run[i].ready[1..]
    ensures TakenBy(extra, run, turns, i, i + 1) == [run[i].ready[0]]
  {
    var s, p := run[i], turns[i].p;
    TurnIs(extra, run, turns, i);
    AcquireReady(s, p, turns[i].c);
    ScheduledIsRun(extra, run, turns);
    NoAssertionFails(extra, run, i + 1, p);
    var t := Taken(s, p, run[i + 1])[0];
    assert s.ready == [t] + run[i + 1].ready;
    assert TakenBy(extra, run, turns, i, i) == [];
  }

  // ---------------------------------------------------------------- the waiters of a monitor

  function Waiting(s: State, p: nat, m: Mid): (q: seq<Tid>)
    requires p < |s.procs|
    ensures |q| <= 1
  {
    if s.procs[p].pc == InMonitor(m, Enqueue) then [s.procs[p].cur] else []
  }

  /** The waiter that processor p, exiting monitor m, has just taken off its queue */
  function TakenWaiter(s: State, p: nat, s': State, m: Mid): (q: seq<Tid>)
    requires p < |s.procs| <= |s'.procs|
    ensures |q| <= 1
  {
    var pc' := s'.procs[p].pc;
    if !s.procs[p].pc.ExitUnlock? && pc'.ExitUnlock? && pc'.m == m && pc'.w.Some? then [pc'.w.value] else []
  }

  lemma StepWaiting(s: State, p: nat, c: Call, m: Mid)
    requires WellFormed(s) && Enabled(s, p, c) && m < |s.monitors|
    ensures p < |s.procs| <= |Next(s, p, c).procs| && |s.monitors| <= |Next(s, p, c).monitors|
    ensures s.monitors[m].waiters + Waiting(s, p, m)
         == TakenWaiter(s, p, Next(s, p, c), m) + Next(s, p, c).monitors[m].waiters
  {
    StepQueue(s, p, c, m);
    StepTakenWaiter(s, p, c, m);
  }

  lemma MonitorTakesWaiter(s: State, p: nat, c: Call, m: Mid)
    requires WellFormed(s) && Enabled(s, p, c) && m < |s.monitors| && s.procs[p].pc.InMonitor?
    ensures p < |s.procs| <= |Next(s, p, c).procs|
    ensures TakenWaiter(s, p, Next(s, p, c), m) ==
            if s.procs[p].pc == InMonitor(m, Dequeue) && s.monitors[m].waiters != [] then [s.monitors[m].waiters[0]]
            else []
  {
  }

  lemma OtherTakesWaiter(s: State, p: nat, c: Call)
    requires WellFormed(s) && Enabled(s, p, c) && !s.procs[p].pc.InMonitor?
    ensures p < |s.procs| <= |Next(s, p, c).procs|
    ensures s.procs[p].pc.ExitUnlock? || !Next(s, p, c).procs[p].pc.ExitUnlock?
  {
  }

  lemma StepTakenWaiter(s: State, p: nat, c: Call, m: Mid)
    requires WellFormed(s) && Enabled(s, p, c) && m < |s.monitors|
    ensures p < |s.procs| <= |Next(s, p, c).procs|
    ensures TakenWaiter(s, p, Next(s, p, c), m) ==
            if s.procs[p].pc == InMonitor(m, Dequeue) && s.monitors[m].waiters != [] then [s.monitors[m].waiters[0]]
            else []
  {
    if s.procs[p].pc.InMonitor? {
      MonitorTakesWaiter(s, p, c, m);
    } else {
      OtherTakesWaiter(s, p, c);
    }
  }

  ghost function WaitingBy(extra: nat, run: seq<State>, turns: seq<Turn>, i: nat, j: nat, m: Mid): seq<Tid>
    requires Scheduled(extra, run, turns) && i <= j < |run|
  {
    if i == j then []
    else
      TurnReady(extra, run, turns, j - 1);
      WaitingBy(extra, run, turns, i, j - 1, m) + Waiting(run[j - 1], turns[j - 1].p, m)
  }

  ghost function WokenBy(extra: nat, run: seq<State>, turns: seq<Turn>, i: nat, j: nat, m: Mid): seq<Tid>
    requires Scheduled(extra, run, turns) && i <= j < |run|
  {
    if i == j then []
    else
      TurnReady(extra, run, turns, j - 1);
      WokenBy(extra, run, turns, i, j - 1, m) + TakenWaiter(run[j - 1], turns[j - 1].p, run[j], m)
  }

  lemma TurnWaiting(extra: nat, run: seq<State>, turns: seq<Turn>, i: nat, m: Mid)
    requires Scheduled(extra, run, turns) && i < |turns| && m < |run[i].monitors|
    ensures turns[i].p < |run[i].procs| <= |run[i + 1].procs| && m < |run[i + 1].monitors|
    ensures run[i].monitors[m].waiters + Waiting(run[i], turns[i].p, m)
         == TakenWaiter(run[i], turns[i].p, run[i + 1], m) + run[i + 1].monitors[m].waiters
  {
    TurnIs(extra, run, turns, i);
    StepWaiting(run[i], turns[i].p, turns[i].c, m);
  }

  /** So is the queue of every monitor: waiters are woken in the order in which they came. */
  lemma {:induction false} WaitersFifo(extra: nat, run: seq<State>, turns: seq<Turn>, i: nat, j: nat, m: Mid)
    requires Scheduled(extra, run, turns) && i <= j < |run| && m < |run[i].monitors|
    ensures m < |run[j].monitors|
    ensures run[i].monitors[m].waiters + WaitingBy(extra, run, turns, i, j, m)
         == WokenBy(extra, run, turns, i, j, m) + run[j].monitors[m].waiters
  {
    if i == j {
    } else {
      WaitersFifo(extra, run, turns, i, j - 1, m);
      TurnWaiting(extra, run, turns, j - 1, m);
      var s, p, s' := run[j - 1], turns[j - 1].p, run[j];
      var came, woken := WaitingBy(extra, run, turns, i, j - 1, m), WokenBy(extra, run, turns, i, j - 1, m);
      Regroup(run[i].monitors[m].waiters, came, woken, s.monitors[m].waiters,
              Waiting(s, p, m), TakenWaiter(s, p, s', m), s'.monitors[m].waiters);
    }
  }
}
