/** What the calls of the thread package achieve on any number of processors: when a call has
    returned, what it was called for has happened. */
module KernelCalls {
  import opened Kernel
  import opened KernelOwnership
  import opened KernelExecution
  import opened KernelMonitor
  import opened KernelWakeup
  import opened KernelSafety
  import opened KernelQueues

  /** Processor p runs client code of thread t. */
  predicate AtClient(s: State, p: nat, t: Tid) {
    p < |s.procs| && s.procs[p] == Proc(t, Client)
  }

  /** Thread t makes call c in turn i. */
  predicate Calls(run: seq<State>, turns: seq<Turn>, i: nat, t: Tid, c: Call) {
    i < |turns| && i < |run| && AtClient(run[i], turns[i].p, t) && turns[i].c == c
  }

  lemma TurnInv(extra: nat, run: seq<State>, turns: seq<Turn>, i: nat)
    requires Scheduled(extra, run, turns) && i < |run|
    ensures Inv(run[i])
  {
    ScheduledIsRun(extra, run, turns);
    RunInv(extra, run, i);
  }

  /** A processor that still executes t elsewhere keeps t from the client code of another one. */
  lemma OneStackOnly(s: State, own: seq<Owner>, p: nat, q: nat, t: Tid)
    requires InvWith(s, own) && AtClient(s, q, t)
    requires p < |s.procs| && s.procs[p].cur == t && Executing(s.procs[p].pc)
    ensures p == q
  {
  }

  // ---------------------------------------------------------------- threads put on the ready queue

  /** Processor p, on t's stack, is about to put x on the ready queue. */
  predicate ToQueue(s: State, p: nat, t: Tid, x: Tid) {
    && p < |s.procs| && s.procs[p].cur == t
    && var pc := s.procs[p].pc;
       || (pc.ExitUnlock? && pc.w == Some(x))
       || (pc.Start? && pc.t == x)
       || (pc.Acquire? && pc.c.ReadyEnqueue? && pc.c.t == x)
  }

  lemma ToQueueStep(s: State, p: nat, c: Call, q: nat, t: Tid, x: Tid)
    requires WellFormed(s) && Enabled(s, p, c) && ToQueue(s, q, t, x)
    ensures ToQueue(Next(s, p, c), q, t, x) || (p == q && Queuing(s, p) == [x])
  {
    StepOneProc(s, p, c);
    if p == q {
      ToQueueOwnStep(s, p, c, t, x);
    }
  }

  lemma ToQueueOwnStep(s: State, p: nat, c: Call, t: Tid, x: Tid)
    requires WellFormed(s) && Enabled(s, p, c) && ToQueue(s, p, t, x)
    ensures ToQueue(Next(s, p, c), p, t, x) || Queuing(s, p) == [x]
  {
  }

  lemma {:induction false} RunToQueue(extra: nat, run: seq<State>, turns: seq<Turn>, i: nat, j: nat,
                                      p: nat, t: Tid, x: Tid)
    requires Scheduled(extra, run, turns) && i <= j < |run| && ToQueue(run[i], p, t, x)
    ensures ToQueue(run[j], p, t, x) || x in QueuedBy(extra, run, turns, i, j)
  {
    if i == j {
    } else {
      RunToQueue(extra, run, turns, i, j - 1, p, t, x);
      TurnIs(extra, run, turns, j - 1);
      if ToQueue(run[j - 1], p, t, x) {
        ToQueueStep(run[j - 1], turns[j - 1].p, turns[j - 1].c, p, t, x);
      }
    }
  }

  /** Once t is back in its client code, what it set out to put on the ready queue has been put
      there. */
  lemma BackAfterQueuing(extra: nat, run: seq<State>, turns: seq<Turn>, i: nat, j: nat, p: nat, q: nat, t: Tid, x: Tid)
    requires Scheduled(extra, run, turns) && i <= j < |run| && ToQueue(run[i], p, t, x) && AtClient(run[j], q, t)
    ensures x in QueuedBy(extra, run, turns, i, j)
  {
    RunToQueue(extra, run, turns, i, j, p, t, x);
    if ToQueue(run[j], p, t, x) {
      TurnInv(extra, run, turns, j);
      var own :| InvWith(run[j], own);
      OneStackOnly(run[j], own, p, q, t);
    }
  }

  lemma QueuedFrom(extra: nat, run: seq<State>, turns: seq<Turn>, i: nat, j: nat)
    requires Scheduled(extra, run, turns) && i < j < |run| && turns[i].p < |run[i].procs|
    ensures QueuedBy(extra, run, turns, i, j) == Queuing(run[i], turns[i].p) + QueuedBy(extra, run, turns, i + 1, j)
  {
    if j == i + 1 {
      assert QueuedBy(extra, run, turns, i, i) == [];
    } else {
      QueuedFrom(extra, run, turns, i, j - 1);
      TurnIs(extra, run, turns, j - 1);
      var first, last := Queuing(run[i], turns[i].p), Queuing(run[j - 1], turns[j - 1].p);
      var between := QueuedBy(extra, run, turns, i + 1, j - 1);
      assert QueuedBy(extra, run, turns, i + 1, j) == between + last;
      assert (first + between) + last == first + (between + last);
    }
  }

  /** A call of uthread_create makes one nascent thread, and when it has returned the thread has
      been put on the ready queue. */
  lemma CreateQueues(extra: nat, run: seq<State>, turns: seq<Turn>, i: nat, j: nat, q: nat, t: Tid)
    requires Scheduled(extra, run, turns) && i < j < |run| && Calls(run, turns, i, t, Create) && AtClient(run[j], q, t)
    ensures run[i + 1].threads == run[i].threads + [NASCENT_THREAD]
    ensures |run[i].threads| in QueuedBy(extra, run, turns, i, j)
  {
    TurnIs(extra, run, turns, i);
    BackAfterQueuing(extra, run, turns, i + 1, j, turns[i].p, q, t, |run[i].threads|);
    QueuedFrom(extra, run, turns, i, j);
  }

  /** A new monitor is free and has no waiters, and the caller goes on at once. */
  lemma MakeMonitorMakesFree(extra: nat, run: seq<State>, turns: seq<Turn>, i: nat, t: Tid)
    requires Scheduled(extra, run, turns) && Calls(run, turns, i, t, MakeMonitor)
    ensures run[i + 1] == run[i].(monitors := run[i].monitors + [Monitor(None, false, [])])
  {
    TurnIs(extra, run, turns, i);
  }

  /** The waiter that thread t, in an exit, takes off the monitor's queue has been put on the ready
      queue when the exit has returned. */
  lemma ExitQueuesWaiter(extra: nat, run: seq<State>, turns: seq<Turn>, i: nat, j: nat, q: nat, t: Tid, m: Mid)
    requires Scheduled(extra, run, turns) && i < j < |run| && turns[i].p < |run[i].procs| && m < |run[i].monitors|
    requires run[i].procs[turns[i].p] == Proc(t, InMonitor(m, Dequeue)) && AtClient(run[j], q, t)
    ensures var ws := run[i].monitors[m].waiters;
            ws != [] ==>
              && m < |run[i + 1].monitors| && run[i + 1].monitors[m].waiters == ws[1..]
              && ws[0] in QueuedBy(extra, run, turns, i, j)
  {
    var p, ws := turns[i].p, run[i].monitors[m].waiters;
    TurnIs(extra, run, turns, i);
    if ws != [] {
      BackAfterQueuing(extra, run, turns, i + 1, j, p, q, t, ws[0]);
      QueuedFrom(extra, run, turns, i, j);
    }
  }

  // ---------------------------------------------------------------- uthread_yield

  /** A thread in client code is on no queue. */
  lemma ClientNotReady(extra: nat, run: seq<State>, turns: seq<Turn>, i: nat, p: nat, t: Tid)
    requires Scheduled(extra, run, turns) && i < |run| && AtClient(run[i], p, t)
    ensures t !in run[i].ready
  {
    TurnInv(extra, run, turns, i);
    var own :| InvWith(run[i], own);
    assert Is(own, Owned(run[i].procs[p]), ByProc(p));
    assert t in run[i].ready ==> Is(own, Some(t), InReady);
  }

  /** A thread that has yielded is back in its client code only after it has been queued and
      every thread that was ready has been taken from the ready queue in turn, on whatever
      processors, and then the yielding thread itself. */
  lemma YieldIsFair(extra: nat, run: seq<State>, turns: seq<Turn>, i: nat, j: nat, q: nat, t: Tid)
    requires Scheduled(extra, run, turns) && i < j < |run| && Calls(run, turns, i, t, Yield) && AtClient(run[j], q, t)
    ensures t in QueuedBy(extra, run, turns, i, j)
    ensures run[i].ready <= TakenBy(extra, run, turns, i, j) && t in TakenBy(extra, run, turns, i, j)[|run[i].ready|..]
  {
    var queued, taken := QueuedBy(extra, run, turns, i, j), TakenBy(extra, run, turns, i, j);
    TurnIs(extra, run, turns, i);
    BackAfterQueuing(extra, run, turns, i + 1, j, turns[i].p, q, t, t);
    QueuedFrom(extra, run, turns, i, j);
    ReadyFifo(extra, run, turns, i, j);
    ClientNotReady(extra, run, turns, i, turns[i].p, t);
    ClientNotReady(extra, run, turns, j, q, t);
    assert t in queued by {
      assert queued == Queuing(run[i], turns[i].p) + QueuedBy(extra, run, turns, i + 1, j);
    }
    var k :| 0 <= k < |queued| && queued[k] == t;
    var n := |run[i].ready| + k;
    assert (run[i].ready + queued)[n] == t;
    assert (taken + run[j].ready)[n] == t;
    assert n < |taken|;
    forall x | 0 <= x < |run[i].ready| ensures taken[x] == run[i].ready[x] {
      assert (run[i].ready + queued)[x] == (taken + run[j].ready)[x];
    }
    assert taken[|run[i].ready|..][k] == t;
  }

  // ---------------------------------------------------------------- uthread_monitor_enter

  /** The program points of uthread_monitor_enter on monitor m, with those of the stop inside it */
  predicate EnterPc(pc: Pc, m: Mid) {
    || Retests(pc, m)
    || (pc.Acquire? && pc.c.EnterTest? && pc.c.m == m)
    || (pc.InMonitor? && pc.m == m && !pc.where.Clear? && !pc.where.Dequeue?)
  }

  predicate EnteringOn(s: State, p: nat, t: Tid, m: Mid) {
    p < |s.procs| && s.procs[p].cur == t && EnterPc(s.procs[p].pc, m)
  }

  ghost predicate Entering(s: State, t: Tid, m: Mid) {
    t < |s.threads| && (s.threads[t].saved == Some(ToEnter(m)) || exists p :: EnteringOn(s, p, t, m))
  }

  /** Thread t is in client code on processor p, inside m. */
  predicate Entered(s: State, p: nat, t: Tid, m: Mid) {
    AtClient(s, p, t) && t < |s.threads| && m in s.threads[t].inside
  }

  lemma OwnEnterStep(s: State, p: nat, c: Call, m: Mid)
    requires WellFormed(s) && Enabled(s, p, c) && ProcOk(s, s.procs[p]) && EnterPc(s.procs[p].pc, m)
    requires !Next(s, p, c).procs[p].pc.Failed?
    ensures var s', t := Next(s, p, c), s.procs[p].cur;
            t < |s'.threads|
            && (EnteringOn(s', p, t, m) || s'.threads[t].saved == Some(ToEnter(m)) || Entered(s', p, t, m))
  {
  }

  lemma StepEntering(s: State, p: nat, c: Call, t: Tid, m: Mid)
    requires WellFormed(s) && Enabled(s, p, c) && ProcsOk(s) && Entering(s, t, m)
    requires !Next(s, p, c).procs[p].pc.Failed?
    ensures Entering(Next(s, p, c), t, m) || Entered(Next(s, p, c), p, t, m)
  {
    var s' := Next(s, p, c);
    StepOneProc(s, p, c);
    if s.threads[t].saved == Some(ToEnter(m)) {
      StepSaved(s, p, c, t, m);
      assert s'.threads[t].saved == Some(ToEnter(m)) || EnteringOn(s', p, t, m);
    } else {
      var q :| EnteringOn(s, q, t, m);
      StepAddsThread(s, p, c);
      if q == p {
        OwnEnterStep(s, p, c, m);
      } else {
        assert EnteringOn(s', q, t, m);
      }
    }
  }

  /** A thread is not in client code while it enters. */
  lemma EnteringNotClient(s: State, own: seq<Owner>, q: nat, t: Tid, m: Mid)
    requires InvWith(s, own) && AtClient(s, q, t) && t < |s.threads|
    ensures !Entering(s, t, m)
  {
    assert ProcOk(s, s.procs[q]);
    if p :| EnteringOn(s, p, t, m) {
      OneStackOnly(s, own, p, q, t);
    }
  }

  /** Thread t is in client code on no processor. */
  ghost predicate NotInClient(s: State, t: Tid) {
    forall p :: !AtClient(s, p, t)
  }

  ghost predicate Away(run: seq<State>, i: nat, j: nat, t: Tid)
    requires j <= |run|
  {
    forall k | i <= k < j :: NotInClient(run[k], t)
  }

  lemma TurnEntering(extra: nat, run: seq<State>, turns: seq<Turn>, i: nat, t: Tid, m: Mid)
    requires Scheduled(extra, run, turns) && i < |turns| && Entering(run[i], t, m)
    ensures Entering(run[i + 1], t, m) || Entered(run[i + 1], turns[i].p, t, m)
  {
    var s, p := run[i], turns[i].p;
    TurnIs(extra, run, turns, i);
    TurnInv(extra, run, turns, i);
    var own :| InvWith(s, own);
    StepNoFault(s, own, p, turns[i].c);
    StepEntering(s, p, turns[i].c, t, m);
  }

  lemma {:induction false} RunEntering(extra: nat, run: seq<State>, turns: seq<Turn>, i: nat, j: nat, t: Tid, m: Mid)
    requires Scheduled(extra, run, turns) && i <= j < |run| && Entering(run[i], t, m) && Away(run, i, j, t)
    ensures Entering(run[j], t, m) || exists q :: Entered(run[j], q, t, m)
  {
    if i == j {
    } else {
      RunEntering(extra, run, turns, i, j - 1, t, m);
      assert NotInClient(run[j - 1], t);
      TurnEntering(extra, run, turns, j - 1, t, m);
    }
  }

  /** Whatever barges in between, an enter returns to client code only with the monitor. */
  lemma EnterReturnsInside(extra: nat, run: seq<State>, turns: seq<Turn>, i: nat, j: nat, q: nat, t: Tid, m: Mid)
    requires Scheduled(extra, run, turns) && i < j < |run| && Calls(run, turns, i, t, Enter(m))
    requires AtClient(run[j], q, t) && Away(run, i + 1, j, t)
    ensures t < |run[j].threads| && m in run[j].threads[t].inside
    ensures m < |run[j].monitors| && run[j].monitors[m].holder == Some(t)
  {
    TurnIs(extra, run, turns, i);
    assert EnteringOn(run[i + 1], turns[i].p, t, m);
    RunEntering(extra, run, turns, i + 1, j, t, m);
    TurnInv(extra, run, turns, j);
    var own :| InvWith(run[j], own);
    if Entering(run[j], t, m) {
      EnteringNotClient(run[j], own, q, t, m);
    }
    assert InsideHolds(run[j], t, m);
  }

  // ---------------------------------------------------------------- uthread_monitor_exit

  /** Thread t is in exit on processor p, and has not given the monitor up yet. */
  predicate Exiting(s: State, p: nat, t: Tid, m: Mid) {
    && p < |s.procs| && s.procs[p].cur == t
    && var pc := s.procs[p].pc;
       (pc.Acquire? && pc.c == ExitTest(m)) || pc == InMonitor(m, Clear)
  }

  /** ... and it has given it up, but not looked for a waiter yet. */
  predicate Cleared(s: State, p: nat, t: Tid, m: Mid) {
    p < |s.procs| && s.procs[p] == Proc(t, InMonitor(m, Dequeue)) && m < |s.monitors| && s.monitors[m].holder.None?
  }

  lemma ExitingStep(s: State, p: nat, c: Call, q: nat, t: Tid, m: Mid)
    requires WellFormed(s) && Enabled(s, p, c) && Exiting(s, q, t, m)
    requires p < |Next(s, p, c).procs| && !Next(s, p, c).procs[p].pc.Failed?
    ensures Exiting(Next(s, p, c), q, t, m) || Cleared(Next(s, p, c), q, t, m)
  {
    StepOneProc(s, p, c);
    if p == q {
      OwnExitStep(s, p, c, t, m);
    }
  }

  lemma OwnExitStep(s: State, p: nat, c: Call, t: Tid, m: Mid)
    requires WellFormed(s) && Enabled(s, p, c) && Exiting(s, p, t, m)
    requires p < |Next(s, p, c).procs| && !Next(s, p, c).procs[p].pc.Failed?
    ensures Exiting(Next(s, p, c), p, t, m) || Cleared(Next(s, p, c), p, t, m)
  {
  }

  lemma {:induction false} RunExiting(extra: nat, run: seq<State>, turns: seq<Turn>, i: nat, j: nat,
                                      p: nat, t: Tid, m: Mid)
    requires Scheduled(extra, run, turns) && i <= j < |run| && Exiting(run[i], p, t, m)
    ensures Exiting(run[j], p, t, m) || exists k :: i <= k <= j && Cleared(run[k], p, t, m)
  {
    if i == j {
    } else {
      RunExiting(extra, run, turns, i, j - 1, p, t, m);
      if Exiting(run[j - 1], p, t, m) {
        TurnIs(extra, run, turns, j - 1);
        TurnInv(extra, run, turns, j - 1);
        var own :| InvWith(run[j - 1], own);
        StepNoFault(run[j - 1], own, turns[j - 1].p, turns[j - 1].c);
        ExitingStep(run[j - 1], turns[j - 1].p, turns[j - 1].c, p, t, m);
      }
    }
  }

  lemma ExitingNotClient(s: State, own: seq<Owner>, p: nat, q: nat, t: Tid, m: Mid)
    requires InvWith(s, own) && AtClient(s, q, t)
    ensures !Exiting(s, p, t, m) && !Cleared(s, p, t, m)
  {
    if p < |s.procs| && s.procs[p].cur == t && Executing(s.procs[p].pc) {
      OneStackOnly(s, own, p, q, t);
    }
  }

  /** When an exit has returned, the monitor has been free on the way, and the caller has it no
      more. */
  lemma ExitReleases(extra: nat, run: seq<State>, turns: seq<Turn>, i: nat, j: nat, q: nat, t: Tid, m: Mid)
    requires Scheduled(extra, run, turns) && i < j < |run| && Calls(run, turns, i, t, Exit(m)) && AtClient(run[j], q, t)
    ensures t < |run[i + 1].threads| && m !in run[i + 1].threads[t].inside
    ensures exists k :: i < k < j && Cleared(run[k], turns[i].p, t, m)
  {
    var p := turns[i].p;
    TurnIs(extra, run, turns, i);
    RunExiting(extra, run, turns, i + 1, j, p, t, m);
    TurnInv(extra, run, turns, j);
    var own :| InvWith(run[j], own);
    ExitingNotClient(run[j], own, p, q, t, m);
  }

  // ---------------------------------------------------------------- uthread_init

  /** The processors that are there, and those that are still to be started */
  predicate Booting(s: State, extra: nat) {
    && |s.procs| > 0
    && |s.procs| + (if s.procs[0].pc.Boot? then s.procs[0].pc.left else 0) == extra + 1
    && forall p | 0 < p < |s.procs| :: !s.procs[p].pc.Boot?
  }

  lemma BootStep(s: State, p: nat, c: Call, extra: nat)
    requires WellFormed(s) && Enabled(s, p, c) && Booting(s, extra)
    ensures Booting(Next(s, p, c), extra)
  {
    StepOneProc(s, p, c);
    OwnBootStep(s, p, c);
  }

  lemma OwnBootStep(s: State, p: nat, c: Call)
    requires WellFormed(s) && Enabled(s, p, c)
    ensures p < |s.procs| <= |Next(s, p, c).procs|
    ensures var pc, pc' := s.procs[p].pc, Next(s, p, c).procs[p].pc;
            if pc.Boot? && pc.left > 0 then pc' == Boot(pc.left - 1) && |Next(s, p, c).procs| == |s.procs| + 1
            else !pc'.Boot? && |Next(s, p, c).procs| == |s.procs|
  {
  }

  lemma {:induction false} RunBooting(extra: nat, run: seq<State>, turns: seq<Turn>, i: nat)
    requires Scheduled(extra, run, turns) && i < |run|
    ensures Booting(run[i], extra)
  {
    if i == 0 {
    } else {
      RunBooting(extra, run, turns, i - 1);
      TurnIs(extra, run, turns, i - 1);
      BootStep(run[i - 1], turns[i - 1].p, turns[i - 1].c, extra);
    }
  }

  /** uthread_init starts as many processors as it is asked for, and none is started after it has
      returned. */
  lemma BootStartsAll(extra: nat, run: seq<State>, turns: seq<Turn>, i: nat)
    requires Scheduled(extra, run, turns) && i < |run|
    ensures 0 < |run[i].procs| <= extra + 1
    ensures !run[i].procs[0].pc.Boot? ==> |run[i].procs| == extra + 1
  {
    RunBooting(extra, run, turns, i);
  }
}
