/** Every legal call keeps the invariant, and what that means for the life of a thread. */
module UthreadCalls {
  import opened ThreadQueue
  import opened UthreadSpec
  import opened UthreadInvariant

  // ---------------------------------------------------------------- after uthread_stop

  lemma FinishJoinThreadOk(s: Sys, h: Tcb, t: Tcb)
    requires Here(s, Running, null, s.current) && Here(s, Running, null, h) && Here(s, Running, null, t)
    requires s.tcbs[s.current].cont == InJoin(h) && s.tcbs[s.current].state == Running
    ensures t in FinishJoin(s, h).tcbs && ThreadOk(FinishJoin(s, h), Running, null, t)
  {
  }

  lemma FinishJoinQueueOk(s: Sys, h: Tcb)
    requires QueueOk(s) && JoinsOk(s)
    requires Here(s, Running, null, s.current) && Here(s, Running, null, h)
    requires s.tcbs[s.current].cont == InJoin(h)
    ensures QueueOk(FinishJoin(s, h)) && JoinsOk(FinishJoin(s, h))
  {
    NewIdle(s, FinishJoin(s, h));
  }

  /** A join that returns hands over the result of its target and frees it. */
  lemma FinishJoinOk(s: Sys, h: Tcb)
    requires Resumed(s) && s.tcbs[s.current].cont == InJoin(h)
    ensures ValidSys(FinishJoin(s, h))
  {
    var s' := FinishJoin(s, h);
    assert ThreadOk(s, Running, null, s.current) && ThreadOk(s, Running, null, h);
    forall t | t in s'.tcbs ensures ThreadOk(s', Running, null, t) {
      assert ThreadOk(s, Running, null, t);
      FinishJoinThreadOk(s, h, t);
    }
    forall m | m in s'.monitors ensures MonitorOk(s', Running, m) {
      assert MonitorOk(s, Running, m);
    }
    FinishJoinQueueOk(s, h);
  }

  lemma TakeMonitorThreadOk(s: Sys, m: Monitor, t: Tcb)
    requires Here(s, Running, null, s.current) && Here(s, Running, null, t)
    requires s.tcbs[s.current].state == Running && s.tcbs[s.current].cont == InEnter(m)
    requires m in s.monitors && s.monitors[m].holder == null
    ensures t in TakeMonitor(s, m).tcbs && ThreadOk(TakeMonitor(s, m), Running, null, t)
  {
  }

  lemma TakeMonitorOk(s: Sys, m: Monitor)
    requires Resumed(s) && s.tcbs[s.current].cont == InEnter(m) && m in s.monitors && s.monitors[m].holder == null
    ensures ValidSys(TakeMonitor(s, m))
  {
    var s' := TakeMonitor(s, m);
    assert Here(s, Running, null, s.current) && MonitorOk(s, Running, m);
    forall t | t in s'.tcbs ensures ThreadOk(s', Running, null, t) {
      assert ThreadOk(s, Running, null, t);
      TakeMonitorThreadOk(s, m, t);
    }
    forall n | n in s'.monitors ensures MonitorOk(s', Running, n) {
      assert MonitorOk(s, Running, n);
    }
    NewIdle(s, s');
  }

  lemma EnqueueWaiterOk(s: Sys, m: Monitor)
    requires Resumed(s) && s.tcbs[s.current].cont == InEnter(m) && m in s.monitors
    ensures Stopping(EnqueueWaiter(s, m), Blocked)
  {
    Unqueued(s, Running, null, s.current);
    var s' := EnqueueWaiter(s, m);
    assert ThreadOk(s, Running, null, s.current) && MonitorOk(s, Running, m);
    forall t | t in s'.tcbs ensures ThreadOk(s', Blocked, null, t) {
      assert ThreadOk(s, Running, null, t);
    }
    forall n | n in s'.monitors ensures MonitorOk(s', Blocked, n) {
      assert MonitorOk(s, Running, n);
    }
  }

  lemma {:induction false} ContinueOk(s: Sys)
    requires Resumed(s)
    ensures ValidSys(Continue(s))
    decreases |s.ready|
  {
    assert ThreadOk(s, Running, null, s.current);
    match s.tcbs[s.current].cont
    case ToClient =>
    case InJoin(h) => FinishJoinOk(s, h);
    case InEnter(m) =>
      assert MonitorOk(s, Running, m);
      if s.monitors[m].holder == null {
        TakeMonitorOk(s, m);
      } else {
        EnqueueWaiterOk(s, m);
        StopOk(EnqueueWaiter(s, m), Blocked);
        ContinueOk(Stop(EnqueueWaiter(s, m), Blocked));
      }
  }

  // ---------------------------------------------------------------- the public calls

  lemma CreateThreadOk(s: Sys, t: Tcb, x: Tcb)
    requires s.current in s.tcbs && t !in s.tcbs && !OnQueue(s, t) && Here(s, Running, null, x)
    ensures x in Perform(s, Create(t)).tcbs && ThreadOk(Perform(s, Create(t)), Running, null, x)
  {
  }

  lemma CreateOk(s: Sys, t: Tcb)
    requires ValidSys(s) && Legal(s, Create(t))
    ensures ValidSys(Perform(s, Create(t))) && !OnQueue(s, t)
  {
    NewUnqueued(s, t);
    var s' := Perform(s, Create(t));
    forall x | x in s'.tcbs ensures ThreadOk(s', Running, null, x) {
      if x != t {
        assert ThreadOk(s, Running, null, x);
        CreateThreadOk(s, t, x);
      }
    }
    forall m | m in s'.monitors ensures MonitorOk(s', Running, m) {
      assert MonitorOk(s, Running, m);
    }
    NewIdle(s, s');
  }

  lemma MakeMonitorOk(s: Sys, m: Monitor)
    requires ValidSys(s) && Legal(s, MakeMonitor(m))
    ensures ValidSys(Perform(s, MakeMonitor(m)))
  {
    var s' := Perform(s, MakeMonitor(m));
    forall x | x in s'.tcbs ensures ThreadOk(s', Running, null, x) {
      assert ThreadOk(s, Running, null, x);
    }
    forall n | n in s'.monitors ensures MonitorOk(s', Running, n) {
      if n != m {
        assert MonitorOk(s, Running, n);
      }
    }
  }

  lemma YieldOk(s: Sys)
    requires ValidSys(s)
    ensures Stopping(Enqueue(s, s.current), Runable) && !OnQueue(s, s.current)
  {
    Unqueued(s, Running, null, s.current);
    var s' := Enqueue(s, s.current);
    assert ThreadOk(s, Running, null, s.current);
    forall x | x in s'.tcbs ensures ThreadOk(s', Runable, null, x) {
      assert ThreadOk(s, Running, null, x);
    }
    forall m | m in s'.monitors ensures MonitorOk(s', Runable, m) {
      assert MonitorOk(s, Running, m);
    }
  }

  lemma AwaitJoinThreadOk(s: Sys, h: Tcb, t: Tcb)
    requires Here(s, Running, null, s.current) && Here(s, Running, null, h) && Here(s, Running, null, t)
    requires s.tcbs[s.current].cont == ToClient && s.tcbs[s.current].kind != Idle
    requires h != s.current && !s.tcbs[h].claimed && s.tcbs[h].state != Dead
    ensures t in AwaitJoin(s, h).tcbs && ThreadOk(AwaitJoin(s, h), Blocked, null, t)
  {
  }

  lemma AwaitJoinQueueOk(s: Sys, h: Tcb)
    requires QueueOk(s) && JoinsOk(s) && h in s.tcbs && h != s.current
    ensures QueueOk(AwaitJoin(s, h)) && JoinsOk(AwaitJoin(s, h))
  {
    NewIdle(s, AwaitJoin(s, h));
  }

  lemma AwaitJoinOk(s: Sys, h: Tcb)
    requires ValidSys(s) && Legal(s, JoinOn(h)) && !s.tcbs[h].claimed && s.tcbs[h].state != Dead
    ensures Stopping(AwaitJoin(s, h), Blocked)
  {
    var s' := AwaitJoin(s, h);
    assert Here(s, Running, null, s.current) && Here(s, Running, null, h);
    forall x | x in s'.tcbs ensures ThreadOk(s', Blocked, null, x) {
      assert ThreadOk(s, Running, null, x);
      AwaitJoinThreadOk(s, h, x);
    }
    forall m | m in s'.monitors ensures MonitorOk(s', Blocked, m) {
      assert MonitorOk(s, Running, m);
    }
    AwaitJoinQueueOk(s, h);
  }

  lemma JoinDeadThreadOk(s: Sys, h: Tcb, t: Tcb)
    requires Here(s, Running, null, s.current) && Here(s, Running, null, h) && Here(s, Running, null, t)
    requires s.tcbs[s.current].cont == ToClient && !s.tcbs[h].claimed && s.tcbs[h].state == Dead && h != s.current
    ensures t in JoinDead(s, h).tcbs && ThreadOk(JoinDead(s, h), Running, null, t)
  {
  }

  lemma JoinDeadQueueOk(s: Sys, h: Tcb)
    requires QueueOk(s) && JoinsOk(s)
    requires Here(s, Running, null, s.current) && Here(s, Running, null, h)
    requires s.tcbs[s.current].cont == ToClient && !s.tcbs[h].claimed && s.tcbs[h].state == Dead && h != s.current
    ensures QueueOk(JoinDead(s, h)) && JoinsOk(JoinDead(s, h))
  {
    NewIdle(s, JoinDead(s, h));
  }

  lemma JoinDeadOk(s: Sys, h: Tcb)
    requires ValidSys(s) && Legal(s, JoinOn(h)) && !s.tcbs[h].claimed && s.tcbs[h].state == Dead
    ensures ValidSys(JoinDead(s, h))
  {
    var s' := JoinDead(s, h);
    assert Here(s, Running, null, s.current) && Here(s, Running, null, h);
    JoinDeadQueueOk(s, h);
    forall x | x in s'.tcbs ensures ThreadOk(s', Running, null, x) {
      assert ThreadOk(s, Running, null, x);
      JoinDeadThreadOk(s, h, x);
    }
    forall m | m in s'.monitors ensures MonitorOk(s', Running, m) {
      assert MonitorOk(s, Running, m);
    }
  }

  lemma NotJoinedOk(s: Sys)
    requires ValidSys(s)
    ensures ValidSys(NotJoined(s))
  {
    var s' := NotJoined(s);
    forall x | x in s'.tcbs ensures ThreadOk(s', Running, null, x) {
      assert ThreadOk(s, Running, null, x);
    }
    forall m | m in s'.monitors ensures MonitorOk(s', Running, m) {
      assert MonitorOk(s, Running, m);
    }
    NewIdle(s, s');
  }

  lemma JoinOk(s: Sys, h: Tcb)
    requires ValidSys(s) && Legal(s, JoinOn(h))
    ensures ValidSys(JoinCall(s, h))
  {
    assert ThreadOk(s, Running, null, s.current) && ThreadOk(s, Running, null, h);
    if s.tcbs[h].claimed {
      NotJoinedOk(s);
    } else if s.tcbs[h].state != Dead {
      AwaitJoinOk(s, h);
      StopOk(AwaitJoin(s, h), Blocked);
      ContinueOk(Stop(AwaitJoin(s, h), Blocked));
    } else {
      JoinDeadOk(s, h);
    }
  }

  // The detach of a thread that is alive, and the one that frees a dead thread.

  lemma MarkDetachedThreadOk(s: Sys, h: Tcb, t: Tcb)
    requires Here(s, Running, null, h) && Here(s, Running, null, t) && s.current in s.tcbs
    requires s.tcbs[s.current].state == Running && !s.tcbs[h].claimed && s.tcbs[h].state != Dead
    ensures t in MarkDetached(s, h).tcbs && ThreadOk(MarkDetached(s, h), Running, null, t)
  {
  }

  lemma MarkDetachedQueueOk(s: Sys, h: Tcb)
    requires QueueOk(s) && JoinsOk(s) && Here(s, Running, null, h) && !s.tcbs[h].claimed
    ensures QueueOk(MarkDetached(s, h)) && JoinsOk(MarkDetached(s, h)) && OldThreads(s, MarkDetached(s, h))
    ensures MarkDetached(s, h).tcbs[s.current].state == s.tcbs[s.current].state
    ensures MarkDetached(s, h).tcbs[s.current].cont == s.tcbs[s.current].cont
  {
    NewIdle(s, MarkDetached(s, h));
  }

  lemma MarkDetachedOk(s: Sys, h: Tcb)
    requires ValidSys(s) && Legal(s, Detach(h)) && !s.tcbs[h].claimed && s.tcbs[h].state != Dead
    ensures ValidSys(MarkDetached(s, h))
  {
    var s' := MarkDetached(s, h);
    assert Here(s, Running, null, h);
    MarkDetachedQueueOk(s, h);
    forall x | x in s'.tcbs ensures ThreadOk(s', Running, null, x) {
      assert Here(s, Running, null, x);
      MarkDetachedThreadOk(s, h, x);
    }
    forall m | m in s'.monitors ensures MonitorOk(s', Running, m) {
      assert MonitorOk(s, Running, m);
    }
  }

  lemma DetachDeadThreadOk(s: Sys, h: Tcb, t: Tcb)
    requires Here(s, Running, null, h) && Here(s, Running, null, t) && s.current in s.tcbs
    requires s.tcbs[s.current].state == Running && !s.tcbs[h].claimed && s.tcbs[h].state == Dead
    ensures t in DetachDead(s, h).tcbs && ThreadOk(DetachDead(s, h), Running, null, t)
  {
  }

  lemma DetachDeadQueueOk(s: Sys, h: Tcb)
    requires QueueOk(s) && JoinsOk(s) && Here(s, Running, null, h) && !s.tcbs[h].claimed
    ensures QueueOk(DetachDead(s, h)) && JoinsOk(DetachDead(s, h)) && OldThreads(s, DetachDead(s, h))
    ensures DetachDead(s, h).tcbs[s.current].state == s.tcbs[s.current].state
    ensures DetachDead(s, h).tcbs[s.current].cont == s.tcbs[s.current].cont
  {
    NewIdle(s, DetachDead(s, h));
  }

  lemma DetachDeadOk(s: Sys, h: Tcb)
    requires ValidSys(s) && Legal(s, Detach(h)) && !s.tcbs[h].claimed && s.tcbs[h].state == Dead
    ensures ValidSys(DetachDead(s, h))
  {
    var s' := DetachDead(s, h);
    assert Here(s, Running, null, h);
    DetachDeadQueueOk(s, h);
    forall x | x in s'.tcbs ensures ThreadOk(s', Running, null, x) {
      assert Here(s, Running, null, x);
      DetachDeadThreadOk(s, h, x);
    }
    forall m | m in s'.monitors ensures MonitorOk(s', Running, m) {
      assert MonitorOk(s, Running, m);
    }
  }

  lemma DetachOk(s: Sys, h: Tcb)
    requires ValidSys(s) && Legal(s, Detach(h))
    ensures ValidSys(DetachCall(s, h))
  {
    assert Here(s, Running, null, h);
    if !s.tcbs[h].claimed {
      if s.tcbs[h].state == Dead {
        DetachDeadOk(s, h);
      } else {
        MarkDetachedOk(s, h);
      }
    }
  }

  lemma EnterOk(s: Sys, m: Monitor)
    requires ValidSys(s) && Legal(s, Enter(m))
    ensures ValidSys(EnterCall(s, m))
  {
    StartEnterOk(s, m);
    ContinueOk(Entering(s, m));
  }

  lemma EnteringThreadOk(s: Sys, m: Monitor, t: Tcb)
    requires Here(s, Running, null, s.current) && Here(s, Running, null, t) && m in s.monitors
    requires s.tcbs[s.current].state == Running && s.tcbs[s.current].cont == ToClient && s.tcbs[s.current].kind != Idle
    ensures t in Entering(s, m).tcbs && ThreadOk(Entering(s, m), Running, null, t)
  {
  }

  lemma StartEnterOk(s: Sys, m: Monitor)
    requires ValidSys(s) && Legal(s, Enter(m))
    ensures Resumed(Entering(s, m))
  {
    var s' := Entering(s, m);
    assert Here(s, Running, null, s.current);
    forall x | x in s'.tcbs ensures ThreadOk(s', Running, null, x) {
      assert ThreadOk(s, Running, null, x);
      EnteringThreadOk(s, m, x);
    }
    forall n | n in s'.monitors ensures MonitorOk(s', Running, n) {
      assert MonitorOk(s, Running, n);
    }
    NewIdle(s, s');
  }

  /** After an exit, with the waiter that it dequeues, if any, on the ready queue */
  function AfterExit(s: Sys, m: Monitor): Sys
    requires m in s.monitors && s.current in s.tcbs
    requires s.monitors[m].waiters != [] ==> s.monitors[m].waiters[0] in s.tcbs
  {
    if s.monitors[m].waiters == [] then Released(s, m) else Woken(Released(s, m), s.monitors[m].waiters[0])
  }

  /** The holder m's exit may be called by, and what its first waiter looks like. */
  ghost predicate MayExit(s: Sys, m: Monitor) {
    && Here(s, Running, null, s.current)
    && s.tcbs[s.current].state == Running && s.tcbs[s.current].cont == ToClient
    && m in s.tcbs[s.current].inside && MonitorOk(s, Running, m)
    && (s.monitors[m].waiters != [] ==> Here(s, Running, null, s.monitors[m].waiters[0]))
  }

  lemma LastExitThreadOk(s: Sys, m: Monitor, t: Tcb)
    requires MayExit(s, m) && Here(s, Running, null, t) && s.monitors[m].waiters == []
    ensures t in AfterExit(s, m).tcbs && ThreadOk(AfterExit(s, m), Running, null, t)
  {
  }

  lemma WakingExitStateOk(s: Sys, m: Monitor, t: Tcb)
    requires MayExit(s, m) && Here(s, Running, null, t) && s.monitors[m].waiters != []
    ensures t in AfterExit(s, m).tcbs && StateOk(AfterExit(s, m), Running, null, t)
    ensures JoinerOk(AfterExit(s, m), Running, t)
  {
  }

  lemma WakingExitContOk(s: Sys, m: Monitor, t: Tcb)
    requires MayExit(s, m) && Here(s, Running, null, t) && s.monitors[m].waiters != []
    ensures t in AfterExit(s, m).tcbs && ContOk(AfterExit(s, m), Running, t)
    ensures InsideOk(AfterExit(s, m), Running, t)
  {
    TailMembers(s.monitors[m].waiters);
  }

  lemma ExitMonitorOk(s: Sys, m: Monitor, n: Monitor)
    requires MayExit(s, m) && n in s.monitors && MonitorOk(s, Running, n)
    ensures n in AfterExit(s, m).monitors && MonitorOk(AfterExit(s, m), Running, n)
  {
    if s.monitors[m].waiters != [] {
      TailMembers(s.monitors[m].waiters);
    }
  }

  lemma ExitQueueOk(s: Sys, m: Monitor)
    requires MayExit(s, m) && QueueOk(s) && JoinsOk(s)
    ensures QueueOk(AfterExit(s, m)) && JoinsOk(AfterExit(s, m)) && AfterExit(s, m).current == s.current
    ensures AfterExit(s, m).tcbs[s.current].state == Running && AfterExit(s, m).tcbs[s.current].cont == ToClient
    ensures AfterExit(s, m).tcbs.Keys == s.tcbs.Keys && AfterExit(s, m).monitors.Keys == s.monitors.Keys
  {
    NewIdle(s, AfterExit(s, m));
  }

  /** The dequeued waiter is on no other queue. */
  lemma WaiterUnqueued(s: Sys, m: Monitor)
    requires Ok(s, Running, null) && MayExit(s, m) && s.monitors[m].waiters != []
    ensures !OnQueue(Released(s, m), s.monitors[m].waiters[0])
  {
    var t := s.monitors[m].waiters[0];
    TailMembers(s.monitors[m].waiters);
    forall n | n in s.monitors && n != m ensures t !in s.monitors[n].waiters {
      assert MonitorOk(s, Running, n);
    }
  }

  lemma ExitIs(s: Sys, m: Monitor)
    requires Ok(s, Running, null) && MayExit(s, m)
    ensures ExitCall(s, m) == AfterExit(s, m)
  {
    if s.monitors[m].waiters != [] {
      WaiterUnqueued(s, m);
      StartIs(Released(s, m), s.monitors[m].waiters[0]);
    }
  }

  /** The thread that exits a monitor is its holder; the waiter it dequeues becomes ready. */
  lemma ExitOk(s: Sys, m: Monitor)
    requires ValidSys(s) && Legal(s, Exit(m))
    ensures ValidSys(ExitCall(s, m))
  {
    assert Here(s, Running, null, s.current) && MonitorOk(s, Running, m);
    var ws := s.monitors[m].waiters;
    if ws != [] {
      assert ws[0] in ws;
      assert ThreadOk(s, Running, null, ws[0]);
    }
    ExitIs(s, m);
    var s' := AfterExit(s, m);
    forall x | x in s'.tcbs ensures ThreadOk(s', Running, null, x) {
      assert ThreadOk(s, Running, null, x);
      if ws == [] {
        LastExitThreadOk(s, m, x);
      } else {
        WakingExitStateOk(s, m, x);
        WakingExitContOk(s, m, x);
      }
    }
    forall n | n in s'.monitors ensures MonitorOk(s', Running, n) {
      assert MonitorOk(s, Running, n);
      ExitMonitorOk(s, m, n);
    }
    ExitQueueOk(s, m);
  }

  lemma ReturnThreadOk(s: Sys, v: int, t: Tcb)
    requires Here(s, Running, null, s.current) && Here(s, Running, null, t)
    requires s.tcbs[s.current].state == Running && s.tcbs[s.current].cont == ToClient
    requires s.tcbs[s.current].kind == Created && s.tcbs[s.current].inside == {}
    ensures t in Returned(s, v).tcbs && ThreadOk(Returned(s, v), Dying, s.current, t)
  {
  }

  lemma ReturnStops(s: Sys, v: int)
    requires ValidSys(s) && Legal(s, Return(v))
    ensures Stopping(Returned(s, v), Dying)
  {
    var s' := Returned(s, v);
    assert Here(s, Running, null, s.current);
    forall x | x in s'.tcbs ensures ThreadOk(s', Dying, s.current, x) {
      assert ThreadOk(s, Running, null, x);
      ReturnThreadOk(s, v, x);
    }
    forall m | m in s'.monitors ensures MonitorOk(s', Dying, m) {
      assert MonitorOk(s, Running, m);
    }
    NewIdle(s, s');
  }

  lemma ReturnOk(s: Sys, v: int)
    requires ValidSys(s) && Legal(s, Return(v))
    ensures ValidSys(ReturnCall(s, v))
  {
    ReturnStops(s, v);
    StopOk(Returned(s, v), Dying);
    ContinueOk(Stop(Returned(s, v), Dying));
  }

  /** Every legal call keeps the invariant and commits no fault. */
  lemma PerformOk(s: Sys, c: Call)
    requires ValidSys(s) && Legal(s, c)
    ensures ValidSys(Perform(s, c))
  {
    match c
    case Create(t) => CreateOk(s, t);
    case MakeMonitor(m) => MakeMonitorOk(s, m);
    case Yield =>
      YieldOk(s);
      StopOk(Enqueue(s, s.current), Runable);
      ContinueOk(Stop(Enqueue(s, s.current), Runable));
    case JoinOn(h) => JoinOk(s, h);
    case Detach(h) => DetachOk(s, h);
    case Enter(m) => EnterOk(s, m);
    case Exit(m) => ExitOk(s, m);
    case Return(v) => ReturnOk(s, v);
  }
}
