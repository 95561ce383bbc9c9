/** A join completes: once its target has died, the joiner's next turn of the processor returns
    the target's result and frees it. */
module UthreadJoins {
  import opened ThreadQueue
  import opened UthreadSpec
  import opened UthreadInvariant
  import opened UthreadCalls
  import opened UthreadRuns

  /** Thread h has died with result v, and thread t waits for it. */
  predicate Awaited(s: Sys, h: Tcb, t: Tcb, v: int) {
    && Live(s, h) && s.tcbs[h].state == Dead && s.tcbs[h].outcome == Exited(v) && s.tcbs[h].joiner == By(t)
    && t in s.tcbs && s.tcbs[t].cont == InJoin(h)
  }

  /** The joiner is the n-th thread that uthread_stop picks. */
  predicate Pending(s: Sys, h: Tcb, t: Tcb, v: int, n: nat) {
    Awaited(s, h, t, v) && |s.picked| <= n < |s.picked| + |s.ready| && s.ready[n - |s.picked|] == t
  }

  /** The joiner has the processor and has not gone on yet. */
  predicate Due(s: Sys, h: Tcb, t: Tcb, v: int) {
    Awaited(s, h, t, v) && s.current == t
  }

  // ---------------------------------------------------------------- uthread_stop

  lemma LeavePending(s: Sys, st: ThreadState, h: Tcb, t: Tcb, v: int, n: nat)
    requires Leaves(s, st) && Pending(s, h, t, v, n) && s.current != h
    ensures Pending(Leave(s, st), h, t, v, n) || Due(Leave(s, st), h, t, v)
  {
  }

  lemma ReapedPending(s: Sys, d: Tcb, h: Tcb, t: Tcb, v: int, n: nat)
    requires MayReap(s, d) && Awaited(s, h, t, v)
    ensures Pending(s, h, t, v, n) ==> Pending(Reaped(s, d), h, t, v, n)
    ensures Due(s, h, t, v) ==> Due(Reaped(s, d), h, t, v)
  {
  }

  lemma RunPending(s: Sys, h: Tcb, t: Tcb, v: int, n: nat)
    requires s.current in s.tcbs && Awaited(s, h, t, v) && s.current != h
    ensures Pending(s, h, t, v, n) ==> Pending(Run(s), h, t, v, n)
    ensures Due(s, h, t, v) ==> Due(Run(s), h, t, v)
  {
  }

  lemma StopPending(s: Sys, st: ThreadState, h: Tcb, t: Tcb, v: int, n: nat)
    requires Stopping(s, st) && Pending(s, h, t, v, n) && s.current != t
    ensures Pending(Stop(s, st), h, t, v, n) || Due(Stop(s, st), h, t, v)
  {
    ReadyNotEmpty(s, st, Doomed(s, st));
    var to := s.ready[0];
    assert ThreadOk(s, st, Doomed(s, st), to) && ThreadOk(s, st, Doomed(s, st), s.current);
    if to != s.current {
      LeaveOk(s, st, Doomed(s, st));
      LeavePending(s, st, h, t, v, n);
      var s1 := Leave(s, st);
      if st == Dying {
        assert Here(s1, Running, s.current, s.current);
        assert s1.tcbs[s.current].joiner.By? ==> ThreadOk(s1, Running, s.current, s1.tcbs[s.current].joiner.t);
        ReapIs(s1, s.current);
        ReapOk(s1, s.current);
        ReapedPending(s1, s.current, h, t, v, n);
      }
      RunPending(if st == Dying then Reap(s1, s.current) else s1, h, t, v, n);
      SwitchIs(s, st);
    }
  }

  // ---------------------------------------------------------------- the rest of a call

  lemma FinishPending(s: Sys, g: Tcb, h: Tcb, t: Tcb, v: int, n: nat)
    requires Here(s, Running, null, s.current) && Here(s, Running, null, g)
    requires Pending(s, h, t, v, n) && s.current != t && g != h
    ensures Pending(FinishJoin(s, g), h, t, v, n) || FinishJoin(s, g).fault
  {
  }

  lemma {:induction false} ContinuePending(s: Sys, h: Tcb, t: Tcb, v: int, n: nat)
    requires Resumed(s) && (Pending(s, h, t, v, n) || Due(s, h, t, v))
    ensures Pending(Continue(s), h, t, v, n) || Join(t, h, v) in Continue(s).joins
    decreases |s.ready|
  {
    assert ThreadOk(s, Running, null, s.current) && ThreadOk(s, Running, null, t) && ThreadOk(s, Running, null, h);
    match s.tcbs[s.current].cont
    case ToClient =>
    case InJoin(g) =>
      assert ThreadOk(s, Running, null, g);
      FinishJoinOk(s, g);
      if s.current == t {
        assert FinishJoin(s, h).joins == s.joins + [Join(t, h, v)];
      } else {
        FinishPending(s, g, h, t, v, n);
      }
    case InEnter(m) =>
      assert MonitorOk(s, Running, m);
      if s.monitors[m].holder != null {
        EnqueueWaiterOk(s, m);
        StopOk(EnqueueWaiter(s, m), Blocked);
        StopPending(EnqueueWaiter(s, m), Blocked, h, t, v, n);
        ContinuePending(Stop(EnqueueWaiter(s, m), Blocked), h, t, v, n);
      }
  }

  lemma StopContinuePending(s: Sys, st: ThreadState, h: Tcb, t: Tcb, v: int, n: nat)
    requires Stopping(s, st) && Pending(s, h, t, v, n) && s.current != t
    ensures Pending(Continue(Stop(s, st)), h, t, v, n) || Join(t, h, v) in Continue(Stop(s, st)).joins
  {
    StopOk(s, st);
    StopPending(s, st, h, t, v, n);
    ContinuePending(Stop(s, st), h, t, v, n);
  }

  // ---------------------------------------------------------------- the public calls

  lemma JoinCallPending(s: Sys, g: Tcb, h: Tcb, t: Tcb, v: int, n: nat)
    requires ValidSys(s) && Legal(s, JoinOn(g)) && Pending(s, h, t, v, n)
    ensures Pending(JoinCall(s, g), h, t, v, n) || Join(t, h, v) in JoinCall(s, g).joins
  {
    assert ThreadOk(s, Running, null, s.current) && ThreadOk(s, Running, null, t);
    assert Here(s, Running, null, g) && ThreadOk(s, Running, null, h);
    if s.tcbs[g].claimed {
      assert JoinCall(s, g) == NotJoined(s);
    } else if s.tcbs[g].state != Dead {
      AwaitJoinOk(s, g);
      StopContinuePending(AwaitJoin(s, g), Blocked, h, t, v, n);
    } else {
      JoinDeadPending(s, g, h, t, v, n);
    }
  }

  lemma JoinDeadPending(s: Sys, g: Tcb, h: Tcb, t: Tcb, v: int, n: nat)
    requires Pending(s, h, t, v, n) && g in s.tcbs && g != h && g != t && s.current != h && s.current != t
    ensures Pending(JoinDead(s, g), h, t, v, n)
  {
  }

  lemma ExitPending(s: Sys, m: Monitor, h: Tcb, t: Tcb, v: int, n: nat)
    requires ValidSys(s) && Legal(s, Exit(m)) && Pending(s, h, t, v, n)
    ensures Pending(ExitCall(s, m), h, t, v, n)
  {
    assert Here(s, Running, null, s.current) && MonitorOk(s, Running, m);
    assert ThreadOk(s, Running, null, h) && ThreadOk(s, Running, null, t);
    var ws := s.monitors[m].waiters;
    if ws != [] {
      assert ws[0] in ws && ThreadOk(s, Running, null, ws[0]);
    }
    ExitIs(s, m);
  }

  lemma DetachPending(s: Sys, g: Tcb, h: Tcb, t: Tcb, v: int, n: nat)
    requires ValidSys(s) && Legal(s, Detach(g)) && Pending(s, h, t, v, n)
    ensures Pending(DetachCall(s, g), h, t, v, n)
  {
    assert ThreadOk(s, Running, null, g) && ThreadOk(s, Running, null, h) && ThreadOk(s, Running, null, t);
  }

  lemma QueuePending(s: Sys, c: Call, h: Tcb, t: Tcb, v: int, n: nat)
    requires ValidSys(s) && Legal(s, c) && Pending(s, h, t, v, n) && (c.Create? || c.MakeMonitor?)
    ensures Pending(Perform(s, c), h, t, v, n)
  {
    if c.Create? {
      NewUnqueued(s, c.t);
    }
  }

  lemma PerformPending(s: Sys, c: Call, h: Tcb, t: Tcb, v: int, n: nat)
    requires ValidSys(s) && Legal(s, c) && Pending(s, h, t, v, n)
    ensures Pending(Perform(s, c), h, t, v, n) || Join(t, h, v) in Perform(s, c).joins
  {
    assert ThreadOk(s, Running, null, s.current) && ThreadOk(s, Running, null, t) && ThreadOk(s, Running, null, h);
    match c
    case Create(_) => QueuePending(s, c, h, t, v, n);
    case MakeMonitor(_) => QueuePending(s, c, h, t, v, n);
    case Yield =>
      YieldOk(s);
      StopContinuePending(Enqueue(s, s.current), Runable, h, t, v, n);
    case JoinOn(g) => JoinCallPending(s, g, h, t, v, n);
    case Detach(g) => DetachPending(s, g, h, t, v, n);
    case Enter(m) =>
      StartEnterOk(s, m);
      ContinuePending(Entering(s, m), h, t, v, n);
    case Exit(m) => ExitPending(s, m, h, t, v, n);
    case Return(x) =>
      ReturnStops(s, x);
      StopContinuePending(Returned(s, x), Dying, h, t, v, n);
  }

  // ---------------------------------------------------------------- runs

  lemma CallPending(base: Tcb, idle: Tcb, calls: seq<Call>, run: seq<Sys>, i: nat,
                    h: Tcb, t: Tcb, v: int, n: nat)
    requires SysRun(base, idle, calls, run) && i < |calls| && Pending(run[i], h, t, v, n)
    ensures Pending(run[i + 1], h, t, v, n) || Join(t, h, v) in run[i + 1].joins
  {
    RunValid(base, idle, calls, run, i);
    StepIs(base, idle, calls, run, i);
    PerformPending(run[i], calls[i], h, t, v, n);
  }

  lemma CallPendingOrJoined(base: Tcb, idle: Tcb, calls: seq<Call>, run: seq<Sys>, i: nat,
                            h: Tcb, t: Tcb, v: int, n: nat)
    requires SysRun(base, idle, calls, run) && i < |calls|
    requires Pending(run[i], h, t, v, n) || Join(t, h, v) in run[i].joins
    ensures Pending(run[i + 1], h, t, v, n) || Join(t, h, v) in run[i + 1].joins
  {
    if Join(t, h, v) in run[i].joins {
      CallLater(base, idle, calls, run, i);
    } else {
      CallPending(base, idle, calls, run, i, h, t, v, n);
    }
  }

  lemma {:induction false} RunPendingOrJoined(base: Tcb, idle: Tcb, calls: seq<Call>, run: seq<Sys>, i: nat, j: nat,
                                              h: Tcb, t: Tcb, v: int, n: nat)
    requires SysRun(base, idle, calls, run) && i <= j < |run| && Pending(run[i], h, t, v, n)
    ensures Pending(run[j], h, t, v, n) || Join(t, h, v) in run[j].joins
  {
    if i == j {
    } else {
      RunPendingOrJoined(base, idle, calls, run, i, j - 1, h, t, v, n);
      CallPendingOrJoined(base, idle, calls, run, j - 1, h, t, v, n);
    }
  }

  /** A join completes. The joiner of a thread that has died is on the ready queue; once it has
      been picked, which takes no more picks than its place there says, its join has returned
      the result and the thread has been freed. */
  lemma JoinCompletes(base: Tcb, idle: Tcb, calls: seq<Call>, run: seq<Sys>, i: nat, j: nat, h: Tcb, t: Tcb, k: nat)
    requires SysRun(base, idle, calls, run) && i <= j < |run|
    requires Live(run[i], h) && run[i].tcbs[h].outcome.Exited? && run[i].tcbs[h].joiner == By(t)
    requires k < |run[i].ready| && run[i].ready[k] == t && |run[j].picked| > |run[i].picked| + k
    ensures Join(t, h, run[i].tcbs[h].outcome.v) in run[j].joins
    ensures h in run[j].tcbs && run[j].tcbs[h].frees == 1
  {
    RunValid(base, idle, calls, run, i);
    RunValid(base, idle, calls, run, j);
    assert ThreadOk(run[i], Running, null, h);
    var v, n := run[i].tcbs[h].outcome.v, |run[i].picked| + k;
    RunPendingOrJoined(base, idle, calls, run, i, j, h, t, v, n);
    assert !Pending(run[j], h, t, v, n);
  }
}
