/** No lost wakeup: a waiter that an exiting thread has dequeued is on its way to test the
    monitor again for as long as other waiters depend on it. */
module KernelWakeup {
  import opened Kernel
  import opened KernelOwnership
  import opened KernelExecution
  import opened KernelMonitor

  /** The program points from the unlock after the enqueue, through uthread_stop, back to the
      test of the monitor's holder. */
  predicate Retests(pc: Pc, m: Mid) {
    match pc
    case InMonitor(x, where) => x == m && where.UnlockWait?
    case Acquire(c, _) => c == ReadyDequeue(ToEnter(m)) || c == EnterTest(m, true)
    case Dequeued(_, k, _) => k == ToEnter(m)
    case Switch(_, k, point) => k == ToEnter(m) && !point.LoadSp?
    case ResumeTest(k) => k == ToEnter(m)
    case ResumeRun(k, _) => k == ToEnter(m)
    case _ => false
  }

  /** Thread t has enqueued itself on monitor m and has not tested its holder since: it is
      either saved inside that loop or executed there. */
  ghost predicate Returning(s: State, t: Tid, m: Mid) {
    && t < |s.threads|
    && (s.threads[t].saved == Some(ToEnter(m))
        || exists p :: 0 <= p < |s.procs| && s.procs[p].cur == t && Retests(s.procs[p].pc, m))
  }

  ghost predicate SomeoneAt(s: State, pc: Pc) {
    exists p :: 0 <= p < |s.procs| && s.procs[p].pc == pc
  }

  /** A dequeued waiter of m is on its way back. */
  ghost predicate WaiterOnItsWay(s: State, m: Mid)
    requires m < |s.monitors|
  {
    exists t :: Returning(s, t, m) && t !in s.monitors[m].waiters
  }

  ghost predicate Wakeup(s: State, m: Mid)
    requires m < |s.monitors|
  {
    s.monitors[m].holder.None? && s.monitors[m].waiters != [] ==>
      SomeoneAt(s, InMonitor(m, Dequeue)) || SomeoneAt(s, InMonitor(m, Take)) || WaiterOnItsWay(s, m)
  }

  ghost predicate Wakeups(s: State) {
    && (forall m, t | 0 <= m < |s.monitors| && t in s.monitors[m].waiters :: Returning(s, t, m))
    && (forall m | 0 <= m < |s.monitors| :: Wakeup(s, m))
  }

  // ---------------------------------------------------------------- one step

  lemma StepMonitorQueue(s: State, p: nat, c: Call, m: Mid)
    requires WellFormed(s) && Enabled(s, p, c) && m < |s.monitors| && s.procs[p].pc.InMonitor?
    ensures |s.monitors| <= |Next(s, p, c).monitors|
    ensures Next(s, p, c).monitors[m].waiters ==
            if s.procs[p].pc == InMonitor(m, Enqueue) then s.monitors[m].waiters + [s.procs[p].cur]
            else if s.procs[p].pc == InMonitor(m, Dequeue) then Tail(s.monitors[m].waiters)
            else s.monitors[m].waiters
  {
  }

  lemma StepOtherQueue(s: State, p: nat, c: Call, m: Mid)
    requires WellFormed(s) && Enabled(s, p, c) && m < |s.monitors| && !s.procs[p].pc.InMonitor?
    ensures |s.monitors| <= |Next(s, p, c).monitors|
    ensures Next(s, p, c).monitors[m].waiters == s.monitors[m].waiters
  {
  }

  lemma StepQueue(s: State, p: nat, c: Call, m: Mid)
    requires WellFormed(s) && Enabled(s, p, c) && m < |s.monitors|
    ensures |s.monitors| <= |Next(s, p, c).monitors|
    ensures Next(s, p, c).monitors[m].waiters ==
            if s.procs[p].pc == InMonitor(m, Enqueue) then s.monitors[m].waiters + [s.procs[p].cur]
            else if s.procs[p].pc == InMonitor(m, Dequeue) then Tail(s.monitors[m].waiters)
            else s.monitors[m].waiters
  {
    if s.procs[p].pc.InMonitor? {
      StepMonitorQueue(s, p, c, m);
    } else {
      StepOtherQueue(s, p, c, m);
    }
  }

  /** The stepping processor carries its thread on towards the test. */
  lemma StepRetests(s: State, p: nat, c: Call, m: Mid)
    requires WellFormed(s) && Enabled(s, p, c) && ProcOk(s, s.procs[p]) && Retests(s.procs[p].pc, m)
    requires s.procs[p].pc != Acquire(EnterTest(m, true), Held)
    requires !Next(s, p, c).procs[p].pc.Failed?
    ensures s.procs[p].cur < |Next(s, p, c).threads|
    ensures || (Next(s, p, c).procs[p].cur == s.procs[p].cur && Retests(Next(s, p, c).procs[p].pc, m))
            || Next(s, p, c).threads[s.procs[p].cur].saved == Some(ToEnter(m))
  {
  }

  /** A saved context waits until it is loaded, and goes on from where it was saved. */
  lemma StepSaved(s: State, p: nat, c: Call, t: Tid, m: Mid)
    requires WellFormed(s) && Enabled(s, p, c) && ProcOk(s, s.procs[p]) && t < |s.threads|
    requires s.threads[t].saved == Some(ToEnter(m))
    requires !Next(s, p, c).procs[p].pc.Failed?
    ensures t < |Next(s, p, c).threads|
    ensures || Next(s, p, c).threads[t].saved == Some(ToEnter(m))
            || (Next(s, p, c).procs[p].cur == t && Retests(Next(s, p, c).procs[p].pc, m))
  {
  }

  lemma StepReturning(s: State, p: nat, c: Call, t: Tid, m: Mid)
    requires WellFormed(s) && Enabled(s, p, c) && ProcsOk(s) && Returning(s, t, m)
    requires !(s.procs[p].cur == t && s.procs[p].pc == Acquire(EnterTest(m, true), Held))
    requires !Next(s, p, c).procs[p].pc.Failed?
    ensures Returning(Next(s, p, c), t, m)
  {
    var s' := Next(s, p, c);
    StepOneProc(s, p, c);
    if s.threads[t].saved == Some(ToEnter(m)) {
      StepSaved(s, p, c, t, m);
      assert s'.threads[t].saved == Some(ToEnter(m)) || Retests(s'.procs[p].pc, m);
    } else {
      var q :| 0 <= q < |s.procs| && s.procs[q].cur == t && Retests(s.procs[q].pc, m);
      StepAddsThread(s, p, c);
      if q == p {
        StepRetests(s, p, c, m);
      }
      assert s'.threads[t].saved == Some(ToEnter(m)) || (s'.procs[q].cur == t && Retests(s'.procs[q].pc, m));
    }
  }

  lemma StepWaitersReturn(s: State, p: nat, c: Call, own: seq<Owner>, m: Mid, t: Tid)
    requires WellFormed(s) && Enabled(s, p, c) && Ownership(s, own) && Execution(s, own) && Wakeups(s)
    requires !Next(s, p, c).procs[p].pc.Failed?
    requires m < |Next(s, p, c).monitors| && t in Next(s, p, c).monitors[m].waiters
    ensures Returning(Next(s, p, c), t, m)
  {
    StepWaiters(s, p, c, m);
    if m < |s.monitors| && t in s.monitors[m].waiters {
      assert own[t] == InWaiters(m);
      assert Is(own, Owned(s.procs[p]), ByProc(p));
      StepReturning(s, p, c, t, m);
    } else {
      StepEnqueue(s, p, c, m);
    }
  }

  lemma StepEnqueue(s: State, p: nat, c: Call, m: Mid)
    requires WellFormed(s) && Enabled(s, p, c) && s.procs[p].pc == InMonitor(m, Enqueue)
    ensures Returning(Next(s, p, c), s.procs[p].cur, m)
  {
    var s' := Next(s, p, c);
    assert s'.procs[p] == Proc(s.procs[p].cur, InMonitor(m, UnlockWait));
    assert Retests(s'.procs[p].pc, m);
  }

  /** The exit that makes the monitor free, or the barging thread that takes it. */
  lemma StepHandover(s: State, p: nat, c: Call, m: Mid)
    requires WellFormed(s) && Enabled(s, p, c) && m < |s.monitors|
    ensures p < |Next(s, p, c).procs|
    ensures s.procs[p].pc == InMonitor(m, Clear) ==> Next(s, p, c).procs[p].pc == InMonitor(m, Dequeue)
    ensures s.procs[p].pc == Acquire(EnterTest(m, true), Held) && s.monitors[m].holder.None? ==>
              Next(s, p, c).procs[p].pc == InMonitor(m, Take)
  {
  }

  lemma StepWakeup(s: State, p: nat, c: Call, own: seq<Owner>, m: Mid)
    requires WellFormed(s) && Enabled(s, p, c) && Ownership(s, own) && Execution(s, own)
    requires Holders(s) && Wakeups(s) && m < |s.monitors|
    requires !Next(s, p, c).procs[p].pc.Failed?
    ensures m < |Next(s, p, c).monitors| && Wakeup(Next(s, p, c), m)
  {
    var s', pc, ws := Next(s, p, c), s.procs[p].pc, s.monitors[m].waiters;
    StepOneProc(s, p, c);
    StepQueue(s, p, c, m);
    StepHolder(s, p, c, m);
    StepHandover(s, p, c, m);
    assert MonitorPc(s, s.procs[p]) && Wakeup(s, m);
    if s'.monitors[m].holder.None? && s'.monitors[m].waiters != [] {
      if pc == InMonitor(m, Clear) {
        assert SomeoneAt(s', InMonitor(m, Dequeue));
      } else if pc == InMonitor(m, Dequeue) {
        assert Returning(s, ws[0], m) && ws[0] !in Tail(ws);
        StepReturning(s, p, c, ws[0], m);
        assert WaiterOnItsWay(s', m);
      } else {
        WakeupPasses(s, p, c, m);
      }
    }
  }

  lemma WakeupPasses(s: State, p: nat, c: Call, m: Mid)
    requires WellFormed(s) && Enabled(s, p, c) && ProcsOk(s) && m < |s.monitors| <= |Next(s, p, c).monitors|
    requires !Next(s, p, c).procs[p].pc.Failed?
    requires s.monitors[m].holder.None? && s.monitors[m].waiters != [] && Wakeup(s, m)
    requires Next(s, p, c).monitors[m].holder.None?
    requires Next(s, p, c).monitors[m].waiters == s.monitors[m].waiters
    requires s.procs[p].pc != InMonitor(m, Dequeue)
    ensures Wakeup(Next(s, p, c), m)
  {
    var s', pc := Next(s, p, c), s.procs[p].pc;
    StepOneProc(s, p, c);
    StepHolder(s, p, c, m);
    StepHandover(s, p, c, m);
    if SomeoneAt(s, InMonitor(m, Dequeue)) {
      var q :| 0 <= q < |s.procs| && s.procs[q].pc == InMonitor(m, Dequeue);
      assert s'.procs[q].pc == InMonitor(m, Dequeue);
    } else if SomeoneAt(s, InMonitor(m, Take)) {
      var q :| 0 <= q < |s.procs| && s.procs[q].pc == InMonitor(m, Take);
      assert s'.procs[q].pc == InMonitor(m, Take);
    } else {
      var t :| Returning(s, t, m) && t !in s.monitors[m].waiters;
      if s.procs[p].cur == t && pc == Acquire(EnterTest(m, true), Held) {
        assert SomeoneAt(s', InMonitor(m, Take));
      } else {
        StepReturning(s, p, c, t, m);
        assert WaiterOnItsWay(s', m);
      }
    }
  }

  lemma StepWakeups(s: State, p: nat, c: Call, own: seq<Owner>)
    requires WellFormed(s) && Enabled(s, p, c) && Ownership(s, own) && Execution(s, own)
    requires Holders(s) && Wakeups(s)
    requires !Next(s, p, c).procs[p].pc.Failed?
    ensures Wakeups(Next(s, p, c))
  {
    var s' := Next(s, p, c);
    StepAddsMonitor(s, p, c);
    forall m, t | 0 <= m < |s'.monitors| && t in s'.monitors[m].waiters ensures Returning(s', t, m) {
      StepWaitersReturn(s, p, c, own, m, t);
    }
    forall m | 0 <= m < |s'.monitors| ensures Wakeup(s', m) {
      if m < |s.monitors| {
        StepWakeup(s, p, c, own, m);
      }
    }
  }

  /** A thread returns to one monitor only. */
  lemma ReturningUnique(s: State, own: seq<Owner>, t: Tid, m: Mid, n: Mid)
    requires WellFormed(s) && Ownership(s, own) && Execution(s, own) && Returning(s, t, m) && Returning(s, t, n)
    requires forall p | 0 <= p < |s.procs| :: !s.procs[p].pc.Failed?
    ensures m == n
  {
    if s.threads[t].saved != Some(ToEnter(m)) {
      var p :| 0 <= p < |s.procs| && s.procs[p].cur == t && Retests(s.procs[p].pc, m);
      assert ProcOk(s, s.procs[p]);
      if s.threads[t].saved != Some(ToEnter(n)) {
        var q :| 0 <= q < |s.procs| && s.procs[q].cur == t && Retests(s.procs[q].pc, n);
        assert p == q;
      }
    }
  }
}
