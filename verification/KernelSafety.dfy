/** What holds in every state of every run, for any number of processors, threads and
    monitors and any interleaving. */
module KernelSafety {
  import opened Kernel
  import opened KernelOwnership
  import opened KernelExecution
  import opened KernelMonitor
  import opened KernelIdle
  import opened KernelWakeup

  ghost predicate NoFault(s: State) {
    forall p | 0 <= p < |s.procs| :: !s.procs[p].pc.Failed?
  }

  ghost predicate InvWith(s: State, own: seq<Owner>) {
    && WellFormed(s) && NoFault(s)
    && Ownership(s, own) && Execution(s, own)
    && Locking(s) && Holders(s) && Idles(s) && Wakeups(s)
  }

  ghost predicate Inv(s: State) {
    exists own :: InvWith(s, own)
  }

  lemma InitInv(extra: nat)
    ensures Inv(Init(extra))
  {
    InitOwnership(extra);
    InitExecution(extra);
    InitIdles(extra);
    assert InvWith(Init(extra), [ByProc(0), InReady]);
  }

  /** No step fails: the ready queue has a thread for a stopping processor, the context to be
      loaded has been saved, nobody returns into an empty frame, and the thread that exits a
      monitor is its holder. */
  lemma StepNoFault(s: State, own: seq<Owner>, p: nat, c: Call)
    requires InvWith(s, own) && Enabled(s, p, c)
    ensures p < |Next(s, p, c).procs| && !Next(s, p, c).procs[p].pc.Failed?
  {
    var pr := s.procs[p];
    assert ProcOk(s, pr) && IdleProc(s, pr) && MonitorPc(s, pr);
    if PastSpin(pr.pc) {
      TargetIdle(s, own, p, p);
    }
    ProcNoFault(s, p, c);
  }

  lemma SwitchNoFault(s: State, p: nat, c: Call)
    requires WellFormed(s) && Enabled(s, p, c) && (s.procs[p].pc.Dequeued? || s.procs[p].pc.Switch?)
    requires IdleProc(s, s.procs[p])
    requires PastSpin(s.procs[p].pc) ==> s.threads[s.procs[p].pc.t].saved.Some?
    ensures p < |Next(s, p, c).procs| && !Next(s, p, c).procs[p].pc.Failed?
  {
  }

  lemma AcquireNoFault(s: State, p: nat, c: Call)
    requires WellFormed(s) && Enabled(s, p, c) && s.procs[p].pc.Acquire? && MonitorPc(s, s.procs[p])
    ensures p < |Next(s, p, c).procs| && !Next(s, p, c).procs[p].pc.Failed?
  {
  }

  lemma OtherNoFault(s: State, p: nat, c: Call)
    requires WellFormed(s) && Enabled(s, p, c) && ProcOk(s, s.procs[p])
    requires !s.procs[p].pc.Dequeued? && !s.procs[p].pc.Switch? && !s.procs[p].pc.Acquire?
    ensures p < |Next(s, p, c).procs| && !Next(s, p, c).procs[p].pc.Failed?
  {
  }

  lemma ProcNoFault(s: State, p: nat, c: Call)
    requires WellFormed(s) && Enabled(s, p, c)
    requires ProcOk(s, s.procs[p]) && IdleProc(s, s.procs[p]) && MonitorPc(s, s.procs[p])
    requires PastSpin(s.procs[p].pc) ==> s.threads[s.procs[p].pc.t].saved.Some?
    ensures p < |Next(s, p, c).procs| && !Next(s, p, c).procs[p].pc.Failed?
  {
    if s.procs[p].pc.Dequeued? || s.procs[p].pc.Switch? {
      SwitchNoFault(s, p, c);
    } else if s.procs[p].pc.Acquire? {
      AcquireNoFault(s, p, c);
    } else {
      OtherNoFault(s, p, c);
    }
  }

  lemma NoFaultKept(s: State, p: nat, s': State)
    requires NoFault(s) && OneProc(s, p, s') && p < |s'.procs| && !s'.procs[p].pc.Failed?
    ensures NoFault(s')
  {
  }

  lemma StepInv(s: State, own: seq<Owner>, p: nat, c: Call)
    requires InvWith(s, own) && Enabled(s, p, c)
    ensures InvWith(Next(s, p, c), NextOwn(s, p, NextAccess(s, p, c), own))
  {
    StepNoFault(s, own, p, c);
    StepOneProc(s, p, c);
    NoFaultKept(s, p, Next(s, p, c));
    StepOwnership(s, p, c, own);
    StepExecution(s, p, c, own);
    StepLocking(s, p, c);
    StepHolders(s, p, c);
    StepIdles(s, p, c, own);
    StepWakeups(s, p, c, own);
  }

  lemma {:induction false} RunInv(extra: nat, run: seq<State>, i: nat)
    requires Run(extra, run) && i < |run|
    ensures Inv(run[i])
  {
    if i == 0 {
      InitInv(extra);
    } else {
      RunInv(extra, run, i - 1);
      var own :| InvWith(run[i - 1], own);
      assert Step(run[i - 1], run[i - 1 + 1]);
      var p, c :| Enabled(run[i - 1], p, c) && run[i] == Next(run[i - 1], p, c);
      StepInv(run[i - 1], own, p, c);
    }
  }

  // ---------------------------------------------------------------- the theorems

  /** No assertion of the source fails, whatever the interleaving. In particular
      `assert (to_thread)` never fails: a thread that stops finds another to switch to. */
  lemma NoAssertionFails(extra: nat, run: seq<State>, i: nat, p: nat)
    requires Run(extra, run) && i < |run| && p < |run[i].procs|
    ensures !run[i].procs[p].pc.Failed?
    ensures run[i].procs[p].pc.Dequeued? ==> run[i].procs[p].pc.to.Some?
  {
    RunInv(extra, run, i);
    var own :| InvWith(run[i], own);
    assert IdleProc(run[i], run[i].procs[p]);
  }

  /** No thread is executed by two processors at once. */
  lemma SingleExecution(extra: nat, run: seq<State>, i: nat, p: nat, q: nat)
    requires Run(extra, run) && i < |run| && p < q < |run[i].procs|
    requires Executing(run[i].procs[p].pc) && Executing(run[i].procs[q].pc)
    ensures run[i].procs[p].cur != run[i].procs[q].cur
  {
    RunInv(extra, run, i);
  }

  /** When a processor has left the spin on its target's state, the target has a saved context
      and nobody executes it; so what it loads is what the last processor saved. */
  lemma ResumesSavedContext(extra: nat, run: seq<State>, i: nat, p: nat, q: nat)
    requires Run(extra, run) && i < |run| && p < |run[i].procs| && q < |run[i].procs|
    requires PastSpin(run[i].procs[p].pc)
    ensures run[i].procs[p].pc.t < |run[i].threads|
    ensures run[i].threads[run[i].procs[p].pc.t].saved.Some?
    ensures Executing(run[i].procs[q].pc) ==> run[i].procs[q].cur != run[i].procs[p].pc.t
  {
    RunInv(extra, run, i);
    var own :| InvWith(run[i], own);
    assert PcOk(run[i], run[i].procs[p].pc);
    TargetIdle(run[i], own, p, q);
  }

  /** The store of TS_RUNABLE by an exiting thread never hits a thread that a processor executes,
      although the waiter that it wakes may still have been running when it was dequeued. */
  lemma WokenNotExecuted(extra: nat, run: seq<State>, i: nat, p: nat, q: nat)
    requires Run(extra, run) && i < |run| && p < |run[i].procs| && q < |run[i].procs|
    requires run[i].procs[p].pc.Start? && run[i].procs[p].pc.storing && Executing(run[i].procs[q].pc)
    ensures run[i].procs[q].cur != run[i].procs[p].pc.t
  {
    RunInv(extra, run, i);
    var own :| InvWith(run[i], own);
    WokenIdle(run[i], own, p, q);
  }

  /** start_proc is called at most once for every thread, and not before it is first resumed. */
  lemma StartsOnce(extra: nat, run: seq<State>, i: nat, t: Tid)
    requires Run(extra, run) && i < |run| && t < |run[i].threads|
    ensures run[i].threads[t].starts == if run[i].threads[t].state.Nascent? then 0 else 1
  {
    RunInv(extra, run, i);
    var own :| InvWith(run[i], own);
    assert ThreadRecord(run[i], own, t);
  }

  /** Every thread has exactly one owner and stands on no queue twice: its one `next` field is
      never shared by two queues. */
  lemma OneOwner(extra: nat, run: seq<State>, i: nat, t: Tid)
    requires Run(extra, run) && i < |run| && t < |run[i].threads|
    ensures exists o :: OwnedBy(run[i], t, o) && forall o' | OwnedBy(run[i], t, o') :: o' == o
    ensures NoDuplicates(run[i].ready)
    ensures forall m | 0 <= m < |run[i].monitors| :: NoDuplicates(run[i].monitors[m].waiters)
  {
    RunInv(extra, run, i);
    var s := run[i];
    var own :| InvWith(s, own);
    assert OwnedBy(s, t, own[t]);
    forall o | OwnedBy(s, t, o) ensures o == own[t] {
      match o
      case ByProc(p) => assert Is(own, Owned(s.procs[p]), ByProc(p));
      case ByWaker(p) => assert Is(own, Waking(s.procs[p].pc), ByWaker(p));
      case InReady => assert Is(own, Some(t), InReady);
      case InWaiters(m) => assert Is(own, Some(t), InWaiters(m));
    }
  }

  /** At most one processor is between the exchange that takes a spinlock and the store that
      frees it. */
  lemma SpinlockExclusion(extra: nat, run: seq<State>, i: nat, p: nat, q: nat)
    requires Run(extra, run) && i < |run| && p < |run[i].procs| && q < |run[i].procs|
    requires LockHeld(run[i].procs[p].pc).Some? && LockHeld(run[i].procs[p].pc) == LockHeld(run[i].procs[q].pc)
    ensures p == q
  {
    RunInv(extra, run, i);
    var own :| InvWith(run[i], own);
  }

  /** `holder` names the one thread that has the monitor. */
  lemma MonitorExclusion(extra: nat, run: seq<State>, i: nat, m: Mid, t: Tid)
    requires Run(extra, run) && i < |run| && m < |run[i].monitors|
    ensures Has(run[i], t, m) <==> run[i].monitors[m].holder == Some(t)
  {
    RunInv(extra, run, i);
    var s := run[i];
    var own :| InvWith(s, own);
    if Has(s, t, m) {
      assert InsideHolds(s, t, m);
      if m !in s.threads[t].inside {
        var p :| 0 <= p < |s.procs| && s.procs[p].cur == t && Holding(s.procs[p].pc) == Some(m);
        assert MonitorPc(s, s.procs[p]);
      }
    }
  }

  /** While its spinlock is free, a monitor that nobody holds but some thread waits for has a
      dequeued waiter that is on its way to test it again: owned by a processor, by the exiting
      thread that wakes it, or by the ready queue, and by no waiter queue. */
  lemma NoLostWakeup(extra: nat, run: seq<State>, i: nat, m: Mid)
    requires Run(extra, run) && i < |run| && m < |run[i].monitors|
    requires !run[i].monitors[m].spin && run[i].monitors[m].holder.None? && run[i].monitors[m].waiters != []
    ensures exists t :: Returning(run[i], t, m)
              && forall n | 0 <= n < |run[i].monitors| :: t !in run[i].monitors[n].waiters
  {
    RunInv(extra, run, i);
    var s := run[i];
    var own :| InvWith(s, own);
    assert Wakeup(s, m);
    assert !SomeoneAt(s, InMonitor(m, Dequeue)) && !SomeoneAt(s, InMonitor(m, Take));
    var t :| Returning(s, t, m) && t !in s.monitors[m].waiters;
    forall n | 0 <= n < |s.monitors| && t in s.monitors[n].waiters ensures false {
      ReturningUnique(s, own, t, m, n);
    }
  }
}
