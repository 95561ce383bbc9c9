/** What the state of a thread says on any number of processors: a thread that no processor
    executes is nascent, runable or blocked as its saved context wants it. */
module KernelStates {
  import opened Kernel
  import opened KernelOwnership
  import opened KernelExecution
  import opened KernelWakeup
  import opened KernelSafety

  predicate ExecutedBy(s: State, p: nat, t: Tid) {
    p < |s.procs| && s.procs[p].cur == t && Executing(s.procs[p].pc)
  }

  /** t is on the waiter queue of some monitor. */
  ghost predicate Waits(s: State, t: Tid) {
    exists m :: 0 <= m < |s.monitors| && t in s.monitors[m].waiters
  }

  /** A waiter that has been woken counts as runable, unless it was woken before it had stored its
      state. */
  predicate Fits(th: Thread, waits: bool) {
    match th.saved
    case None => true
    case Some(ToStart) => th.state.Nascent?
    case Some(ToClient) => th.state.Runable?
    case Some(ToEnter(_)) => th.state.Blocked? || (th.state.Runable? && !waits)
  }

  ghost predicate StateFits(s: State, t: Tid)
    requires t < |s.threads|
  {
    (forall p :: !ExecutedBy(s, p, t)) ==> Fits(s.threads[t], Waits(s, t))
  }

  // ---------------------------------------------------------------- one step

  /** A step changes a thread that its processor does not execute by loading it, or by waking it. */
  lemma StepOther(s: State, p: nat, c: Call, t: Tid)
    requires WellFormed(s) && Enabled(s, p, c) && t < |s.threads| && !ExecutedBy(s, p, t)
    ensures t < |Next(s, p, c).threads|
    ensures var th, th' := s.threads[t], Next(s, p, c).threads[t];
            || th' == th
            || ExecutedBy(Next(s, p, c), p, t)
            || (s.procs[p].pc == Start(t, true) && th' == th.(state := Runable))
  {
  }

  /** The processor that stops executing t has saved its context, and stores the state that goes
      with it. */
  lemma StepLeaves(s: State, p: nat, c: Call, t: Tid)
    requires WellFormed(s) && Enabled(s, p, c) && ExecutedBy(s, p, t) && ProcOk(s, s.procs[p])
    requires !Next(s, p, c).procs[p].pc.Failed? && !ExecutedBy(Next(s, p, c), p, t)
    ensures t < |Next(s, p, c).threads| && Fits(Next(s, p, c).threads[t], true)
  {
  }

  lemma StepWaits(s: State, p: nat, c: Call, t: Tid)
    requires WellFormed(s) && Enabled(s, p, c) && Waits(Next(s, p, c), t)
    ensures Waits(s, t) || (s.procs[p].cur == t && s.procs[p].pc.InMonitor?)
  {
    var s' := Next(s, p, c);
    var m :| 0 <= m < |s'.monitors| && t in s'.monitors[m].waiters;
    StepWaiters(s, p, c, m);
  }

  lemma StartedFits(s: State, own: seq<Owner>, p: nat, t: Tid)
    requires InvWith(s, own) && p < |s.procs| && s.procs[p].pc == Start(t, true) && t < |s.threads|
    requires Fits(s.threads[t], Waits(s, t))
    ensures Fits(s.threads[t].(state := Runable), false) && !Waits(s, t)
  {
    assert ProcOk(s, s.procs[p]) && Is(own, Waking(s.procs[p].pc), ByWaker(p));
    forall m | 0 <= m < |s.monitors| ensures t !in s.monitors[m].waiters {
      assert t in s.monitors[m].waiters ==> Is(own, Some(t), InWaiters(m));
    }
  }

  lemma StepFits(s: State, own: seq<Owner>, p: nat, c: Call, t: Tid)
    requires InvWith(s, own) && Enabled(s, p, c) && t < |s.threads| && StateFits(s, t)
    ensures t < |Next(s, p, c).threads| && StateFits(Next(s, p, c), t)
  {
    var s' := Next(s, p, c);
    StepNoFault(s, own, p, c);
    StepOneProc(s, p, c);
    assert ProcOk(s, s.procs[p]);
    if ExecutedBy(s, p, t) {
      StepAddsThread(s, p, c);
      if !ExecutedBy(s', p, t) {
        StepLeaves(s, p, c, t);
      }
    } else {
      StepOther(s, p, c, t);
      if forall q :: !ExecutedBy(s', q, t) {
        NotExecutedBefore(s, p, c, t);
        if Waits(s', t) {
          StepWaits(s, p, c, t);
        }
        if s'.threads[t] != s.threads[t] {
          StartedFits(s, own, p, t);
        }
      }
    }
  }

  lemma NotExecutedBefore(s: State, p: nat, c: Call, t: Tid)
    requires WellFormed(s) && Enabled(s, p, c) && !ExecutedBy(s, p, t)
    requires forall q :: !ExecutedBy(Next(s, p, c), q, t)
    ensures forall q :: !ExecutedBy(s, q, t)
  {
    StepOneProc(s, p, c);
    forall q | ExecutedBy(s, q, t) ensures false {
      assert ExecutedBy(Next(s, p, c), q, t);
    }
  }

  // ---------------------------------------------------------------- runs

  lemma NewFits(s: State, p: nat, c: Call)
    requires WellFormed(s) && Enabled(s, p, c)
    ensures forall t | |s.threads| <= t < |Next(s, p, c).threads| :: StateFits(Next(s, p, c), t)
  {
    StepAddsThread(s, p, c);
  }

  ghost predicate StatesFit(s: State) {
    forall t | 0 <= t < |s.threads| :: StateFits(s, t)
  }

  lemma {:induction false} RunFits(extra: nat, run: seq<State>, i: nat)
    requires Run(extra, run) && i < |run|
    ensures StatesFit(run[i])
  {
    if i == 0 {
      assert Fits(NASCENT_THREAD, true);
    } else {
      RunFits(extra, run, i - 1);
      RunInv(extra, run, i - 1);
      var s := run[i - 1];
      var own :| InvWith(s, own);
      assert Step(run[i - 1], run[i - 1 + 1]);
      var p, c :| Enabled(s, p, c) && run[i] == Next(s, p, c);
      NewFits(s, p, c);
      forall t | 0 <= t < |run[i].threads| ensures StateFits(run[i], t) {
        if t < |s.threads| {
          StepFits(s, own, p, c, t);
        }
      }
    }
  }

  /** A thread that no processor executes is nascent if it has never run, runable if it has
      yielded, and blocked if it waits for a monitor; a waiter that has left its queue may be
      runable or, if it was taken off before it stored its state, still blocked. */
  lemma StatesSayWhatThreadsDo(extra: nat, run: seq<State>, i: nat, t: Tid)
    requires Run(extra, run) && i < |run| && t < |run[i].threads|
    requires forall p :: !ExecutedBy(run[i], p, t)
    ensures run[i].threads[t].saved == Some(ToStart) ==> run[i].threads[t].state == Nascent
    ensures run[i].threads[t].saved == Some(ToClient) ==> run[i].threads[t].state == Runable
    ensures run[i].threads[t].saved.Some? && run[i].threads[t].saved.value.ToEnter? ==>
              run[i].threads[t].state in {Blocked, Runable}
    ensures Waits(run[i], t) ==> run[i].threads[t].state == Blocked
  {
    RunFits(extra, run, i);
    var s := run[i];
    assert StateFits(s, t);
    if Waits(s, t) {
      RunInv(extra, run, i);
      var own :| InvWith(s, own);
      var m :| 0 <= m < |s.monitors| && t in s.monitors[m].waiters;
      assert Returning(s, t, m);
      if s.threads[t].saved != Some(ToEnter(m)) {
        var p :| 0 <= p < |s.procs| && s.procs[p].cur == t && Retests(s.procs[p].pc, m);
        assert ExecutedBy(s, p, t);
      }
    }
  }
}
