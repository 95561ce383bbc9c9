/** Why the ready queue is never empty when a thread stops: there is an idle thread for every
    processor, idle threads never block, and a stopping processor has given its own away. */
module KernelIdle {
  import opened Kernel
  import opened KernelOwnership
  import opened KernelExecution

  ghost function IdleSet(s: State): set<Tid> {
    set t: Tid | t < |s.threads| && s.threads[t].idle
  }

  predicate IsIdle(s: State, t: Option<Tid>) {
    t.Some? && t.value < |s.threads| && s.threads[t.value].idle
  }

  /** The program points of pthread_base's loop of yields. */
  predicate YieldLoop(pc: Pc) {
    match pc
    case Client => true
    case Acquire(c, _) => (c.ReadyEnqueue? && c.thenStop) || (c.ReadyDequeue? && c.k.ToClient?)
    case EnqueueUnlock(thenStop) => thenStop
    case Dequeued(_, k, _) => k.ToClient?
    case Switch(_, k, _) => k.ToClient?
    case ResumeTest(k) => !k.ToEnter?
    case ResumeRun(k, _) => !k.ToEnter?
    case _ => false
  }

  predicate IdleRecord(th: Thread) {
    th.idle ==> th.inside == {} && (th.saved.Some? ==> !th.saved.value.ToEnter?)
  }

  predicate IdleProc(s: State, pr: Proc)
    requires pr.cur < |s.threads|
  {
    && (Executing(pr.pc) && s.threads[pr.cur].idle ==> YieldLoop(pr.pc))
    && !IsIdle(s, Waking(pr.pc))
    && (pr.pc.Dequeued? ==> pr.pc.to.Some?)
  }

  ghost predicate Idles(s: State)
    requires WellFormed(s)
  {
    && |IdleSet(s)| == |s.procs|
    && (forall t | 0 <= t < |s.threads| :: IdleRecord(s.threads[t]))
    && (forall p | 0 <= p < |s.procs| :: IdleProc(s, s.procs[p]))
    && (forall m, t | 0 <= m < |s.monitors| && t in s.monitors[m].waiters :: !IsIdle(s, Some(t)))
  }

  // ---------------------------------------------------------------- the pigeonhole

  /** Threads that are owned one each by the given processors are no more than those. */
  lemma {:induction false} OneEach(ts: set<Tid>, hosts: set<nat>, own: seq<Owner>)
    requires forall t | t in ts :: t < |own| && own[t].ByProc? && own[t].p in hosts
    requires forall t, u | t in ts && u in ts && own[t] == own[u] :: t == u
    ensures |ts| <= |hosts|
    decreases |ts|
  {
    if ts == {} {
    } else {
      var t :| t in ts;
      OneEach(ts - {t}, hosts - {own[t].p}, own);
    }
  }

  ghost function Below(n: nat): (r: set<nat>)
    ensures |r| == n
    ensures forall q: nat :: q in r <==> q < n
  {
    if n == 0 then {} else Below(n - 1) + {n - 1}
  }

  /** A processor that owns no thread finds the ready queue non-empty. */
  lemma ReadyNotEmpty(s: State, own: seq<Owner>, p: nat)
    requires WellFormed(s) && Ownership(s, own) && Idles(s)
    requires p < |s.procs| && Owned(s.procs[p]) == None
    ensures s.ready != []
  {
    if s.ready == [] {
      var hosts := Below(|s.procs|);
      forall t | t in IdleSet(s)
        ensures own[t].ByProc? && own[t].p in hosts - {p} && Owned(s.procs[own[t].p]) == Some(t)
      {
        assert OwnedBy(s, t, own[t]);
        assert own[t].InWaiters? ==> !IsIdle(s, Some(t));
      }
      OneEach(IdleSet(s), hosts - {p}, own);
      assert false;
    }
  }

  // ---------------------------------------------------------------- one step

  lemma InitIdles(extra: nat)
    ensures WellFormed(Init(extra)) && Idles(Init(extra))
  {
    assert IdleSet(Init(extra)) == {1};
  }

  predicate IdleKept(s: State, p: nat, s': State, t: Tid)
    requires p < |s.procs| && t < |s.threads| <= |s'.threads|
  {
    && s'.threads[t].idle == s.threads[t].idle
    && IdleRecord(s'.threads[t])
  }

  lemma StepIdleRecord(s: State, p: nat, c: Call, t: Tid)
    requires WellFormed(s) && Enabled(s, p, c) && t < |s.threads|
    requires IdleRecord(s.threads[t]) && IdleProc(s, s.procs[p])
    ensures |s.threads| <= |Next(s, p, c).threads| && IdleKept(s, p, Next(s, p, c), t)
  {
  }

  lemma StepIdleSet(s: State, p: nat, c: Call)
    requires WellFormed(s) && Enabled(s, p, c)
    ensures |s.procs| <= |Next(s, p, c).procs| && |s.threads| <= |Next(s, p, c).threads| <= |s.threads| + 1
    ensures |Next(s, p, c).threads| > |s.threads| ==>
              var th := Next(s, p, c).threads[|s.threads|];
              (th == IDLE_THREAD || th == NASCENT_THREAD) && (th.idle <==> |Next(s, p, c).procs| == |s.procs| + 1)
    ensures |Next(s, p, c).threads| == |s.threads| ==> |Next(s, p, c).procs| == |s.procs|
    ensures |Next(s, p, c).procs| <= |s.procs| + 1
  {
  }

  /** A pop of the ready queue finds a thread. */
  predicate PopsThread(s: State, pr: Proc) {
    pr.pc.Acquire? && pr.pc.at.Held? && pr.pc.c.ReadyDequeue? ==> s.ready != []
  }

  predicate TargetRecord(s: State, pr: Proc)
    requires PcOk(s, pr.pc)
  {
    pr.pc.Switch? ==> IdleRecord(s.threads[pr.pc.t])
  }

  predicate HeadNotIdle(s: State, pr: Proc)
    requires PcOk(s, pr.pc)
  {
    pr.pc.InMonitor? ==> !IsIdle(s, Head(s.monitors[pr.pc.m].waiters))
  }

  ghost predicate IdleStepPre(s: State, p: nat, c: Call)
    requires WellFormed(s) && Enabled(s, p, c)
  {
    && IdleProc(s, s.procs[p])
    && IdleRecord(s.threads[s.procs[p].cur]) && TargetRecord(s, s.procs[p])
    && PopsThread(s, s.procs[p]) && HeadNotIdle(s, s.procs[p])
    && p < |Next(s, p, c).procs| && Next(s, p, c).procs[p].cur < |Next(s, p, c).threads|
    && !Next(s, p, c).procs[p].pc.Failed?
  }

  lemma AcquireIdleProc(s: State, p: nat, c: Call)
    requires WellFormed(s) && Enabled(s, p, c) && IdleStepPre(s, p, c)
    requires s.procs[p].pc.Acquire?
    ensures IdleProc(Next(s, p, c), Next(s, p, c).procs[p])
  {
  }

  lemma WakingIdleProc(s: State, p: nat, c: Call)
    requires WellFormed(s) && Enabled(s, p, c) && IdleStepPre(s, p, c)
    requires s.procs[p].pc.InMonitor? && s.procs[p].pc.where.Dequeue?
    ensures IdleProc(Next(s, p, c), Next(s, p, c).procs[p])
  {
  }

  lemma EnteringIdleProc(s: State, p: nat, c: Call)
    requires WellFormed(s) && Enabled(s, p, c) && IdleStepPre(s, p, c)
    requires s.procs[p].pc.InMonitor? && !s.procs[p].pc.where.Dequeue?
    ensures IdleProc(Next(s, p, c), Next(s, p, c).procs[p])
  {
  }

  lemma MonitorIdleProc(s: State, p: nat, c: Call)
    requires WellFormed(s) && Enabled(s, p, c) && IdleStepPre(s, p, c)
    requires s.procs[p].pc.InMonitor?
    ensures IdleProc(Next(s, p, c), Next(s, p, c).procs[p])
  {
    if s.procs[p].pc.where.Dequeue? {
      WakingIdleProc(s, p, c);
    } else {
      EnteringIdleProc(s, p, c);
    }
  }

  lemma SwitchIdleProc(s: State, p: nat, c: Call)
    requires WellFormed(s) && Enabled(s, p, c) && IdleStepPre(s, p, c)
    requires s.procs[p].pc.Dequeued? || s.procs[p].pc.Switch? || s.procs[p].pc.ResumeTest? || s.procs[p].pc.ResumeRun?
    ensures IdleProc(Next(s, p, c), Next(s, p, c).procs[p])
  {
  }

  lemma OtherIdleProc(s: State, p: nat, c: Call)
    requires WellFormed(s) && Enabled(s, p, c) && IdleStepPre(s, p, c)
    requires s.procs[p].pc.Boot? || s.procs[p].pc.Client? || s.procs[p].pc.EnqueueUnlock?
          || s.procs[p].pc.ExitUnlock? || s.procs[p].pc.Start?
    ensures IdleProc(Next(s, p, c), Next(s, p, c).procs[p])
  {
  }

  lemma OtherIdle(s: State, p: nat, s': State, q: nat)
    requires WellFormed(s) && OneProc(s, p, s') && Idles(s) && q < |s.procs| && q != p
    requires |s.threads| <= |s'.threads|
    requires forall t | 0 <= t < |s.threads| :: IdleKept(s, p, s', t)
    ensures IdleProc(s', s'.procs[q])
  {
    var pr := s.procs[q];
    assert s'.procs[q] == pr && IdleProc(s, pr);
    assert IdleKept(s, p, s', pr.cur);
    if Waking(pr.pc).Some? {
      assert IdleKept(s, p, s', Waking(pr.pc).value);
    }
  }

  lemma StepWaitersNotIdle(s: State, p: nat, c: Call)
    requires WellFormed(s) && Enabled(s, p, c) && Idles(s)
    requires |s.threads| <= |Next(s, p, c).threads|
    requires forall t | 0 <= t < |s.threads| :: IdleKept(s, p, Next(s, p, c), t)
    ensures forall m, t | 0 <= m < |Next(s, p, c).monitors| && t in Next(s, p, c).monitors[m].waiters ::
              !IsIdle(Next(s, p, c), Some(t))
  {
    var s' := Next(s, p, c);
    forall m, t | 0 <= m < |s'.monitors| && t in s'.monitors[m].waiters ensures !IsIdle(s', Some(t)) {
      StepWaiters(s, p, c, m);
      assert IdleProc(s, s.procs[p]);
      assert t < |s.threads| && !IsIdle(s, Some(t));
      assert IdleKept(s, p, s', t);
    }
  }

  /** The thread that a step adds is idle exactly if it comes with a processor. */
  lemma IdleCount(s: State, p: nat, s': State)
    requires WellFormed(s) && p < |s.procs| && |IdleSet(s)| == |s.procs|
    requires |s.threads| <= |s'.threads| <= |s.threads| + 1
    requires forall t | 0 <= t < |s.threads| :: IdleKept(s, p, s', t)
    requires if |s'.threads| > |s.threads| && s'.threads[|s.threads|].idle then |s'.procs| == |s.procs| + 1
             else |s'.procs| == |s.procs|
    ensures |IdleSet(s')| == |s'.procs|
  {
    forall t: Tid
      ensures t in IdleSet(s') <==> t in IdleSet(s) || (t == |s.threads| < |s'.threads| && s'.threads[t].idle)
    {
      if t < |s.threads| {
        assert IdleKept(s, p, s', t);
      }
    }
    if |s'.threads| > |s.threads| && s'.threads[|s.threads|].idle {
      assert IdleSet(s') == IdleSet(s) + {|s.threads|};
    } else {
      assert IdleSet(s') == IdleSet(s);
    }
  }

  lemma StepIdleProc(s: State, p: nat, c: Call)
    requires WellFormed(s) && Enabled(s, p, c) && IdleStepPre(s, p, c)
    ensures IdleProc(Next(s, p, c), Next(s, p, c).procs[p])
  {
    if s.procs[p].pc.Acquire? {
      AcquireIdleProc(s, p, c);
    } else if s.procs[p].pc.InMonitor? {
      MonitorIdleProc(s, p, c);
    } else if s.procs[p].pc.Dequeued? || s.procs[p].pc.Switch?
           || s.procs[p].pc.ResumeTest? || s.procs[p].pc.ResumeRun?
    {
      SwitchIdleProc(s, p, c);
    } else {
      OtherIdleProc(s, p, c);
    }
  }

  lemma StepIdleProcs(s: State, p: nat, c: Call, own: seq<Owner>)
    requires WellFormed(s) && Enabled(s, p, c) && Ownership(s, own) && Idles(s)
    requires !Next(s, p, c).procs[p].pc.Failed?
    requires WellFormed(Next(s, p, c)) && OneProc(s, p, Next(s, p, c)) && |s.threads| <= |Next(s, p, c).threads|
    requires forall t | 0 <= t < |s.threads| :: IdleKept(s, p, Next(s, p, c), t)
    ensures forall q | 0 <= q < |s.procs| :: IdleProc(Next(s, p, c), Next(s, p, c).procs[q])
  {
    var pr := s.procs[p];
    assert IdleProc(s, pr);
    if pr.pc.Acquire? && pr.pc.at.Held? && pr.pc.c.ReadyDequeue? {
      ReadyNotEmpty(s, own, p);
    }
    StepIdleProc(s, p, c);
    forall q | 0 <= q < |s.procs| && q != p ensures IdleProc(Next(s, p, c), Next(s, p, c).procs[q]) {
      OtherIdle(s, p, Next(s, p, c), q);
    }
  }

  lemma NewProcIdle(s: State, p: nat, c: Call)
    requires WellFormed(s) && Enabled(s, p, c) && WellFormed(Next(s, p, c))
    ensures forall q | |s.procs| <= q < |Next(s, p, c).procs| :: IdleProc(Next(s, p, c), Next(s, p, c).procs[q])
  {
  }

  lemma StepIdles(s: State, p: nat, c: Call, own: seq<Owner>)
    requires WellFormed(s) && Enabled(s, p, c) && Ownership(s, own) && Idles(s)
    requires !Next(s, p, c).procs[p].pc.Failed?
    ensures WellFormed(Next(s, p, c)) && Idles(Next(s, p, c))
  {
    ApplyWellFormed(s, p, NextAccess(s, p, c));
    StepOneProc(s, p, c);
    StepIdleSet(s, p, c);
    NewProcIdle(s, p, c);
    assert IdleProc(s, s.procs[p]);
    forall t | 0 <= t < |s.threads| ensures IdleKept(s, p, Next(s, p, c), t) {
      StepIdleRecord(s, p, c, t);
    }
    StepIdleProcs(s, p, c, own);
    StepWaitersNotIdle(s, p, c);
    IdlesAfter(s, p, Next(s, p, c));
  }

  lemma IdlesAfter(s: State, p: nat, s': State)
    requires WellFormed(s) && WellFormed(s') && Idles(s) && p < |s.procs| <= |s'.procs|
    requires |s.threads| <= |s'.threads| <= |s.threads| + 1
    requires forall t | 0 <= t < |s.threads| :: IdleKept(s, p, s', t)
    requires |s'.threads| > |s.threads| ==>
               s'.threads[|s.threads|] == IDLE_THREAD || s'.threads[|s.threads|] == NASCENT_THREAD
    requires if |s'.threads| > |s.threads| && s'.threads[|s.threads|].idle then |s'.procs| == |s.procs| + 1
             else |s'.procs| == |s.procs|
    requires forall q | 0 <= q < |s'.procs| :: IdleProc(s', s'.procs[q])
    requires forall m, t | 0 <= m < |s'.monitors| && t in s'.monitors[m].waiters :: !IsIdle(s', Some(t))
    ensures Idles(s')
  {
    IdleCount(s, p, s');
    forall t | 0 <= t < |s'.threads| ensures IdleRecord(s'.threads[t]) {
      assert t < |s.threads| ==> IdleKept(s, p, s', t);
    }
  }
}
