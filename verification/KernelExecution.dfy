/** What a processor executes: no thread runs on two processors, and a context is loaded only
    after the processor that last ran it has saved it. */
module KernelExecution {
  import opened Kernel
  import opened KernelOwnership

  /** The processor works on the stack of its current thread. Between the store of the old
      thread's state and the load of the new stack pointer it works on neither. */
  predicate Executing(pc: Pc) {
    !(pc.Switch? && pc.point.LoadSp?)
  }

  /** The thread has been loaded but its state is not yet TS_RUNNING. */
  predicate Resuming(pc: Pc) {
    pc.ResumeTest? || pc.ResumeRun?
  }

  /** The spin on the target's state is over. */
  predicate PastSpin(pc: Pc) {
    pc.Switch? && (pc.point.SaveSp? || pc.point.CommitState? || pc.point.LoadSp?)
  }

  predicate Started(s: State, t: Option<Tid>) {
    t.Some? ==> t.value < |s.threads| && !s.threads[t.value].state.Nascent?
  }

  /** The waiter that an exiting thread has taken off the monitor's queue. */
  function Woken(pc: Pc): Option<Tid> {
    match pc
    case ExitUnlock(_, w) => w
    case Start(t, _) => Some(t)
    case _ => None
  }

  predicate ProcOk(s: State, pr: Proc)
    requires pr.cur < |s.threads| && PcOk(s, pr.pc)
  {
    var th := s.threads[pr.cur];
    && (Executing(pr.pc) ==> th.state.Running? != Resuming(pr.pc))
    && (Executing(pr.pc) && !pr.pc.Failed? && !(pr.pc.Switch? && pr.pc.point.CommitState?) ==> th.saved.None?)
    && (pr.pc.ResumeTest? ==> (pr.pc.k.ToStart? <==> th.state.Nascent?))
    && (pr.pc.ResumeRun? ==> (pr.pc.k.ToStart? <==> th.state.Nascent?) && (pr.pc.first <==> th.state.Nascent?))
    && (pr.pc.Switch? && pr.pc.point.CommitState? ==> th.saved == Some(pr.pc.k))
    && (PastSpin(pr.pc) ==> !s.threads[pr.pc.t].state.Running?)
    && (pr.pc.Start? && pr.pc.storing ==> !s.threads[pr.pc.t].state.Running?)
    && Started(s, Woken(pr.pc))
  }

  /** A thread that is not running can be resumed, or a processor is just resuming it. */
  predicate ThreadRecord(s: State, own: seq<Owner>, t: Tid)
    requires t < |s.threads| == |own|
  {
    var th := s.threads[t];
    && (th.saved.Some? ==> (th.saved.value.ToStart? <==> th.state.Nascent?))
    && th.starts == (if th.state.Nascent? then 0 else 1)
    && (th.saved.None? && !th.state.Running? ==>
          && own[t].ByProc? && own[t].p < |s.procs|
          && s.procs[own[t].p].cur == t && Resuming(s.procs[own[t].p].pc))
  }

  /** No thread is executed by two processors. */
  ghost predicate DistinctStacks(s: State) {
    forall p, q | 0 <= p < q < |s.procs| && Executing(s.procs[p].pc) && Executing(s.procs[q].pc) ::
      s.procs[p].cur != s.procs[q].cur
  }

  ghost predicate ProcsOk(s: State)
    requires WellFormed(s)
  {
    forall p | 0 <= p < |s.procs| :: ProcOk(s, s.procs[p])
  }

  ghost predicate Records(s: State, own: seq<Owner>)
    requires |own| == |s.threads|
  {
    forall t | 0 <= t < |s.threads| :: ThreadRecord(s, own, t)
  }

  ghost predicate WaitersStarted(s: State) {
    forall m, t | 0 <= m < |s.monitors| && t in s.monitors[m].waiters :: Started(s, Some(t))
  }

  ghost predicate Execution(s: State, own: seq<Owner>)
    requires WellFormed(s) && |own| == |s.threads|
  {
    DistinctStacks(s) && ProcsOk(s) && Records(s, own) && WaitersStarted(s)
  }

  lemma InitExecution(extra: nat)
    ensures WellFormed(Init(extra)) && Execution(Init(extra), [ByProc(0), InReady])
  {
  }

  // ---------------------------------------------------------------- one step

  /** A processor loads only a context that has been saved, and that nobody executes. */
  lemma TargetIdle(s: State, own: seq<Owner>, p: nat, q: nat)
    requires WellFormed(s) && Ownership(s, own) && Execution(s, own)
    requires p < |s.procs| && q < |s.procs| && PastSpin(s.procs[p].pc)
    ensures s.threads[s.procs[p].pc.t].saved.Some?
    ensures Executing(s.procs[q].pc) ==> s.procs[q].cur != s.procs[p].pc.t
  {
    var t := s.procs[p].pc.t;
    assert own[t] == ByProc(p) && ThreadRecord(s, own, t);
    assert Is(own, Owned(s.procs[q]), ByProc(q));
  }

  /** Nobody executes a thread that a waker is about to mark runable. */
  lemma WokenIdle(s: State, own: seq<Owner>, p: nat, q: nat)
    requires WellFormed(s) && Ownership(s, own) && Execution(s, own)
    requires p < |s.procs| && q < |s.procs| && s.procs[p].pc.Start? && s.procs[p].pc.storing
    requires Executing(s.procs[q].pc)
    ensures s.procs[q].cur != s.procs[p].pc.t
  {
    assert own[s.procs[p].pc.t] == ByWaker(p);
    assert Is(own, Owned(s.procs[q]), ByProc(q));
  }

  // The stepping processor's own clauses, by program point.

  lemma CallProcOk(s: State, p: nat, c: Call, own: seq<Owner>)
    requires WellFormed(s) && Enabled(s, p, c) && Ownership(s, own) && Execution(s, own)
    requires !Next(s, p, c).procs[p].pc.Failed?
    requires s.procs[p].pc.Boot? || s.procs[p].pc.Client?
    ensures WellFormed(Next(s, p, c)) && ProcOk(Next(s, p, c), Next(s, p, c).procs[p])
  {
    ApplyWellFormed(s, p, NextAccess(s, p, c));
  }

  lemma QueueProcOk(s: State, p: nat, c: Call, own: seq<Owner>)
    requires WellFormed(s) && Enabled(s, p, c) && Ownership(s, own) && Execution(s, own)
    requires !Next(s, p, c).procs[p].pc.Failed?
    requires s.procs[p].pc.Acquire? || s.procs[p].pc.EnqueueUnlock? || s.procs[p].pc.Dequeued?
    ensures WellFormed(Next(s, p, c)) && ProcOk(Next(s, p, c), Next(s, p, c).procs[p])
  {
    ApplyWellFormed(s, p, NextAccess(s, p, c));
  }

  lemma SwitchProcOk(s: State, p: nat, c: Call, own: seq<Owner>)
    requires WellFormed(s) && Enabled(s, p, c) && Ownership(s, own) && Execution(s, own)
    requires !Next(s, p, c).procs[p].pc.Failed?
    requires s.procs[p].pc.Switch?
    ensures WellFormed(Next(s, p, c)) && ProcOk(Next(s, p, c), Next(s, p, c).procs[p])
  {
    ApplyWellFormed(s, p, NextAccess(s, p, c));
    assert ThreadRecord(s, own, s.procs[p].pc.t);
    if PastSpin(s.procs[p].pc) {
      TargetIdle(s, own, p, p);
    }
  }

  lemma ResumeProcOk(s: State, p: nat, c: Call, own: seq<Owner>)
    requires WellFormed(s) && Enabled(s, p, c) && Ownership(s, own) && Execution(s, own)
    requires !Next(s, p, c).procs[p].pc.Failed?
    requires Resuming(s.procs[p].pc)
    ensures WellFormed(Next(s, p, c)) && ProcOk(Next(s, p, c), Next(s, p, c).procs[p])
  {
    ApplyWellFormed(s, p, NextAccess(s, p, c));
  }

  lemma DequeueProcOk(s: State, p: nat, c: Call)
    requires WellFormed(s) && Enabled(s, p, c) && WellFormed(Next(s, p, c)) && s.procs[p].pc.InMonitor?
    requires s.procs[p].pc.where.Dequeue?
    requires ProcOk(s, s.procs[p]) && Started(s, Head(s.monitors[s.procs[p].pc.m].waiters))
    requires !Next(s, p, c).procs[p].pc.Failed?
    ensures ProcOk(Next(s, p, c), Next(s, p, c).procs[p])
  {
  }

  lemma InsideProcOk(s: State, p: nat, c: Call)
    requires WellFormed(s) && Enabled(s, p, c) && WellFormed(Next(s, p, c)) && s.procs[p].pc.InMonitor?
    requires !s.procs[p].pc.where.Dequeue?
    requires ProcOk(s, s.procs[p])
    requires !Next(s, p, c).procs[p].pc.Failed?
    ensures ProcOk(Next(s, p, c), Next(s, p, c).procs[p])
  {
  }

  lemma MonitorProcOk(s: State, p: nat, c: Call, own: seq<Owner>)
    requires WellFormed(s) && Enabled(s, p, c) && Ownership(s, own) && Execution(s, own)
    requires !Next(s, p, c).procs[p].pc.Failed?
    requires s.procs[p].pc.InMonitor?
    ensures WellFormed(Next(s, p, c)) && ProcOk(Next(s, p, c), Next(s, p, c).procs[p])
  {
    ApplyWellFormed(s, p, NextAccess(s, p, c));
    var ws := s.monitors[s.procs[p].pc.m].waiters;
    assert ws != [] ==> ws[0] in ws && Started(s, Some(ws[0]));
    assert ProcOk(s, s.procs[p]);
    if s.procs[p].pc.where.Dequeue? {
      DequeueProcOk(s, p, c);
    } else {
      InsideProcOk(s, p, c);
    }
  }

  lemma StartProcOk(s: State, p: nat, c: Call, own: seq<Owner>)
    requires WellFormed(s) && Enabled(s, p, c) && Ownership(s, own) && Execution(s, own)
    requires !Next(s, p, c).procs[p].pc.Failed?
    requires s.procs[p].pc.ExitUnlock? || s.procs[p].pc.Start?
    ensures WellFormed(Next(s, p, c)) && ProcOk(Next(s, p, c), Next(s, p, c).procs[p])
  {
    ApplyWellFormed(s, p, NextAccess(s, p, c));
  }

  lemma NextProcOk(s: State, p: nat, c: Call, own: seq<Owner>)
    requires WellFormed(s) && Enabled(s, p, c) && Ownership(s, own) && Execution(s, own)
    requires !Next(s, p, c).procs[p].pc.Failed?
    ensures WellFormed(Next(s, p, c)) && ProcOk(Next(s, p, c), Next(s, p, c).procs[p])
  {
    match s.procs[p].pc
    case Boot(_) => CallProcOk(s, p, c, own);
    case Client => CallProcOk(s, p, c, own);
    case Acquire(_, _) => QueueProcOk(s, p, c, own);
    case EnqueueUnlock(_) => QueueProcOk(s, p, c, own);
    case Dequeued(_, _, _) => QueueProcOk(s, p, c, own);
    case Switch(_, _, _) => SwitchProcOk(s, p, c, own);
    case ResumeTest(_) => ResumeProcOk(s, p, c, own);
    case ResumeRun(_, _) => ResumeProcOk(s, p, c, own);
    case InMonitor(_, _) => MonitorProcOk(s, p, c, own);
    case ExitUnlock(_, _) => StartProcOk(s, p, c, own);
    case Start(_, _) => StartProcOk(s, p, c, own);
  }

  // ---------------------------------------------------------------- what a step leaves alone

  /** What a step of processor p may do to thread t. */
  predicate Tames(s: State, own: seq<Owner>, p: nat, t: Tid, th: Thread)
    requires p < |s.procs| && t < |s.threads| == |own|
  {
    && (th.state.Nascent? ==> s.threads[t].state.Nascent?)
    && (th != s.threads[t] ==>
          || (Executing(s.procs[p].pc) && s.procs[p].cur == t)
          || (own[t] in {ByProc(p), ByWaker(p)} && !s.threads[t].state.Running?))
    && (th.state.Running? && !s.threads[t].state.Running? ==> own[t] == ByProc(p))
  }

  /** A step changes one processor, or starts another one that runs a thread of its own. */
  ghost predicate OneProc(s: State, p: nat, s': State) {
    && p < |s.procs| <= |s'.procs| <= |s.procs| + 1
    && (forall q | 0 <= q < |s.procs| && q != p :: s'.procs[q] == s.procs[q])
    && (|s'.procs| == |s.procs| + 1 ==>
          s'.procs[|s.procs|] == Proc(|s.threads|, Client) && s'.threads == s.threads + [IDLE_THREAD])
  }

  /** The stepping processor stays on its stack, or loads the target of its switch. */
  predicate OneStack(pr: Proc, pr': Proc) {
    Executing(pr'.pc) ==>
      || (pr'.cur == pr.cur && Executing(pr.pc))
      || (PastSpin(pr.pc) && pr'.cur == pr.pc.t)
  }

  ghost predicate Evolves(s: State, own: seq<Owner>, p: nat, s': State)
    requires |own| == |s.threads|
  {
    && OneProc(s, p, s') && OneStack(s.procs[p], s'.procs[p])
    && |s.threads| <= |s'.threads| && |s.monitors| <= |s'.monitors|
    && (forall t | 0 <= t < |s.threads| :: Tames(s, own, p, t, s'.threads[t]))
  }

  lemma StepOneProc(s: State, p: nat, c: Call)
    requires WellFormed(s) && Enabled(s, p, c)
    ensures OneProc(s, p, Next(s, p, c))
  {
  }

  lemma StepOneStack(s: State, p: nat, c: Call)
    requires WellFormed(s) && Enabled(s, p, c)
    ensures !Next(s, p, c).procs[p].pc.Failed? ==> OneStack(s.procs[p], Next(s, p, c).procs[p])
  {
  }

  lemma SwitchTames(s: State, p: nat, c: Call, own: seq<Owner>, t: Tid)
    requires WellFormed(s) && Enabled(s, p, c) && t < |s.threads| == |own|
    requires Is(own, Owned(s.procs[p]), ByProc(p)) && Is(own, Waking(s.procs[p].pc), ByWaker(p))
    requires ProcOk(s, s.procs[p]) && (s.procs[p].pc.Switch? || Resuming(s.procs[p].pc))
    ensures |s.threads| <= |Next(s, p, c).threads| && |s.monitors| <= |Next(s, p, c).monitors|
    ensures Tames(s, own, p, t, Next(s, p, c).threads[t])
  {
  }

  lemma OtherTames(s: State, p: nat, c: Call, own: seq<Owner>, t: Tid)
    requires WellFormed(s) && Enabled(s, p, c) && t < |s.threads| == |own|
    requires Is(own, Owned(s.procs[p]), ByProc(p)) && Is(own, Waking(s.procs[p].pc), ByWaker(p))
    requires ProcOk(s, s.procs[p]) && !s.procs[p].pc.Switch? && !Resuming(s.procs[p].pc)
    ensures |s.threads| <= |Next(s, p, c).threads| && |s.monitors| <= |Next(s, p, c).monitors|
    ensures Tames(s, own, p, t, Next(s, p, c).threads[t])
  {
  }

  lemma StepTames(s: State, p: nat, c: Call, own: seq<Owner>, t: Tid)
    requires WellFormed(s) && Enabled(s, p, c) && t < |s.threads| == |own|
    requires Is(own, Owned(s.procs[p]), ByProc(p)) && Is(own, Waking(s.procs[p].pc), ByWaker(p))
    requires ProcOk(s, s.procs[p])
    ensures |s.threads| <= |Next(s, p, c).threads| && |s.monitors| <= |Next(s, p, c).monitors|
    ensures Tames(s, own, p, t, Next(s, p, c).threads[t])
  {
    if s.procs[p].pc.Switch? || Resuming(s.procs[p].pc) {
      SwitchTames(s, p, c, own, t);
    } else {
      OtherTames(s, p, c, own, t);
    }
  }

  lemma StepEvolves(s: State, p: nat, c: Call, own: seq<Owner>)
    requires WellFormed(s) && Enabled(s, p, c) && Ownership(s, own) && Execution(s, own)
    requires !Next(s, p, c).procs[p].pc.Failed?
    ensures Evolves(s, own, p, Next(s, p, c))
  {
    StepOneProc(s, p, c);
    StepOneStack(s, p, c);
    StepTames(s, p, c, own, s.procs[p].cur);
    forall t | 0 <= t < |s.threads| ensures Tames(s, own, p, t, Next(s, p, c).threads[t]) {
      StepTames(s, p, c, own, t);
    }
  }

  // ---------------------------------------------------------------- the invariant is kept

  lemma DistinctStacksKept(s: State, own: seq<Owner>, p: nat, s': State)
    requires WellFormed(s) && Ownership(s, own) && Execution(s, own) && Evolves(s, own, p, s')
    ensures DistinctStacks(s')
  {
    forall q | 0 <= q < |s.procs| && q != p && Executing(s.procs[q].pc)
      ensures Executing(s'.procs[p].pc) ==> s'.procs[p].cur != s.procs[q].cur
    {
      if PastSpin(s.procs[p].pc) {
        TargetIdle(s, own, p, q);
      }
    }
  }

  lemma OtherProcOk(s: State, own: seq<Owner>, p: nat, s': State, q: nat)
    requires WellFormed(s) && WellFormed(s') && Ownership(s, own) && Execution(s, own) && Evolves(s, own, p, s')
    requires q < |s.procs| && q != p
    ensures ProcOk(s', s'.procs[q])
  {
    var pr := s.procs[q];
    assert ProcOk(s, pr) && s'.procs[q] == pr;
    assert Is(own, Owned(pr), ByProc(q)) && Is(own, Waking(pr.pc), ByWaker(q));
    assert Tames(s, own, p, pr.cur, s'.threads[pr.cur]);
    assert Executing(s.procs[p].pc) && Executing(pr.pc) ==> s.procs[p].cur != pr.cur;
    if pr.pc.Switch? || pr.pc.Start? {
      assert Tames(s, own, p, pr.pc.t, s'.threads[pr.pc.t]);
    }
  }

  lemma ProcsOkKept(s: State, own: seq<Owner>, p: nat, s': State)
    requires WellFormed(s) && WellFormed(s') && Ownership(s, own) && Execution(s, own) && Evolves(s, own, p, s')
    requires ProcOk(s', s'.procs[p])
    ensures ProcsOk(s')
  {
    forall q | 0 <= q < |s.procs| && q != p ensures ProcOk(s', s'.procs[q]) {
      OtherProcOk(s, own, p, s', q);
    }
  }

  lemma StepAddsThread(s: State, p: nat, c: Call)
    requires WellFormed(s) && Enabled(s, p, c)
    ensures |s.threads| <= |Next(s, p, c).threads| <= |s.threads| + 1
    ensures |Next(s, p, c).threads| == |s.threads| + 1 ==>
              Next(s, p, c).threads[|s.threads|] in {NASCENT_THREAD, IDLE_THREAD}
  {
  }

  predicate RecordPre(s: State, p: nat, c: Call, own: seq<Owner>, t: Tid)
    requires WellFormed(s) && Enabled(s, p, c) && |own| == |s.threads|
  {
    && t < |s.threads|
    && !Next(s, p, c).procs[p].pc.Failed?
    && ThreadRecord(s, own, t) && ProcOk(s, s.procs[p]) && YieldsSelf(s.procs[p])
    && (t in s.ready ==> own[t].InReady?)
    && (s.procs[p].pc.InMonitor? && t in s.monitors[s.procs[p].pc.m].waiters ==> own[t].InWaiters?)
    && Is(own, Owned(s.procs[p]), ByProc(p)) && Is(own, Waking(s.procs[p].pc), ByWaker(p))
  }

  /** The token of thread t: it goes to the processor that loads it and comes back when it is saved. */
  lemma SwitchRecord(s: State, p: nat, c: Call, own: seq<Owner>, own': seq<Owner>, t: Tid)
    requires WellFormed(s) && Enabled(s, p, c) && |own| == |s.threads| && RecordPre(s, p, c, own, t)
    requires own' == NextOwn(s, p, NextAccess(s, p, c), own) && |own'| == |Next(s, p, c).threads|
    requires s.procs[p].pc.Switch? || Resuming(s.procs[p].pc)
    ensures ThreadRecord(Next(s, p, c), own', t)
  {
  }

  lemma OtherRecord(s: State, p: nat, c: Call, own: seq<Owner>, own': seq<Owner>, t: Tid)
    requires WellFormed(s) && Enabled(s, p, c) && |own| == |s.threads| && RecordPre(s, p, c, own, t)
    requires own' == NextOwn(s, p, NextAccess(s, p, c), own) && |own'| == |Next(s, p, c).threads|
    requires !s.procs[p].pc.Switch? && !Resuming(s.procs[p].pc)
    requires !s.procs[p].pc.Client? && !s.procs[p].pc.Acquire? && !s.procs[p].pc.InMonitor?
    ensures ThreadRecord(Next(s, p, c), own', t)
  {
  }

  lemma AcquireRecord(s: State, p: nat, c: Call, own: seq<Owner>, own': seq<Owner>, t: Tid)
    requires WellFormed(s) && Enabled(s, p, c) && |own| == |s.threads| && RecordPre(s, p, c, own, t)
    requires own' == NextOwn(s, p, NextAccess(s, p, c), own) && |own'| == |Next(s, p, c).threads|
    requires s.procs[p].pc.Acquire?
    ensures ThreadRecord(Next(s, p, c), own', t)
  {
  }

  lemma MonitorRecord(s: State, p: nat, c: Call, own: seq<Owner>, own': seq<Owner>, t: Tid)
    requires WellFormed(s) && Enabled(s, p, c) && |own| == |s.threads| && RecordPre(s, p, c, own, t)
    requires own' == NextOwn(s, p, NextAccess(s, p, c), own) && |own'| == |Next(s, p, c).threads|
    requires s.procs[p].pc.InMonitor?
    ensures ThreadRecord(Next(s, p, c), own', t)
  {
  }

  lemma ClientRecord(s: State, p: nat, c: Call, own: seq<Owner>, own': seq<Owner>, t: Tid)
    requires WellFormed(s) && Enabled(s, p, c) && |own| == |s.threads| && RecordPre(s, p, c, own, t)
    requires own' == NextOwn(s, p, NextAccess(s, p, c), own) && |own'| == |Next(s, p, c).threads|
    requires s.procs[p].pc.Client?
    ensures ThreadRecord(Next(s, p, c), own', t)
  {
  }

  lemma StepRecord(s: State, p: nat, c: Call, own: seq<Owner>, own': seq<Owner>, t: Tid)
    requires WellFormed(s) && Enabled(s, p, c) && |own| == |s.threads| && RecordPre(s, p, c, own, t)
    requires own' == NextOwn(s, p, NextAccess(s, p, c), own) && |own'| == |Next(s, p, c).threads|
    ensures ThreadRecord(Next(s, p, c), own', t)
  {
    if s.procs[p].pc.Switch? || Resuming(s.procs[p].pc) {
      SwitchRecord(s, p, c, own, own', t);
    } else if s.procs[p].pc.Client? {
      ClientRecord(s, p, c, own, own', t);
    } else if s.procs[p].pc.Acquire? {
      AcquireRecord(s, p, c, own, own', t);
    } else if s.procs[p].pc.InMonitor? {
      MonitorRecord(s, p, c, own, own', t);
    } else {
      OtherRecord(s, p, c, own, own', t);
    }
  }

  lemma StepRecords(s: State, p: nat, c: Call, own: seq<Owner>)
    requires WellFormed(s) && Enabled(s, p, c) && Ownership(s, own) && Execution(s, own)
    requires !Next(s, p, c).procs[p].pc.Failed?
    ensures |NextOwn(s, p, NextAccess(s, p, c), own)| == |Next(s, p, c).threads|
    ensures Records(Next(s, p, c), NextOwn(s, p, NextAccess(s, p, c), own))
  {
    var own' := NextOwn(s, p, NextAccess(s, p, c), own);
    StepOwnership(s, p, c, own);
    forall t | 0 <= t < |s.threads| ensures ThreadRecord(Next(s, p, c), own', t) {
      assert ThreadRecord(s, own, t);
      StepRecord(s, p, c, own, own', t);
    }
    StepAddsThread(s, p, c);
  }

  /** A waiter queue gains at most the thread that steps. */
  lemma StepWaiters(s: State, p: nat, c: Call, m: Mid)
    requires WellFormed(s) && Enabled(s, p, c) && m < |Next(s, p, c).monitors|
    ensures forall t | t in Next(s, p, c).monitors[m].waiters ::
              || (m < |s.monitors| && t in s.monitors[m].waiters)
              || (t == s.procs[p].cur && s.procs[p].pc == InMonitor(m, Enqueue))
  {
  }

  lemma StepWaitersStarted(s: State, p: nat, c: Call, own: seq<Owner>)
    requires WellFormed(s) && Enabled(s, p, c) && Ownership(s, own) && Execution(s, own)
    requires Evolves(s, own, p, Next(s, p, c))
    ensures WaitersStarted(Next(s, p, c))
  {
    var s' := Next(s, p, c);
    forall m, t | 0 <= m < |s'.monitors| && t in s'.monitors[m].waiters ensures Started(s', Some(t)) {
      StepWaiters(s, p, c, m);
      if m < |s.monitors| && t in s.monitors[m].waiters {
        assert Started(s, Some(t));
      } else {
        assert ProcOk(s, s.procs[p]);
      }
      assert t < |s.threads| && !s.threads[t].state.Nascent?;
      assert Tames(s, own, p, t, s'.threads[t]);
    }
  }

  lemma StepExecution(s: State, p: nat, c: Call, own: seq<Owner>)
    requires WellFormed(s) && Enabled(s, p, c) && Ownership(s, own) && Execution(s, own)
    requires !Next(s, p, c).procs[p].pc.Failed?
    ensures WellFormed(Next(s, p, c))
    ensures |NextOwn(s, p, NextAccess(s, p, c), own)| == |Next(s, p, c).threads|
    ensures Execution(Next(s, p, c), NextOwn(s, p, NextAccess(s, p, c), own))
  {
    StepEvolves(s, p, c, own);
    NextProcOk(s, p, c, own);
    DistinctStacksKept(s, own, p, Next(s, p, c));
    ProcsOkKept(s, own, p, Next(s, p, c));
    StepRecords(s, p, c, own);
    StepWaitersStarted(s, p, c, own);
  }
}
