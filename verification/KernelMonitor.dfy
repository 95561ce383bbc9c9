/** Spinlocks and monitors: mutual exclusion from the exchange loop up to the client code
    between enter and exit. */
module KernelMonitor {
  import opened Kernel
  import opened KernelOwnership
  import opened KernelExecution

  // ---------------------------------------------------------------- spinlocks

  /** The spinlock that a processor at this program point has taken and not yet released. */
  function LockHeld(pc: Pc): Option<Lock> {
    match pc
    case Acquire(c, at) => if at.Held? then Some(LockOf(c)) else None
    case EnqueueUnlock(_) => Some(ReadyLock)
    case Dequeued(_, _, unlocked) => if unlocked then None else Some(ReadyLock)
    case InMonitor(m, where) => if where.EnterReturn? then None else Some(MonitorLock(m))
    case ExitUnlock(m, _) => Some(MonitorLock(m))
    case _ => None
  }

  /** No spinlock is held twice, and a held one reads as locked. */
  ghost predicate Locking(s: State)
    requires WellFormed(s)
  {
    && (forall p, q | 0 <= p < q < |s.procs| && LockHeld(s.procs[p].pc).Some? ::
          LockHeld(s.procs[p].pc) != LockHeld(s.procs[q].pc))
    && (forall p | 0 <= p < |s.procs| && LockHeld(s.procs[p].pc).Some? ::
          LockOk(s, LockHeld(s.procs[p].pc).value) && IsLocked(s, LockHeld(s.procs[p].pc).value))
  }

  /** What a step does to lock l: the stepping processor takes it free, gives back its own, or
      leaves it as it is. */
  ghost predicate LockMoves(s: State, p: nat, s': State, l: Lock)
    requires WellFormed(s) && WellFormed(s') && p < |s.procs| <= |s'.procs| && LockOk(s, l) && LockOk(s', l)
  {
    var before, after := LockHeld(s.procs[p].pc) == Some(l), LockHeld(s'.procs[p].pc) == Some(l);
    && (!before && after ==> !IsLocked(s, l) && IsLocked(s', l))
    && (before == after ==> IsLocked(s', l) == IsLocked(s, l))
  }

  predicate InMonitorCode(pc: Pc) {
    pc.InMonitor? || pc.ExitUnlock? || pc.Start?
  }

  lemma AcquireLock(s: State, p: nat, c: Call, l: Lock)
    requires WellFormed(s) && Enabled(s, p, c) && LockOk(s, l)
    requires WellFormed(Next(s, p, c)) && s.procs[p].pc.Acquire?
    ensures LockOk(Next(s, p, c), l) && |s.procs| <= |Next(s, p, c).procs|
    ensures LockMoves(s, p, Next(s, p, c), l)
    ensures LockHeld(Next(s, p, c).procs[p].pc).Some? ==> LockOk(s, LockHeld(Next(s, p, c).procs[p].pc).value)
  {
  }

  lemma UnlockMoves(s: State, p: nat, c: Call, l: Lock)
    requires WellFormed(s) && Enabled(s, p, c) && LockOk(s, l)
    requires WellFormed(Next(s, p, c)) && s.procs[p].pc.InMonitor?
    requires s.procs[p].pc.where.UnlockWait? || s.procs[p].pc.where.UnlockTaken?
    ensures LockOk(Next(s, p, c), l) && |s.procs| <= |Next(s, p, c).procs|
    ensures LockMoves(s, p, Next(s, p, c), l)
    ensures LockHeld(Next(s, p, c).procs[p].pc).Some? ==> LockOk(s, LockHeld(Next(s, p, c).procs[p].pc).value)
  {
  }

  lemma InsideLockStays(s: State, p: nat, c: Call, l: Lock)
    requires WellFormed(s) && Enabled(s, p, c) && LockOk(s, l)
    requires WellFormed(Next(s, p, c)) && s.procs[p].pc.InMonitor?
    requires !s.procs[p].pc.where.UnlockWait? && !s.procs[p].pc.where.UnlockTaken?
    ensures LockOk(Next(s, p, c), l) && |s.procs| <= |Next(s, p, c).procs|
    ensures LockMoves(s, p, Next(s, p, c), l)
    ensures LockHeld(Next(s, p, c).procs[p].pc).Some? ==> LockOk(s, LockHeld(Next(s, p, c).procs[p].pc).value)
  {
  }

  lemma LeavingLockMoves(s: State, p: nat, c: Call, l: Lock)
    requires WellFormed(s) && Enabled(s, p, c) && LockOk(s, l)
    requires WellFormed(Next(s, p, c)) && (s.procs[p].pc.ExitUnlock? || s.procs[p].pc.Start?)
    ensures LockOk(Next(s, p, c), l) && |s.procs| <= |Next(s, p, c).procs|
    ensures LockMoves(s, p, Next(s, p, c), l)
    ensures LockHeld(Next(s, p, c).procs[p].pc).Some? ==> LockOk(s, LockHeld(Next(s, p, c).procs[p].pc).value)
  {
  }

  lemma MonitorLockMoves(s: State, p: nat, c: Call, l: Lock)
    requires WellFormed(s) && Enabled(s, p, c) && LockOk(s, l)
    requires WellFormed(Next(s, p, c)) && InMonitorCode(s.procs[p].pc)
    ensures LockOk(Next(s, p, c), l) && |s.procs| <= |Next(s, p, c).procs|
    ensures LockMoves(s, p, Next(s, p, c), l)
    ensures LockHeld(Next(s, p, c).procs[p].pc).Some? ==> LockOk(s, LockHeld(Next(s, p, c).procs[p].pc).value)
  {
    if s.procs[p].pc.InMonitor? {
      if s.procs[p].pc.where.UnlockWait? || s.procs[p].pc.where.UnlockTaken? {
        UnlockMoves(s, p, c, l);
      } else {
        InsideLockStays(s, p, c, l);
      }
    } else {
      LeavingLockMoves(s, p, c, l);
    }
  }

  lemma OtherLock(s: State, p: nat, c: Call, l: Lock)
    requires WellFormed(s) && Enabled(s, p, c) && LockOk(s, l)
    requires WellFormed(Next(s, p, c)) && !s.procs[p].pc.Acquire? && !InMonitorCode(s.procs[p].pc)
    ensures LockOk(Next(s, p, c), l) && |s.procs| <= |Next(s, p, c).procs|
    ensures LockMoves(s, p, Next(s, p, c), l)
    ensures LockHeld(Next(s, p, c).procs[p].pc).Some? ==> LockOk(s, LockHeld(Next(s, p, c).procs[p].pc).value)
  {
  }

  lemma StepLock(s: State, p: nat, c: Call, l: Lock)
    requires WellFormed(s) && Enabled(s, p, c) && LockOk(s, l)
    requires WellFormed(Next(s, p, c))
    ensures LockOk(Next(s, p, c), l) && |s.procs| <= |Next(s, p, c).procs|
    ensures LockMoves(s, p, Next(s, p, c), l)
    ensures LockHeld(Next(s, p, c).procs[p].pc).Some? ==> LockOk(s, LockHeld(Next(s, p, c).procs[p].pc).value)
  {
    if s.procs[p].pc.Acquire? {
      AcquireLock(s, p, c, l);
    } else if InMonitorCode(s.procs[p].pc) {
      MonitorLockMoves(s, p, c, l);
    } else {
      OtherLock(s, p, c, l);
    }
  }

  lemma StepLocking(s: State, p: nat, c: Call)
    requires WellFormed(s) && Enabled(s, p, c) && Locking(s)
    ensures WellFormed(Next(s, p, c)) && Locking(Next(s, p, c))
  {
    var s' := Next(s, p, c);
    ApplyWellFormed(s, p, NextAccess(s, p, c));
    StepOneProc(s, p, c);
    StepLock(s, p, c, ReadyLock);
    var mine := LockHeld(s'.procs[p].pc);
    if mine.Some? {
      StepLock(s, p, c, mine.value);
    }
    forall q | 0 <= q < |s.procs| && q != p && LockHeld(s.procs[q].pc).Some?
      ensures LockHeld(s'.procs[q].pc) != mine
      ensures LockOk(s', LockHeld(s'.procs[q].pc).value) && IsLocked(s', LockHeld(s'.procs[q].pc).value)
    {
      StepLock(s, p, c, LockHeld(s.procs[q].pc).value);
    }
  }

  // ---------------------------------------------------------------- monitors

  /** The monitor whose holder the processor's current thread is, inside enter or exit. */
  function Holding(pc: Pc): Option<Mid> {
    match pc
    case Acquire(c, _) => if c.ExitTest? then Some(c.m) else None
    case InMonitor(m, where) => if where.UnlockTaken? || where.EnterReturn? || where.Clear? then Some(m) else None
    case _ => None
  }

  /** Thread t has monitor m: its client code is between enter and exit, or it is on the way
      into or out of that code. */
  ghost predicate Has(s: State, t: Tid, m: Mid) {
    && t < |s.threads|
    && (m in s.threads[t].inside
        || exists p :: 0 <= p < |s.procs| && s.procs[p].cur == t && Holding(s.procs[p].pc) == Some(m))
  }

  predicate MonitorPc(s: State, pr: Proc)
    requires pr.cur < |s.threads| && PcOk(s, pr.pc)
  {
    && (Holding(pr.pc).Some? ==>
          && Holding(pr.pc).value < |s.monitors|
          && s.monitors[Holding(pr.pc).value].holder == Some(pr.cur)
          && Holding(pr.pc).value !in s.threads[pr.cur].inside)
    && (pr.pc.InMonitor? && pr.pc.where.Enqueue? ==> s.monitors[pr.pc.m].holder.Some?)
    && (pr.pc.InMonitor? && (pr.pc.where.Take? || pr.pc.where.Dequeue?) ==> s.monitors[pr.pc.m].holder.None?)
  }

  predicate InsideHolds(s: State, t: Tid, m: Mid)
    requires t < |s.threads|
  {
    m in s.threads[t].inside ==> m < |s.monitors| && s.monitors[m].holder == Some(t)
  }

  ghost predicate Holders(s: State)
    requires WellFormed(s)
  {
    && (forall p | 0 <= p < |s.procs| :: MonitorPc(s, s.procs[p]))
    && (forall t, m | 0 <= t < |s.threads| :: InsideHolds(s, t, m))
    && (forall m | 0 <= m < |s.monitors| && s.monitors[m].holder.Some? :: Has(s, s.monitors[m].holder.value, m))
  }

  /** How a step changes the holder of monitor m: only under its spinlock, and only to the
      stepping thread or away from it. */
  predicate HolderMoves(s: State, p: nat, s': State, m: Mid)
    requires p < |s.procs| && m < |s.monitors| <= |s'.monitors|
  {
    var pc, cur := s.procs[p].pc, s.procs[p].cur;
    s'.monitors[m].holder ==
    (if pc == InMonitor(m, Take) then Some(cur) else if pc == InMonitor(m, Clear) then None else s.monitors[m].holder)
  }

  predicate InsideMoves(s: State, p: nat, c: Call, s': State, t: Tid)
    requires p < |s.procs| && t < |s.threads| <= |s'.threads|
  {
    var pc, cur := s.procs[p].pc, s.procs[p].cur;
    s'.threads[t].inside ==
    (if t == cur && pc.InMonitor? && pc.where.EnterReturn? then s.threads[t].inside + {pc.m}
     else if t == cur && pc.Client? && c.Exit? then s.threads[t].inside - {c.m}
     else s.threads[t].inside)
  }

  lemma StepHolder(s: State, p: nat, c: Call, m: Mid)
    requires WellFormed(s) && Enabled(s, p, c) && m < |s.monitors|
    ensures |s.monitors| <= |Next(s, p, c).monitors| && HolderMoves(s, p, Next(s, p, c), m)
  {
  }

  lemma StepInside(s: State, p: nat, c: Call, t: Tid)
    requires WellFormed(s) && Enabled(s, p, c) && t < |s.threads|
    ensures |s.threads| <= |Next(s, p, c).threads| && InsideMoves(s, p, c, Next(s, p, c), t)
  {
  }

  /** The stepping thread's client exits what it holds, and enter takes what it does not have. */
  predicate ExitsInside(s: State, p: nat, c: Call)
    requires WellFormed(s) && Enabled(s, p, c)
  {
    var cur, pc := s.procs[p].cur, s.procs[p].pc;
    && (pc.Client? && c.Exit? ==> InsideHolds(s, cur, c.m))
    && (pc.InMonitor? && pc.where.Take? ==> InsideHolds(s, cur, pc.m))
    && !Next(s, p, c).procs[p].pc.Failed?
    && Next(s, p, c).procs[p].cur < |Next(s, p, c).threads|
  }

  lemma MonitorCodePc(s: State, p: nat, c: Call)
    requires WellFormed(s) && Enabled(s, p, c) && MonitorPc(s, s.procs[p]) && ExitsInside(s, p, c)
    requires InMonitorCode(s.procs[p].pc)
    ensures PcOk(Next(s, p, c), Next(s, p, c).procs[p].pc) ==> MonitorPc(Next(s, p, c), Next(s, p, c).procs[p])
  {
  }

  lemma AcquirePc(s: State, p: nat, c: Call)
    requires WellFormed(s) && Enabled(s, p, c) && MonitorPc(s, s.procs[p]) && ExitsInside(s, p, c)
    requires s.procs[p].pc.Acquire?
    ensures PcOk(Next(s, p, c), Next(s, p, c).procs[p].pc) ==> MonitorPc(Next(s, p, c), Next(s, p, c).procs[p])
  {
  }

  lemma SwitchPc(s: State, p: nat, c: Call)
    requires WellFormed(s) && Enabled(s, p, c) && MonitorPc(s, s.procs[p]) && ExitsInside(s, p, c)
    requires s.procs[p].pc.Dequeued? || s.procs[p].pc.Switch? || s.procs[p].pc.ResumeTest? || s.procs[p].pc.ResumeRun?
    ensures PcOk(Next(s, p, c), Next(s, p, c).procs[p].pc) ==> MonitorPc(Next(s, p, c), Next(s, p, c).procs[p])
  {
  }

  lemma ClientPc(s: State, p: nat, c: Call)
    requires WellFormed(s) && Enabled(s, p, c) && MonitorPc(s, s.procs[p]) && ExitsInside(s, p, c)
    requires s.procs[p].pc.Boot? || s.procs[p].pc.Client? || s.procs[p].pc.EnqueueUnlock?
    ensures PcOk(Next(s, p, c), Next(s, p, c).procs[p].pc) ==> MonitorPc(Next(s, p, c), Next(s, p, c).procs[p])
  {
  }

  lemma OtherPc(s: State, p: nat, c: Call)
    requires WellFormed(s) && Enabled(s, p, c) && MonitorPc(s, s.procs[p]) && ExitsInside(s, p, c)
    requires !s.procs[p].pc.Acquire? && !InMonitorCode(s.procs[p].pc) && !s.procs[p].pc.Failed?
    ensures PcOk(Next(s, p, c), Next(s, p, c).procs[p].pc) ==> MonitorPc(Next(s, p, c), Next(s, p, c).procs[p])
  {
    if s.procs[p].pc.Boot? || s.procs[p].pc.Client? || s.procs[p].pc.EnqueueUnlock? {
      ClientPc(s, p, c);
    } else {
      SwitchPc(s, p, c);
    }
  }

  /** The step as monitors see it. */
  ghost predicate MonitorsMove(s: State, p: nat, c: Call, s': State) {
    && OneProc(s, p, s')
    && |s.threads| <= |s'.threads| && |s.monitors| <= |s'.monitors|
    && (forall m | 0 <= m < |s.monitors| :: HolderMoves(s, p, s', m))
    && (forall m | |s.monitors| <= m < |s'.monitors| :: s'.monitors[m] == Monitor(None, false, []))
    && (forall t | 0 <= t < |s.threads| :: InsideMoves(s, p, c, s', t))
    && (forall t | |s.threads| <= t < |s'.threads| :: s'.threads[t] in {NASCENT_THREAD, IDLE_THREAD})
  }

  lemma StepAddsMonitor(s: State, p: nat, c: Call)
    requires WellFormed(s) && Enabled(s, p, c)
    ensures |s.monitors| <= |Next(s, p, c).monitors|
    ensures forall m | |s.monitors| <= m < |Next(s, p, c).monitors| ::
              Next(s, p, c).monitors[m] == Monitor(None, false, [])
  {
  }

  lemma StepMonitorsMove(s: State, p: nat, c: Call)
    requires WellFormed(s) && Enabled(s, p, c)
    ensures MonitorsMove(s, p, c, Next(s, p, c))
  {
    StepOneProc(s, p, c);
    StepAddsThread(s, p, c);
    StepAddsMonitor(s, p, c);
    forall m | 0 <= m < |s.monitors| ensures HolderMoves(s, p, Next(s, p, c), m) {
      StepHolder(s, p, c, m);
    }
    forall t | 0 <= t < |s.threads| ensures InsideMoves(s, p, c, Next(s, p, c), t) {
      StepInside(s, p, c, t);
    }
  }

  lemma OtherMonitorPc(s: State, p: nat, c: Call, s': State, q: nat)
    requires WellFormed(s) && WellFormed(s') && Enabled(s, p, c) && MonitorsMove(s, p, c, s')
    requires Locking(s) && Holders(s) && DistinctStacks(s) && q < |s.procs| && q != p
    ensures MonitorPc(s', s'.procs[q])
  {
    var pr := s.procs[q];
    assert s'.procs[q] == pr && MonitorPc(s, pr) && MonitorPc(s, s.procs[p]);
    assert InsideMoves(s, p, c, s', pr.cur);
    if Holding(pr.pc).Some? {
      assert HolderMoves(s, p, s', Holding(pr.pc).value);
    }
    if pr.pc.InMonitor? {
      assert HolderMoves(s, p, s', pr.pc.m);
    }
  }

  lemma InsideHoldsKept(s: State, p: nat, c: Call, s': State, t: Tid, m: Mid)
    requires WellFormed(s) && Enabled(s, p, c) && MonitorsMove(s, p, c, s')
    requires Holders(s) && DistinctStacks(s) && t < |s'.threads|
    ensures InsideHolds(s', t, m)
  {
    if t < |s.threads| {
      assert InsideMoves(s, p, c, s', t) && InsideHolds(s, t, m) && MonitorPc(s, s.procs[p]);
      if m < |s.monitors| {
        assert HolderMoves(s, p, s', m);
      }
    }
  }

  lemma HasKept(s: State, p: nat, c: Call, s': State, m: Mid)
    requires WellFormed(s) && Enabled(s, p, c) && MonitorsMove(s, p, c, s') && s' == Next(s, p, c)
    requires Holders(s) && DistinctStacks(s) && m < |s'.monitors| && s'.monitors[m].holder.Some?
    requires !s'.procs[p].pc.Failed?
    ensures Has(s', s'.monitors[m].holder.value, m)
  {
    assert m < |s.monitors|;
    assert HolderMoves(s, p, s', m);
    var t := s'.monitors[m].holder.value;
    if s.procs[p].pc == InMonitor(m, Take) {
      assert s'.procs[p].cur == t && Holding(s'.procs[p].pc) == Some(m);
    } else {
      assert Has(s, t, m) && InsideMoves(s, p, c, s', t);
      if m in s.threads[t].inside {
        assert InsideHolds(s, t, m);
        if m !in s'.threads[t].inside {
          assert s'.procs[p].cur == t && Holding(s'.procs[p].pc) == Some(m);
        }
      } else {
        var q :| 0 <= q < |s.procs| && s.procs[q].cur == t && Holding(s.procs[q].pc) == Some(m);
        if q == p {
          StepHolding(s, p, c);
        } else {
          assert s'.procs[q] == s.procs[q];
        }
      }
    }
  }

  /** The holder of a monitor stays on its way into or out of it, or arrives inside. */
  lemma StepHolding(s: State, p: nat, c: Call)
    requires WellFormed(s) && Enabled(s, p, c) && Holding(s.procs[p].pc).Some? && MonitorPc(s, s.procs[p])
    ensures p < |Next(s, p, c).procs| && s.procs[p].cur < |Next(s, p, c).threads|
    ensures Next(s, p, c).procs[p].pc.Failed?
         || s.procs[p].pc == InMonitor(Holding(s.procs[p].pc).value, Clear)
         || Holding(s.procs[p].pc).value in Next(s, p, c).threads[s.procs[p].cur].inside
         || (Holding(Next(s, p, c).procs[p].pc) == Holding(s.procs[p].pc)
             && Next(s, p, c).procs[p].cur == s.procs[p].cur)
  {
  }

  lemma StepHolders(s: State, p: nat, c: Call)
    requires WellFormed(s) && Enabled(s, p, c) && Locking(s) && Holders(s) && DistinctStacks(s)
    requires !Next(s, p, c).procs[p].pc.Failed?
    ensures WellFormed(Next(s, p, c)) && Holders(Next(s, p, c))
  {
    var s' := Next(s, p, c);
    ApplyWellFormed(s, p, NextAccess(s, p, c));
    StepMonitorsMove(s, p, c);
    StepMonitorPc(s, p, c);
    forall q | 0 <= q < |s.procs| && q != p ensures MonitorPc(s', s'.procs[q]) {
      OtherMonitorPc(s, p, c, s', q);
    }
    forall t, m | 0 <= t < |s'.threads| ensures InsideHolds(s', t, m) {
      InsideHoldsKept(s, p, c, s', t, m);
    }
    forall m | 0 <= m < |s'.monitors| && s'.monitors[m].holder.Some?
      ensures Has(s', s'.monitors[m].holder.value, m)
    {
      HasKept(s, p, c, s', m);
    }
  }

  lemma StepMonitorPc(s: State, p: nat, c: Call)
    requires WellFormed(s) && Enabled(s, p, c) && Holders(s)
    requires WellFormed(Next(s, p, c)) && p < |Next(s, p, c).procs| && !Next(s, p, c).procs[p].pc.Failed?
    ensures MonitorPc(Next(s, p, c), Next(s, p, c).procs[p])
  {
    assert MonitorPc(s, s.procs[p]);
    var pc := s.procs[p].pc;
    if pc.Client? && c.Exit? { assert InsideHolds(s, s.procs[p].cur, c.m); }
    if pc.InMonitor? { assert InsideHolds(s, s.procs[p].cur, pc.m); }
    assert ExitsInside(s, p, c);
    if pc.Acquire? {
      AcquirePc(s, p, c);
    } else if InMonitorCode(pc) {
      MonitorCodePc(s, p, c);
    } else {
      OtherPc(s, p, c);
    }
  }
}
