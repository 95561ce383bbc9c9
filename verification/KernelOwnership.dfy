/** Who owns a thread control block: in every reachable state each thread has exactly one
    owner, so at most one queue ever uses its `next` field. */
module KernelOwnership {
  import opened Kernel

  /** A processor owns the thread it runs until that thread has been put on a queue, and then
      the thread it has taken off the ready queue to switch to; a creating or exiting thread
      owns, as waker, the thread it is about to put on the ready queue. */
  datatype Owner = ByProc(p: nat) | ByWaker(p: nat) | InReady | InWaiters(m: Mid)

  /** The thread on whose stack the processor runs is still the processor's. */
  predicate KeepsCur(pc: Pc) {
    match pc
    case Acquire(c, _) => !c.ReadyDequeue?
    case EnqueueUnlock(thenStop) => !thenStop
    case Dequeued(_, _, _) => false
    case Switch(_, _, _) => false
    case InMonitor(_, where) => !where.UnlockWait?
    case _ => true
  }

  /** The thread a stopping processor is about to switch to. */
  function Target(pc: Pc): Option<Tid> {
    match pc
    case Dequeued(to, _, _) => to
    case Switch(t, _, _) => Some(t)
    case _ => None
  }

  /** The thread a processor owns: one at most. */
  function Owned(pr: Proc): Option<Tid> {
    if KeepsCur(pr.pc) then Some(pr.cur) else Target(pr.pc)
  }

  /** The thread that is about to be put on the ready queue by another one. */
  function Waking(pc: Pc): Option<Tid> {
    match pc
    case Acquire(c, _) => if c.ReadyEnqueue? && !c.thenStop then Some(c.t) else None
    case ExitUnlock(_, w) => w
    case Start(t, _) => Some(t)
    case _ => None
  }

  /** A yielding thread enqueues itself. */
  predicate YieldsSelf(pr: Proc) {
    pr.pc.Acquire? && pr.pc.c.ReadyEnqueue? && pr.pc.c.thenStop ==> pr.pc.c.t == pr.cur
  }

  predicate OwnedBy(s: State, t: Tid, o: Owner) {
    match o
    case ByProc(p) => p < |s.procs| && Owned(s.procs[p]) == Some(t)
    case ByWaker(p) => p < |s.procs| && Waking(s.procs[p].pc) == Some(t)
    case InReady => t in s.ready
    case InWaiters(m) => m < |s.monitors| && t in s.monitors[m].waiters
  }

  ghost predicate NoDuplicates(q: seq<Tid>) {
    forall i, j | 0 <= i < j < |q| :: q[i] != q[j]
  }

  predicate Is(own: seq<Owner>, t: Option<Tid>, o: Owner) {
    t.Some? ==> t.value < |own| && own[t.value] == o
  }

  /** `own` names the one owner of every thread. */
  ghost predicate Ownership(s: State, own: seq<Owner>) {
    && |own| == |s.threads|
    && (forall t | 0 <= t < |s.threads| :: OwnedBy(s, t, own[t]))
    && (forall p | 0 <= p < |s.procs| ::
          Is(own, Owned(s.procs[p]), ByProc(p)) && Is(own, Waking(s.procs[p].pc), ByWaker(p)))
    && (forall t | t in s.ready :: Is(own, Some(t), InReady))
    && (forall m, t | 0 <= m < |s.monitors| && t in s.monitors[m].waiters :: Is(own, Some(t), InWaiters(m)))
    && NoDuplicates(s.ready)
    && (forall m | 0 <= m < |s.monitors| :: NoDuplicates(s.monitors[m].waiters))
    && (forall p | 0 <= p < |s.procs| :: YieldsSelf(s.procs[p]))
  }

  // ---------------------------------------------------------------- one step

  predicate SameOwned(pr: Proc, next: Pc) {
    var pr' := pr.(pc := next);
    Owned(pr') == Owned(pr) && Waking(next) == Waking(pr.pc) && YieldsSelf(pr')
  }

  /** How the access of processor pr hands threads on. */
  predicate HandsOn(s: State, pr: Proc, a: Access) {
    match a
    case Test(next) => SameOwned(pr, next)
    case SetLock(_, _, next) => SameOwned(pr, next)
    case SetHolder(_, _, next) => SameOwned(pr, next)
    case SetThread(_, _, next) => SameOwned(pr, next)
    case NewMonitor(next) => SameOwned(pr, next)
    case PushReady(t, next) =>
      && Waking(next) == None && YieldsSelf(pr.(pc := next))
      && (|| (Waking(pr.pc) == Some(t) && Owned(pr.(pc := next)) == Owned(pr))
          || (Waking(pr.pc) == None && Owned(pr) == Some(t) && Owned(pr.(pc := next)) == None))
    case PopReady(_) => Owned(pr) == None && Waking(pr.pc) == None
    case PushWaiter(_, t, next) =>
      && Owned(pr) == Some(t) && Owned(pr.(pc := next)) == None
      && Waking(pr.pc) == None && Waking(next) == None && YieldsSelf(pr.(pc := next))
    case PopWaiter(_) => Owned(pr) == Some(pr.cur) && Waking(pr.pc) == None
    case LoadContext(t, _) => Owned(pr) == Some(t) && Waking(pr.pc) == None
    case NewThread(_, next) =>
      && Owned(pr.(pc := next)) == Owned(pr) && YieldsSelf(pr.(pc := next))
      && Waking(pr.pc) == None && Waking(next) == Some(|s.threads|)
    case NewProc(_, next) => SameOwned(pr, next)
  }

  // The hand-over of the next access, by program point.

  lemma SwitchHandsOn(s: State, p: nat, c: Call)
    requires WellFormed(s) && Enabled(s, p, c) && !Next(s, p, c).procs[p].pc.Failed?
    requires s.procs[p].pc.Dequeued? || s.procs[p].pc.Switch?
    ensures HandsOn(s, s.procs[p], NextAccess(s, p, c))
  {
  }

  lemma AcquireHandsOn(s: State, p: nat, c: Call)
    requires WellFormed(s) && Enabled(s, p, c) && YieldsSelf(s.procs[p]) && !Next(s, p, c).procs[p].pc.Failed?
    requires s.procs[p].pc.Acquire?
    ensures HandsOn(s, s.procs[p], NextAccess(s, p, c))
  {
  }

  lemma MonitorHandsOn(s: State, p: nat, c: Call)
    requires WellFormed(s) && Enabled(s, p, c) && !Next(s, p, c).procs[p].pc.Failed?
    requires s.procs[p].pc.InMonitor? || s.procs[p].pc.ExitUnlock? || s.procs[p].pc.Start?
    ensures HandsOn(s, s.procs[p], NextAccess(s, p, c))
  {
  }

  lemma OtherHandsOn(s: State, p: nat, c: Call)
    requires WellFormed(s) && Enabled(s, p, c) && !Next(s, p, c).procs[p].pc.Failed?
    requires s.procs[p].pc.Boot? || s.procs[p].pc.Client? || s.procs[p].pc.EnqueueUnlock?
          || s.procs[p].pc.ResumeTest? || s.procs[p].pc.ResumeRun?
    ensures HandsOn(s, s.procs[p], NextAccess(s, p, c))
  {
  }

  lemma NextHandsOn(s: State, p: nat, c: Call)
    requires WellFormed(s) && Enabled(s, p, c) && YieldsSelf(s.procs[p])
    requires !Next(s, p, c).procs[p].pc.Failed?
    ensures HandsOn(s, s.procs[p], NextAccess(s, p, c))
  {
    var pc := s.procs[p].pc;
    if pc.Acquire? {
      AcquireHandsOn(s, p, c);
    } else if pc.Dequeued? || pc.Switch? {
      SwitchHandsOn(s, p, c);
    } else if pc.InMonitor? || pc.ExitUnlock? || pc.Start? {
      MonitorHandsOn(s, p, c);
    } else {
      OtherHandsOn(s, p, c);
    }
  }

  function NextOwn(s: State, p: nat, a: Access, own: seq<Owner>): seq<Owner>
    requires WellFormed(s) && AccessOk(s, a) && |own| == |s.threads|
  {
    match a
    case PushReady(t, _) => own[t := InReady]
    case PopReady(_) => if s.ready == [] then own else own[s.ready[0] := ByProc(p)]
    case PushWaiter(m, t, _) => own[t := InWaiters(m)]
    case PopWaiter(m) =>
      var ws := s.monitors[m].waiters;
      if ws == [] then own else own[ws[0] := ByWaker(p)]
    case NewThread(_, _) => own + [ByWaker(p)]
    case NewProc(_, _) => own + [ByProc(|s.procs|)]
    case _ => own
  }

  lemma InitOwnership(extra: nat)
    ensures WellFormed(Init(extra)) && Ownership(Init(extra), [ByProc(0), InReady])
  {
  }

  predicate Adds(a: Access) {
    a.NewThread? || a.NewProc? || a.NewMonitor?
  }

  predicate Queues(a: Access) {
    a.PushReady? || a.PopReady? || a.PushWaiter? || a.PopWaiter?
  }

  lemma SetThreadWellFormed(s: State, p: nat, a: Access)
    requires WellFormed(s) && p < |s.procs| && AccessOk(s, a) && (a.SetThread? || a.LoadContext?)
    ensures WellFormed(Apply(s, p, a))
  {
  }

  lemma SetOtherWellFormed(s: State, p: nat, a: Access)
    requires WellFormed(s) && p < |s.procs| && AccessOk(s, a) && (a.Test? || a.SetLock? || a.SetHolder?)
    ensures WellFormed(Apply(s, p, a))
  {
  }

  lemma AddWellFormed(s: State, p: nat, a: Access)
    requires WellFormed(s) && p < |s.procs| && AccessOk(s, a) && Adds(a)
    ensures WellFormed(Apply(s, p, a))
  {
  }

  lemma QueueWellFormed(s: State, p: nat, a: Access)
    requires WellFormed(s) && p < |s.procs| && AccessOk(s, a)
    requires Queues(a)
    ensures WellFormed(Apply(s, p, a))
  {
  }

  lemma ApplyWellFormed(s: State, p: nat, a: Access)
    requires WellFormed(s) && p < |s.procs| && AccessOk(s, a)
    ensures WellFormed(Apply(s, p, a))
  {
    if Adds(a) {
      AddWellFormed(s, p, a);
    } else if Queues(a) {
      QueueWellFormed(s, p, a);
    } else if a.SetThread? || a.LoadContext? {
      SetThreadWellFormed(s, p, a);
    } else {
      SetOtherWellFormed(s, p, a);
    }
  }

  // ---------------------------------------------------------------- owners after one access

  lemma PushNoDuplicates(q: seq<Tid>, t: Tid)
    requires NoDuplicates(q) && t !in q
    ensures NoDuplicates(q + [t])
  {
  }

  lemma TailNoDuplicates(q: seq<Tid>)
    requires NoDuplicates(q) && q != []
    ensures NoDuplicates(Tail(q))
    ensures forall t :: t in Tail(q) <==> t in q && t != q[0]
  {
  }

  /** Thread t passes from owner o to owner o', neither of them another processor or waker than
      p, and no other thread changes hands. */
  ghost predicate Moves(s: State, p: nat, t: Tid, o: Owner, o': Owner, s': State)
    requires p < |s.procs|
  {
    && |s'.threads| == |s.threads| && |s'.procs| == |s.procs| && |s'.monitors| == |s.monitors|
    && (forall q | 0 <= q < |s.procs| && q != p :: s'.procs[q] == s.procs[q])
    && (o.ByProc? || o.ByWaker? ==> o.p == p) && (o'.ByProc? || o'.ByWaker? ==> o'.p == p)
    && (o'.ByProc? ==> Owned(s.procs[p]) == None) && (o'.ByWaker? ==> Waking(s.procs[p].pc) == None)
    && Owned(s'.procs[p]) == (if o'.ByProc? then Some(t) else if o.ByProc? then None else Owned(s.procs[p]))
    && Waking(s'.procs[p].pc) == (if o'.ByWaker? then Some(t) else if o.ByWaker? then None else Waking(s.procs[p].pc))
    && YieldsSelf(s'.procs[p])
    && (forall x :: x in s'.ready <==> if x == t then o' == InReady else x in s.ready)
    && (forall m, x | 0 <= m < |s.monitors| ::
          x in s'.monitors[m].waiters <==> if x == t then o' == InWaiters(m) else x in s.monitors[m].waiters)
    && NoDuplicates(s'.ready) && (forall m | 0 <= m < |s.monitors| :: NoDuplicates(s'.monitors[m].waiters))
  }

  lemma MovedThread(s: State, p: nat, t: Tid, o: Owner, o': Owner, s': State, x: Tid, ox: Owner)
    requires p < |s.procs| && Moves(s, p, t, o, o', s') && (o'.InWaiters? ==> o'.m < |s.monitors|)
    requires OwnedBy(s, t, o) && OwnedBy(s, x, ox) && (x == t ==> ox == o)
    ensures OwnedBy(s', x, if x == t then o' else ox)
  {
    if ox.ByProc? && ox.p < |s.procs| && ox.p != p {
      assert s'.procs[ox.p] == s.procs[ox.p];
    }
    if ox.ByWaker? && ox.p < |s.procs| && ox.p != p {
      assert s'.procs[ox.p] == s.procs[ox.p];
    }
  }

  lemma MovedProc(s: State, p: nat, t: Tid, o: Owner, o': Owner, s': State, own: seq<Owner>, q: nat)
    requires p < |s.procs| && Moves(s, p, t, o, o', s') && t < |own| && own[t] == o && q < |s.procs|
    requires Is(own, Owned(s.procs[q]), ByProc(q)) && Is(own, Waking(s.procs[q].pc), ByWaker(q))
    ensures Is(own[t := o'], Owned(s'.procs[q]), ByProc(q)) && Is(own[t := o'], Waking(s'.procs[q].pc), ByWaker(q))
  {
    if q != p {
      assert s'.procs[q] == s.procs[q];
    }
  }

  lemma MovesOwnership(s: State, p: nat, t: Tid, o: Owner, o': Owner, s': State, own: seq<Owner>)
    requires Ownership(s, own) && p < |s.procs| && t < |own| && own[t] == o
    requires Moves(s, p, t, o, o', s') && (o'.InWaiters? ==> o'.m < |s.monitors|)
    ensures Ownership(s', own[t := o'])
  {
    var own' := own[t := o'];
    forall x | 0 <= x < |own| ensures OwnedBy(s', x, own'[x]) {
      MovedThread(s, p, t, o, o', s', x, own[x]);
    }
    forall q | 0 <= q < |s.procs|
      ensures Is(own', Owned(s'.procs[q]), ByProc(q)) && Is(own', Waking(s'.procs[q].pc), ByWaker(q))
    {
      MovedProc(s, p, t, o, o', s', own, q);
    }
    forall q | 0 <= q < |s.procs| ensures YieldsSelf(s'.procs[q]) {
      assert q != p ==> s'.procs[q] == s.procs[q];
    }
  }

  lemma PushReadyOwnership(s: State, p: nat, a: Access, own: seq<Owner>)
    requires WellFormed(s) && p < |s.procs| && AccessOk(s, a) && HandsOn(s, s.procs[p], a)
    requires Ownership(s, own) && a.PushReady?
    ensures Ownership(Apply(s, p, a), NextOwn(s, p, a, own))
  {
    assert OwnedBy(s, a.t, ByWaker(p)) || OwnedBy(s, a.t, ByProc(p));
    assert !OwnedBy(s, a.t, InReady);
    PushNoDuplicates(s.ready, a.t);
    MovesOwnership(s, p, a.t, own[a.t], InReady, Apply(s, p, a), own);
  }

  lemma PopReadyOwnership(s: State, p: nat, a: Access, own: seq<Owner>)
    requires WellFormed(s) && p < |s.procs| && AccessOk(s, a) && HandsOn(s, s.procs[p], a)
    requires Ownership(s, own) && a.PopReady?
    ensures Ownership(Apply(s, p, a), NextOwn(s, p, a, own))
  {
    if s.ready != [] {
      assert OwnedBy(s, s.ready[0], InReady);
      TailNoDuplicates(s.ready);
      MovesOwnership(s, p, s.ready[0], InReady, ByProc(p), Apply(s, p, a), own);
    }
  }

  lemma PushWaiterOwnership(s: State, p: nat, a: Access, own: seq<Owner>)
    requires WellFormed(s) && p < |s.procs| && AccessOk(s, a) && HandsOn(s, s.procs[p], a)
    requires Ownership(s, own) && a.PushWaiter?
    ensures Ownership(Apply(s, p, a), NextOwn(s, p, a, own))
  {
    assert OwnedBy(s, a.t, ByProc(p));
    assert !OwnedBy(s, a.t, InWaiters(a.m));
    PushNoDuplicates(s.monitors[a.m].waiters, a.t);
    MovesOwnership(s, p, a.t, ByProc(p), InWaiters(a.m), Apply(s, p, a), own);
  }

  lemma PopWaiterMoves(s: State, p: nat, a: Access, own: seq<Owner>)
    requires WellFormed(s) && p < |s.procs| && AccessOk(s, a) && HandsOn(s, s.procs[p], a)
    requires Ownership(s, own) && a.PopWaiter? && s.monitors[a.m].waiters != []
    ensures Moves(s, p, s.monitors[a.m].waiters[0], InWaiters(a.m), ByWaker(p), Apply(s, p, a))
  {
    var ws := s.monitors[a.m].waiters;
    assert OwnedBy(s, ws[0], InWaiters(a.m));
    TailNoDuplicates(ws);
  }

  lemma PopWaiterOwnership(s: State, p: nat, a: Access, own: seq<Owner>)
    requires WellFormed(s) && p < |s.procs| && AccessOk(s, a) && HandsOn(s, s.procs[p], a)
    requires Ownership(s, own) && a.PopWaiter?
    ensures Ownership(Apply(s, p, a), NextOwn(s, p, a, own))
  {
    var ws := s.monitors[a.m].waiters;
    if ws != [] {
      assert OwnedBy(s, ws[0], InWaiters(a.m));
      PopWaiterMoves(s, p, a, own);
      MovesOwnership(s, p, ws[0], InWaiters(a.m), ByWaker(p), Apply(s, p, a), own);
    }
  }

  lemma NewThreadOwnership(s: State, p: nat, a: Access, own: seq<Owner>)
    requires WellFormed(s) && p < |s.procs| && AccessOk(s, a) && HandsOn(s, s.procs[p], a)
    requires Ownership(s, own) && a.NewThread?
    ensures Ownership(Apply(s, p, a), NextOwn(s, p, a, own))
  {
    var s' := Apply(s, p, a);
    forall q | 0 <= q < |s.procs| && q != p
      ensures s'.procs[q] == s.procs[q]
      ensures Is(own, Owned(s.procs[q]), ByProc(q)) && Is(own, Waking(s.procs[q].pc), ByWaker(q))
    {
    }
    forall t | 0 <= t < |s.threads| ensures OwnedBy(s', t, own[t]) {
      assert OwnedBy(s, t, own[t]);
    }
  }

  lemma NewMonitorOwnership(s: State, p: nat, a: Access, own: seq<Owner>)
    requires WellFormed(s) && p < |s.procs| && AccessOk(s, a) && HandsOn(s, s.procs[p], a)
    requires Ownership(s, own) && a.NewMonitor?
    ensures Ownership(Apply(s, p, a), NextOwn(s, p, a, own))
  {
  }

  /** Accesses that move no thread, which touch neither the queues nor the number of threads. */
  predicate SameQueues(s: State, s': State) {
    && |s'.threads| == |s.threads| && s'.ready == s.ready && |s'.monitors| == |s.monitors|
    && forall m | 0 <= m < |s.monitors| :: s'.monitors[m].waiters == s.monitors[m].waiters
  }

  lemma QuietOwnership(s: State, p: nat, next: Pc, s': State, own: seq<Owner>)
    requires WellFormed(s) && p < |s.procs| && Ownership(s, own) && SameOwned(s.procs[p], next)
    requires SameQueues(s, s') && s'.procs == s.procs[p := s.procs[p].(pc := next)]
    ensures Ownership(s', own)
  {
  }

  /** A new processor owns the thread that comes with it. */
  lemma AddProcOwnership(s: State, th: Thread, own: seq<Owner>)
    requires WellFormed(s) && Ownership(s, own)
    ensures Ownership(s.(procs := s.procs + [Proc(|s.threads|, Client)], threads := s.threads + [th]),
                      own + [ByProc(|s.procs|)])
  {
  }

  lemma NewProcOwnership(s: State, p: nat, a: Access, own: seq<Owner>)
    requires WellFormed(s) && p < |s.procs| && AccessOk(s, a) && HandsOn(s, s.procs[p], a)
    requires Ownership(s, own) && a.NewProc?
    ensures Ownership(Apply(s, p, a), NextOwn(s, p, a, own))
  {
    var s1 := Goto(s, p, a.next);
    ApplyWellFormed(s, p, Test(a.next));
    QuietOwnership(s, p, a.next, s1, own);
    AddProcOwnership(s1, a.th, own);
  }

  lemma LoadOwnership(s: State, p: nat, a: Access, own: seq<Owner>)
    requires WellFormed(s) && p < |s.procs| && AccessOk(s, a) && HandsOn(s, s.procs[p], a)
    requires Ownership(s, own) && a.LoadContext?
    ensures Ownership(Apply(s, p, a), NextOwn(s, p, a, own))
  {
  }

  lemma KeepOwnership(s: State, p: nat, a: Access, next: Pc, own: seq<Owner>)
    requires WellFormed(s) && p < |s.procs| && AccessOk(s, a) && SameOwned(s.procs[p], next) && Ownership(s, own)
    requires (a.Test? || a.SetThread? || a.SetLock? || a.SetHolder?) && a.next == next
    ensures Ownership(Apply(s, p, a), own)
  {
    QuietOwnership(s, p, next, Apply(s, p, a), own);
  }

  lemma ApplyOwnership(s: State, p: nat, a: Access, own: seq<Owner>)
    requires WellFormed(s) && p < |s.procs| && AccessOk(s, a) && HandsOn(s, s.procs[p], a) && Ownership(s, own)
    ensures Ownership(Apply(s, p, a), NextOwn(s, p, a, own))
  {
    match a
    case PushReady(_, _) => PushReadyOwnership(s, p, a, own);
    case PopReady(_) => PopReadyOwnership(s, p, a, own);
    case PushWaiter(_, _, _) => PushWaiterOwnership(s, p, a, own);
    case PopWaiter(_) => PopWaiterOwnership(s, p, a, own);
    case NewThread(_, _) => NewThreadOwnership(s, p, a, own);
    case NewProc(_, _) => NewProcOwnership(s, p, a, own);
    case NewMonitor(_) => NewMonitorOwnership(s, p, a, own);
    case LoadContext(_, _) => LoadOwnership(s, p, a, own);
    case Test(next) => KeepOwnership(s, p, a, next, own);
    case SetThread(_, _, next) => KeepOwnership(s, p, a, next, own);
    case SetLock(_, _, next) => KeepOwnership(s, p, a, next, own);
    case SetHolder(_, _, next) => KeepOwnership(s, p, a, next, own);
  }

  /** Ownership passes from hand to hand in every step that does not fail. */
  lemma StepOwnership(s: State, p: nat, c: Call, own: seq<Owner>)
    requires WellFormed(s) && Enabled(s, p, c) && Ownership(s, own)
    requires !Next(s, p, c).procs[p].pc.Failed?
    ensures Ownership(Next(s, p, c), NextOwn(s, p, NextAccess(s, p, c), own))
  {
    NextHandsOn(s, p, c);
    ApplyOwnership(s, p, NextAccess(s, p, c), own);
  }
}
