/** What each call of the thread package on one processor does to the threads and monitors that
    it is about, and what it leaves alone. */
module UthreadEffects {
  import opened ThreadQueue
  import opened UthreadSpec
  import opened UthreadInvariant
  import opened UthreadCalls

  /** Nobody's handle was claimed and no start procedure has returned; a freed thread stays so. */
  predicate Marks(r: Rec, r': Rec) {
    && r'.kind == r.kind && r'.claimed == r.claimed && r'.joiner == r.joiner && r'.outcome == r.outcome
    && r.frees <= r'.frees
  }

  /** The thread's own code has not gone on. */
  predicate Code(r: Rec, r': Rec) {
    r'.cont == r.cont && r'.joined == r.joined && r'.inside == r.inside
  }

  /** The thread's join or enter has returned: the join with the result of a thread that has been
      freed, the enter with the monitor. */
  predicate Completed(s': Sys, r: Rec, r': Rec) {
    match r.cont
    case ToClient => false
    case InJoin(h) =>
      && r'.cont == ToClient && r'.inside == r.inside
      && h in s'.tcbs && s'.tcbs[h].outcome == Exited(r'.joined) && s'.tcbs[h].frees == 1
    case InEnter(m) => r'.cont == ToClient && r'.joined == r.joined && r'.inside == r.inside + {m}
  }

  /** Waiters are only added, at the end, and no monitor is taken from its holder. */
  predicate MonitorOnward(s: Sys, s': Sys, m: Monitor)
    requires m in s.monitors
  {
    && m in s'.monitors && s.monitors[m].waiters <= s'.monitors[m].waiters
    && (s.monitors[m].holder != null ==> s'.monitors[m].holder == s.monitors[m].holder)
  }

  ghost predicate Queues(s: Sys, s': Sys) {
    forall m {:trigger MonitorOnward(s, s', m)} | m in s.monitors :: MonitorOnward(s, s', m)
  }

  predicate ThreadKept(s: Sys, s': Sys, t: Tcb)
    requires t in s.tcbs
  {
    t in s'.tcbs && Marks(s.tcbs[t], s'.tcbs[t]) && Code(s.tcbs[t], s'.tcbs[t])
  }

  ghost predicate Kept(s: Sys, s': Sys) {
    && (forall t {:trigger ThreadKept(s, s', t)} | t in s.tcbs :: ThreadKept(s, s', t))
    && s'.tcbs.Keys == s.tcbs.Keys && s'.joins == s.joins && Queues(s, s')
  }

  predicate ThreadOnward(s: Sys, s': Sys, t: Tcb)
    requires t in s.tcbs
  {
    && t in s'.tcbs && Marks(s.tcbs[t], s'.tcbs[t])
    && (Code(s.tcbs[t], s'.tcbs[t]) || Completed(s', s.tcbs[t], s'.tcbs[t]))
  }

  /** Every thread has stayed where it was in its code, or its join or enter has returned. */
  ghost predicate Onward(s: Sys, s': Sys) {
    && (forall t {:trigger ThreadOnward(s, s', t)} | t in s.tcbs :: ThreadOnward(s, s', t))
    && s'.tcbs.Keys == s.tcbs.Keys && Queues(s, s')
  }

  // ---------------------------------------------------------------- inside the package

  lemma SetKept(s: Sys, t: Tcb, r: Rec)
    requires t in s.tcbs && Marks(s.tcbs[t], r) && Code(s.tcbs[t], r)
    ensures Kept(s, Set(s, t, r))
  {
  }

  lemma QueuesTransitive(s: Sys, s1: Sys, s2: Sys)
    requires Queues(s, s1) && Queues(s1, s2)
    ensures Queues(s, s2)
  {
    forall m | m in s.monitors ensures MonitorOnward(s, s2, m) {
      assert MonitorOnward(s, s1, m) && MonitorOnward(s1, s2, m);
    }
  }

  lemma KeptTransitive(s: Sys, s1: Sys, s2: Sys)
    requires Kept(s, s1) && Kept(s1, s2)
    ensures Kept(s, s2)
  {
    forall t | t in s.tcbs ensures ThreadKept(s, s2, t) {
      assert ThreadKept(s, s1, t) && ThreadKept(s1, s2, t);
    }
    QueuesTransitive(s, s1, s2);
  }

  lemma EnqueueKept(s: Sys, t: Tcb)
    ensures Kept(s, Enqueue(s, t))
  {
  }

  lemma StartKept(s: Sys, t: Tcb)
    ensures Kept(s, Start(s, t))
  {
    if Live(s, t) {
      var s1 := if s.tcbs[t].state != Running then Set(s, t, s.tcbs[t].(state := Runable)) else s;
      SetKept(s, t, s1.tcbs[t]);
      EnqueueKept(s1, t);
      KeptTransitive(s, s1, Enqueue(s1, t));
    }
  }

  lemma ReapKept(s: Sys, d: Tcb)
    ensures Kept(s, Reap(s, d))
  {
    if Live(s, d) && !s.tcbs[d].joinLock {
      match s.tcbs[d].joiner
      case Detached =>
        SetKept(s, d, s.tcbs[d].(joinLock := true));
      case Nobody =>
        SetKept(s, d, s.tcbs[d].(state := Dead));
      case By(j) =>
        StartKept(s, j);
        SetKept(Start(s, j), d, s.tcbs[d].(state := Dead));
        KeptTransitive(s, Start(s, j), Reap(s, d));
    }
  }

  lemma LeaveKept(s: Sys, st: ThreadState)
    requires Leaves(s, st)
    ensures Kept(s, Leave(s, st))
  {
    SetKept(s, s.current, s.tcbs[s.current].(state := st));
  }

  lemma RunKept(s: Sys)
    requires s.current in s.tcbs
    ensures Kept(s, Run(s))
  {
    SetKept(s, s.current, Run(s).tcbs[s.current]);
  }

  /** What runs after the hand-over: the dying thread is reaped, and then the new one starts. */
  lemma RunAfterKept(s: Sys, s1: Sys, d: Tcb)
    requires Kept(s, s1)
    ensures s1.current in s1.tcbs ==> Kept(s, Run(s1))
    ensures Reap(s1, d).current in Reap(s1, d).tcbs ==> Kept(s, Run(Reap(s1, d)))
  {
    if s1.current in s1.tcbs {
      RunKept(s1);
      KeptTransitive(s, s1, Run(s1));
    }
    var s2 := Reap(s1, d);
    ReapKept(s1, d);
    KeptTransitive(s, s1, s2);
    if s2.current in s2.tcbs {
      RunKept(s2);
      KeptTransitive(s, s2, Run(s2));
    }
  }

  lemma StopKept(s: Sys, st: ThreadState)
    requires Stopping(s, st)
    ensures Kept(s, Stop(s, st))
  {
    ReadyNotEmpty(s, st, Doomed(s, st));
    assert ThreadOk(s, st, Doomed(s, st), s.ready[0]) && ThreadOk(s, st, Doomed(s, st), s.current);
    if s.ready[0] != s.current {
      LeaveOk(s, st, Doomed(s, st));
      if st == Dying {
        ReapOk(Leave(s, st), s.current);
      }
      SwitchIs(s, st);
      LeaveKept(s, st);
      RunAfterKept(s, Leave(s, st), s.current);
    }
  }

  lemma KeptOnward(s: Sys, s1: Sys, s2: Sys)
    requires Kept(s, s1) && Onward(s1, s2)
    ensures Onward(s, s2)
  {
    forall t | t in s.tcbs ensures ThreadOnward(s, s2, t) {
      assert ThreadKept(s, s1, t) && ThreadOnward(s1, s2, t);
    }
    QueuesTransitive(s, s1, s2);
  }

  lemma FinishJoinOnward(s: Sys, h: Tcb)
    requires Resumed(s) && s.tcbs[s.current].cont == InJoin(h)
    ensures Onward(s, FinishJoin(s, h))
  {
    assert ThreadOk(s, Running, null, s.current) && ThreadOk(s, Running, null, h);
  }

  lemma WaitKept(s: Sys, m: Monitor)
    requires Resumed(s) && s.tcbs[s.current].cont == InEnter(m) && m in s.monitors
    ensures s.ready != [] && Resumed(Stop(EnqueueWaiter(s, m), Blocked))
    ensures Kept(s, Stop(EnqueueWaiter(s, m), Blocked))
    ensures Stop(EnqueueWaiter(s, m), Blocked).picked == s.picked + [s.ready[0]]
    ensures Stop(EnqueueWaiter(s, m), Blocked).current == s.ready[0]
  {
    var s1 := EnqueueWaiter(s, m);
    EnqueueWaiterOk(s, m);
    StopOk(s1, Blocked);
    StopKept(s1, Blocked);
    KeptTransitive(s, s1, Stop(s1, Blocked));
  }

  lemma {:induction false} ContinueOnward(s: Sys)
    requires Resumed(s)
    ensures Onward(s, Continue(s))
    decreases |s.ready|
  {
    assert ThreadOk(s, Running, null, s.current);
    match s.tcbs[s.current].cont
    case ToClient =>
    case InJoin(h) => FinishJoinOnward(s, h);
    case InEnter(m) =>
      assert MonitorOk(s, Running, m);
      if s.monitors[m].holder != null {
        WaitKept(s, m);
        ContinueOnward(Stop(EnqueueWaiter(s, m), Blocked));
        KeptOnward(s, Stop(EnqueueWaiter(s, m), Blocked), Continue(s));
      }
  }

  lemma StopContinueOnward(s: Sys, st: ThreadState)
    requires Stopping(s, st)
    ensures Onward(s, Continue(Stop(s, st)))
  {
    StopOk(s, st);
    StopKept(s, st);
    ContinueOnward(Stop(s, st));
    KeptOnward(s, Stop(s, st), Continue(Stop(s, st)));
  }

  /** Who has the processor is whom uthread_stop has picked last, and a join that has been
      recorded is that of this thread, whose client code gets the value. */
  predicate Follows(s: Sys, s': Sys) {
    && s.picked <= s'.picked
    && s'.current == (if |s'.picked| == |s.picked| then s.current else s'.picked[|s'.picked| - 1])
    && s.joins <= s'.joins && |s'.joins| <= |s.joins| + 1
    && (|s'.joins| > |s.joins| ==>
          var j := s'.joins[|s.joins|];
          j.joiner == s'.current && s'.current in s'.tcbs && j.value == s'.tcbs[s'.current].joined)
  }

  /** The current thread is in enter, and another thread has the monitor. */
  predicate MustWait(s: Sys)
    requires s.current in s.tcbs
  {
    var k := s.tcbs[s.current].cont;
    k.InEnter? && k.m in s.monitors && s.monitors[k.m].holder != null
  }

  lemma StopContinueFollows(s: Sys, st: ThreadState)
    requires Stopping(s, st)
    ensures Follows(s, Continue(Stop(s, st))) && |Continue(Stop(s, st)).picked| > |s.picked|
  {
    StopOk(s, st);
    StopKept(s, st);
    ContinueFollows(Stop(s, st));
    StopThenFollows(s, Stop(s, st), Continue(Stop(s, st)));
  }

  lemma FinishJoinFollows(s: Sys, h: Tcb)
    requires Here(s, Running, null, s.current) && Here(s, Running, null, h) && h != s.current
    ensures Follows(s, FinishJoin(s, h))
  {
  }

  /** After a stop, what follows it follows the stop. */
  lemma StopThenFollows(s: Sys, s1: Sys, s': Sys)
    requires s.ready != [] && s1.picked == s.picked + [s.ready[0]] && s1.current == s.ready[0] && s1.joins == s.joins
    requires Follows(s1, s')
    ensures Follows(s, s') && |s'.picked| > |s.picked|
  {
  }

  lemma {:induction false} ContinueFollows(s: Sys)
    requires Resumed(s)
    ensures Follows(s, Continue(s))
    ensures |Continue(s).picked| > |s.picked| <==> MustWait(s)
    decreases |s.ready|
  {
    assert ThreadOk(s, Running, null, s.current);
    match s.tcbs[s.current].cont
    case ToClient =>
    case InJoin(h) =>
      assert ThreadOk(s, Running, null, h);
      FinishJoinFollows(s, h);
    case InEnter(m) =>
      assert MonitorOk(s, Running, m);
      if s.monitors[m].holder != null {
        WaitKept(s, m);
        ContinueFollows(Stop(EnqueueWaiter(s, m), Blocked));
        StopThenFollows(s, Stop(EnqueueWaiter(s, m), Blocked), Continue(s));
      }
  }

  // ---------------------------------------------------------------- the public calls

  /** What the caller waits for, if it has to wait: a first join for the thread to die, an enter
      for the monitor. */
  function Waiting(s: Sys, c: Call): Cont {
    match c
    case JoinOn(h) => if h in s.tcbs && !s.tcbs[h].claimed then InJoin(h) else ToClient
    case Enter(m) => InEnter(m)
    case _ => ToClient
  }

  /** A second join hands over 0, and an exit leaves the monitor. */
  function Asking(s: Sys, c: Call, t: Tcb): Rec
    requires t in s.tcbs
  {
    var r := s.tcbs[t];
    if t != s.current then r
    else
      r.(cont := Waiting(s, c),
         joined := if c.JoinOn? && Waiting(s, c).ToClient? then 0 else r.joined,
         inside := if c.Exit? then r.inside - {c.m} else r.inside)
  }

  /** Which of thread t's marks call c sets: a join or a detach claims the handle, and the return
      of the start procedure gives the result. */
  predicate Marked(s: Sys, c: Call, s': Sys, t: Tcb)
    requires t in s.tcbs && t in s'.tcbs
  {
    var r, r' := s.tcbs[t], s'.tcbs[t];
    && r'.kind == r.kind && r.frees <= r'.frees
    && (r'.claimed <==> r.claimed || c == JoinOn(t) || c == Detach(t))
    && (r.claimed ==> r'.joiner == r.joiner)
    && r'.outcome == (if c.Return? && t == s.current then Exited(c.v) else r.outcome)
  }

  /** What call c does to thread t. */
  predicate CallEffect(s: Sys, c: Call, s': Sys, t: Tcb)
    requires t in s.tcbs
  {
    && t in s'.tcbs && Marked(s, c, s', t)
    && (Code(Asking(s, c, t), s'.tcbs[t]) || Completed(s', Asking(s, c, t), s'.tcbs[t]))
  }

  lemma CreateEffect(s: Sys, x: Tcb, t: Tcb)
    requires ValidSys(s) && Legal(s, Create(x)) && t in s.tcbs
    ensures CallEffect(s, Create(x), Perform(s, Create(x)), t)
  {
    assert ThreadOk(s, Running, null, t);
  }

  lemma YieldEffect(s: Sys, t: Tcb)
    requires ValidSys(s) && Legal(s, Yield) && t in s.tcbs
    ensures CallEffect(s, Yield, Perform(s, Yield), t)
  {
    YieldOk(s);
    StopContinueOnward(Enqueue(s, s.current), Runable);
    assert ThreadOnward(Enqueue(s, s.current), Perform(s, Yield), t);
  }

  lemma AwaitJoinEffect(s: Sys, h: Tcb, t: Tcb)
    requires ValidSys(s) && Legal(s, JoinOn(h)) && t in s.tcbs && !s.tcbs[h].claimed && s.tcbs[h].state != Dead
    ensures CallEffect(s, JoinOn(h), Continue(Stop(AwaitJoin(s, h), Blocked)), t)
  {
    AwaitJoinOk(s, h);
    StopContinueOnward(AwaitJoin(s, h), Blocked);
    assert ThreadOnward(AwaitJoin(s, h), Continue(Stop(AwaitJoin(s, h), Blocked)), t);
  }

  lemma JoinDeadEffect(s: Sys, h: Tcb, t: Tcb)
    requires Here(s, Running, null, s.current) && Here(s, Running, null, h) && t in s.tcbs
    requires h != s.current && !s.tcbs[h].claimed && s.tcbs[h].state == Dead && s.tcbs[s.current].cont == ToClient
    ensures CallEffect(s, JoinOn(h), JoinDead(s, h), t)
  {
  }

  lemma JoinCallIs(s: Sys, h: Tcb)
    requires ValidSys(s) && Legal(s, JoinOn(h))
    ensures JoinCall(s, h) == if s.tcbs[h].claimed then NotJoined(s)
                              else if s.tcbs[h].state != Dead then Continue(Stop(AwaitJoin(s, h), Blocked))
                              else JoinDead(s, h)
  {
    assert ThreadOk(s, Running, null, s.current) && ThreadOk(s, Running, null, h);
  }

  lemma JoinEffect(s: Sys, h: Tcb, t: Tcb)
    requires ValidSys(s) && Legal(s, JoinOn(h)) && t in s.tcbs
    ensures CallEffect(s, JoinOn(h), JoinCall(s, h), t)
  {
    assert Here(s, Running, null, s.current) && Here(s, Running, null, h);
    JoinCallIs(s, h);
    if !s.tcbs[h].claimed {
      if s.tcbs[h].state != Dead {
        AwaitJoinEffect(s, h, t);
      } else {
        JoinDeadEffect(s, h, t);
      }
    }
  }

  lemma DetachEffect(s: Sys, h: Tcb, t: Tcb)
    requires ValidSys(s) && Legal(s, Detach(h)) && t in s.tcbs
    ensures CallEffect(s, Detach(h), Perform(s, Detach(h)), t)
  {
    assert ThreadOk(s, Running, null, h);
  }

  lemma EnterEffect(s: Sys, m: Monitor, t: Tcb)
    requires ValidSys(s) && Legal(s, Enter(m)) && t in s.tcbs
    ensures CallEffect(s, Enter(m), Perform(s, Enter(m)), t)
  {
    StartEnterOk(s, m);
    ContinueOnward(Entering(s, m));
    assert ThreadOnward(Entering(s, m), Perform(s, Enter(m)), t);
  }

  lemma ExitEffect(s: Sys, m: Monitor, t: Tcb)
    requires ValidSys(s) && Legal(s, Exit(m)) && t in s.tcbs
    ensures CallEffect(s, Exit(m), Perform(s, Exit(m)), t)
  {
    ExitCallIs(s, m);
  }

  lemma ReturnEffect(s: Sys, v: int, t: Tcb)
    requires ValidSys(s) && Legal(s, Return(v)) && t in s.tcbs
    ensures CallEffect(s, Return(v), Perform(s, Return(v)), t)
  {
    ReturnStops(s, v);
    StopContinueOnward(Returned(s, v), Dying);
    assert ThreadOnward(Returned(s, v), Perform(s, Return(v)), t);
  }

  lemma ExitCallIs(s: Sys, m: Monitor)
    requires ValidSys(s) && Legal(s, Exit(m))
    ensures m in s.monitors && (s.monitors[m].waiters != [] ==> s.monitors[m].waiters[0] in s.tcbs)
    ensures ExitCall(s, m) == AfterExit(s, m)
  {
    assert Here(s, Running, null, s.current) && MonitorOk(s, Running, m);
    var ws := s.monitors[m].waiters;
    if ws != [] {
      assert ws[0] in ws && ThreadOk(s, Running, null, ws[0]);
    }
    ExitIs(s, m);
  }

  lemma PerformEffect(s: Sys, c: Call, t: Tcb)
    requires ValidSys(s) && Legal(s, c) && t in s.tcbs
    ensures CallEffect(s, c, Perform(s, c), t)
  {
    match c
    case Create(x) => CreateEffect(s, x, t);
    case MakeMonitor(_) => assert s.tcbs[s.current].cont == ToClient;
    case Yield => YieldEffect(s, t);
    case JoinOn(h) => JoinEffect(s, h, t);
    case Detach(h) => DetachEffect(s, h, t);
    case Enter(m) => EnterEffect(s, m, t);
    case Exit(m) => ExitEffect(s, m, t);
    case Return(v) => ReturnEffect(s, v, t);
  }

  /** The calls that give the processor up. */
  predicate Blocks(s: Sys, c: Call) {
    match c
    case Yield => true
    case Return(_) => true
    case JoinOn(h) => h in s.tcbs && !s.tcbs[h].claimed && s.tcbs[h].outcome == NotExited
    case Enter(m) => m in s.monitors && s.monitors[m].holder != null
    case _ => false
  }

  lemma JoinFollows(s: Sys, h: Tcb)
    requires ValidSys(s) && Legal(s, JoinOn(h))
    ensures Follows(s, JoinCall(s, h)) && (|JoinCall(s, h).picked| > |s.picked| <==> Blocks(s, JoinOn(h)))
  {
    assert Here(s, Running, null, s.current) && Here(s, Running, null, h);
    JoinCallIs(s, h);
    if !s.tcbs[h].claimed {
      if s.tcbs[h].state != Dead {
        AwaitJoinOk(s, h);
        StopContinueFollows(AwaitJoin(s, h), Blocked);
      } else {
        FinishDeadFollows(s, h);
      }
    }
  }

  lemma FinishDeadFollows(s: Sys, h: Tcb)
    requires Here(s, Running, null, s.current) && Here(s, Running, null, h) && h != s.current
    requires s.tcbs[h].state == Dead && s.tcbs[h].frees == 0
    ensures Follows(s, JoinDead(s, h)) && JoinDead(s, h).picked == s.picked
  {
  }

  lemma EnterFollows(s: Sys, m: Monitor)
    requires ValidSys(s) && Legal(s, Enter(m))
    ensures Follows(s, EnterCall(s, m)) && (|EnterCall(s, m).picked| > |s.picked| <==> Blocks(s, Enter(m)))
  {
    StartEnterOk(s, m);
    ContinueFollows(Entering(s, m));
  }

  /** A call whose first part picks and joins nothing follows that part. */
  lemma RestFollows(s: Sys, s1: Sys, s': Sys)
    requires s1.picked == s.picked && s1.joins == s.joins && s1.current == s.current && Follows(s1, s')
    ensures Follows(s, s')
  {
  }

  lemma YieldFollows(s: Sys)
    requires ValidSys(s)
    ensures Follows(s, Perform(s, Yield)) && |Perform(s, Yield).picked| > |s.picked|
  {
    var s1 := Enqueue(s, s.current);
    YieldOk(s);
    StopContinueFollows(s1, Runable);
    RestFollows(s, s1, Continue(Stop(s1, Runable)));
  }

  lemma ReturnFollows(s: Sys, v: int)
    requires ValidSys(s) && Legal(s, Return(v))
    ensures Follows(s, ReturnCall(s, v)) && |ReturnCall(s, v).picked| > |s.picked|
  {
    var s1 := Returned(s, v);
    ReturnStops(s, v);
    StopContinueFollows(s1, Dying);
    RestFollows(s, s1, Continue(Stop(s1, Dying)));
  }

  /** A call gives the processor up exactly if it is one of these; otherwise the caller goes on. */
  lemma PerformFollows(s: Sys, c: Call)
    requires ValidSys(s) && Legal(s, c)
    ensures Follows(s, Perform(s, c)) && (|Perform(s, c).picked| > |s.picked| <==> Blocks(s, c))
  {
    match c
    case Create(t) => NewUnqueued(s, t);
    case MakeMonitor(_) =>
    case Yield => YieldFollows(s);
    case JoinOn(h) => JoinFollows(s, h);
    case Detach(h) => assert ThreadOk(s, Running, null, h);
    case Enter(m) => EnterFollows(s, m);
    case Exit(m) => ExitCallIs(s, m);
    case Return(v) => ReturnFollows(s, v);
  }
}
