/** What the calls of the thread package on one processor achieve, over whole runs: joins hand
    over results, detached threads are freed, monitors are entered and released, and processor
    time is handed on in turn. */
module UthreadLaws {
  import opened ThreadQueue
  import opened UthreadSpec
  import opened UthreadInvariant
  import opened UthreadCalls
  import opened UthreadRuns
  import opened UthreadJoins
  import opened UthreadEffects

  // ---------------------------------------------------------------- one call

  lemma CallIs(base: Tcb, idle: Tcb, calls: seq<Call>, run: seq<Sys>, i: nat)
    requires SysRun(base, idle, calls, run) && i < |calls|
    ensures ValidSys(run[i]) && ValidSys(run[i + 1])
    ensures Legal(run[i], calls[i]) && run[i + 1] == Perform(run[i], calls[i])
  {
    RunValid(base, idle, calls, run, i);
    RunValid(base, idle, calls, run, i + 1);
    StepIs(base, idle, calls, run, i);
  }

  /** A created thread is nascent, at the end of the ready queue, and nothing else has changed. */
  lemma CreateMakesReady(base: Tcb, idle: Tcb, calls: seq<Call>, run: seq<Sys>, i: nat, t: Tcb)
    requires SysRun(base, idle, calls, run) && i < |calls| && calls[i] == Create(t)
    ensures t !in run[i].tcbs && t in run[i + 1].tcbs && run[i + 1].tcbs.Keys == run[i].tcbs.Keys + {t}
    ensures var r := run[i + 1].tcbs[t];
            && r.state == Nascent && r.kind == Created && r.cont == ToClient && r.inside == {}
            && r.joiner == Nobody && !r.claimed && !r.joinLock
            && r.starts == 0 && r.frees == 0 && r.outcome == NotExited
    ensures forall x | x in run[i].tcbs :: run[i + 1].tcbs[x] == run[i].tcbs[x]
    ensures run[i + 1].(tcbs := run[i].tcbs) == run[i].(ready := run[i].ready + [t])
  {
    CallIs(base, idle, calls, run, i);
    NewUnqueued(run[i], t);
  }

  /** A new monitor is free and has no waiters. */
  lemma MakeMonitorMakesFree(base: Tcb, idle: Tcb, calls: seq<Call>, run: seq<Sys>, i: nat, m: Monitor)
    requires SysRun(base, idle, calls, run) && i < |calls| && calls[i] == MakeMonitor(m)
    ensures m !in run[i].monitors && m in run[i + 1].monitors
    ensures run[i + 1].monitors.Keys == run[i].monitors.Keys + {m}
    ensures run[i + 1].monitors[m].holder == null && run[i + 1].monitors[m].waiters == []
    ensures forall n | n in run[i].monitors :: run[i + 1].monitors[n] == run[i].monitors[n]
    ensures run[i + 1].(monitors := run[i].monitors) == run[i]
  {
    CallIs(base, idle, calls, run, i);
  }

  /** A monitor that nobody holds is entered at once, whoever waits for it: the caller goes on as
      its holder, and no other thread, monitor or queue is touched. */
  lemma EnterTakesFree(base: Tcb, idle: Tcb, calls: seq<Call>, run: seq<Sys>, i: nat, m: Monitor)
    requires SysRun(base, idle, calls, run) && i < |calls| && calls[i] == Enter(m)
    requires m in run[i].monitors && run[i].monitors[m].holder == null
    ensures run[i].current in run[i].tcbs && run[i].current in run[i + 1].tcbs && m in run[i + 1].monitors
    ensures run[i + 1].monitors[m].holder == run[i].current
    ensures m in run[i + 1].tcbs[run[i].current].inside
    ensures forall t | t in run[i].tcbs && t != run[i].current ::
              t in run[i + 1].tcbs && run[i + 1].tcbs[t] == run[i].tcbs[t]
    ensures run[i + 1].monitors == run[i].monitors[m := run[i].monitors[m].(holder := run[i].current)]
    ensures run[i + 1].(tcbs := run[i].tcbs, monitors := run[i].monitors) == run[i]
  {
    CallIs(base, idle, calls, run, i);
    assert MonitorOk(run[i], Running, m);
    assert Continue(Entering(run[i], m)) == TakeMonitor(Entering(run[i], m), m);
  }

  /** A monitor that is held makes the caller its last waiter, and another thread is picked. */
  lemma EnterWaits(base: Tcb, idle: Tcb, calls: seq<Call>, run: seq<Sys>, i: nat, m: Monitor)
    requires SysRun(base, idle, calls, run) && i < |calls| && calls[i] == Enter(m)
    requires m in run[i].monitors && run[i].monitors[m].holder != null
    ensures m in run[i + 1].monitors && run[i + 1].monitors[m].holder == run[i].monitors[m].holder
    ensures run[i].monitors[m].waiters + [run[i].current] <= run[i + 1].monitors[m].waiters
    ensures |run[i + 1].picked| > |run[i].picked|
  {
    CallIs(base, idle, calls, run, i);
    var s := run[i];
    var s1 := Entering(s, m);
    StartEnterOk(s, m);
    assert MonitorOk(s1, Running, m);
    EnqueueWaiterOk(s1, m);
    var s2 := EnqueueWaiter(s1, m);
    Unqueued(s, Running, null, s.current);
    StopOk(s2, Blocked);
    StopContinueOnward(s2, Blocked);
    assert MonitorOnward(s2, run[i + 1], m);
    ContinueLater(Stop(s2, Blocked));
  }

  /** An exit frees the monitor and wakes its first waiter, if it has one: the waiter leaves the
      monitor's queue for the end of the ready queue. */
  lemma ExitReleases(base: Tcb, idle: Tcb, calls: seq<Call>, run: seq<Sys>, i: nat, m: Monitor)
    requires SysRun(base, idle, calls, run) && i < |calls| && calls[i] == Exit(m)
    ensures m in run[i].monitors && run[i].monitors[m].holder == run[i].current
    ensures m in run[i + 1].monitors && run[i + 1].monitors[m].holder == null
    ensures run[i + 1].current == run[i].current && run[i].current in run[i + 1].tcbs
    ensures run[i + 1].picked == run[i].picked && run[i + 1].joins == run[i].joins
    ensures m !in run[i + 1].tcbs[run[i].current].inside
    ensures var ws := run[i].monitors[m].waiters;
            if ws == [] then run[i + 1].ready == run[i].ready && run[i + 1].monitors[m].waiters == []
            else && run[i + 1].ready == run[i].ready + [ws[0]] && run[i + 1].monitors[m].waiters == ws[1..]
                 && ws[0] in run[i + 1].tcbs && run[i + 1].tcbs[ws[0]].state == Runable
    ensures forall n | n in run[i].monitors && n != m ::
              n in run[i + 1].monitors && run[i + 1].monitors[n] == run[i].monitors[n]
  {
    CallIs(base, idle, calls, run, i);
    var s := run[i];
    assert ThreadOk(s, Running, null, s.current) && MonitorOk(s, Running, m);
    ExitCallIs(s, m);
  }

  /** Without an exit waiters are only added to a monitor's queue, at the end, and its holder
      keeps it. */
  lemma OnlyExitReleases(base: Tcb, idle: Tcb, calls: seq<Call>, run: seq<Sys>, i: nat, m: Monitor)
    requires SysRun(base, idle, calls, run) && i < |calls| && m in run[i].monitors && calls[i] != Exit(m)
    ensures m in run[i + 1].monitors && run[i].monitors[m].waiters <= run[i + 1].monitors[m].waiters
    ensures run[i].monitors[m].holder != null ==> run[i + 1].monitors[m].holder == run[i].monitors[m].holder
  {
    CallIs(base, idle, calls, run, i);
    if calls[i].Exit? {
      ExitReleases(base, idle, calls, run, i, calls[i].m);
    } else {
      PerformQueues(run[i], calls[i]);
      assert MonitorOnward(run[i], run[i + 1], m);
    }
  }

  /** What comes of the rest of a call comes of the call. */
  lemma RestQueues(s: Sys, s1: Sys, s': Sys)
    requires s1.monitors == s.monitors && s1.tcbs.Keys == s.tcbs.Keys && Onward(s1, s')
    ensures Queues(s, s') && s'.tcbs.Keys == s.tcbs.Keys
  {
    forall m | m in s.monitors ensures MonitorOnward(s, s', m) {
      assert MonitorOnward(s1, s', m);
    }
  }

  lemma JoinQueues(s: Sys, h: Tcb)
    requires ValidSys(s) && Legal(s, JoinOn(h))
    ensures Queues(s, JoinCall(s, h)) && JoinCall(s, h).tcbs.Keys == s.tcbs.Keys
  {
    JoinCallIs(s, h);
    if !s.tcbs[h].claimed && s.tcbs[h].state != Dead {
      AwaitJoinOk(s, h);
      StopContinueOnward(AwaitJoin(s, h), Blocked);
      RestQueues(s, AwaitJoin(s, h), JoinCall(s, h));
    }
  }

  lemma StoppingQueues(s: Sys, c: Call)
    requires ValidSys(s) && Legal(s, c) && (c.Yield? || c.Return?)
    ensures Queues(s, Perform(s, c)) && Perform(s, c).tcbs.Keys == s.tcbs.Keys
  {
    if c.Yield? {
      YieldOk(s);
      StopContinueOnward(Enqueue(s, s.current), Runable);
      RestQueues(s, Enqueue(s, s.current), Perform(s, c));
    } else {
      ReturnStops(s, c.v);
      StopContinueOnward(Returned(s, c.v), Dying);
      RestQueues(s, Returned(s, c.v), Perform(s, c));
    }
  }

  lemma PerformQueues(s: Sys, c: Call)
    requires ValidSys(s) && Legal(s, c) && !c.Exit?
    ensures Queues(s, Perform(s, c))
    ensures Perform(s, c).tcbs.Keys == if c.Create? then s.tcbs.Keys + {c.t} else s.tcbs.Keys
  {
    match c
    case Create(_) =>
    case MakeMonitor(_) =>
    case Yield => StoppingQueues(s, c);
    case JoinOn(h) => JoinQueues(s, h);
    case Detach(_) =>
    case Enter(m) =>
      StartEnterOk(s, m);
      ContinueOnward(Entering(s, m));
      RestQueues(s, Entering(s, m), Perform(s, c));
    case Return(_) => StoppingQueues(s, c);
  }

  lemma EffectAt(base: Tcb, idle: Tcb, calls: seq<Call>, run: seq<Sys>, i: nat, t: Tcb)
    requires SysRun(base, idle, calls, run) && i < |calls| && t in run[i].tcbs
    ensures CallEffect(run[i], calls[i], run[i + 1], t)
  {
    CallIs(base, idle, calls, run, i);
    PerformEffect(run[i], calls[i], t);
  }

  /** A thread comes into being with its Create, unclaimed and alive. */
  lemma NewThread(base: Tcb, idle: Tcb, calls: seq<Call>, run: seq<Sys>, i: nat, t: Tcb)
    requires SysRun(base, idle, calls, run) && i < |calls| && t in run[i + 1].tcbs && t !in run[i].tcbs
    ensures calls[i] == Create(t) && !run[i + 1].tcbs[t].claimed && run[i + 1].tcbs[t].outcome == NotExited
  {
    CallIs(base, idle, calls, run, i);
    if calls[i].Exit? {
      ExitCallIs(run[i], calls[i].m);
    } else {
      PerformQueues(run[i], calls[i]);
    }
    if calls[i] == Create(t) {
      CreateMakesReady(base, idle, calls, run, i, t);
    }
  }

  lemma ThreadStays(base: Tcb, idle: Tcb, calls: seq<Call>, run: seq<Sys>, i: nat, j: nat, t: Tcb)
    requires SysRun(base, idle, calls, run) && i <= j < |run| && t in run[i].tcbs
    ensures t in run[j].tcbs
  {
    RunLater(base, idle, calls, run, i, j);
  }

  // ---------------------------------------------------------------- claims and results

  predicate Claims(c: Call, h: Tcb) {
    c == JoinOn(h) || c == Detach(h)
  }

  lemma NotClaimedBefore(base: Tcb, idle: Tcb, calls: seq<Call>, run: seq<Sys>, j: nat, h: Tcb)
    requires SysRun(base, idle, calls, run) && j < |run| && h !in run[j].tcbs
    ensures forall i | 0 <= i < j :: !Claims(calls[i], h) && run[i].current != h
  {
    forall i | 0 <= i < j ensures !Claims(calls[i], h) && run[i].current != h {
      CallIs(base, idle, calls, run, i);
      if h in run[i].tcbs {
        ThreadStays(base, idle, calls, run, i, j, h);
      }
    }
  }

  /** A handle counts as claimed exactly from its first join or detach on. */
  lemma {:induction false} ClaimedExactly(base: Tcb, idle: Tcb, calls: seq<Call>, run: seq<Sys>, j: nat, h: Tcb)
    requires SysRun(base, idle, calls, run) && j < |run| && h in run[j].tcbs
    ensures run[j].tcbs[h].claimed <==> exists i :: 0 <= i < j && Claims(calls[i], h)
  {
    if j == 0 {
    } else if h in run[j - 1].tcbs {
      ClaimedExactly(base, idle, calls, run, j - 1, h);
      EffectAt(base, idle, calls, run, j - 1, h);
      assert Claims(calls[j - 1], h) || !Claims(calls[j - 1], h);
    } else {
      NewThread(base, idle, calls, run, j - 1, h);
      NotClaimedBefore(base, idle, calls, run, j - 1, h);
    }
  }

  predicate Returns(s: Sys, c: Call, t: Tcb, v: int) {
    s.current == t && c == Return(v)
  }

  /** A thread's result is what its start procedure has returned, and nothing before that. */
  lemma {:induction false} ResultExactly(base: Tcb, idle: Tcb, calls: seq<Call>, run: seq<Sys>, j: nat, t: Tcb, v: int)
    requires SysRun(base, idle, calls, run) && j < |run| && t in run[j].tcbs
    ensures run[j].tcbs[t].outcome == Exited(v) <==> exists i :: 0 <= i < j && Returns(run[i], calls[i], t, v)
  {
    if j == 0 {
    } else if t in run[j - 1].tcbs {
      ResultExactly(base, idle, calls, run, j - 1, t, v);
      EffectAt(base, idle, calls, run, j - 1, t);
      CallIs(base, idle, calls, run, j - 1);
      assert ThreadOk(run[j - 1], Running, null, run[j - 1].current);
      assert Returns(run[j - 1], calls[j - 1], t, v) || !Returns(run[j - 1], calls[j - 1], t, v);
      if exists i :: 0 <= i < j && Returns(run[i], calls[i], t, v) {
        var i :| 0 <= i < j && Returns(run[i], calls[i], t, v);
        assert i < j - 1 || i == j - 1;
      }
    } else {
      NewThread(base, idle, calls, run, j - 1, t);
      NotClaimedBefore(base, idle, calls, run, j - 1, t);
    }
  }

  /** A thread is freed exactly when its start procedure has returned and its handle has been
      joined or detached, unless its joiner has yet to run. */
  lemma FreedExactly(base: Tcb, idle: Tcb, calls: seq<Call>, run: seq<Sys>, j: nat, t: Tcb)
    requires SysRun(base, idle, calls, run) && j < |run| && t in run[j].tcbs
    ensures run[j].tcbs[t].frees == 1
       <==> && (exists i :: 0 <= i < j && Claims(calls[i], t)) && run[j].tcbs[t].outcome.Exited?
            && !exists x :: x in run[j].tcbs && run[j].tcbs[x].cont == InJoin(t)
  {
    RunValid(base, idle, calls, run, j);
    ClaimedExactly(base, idle, calls, run, j, t);
    var s := run[j];
    assert ThreadOk(s, Running, null, t) && s.tcbs[s.current].state == Running;
    forall x | x in s.tcbs && s.tcbs[x].cont == InJoin(t) ensures s.tcbs[t].frees == 0 {
      assert ThreadOk(s, Running, null, x);
    }
    if s.tcbs[t].claimed && s.tcbs[t].outcome.Exited? && s.tcbs[t].frees == 0 {
      assert s.tcbs[s.tcbs[t].joiner.t].cont == InJoin(t);
    }
  }

  // ---------------------------------------------------------------- detach

  predicate Letting(s: Sys, h: Tcb) {
    h in s.tcbs && s.tcbs[h].claimed && (s.tcbs[h].joiner == Detached || s.tcbs[h].frees == 1)
  }

  lemma DetachLets(base: Tcb, idle: Tcb, calls: seq<Call>, run: seq<Sys>, i: nat, h: Tcb)
    requires SysRun(base, idle, calls, run) && i < |calls| && calls[i] == Detach(h)
    requires h in run[i].tcbs && !run[i].tcbs[h].claimed
    ensures Letting(run[i + 1], h)
  {
    CallIs(base, idle, calls, run, i);
    assert ThreadOk(run[i], Running, null, h);
  }

  lemma LettingStays(base: Tcb, idle: Tcb, calls: seq<Call>, run: seq<Sys>, i: nat, h: Tcb)
    requires SysRun(base, idle, calls, run) && i < |calls| && Letting(run[i], h)
    ensures Letting(run[i + 1], h)
  {
    EffectAt(base, idle, calls, run, i, h);
    RunValid(base, idle, calls, run, i + 1);
    assert ThreadOk(run[i + 1], Running, null, h);
  }

  /** A thread that is detached, alive or dead, is claimed from then on, and is freed as soon as
      its start procedure has returned. */
  lemma {:induction false} DetachFrees(base: Tcb, idle: Tcb, calls: seq<Call>, run: seq<Sys>, i: nat, j: nat, h: Tcb)
    requires SysRun(base, idle, calls, run) && i < j < |run| && calls[i] == Detach(h)
    requires h in run[i].tcbs && !run[i].tcbs[h].claimed
    ensures Letting(run[j], h) && run[j].tcbs[h].claimed
    ensures run[j].tcbs[h].outcome.Exited? ==> run[j].tcbs[h].frees == 1
  {
    if j == i + 1 {
      DetachLets(base, idle, calls, run, i, h);
    } else {
      DetachFrees(base, idle, calls, run, i, j - 1, h);
      LettingStays(base, idle, calls, run, j - 1, h);
    }
    RunValid(base, idle, calls, run, j);
    assert ThreadOk(run[j], Running, null, h);
  }

  /** The detach of a handle that has been claimed does nothing. */
  lemma SecondDetachDoesNothing(base: Tcb, idle: Tcb, calls: seq<Call>, run: seq<Sys>, i: nat, h: Tcb)
    requires SysRun(base, idle, calls, run) && i < |calls| && calls[i] == Detach(h)
    requires h in run[i].tcbs && run[i].tcbs[h].claimed
    ensures run[i + 1] == run[i]
  {
    CallIs(base, idle, calls, run, i);
    assert ThreadOk(run[i], Running, null, h);
  }

  // ---------------------------------------------------------------- join

  /** Thread t's latest join was of h, and has handed over the result of h. */
  predicate HasResult(s: Sys, t: Tcb, h: Tcb)
    requires t in s.tcbs
  {
    && !s.tcbs[t].cont.InJoin?
    && h in s.tcbs && s.tcbs[h].outcome == Exited(s.tcbs[t].joined) && s.tcbs[h].frees == 1
  }

  predicate Joining(s: Sys, t: Tcb, h: Tcb) {
    t in s.tcbs && (s.tcbs[t].cont == InJoin(h) || HasResult(s, t, h))
  }

  predicate CallsJoin(s: Sys, c: Call, t: Tcb) {
    s.current == t && c.JoinOn?
  }

  /** Thread t calls no join from call i up to call j. */
  ghost predicate NoJoin(calls: seq<Call>, run: seq<Sys>, i: nat, j: nat, t: Tcb)
    requires j <= |calls| && j <= |run|
  {
    forall k {:trigger calls[k]} | i <= k < j :: !CallsJoin(run[k], calls[k], t)
  }

  lemma NoJoinBefore(calls: seq<Call>, run: seq<Sys>, i: nat, j: nat, t: Tcb)
    requires i < j <= |calls| && j <= |run| && NoJoin(calls, run, i, j, t)
    ensures NoJoin(calls, run, i, j - 1, t) && !CallsJoin(run[j - 1], calls[j - 1], t)
  {
  }

  lemma JoinStarts(base: Tcb, idle: Tcb, calls: seq<Call>, run: seq<Sys>, i: nat, h: Tcb)
    requires SysRun(base, idle, calls, run) && i < |calls| && calls[i] == JoinOn(h)
    requires h in run[i].tcbs && !run[i].tcbs[h].claimed
    ensures Joining(run[i + 1], run[i].current, h)
  {
    CallIs(base, idle, calls, run, i);
    EffectAt(base, idle, calls, run, i, run[i].current);
  }

  lemma ResultStays(base: Tcb, idle: Tcb, calls: seq<Call>, run: seq<Sys>, i: nat, t: Tcb, h: Tcb)
    requires SysRun(base, idle, calls, run) && i < |calls|
    requires t in run[i].tcbs && HasResult(run[i], t, h) && !CallsJoin(run[i], calls[i], t)
    ensures t in run[i + 1].tcbs && HasResult(run[i + 1], t, h)
  {
    CallIs(base, idle, calls, run, i);
    EffectAt(base, idle, calls, run, i, t);
    EffectAt(base, idle, calls, run, i, h);
    assert ThreadOk(run[i], Running, null, h) && ThreadOk(run[i + 1], Running, null, h);
  }

  lemma JoiningStays(base: Tcb, idle: Tcb, calls: seq<Call>, run: seq<Sys>, i: nat, t: Tcb, h: Tcb)
    requires SysRun(base, idle, calls, run) && i < |calls|
    requires Joining(run[i], t, h) && !CallsJoin(run[i], calls[i], t)
    ensures Joining(run[i + 1], t, h)
  {
    if HasResult(run[i], t, h) {
      ResultStays(base, idle, calls, run, i, t, h);
    } else {
      CallIs(base, idle, calls, run, i);
      EffectAt(base, idle, calls, run, i, t);
    }
  }

  /** Until its next join, a thread's latest join is in progress or has handed over its result. */
  lemma {:induction false} RunJoining(base: Tcb, idle: Tcb, calls: seq<Call>, run: seq<Sys>, i: nat, j: nat,
                                      t: Tcb, h: Tcb)
    requires SysRun(base, idle, calls, run) && i <= j < |run| && Joining(run[i], t, h)
    requires NoJoin(calls, run, i, j, t)
    ensures Joining(run[j], t, h)
  {
    if i == j {
    } else {
      NoJoinBefore(calls, run, i, j, t);
      RunJoining(base, idle, calls, run, i, j - 1, t, h);
      JoiningStays(base, idle, calls, run, j - 1, t, h);
    }
  }

  /** The first join of a thread gives its caller, when it has the processor again and until it
      joins another thread, what the start procedure of the joined thread has returned; and that
      thread has been freed. */
  lemma JoinGivesResult(base: Tcb, idle: Tcb, calls: seq<Call>, run: seq<Sys>, i: nat, j: nat, h: Tcb)
    requires SysRun(base, idle, calls, run) && i < j < |run| && calls[i] == JoinOn(h)
    requires h in run[i].tcbs && !run[i].tcbs[h].claimed
    requires run[j].current == run[i].current
    requires NoJoin(calls, run, i + 1, j, run[i].current)
    ensures run[j].current in run[j].tcbs && h in run[j].tcbs && run[j].tcbs[h].frees == 1
    ensures exists a :: 0 <= a < j && Returns(run[a], calls[a], h, run[j].tcbs[run[j].current].joined)
    ensures forall a, v | 0 <= a < |calls| && Returns(run[a], calls[a], h, v) :: run[j].tcbs[run[j].current].joined == v
  {
    var t := run[i].current;
    JoinStarts(base, idle, calls, run, i, h);
    RunJoining(base, idle, calls, run, i + 1, j, t, h);
    RunValid(base, idle, calls, run, j);
    var v := run[j].tcbs[t].joined;
    ResultExactly(base, idle, calls, run, j, h, v);
    forall a, w | 0 <= a < |calls| && Returns(run[a], calls[a], h, w) ensures w == v {
      ReturnsOnce(base, idle, calls, run, j, a, h, v, w);
    }
  }

  /** There is one result. */
  lemma ReturnsOnce(base: Tcb, idle: Tcb, calls: seq<Call>, run: seq<Sys>, j: nat, a: nat, t: Tcb, v: int, w: int)
    requires SysRun(base, idle, calls, run) && j < |run| && t in run[j].tcbs && run[j].tcbs[t].outcome == Exited(v)
    requires a < |calls| && Returns(run[a], calls[a], t, w)
    ensures v == w && a < j
  {
    if a < j {
      ResultExactly(base, idle, calls, run, j, t, w);
    } else {
      DeadStaysDead(base, idle, calls, run, j, a, t);
    }
  }

  lemma RecordedAt(base: Tcb, idle: Tcb, calls: seq<Call>, run: seq<Sys>, i: nat, j: Join)
    requires SysRun(base, idle, calls, run) && i < |calls| && j !in run[i].joins && j in run[i + 1].joins
    ensures j.joiner in run[i + 1].tcbs && HasResult(run[i + 1], j.joiner, j.target)
    ensures run[i + 1].tcbs[j.joiner].joined == j.value
  {
    CallIs(base, idle, calls, run, i);
    PerformFollows(run[i], calls[i]);
    var k :| 0 <= k < |run[i + 1].joins| && run[i + 1].joins[k] == j;
    assert k >= |run[i].joins|;
    JoinsReturnResults(base, idle, calls, run, i + 1, k, k);
  }

  lemma {:induction false} RunResultStays(base: Tcb, idle: Tcb, calls: seq<Call>, run: seq<Sys>, i: nat, j: nat,
                                          t: Tcb, h: Tcb)
    requires SysRun(base, idle, calls, run) && i <= j < |run| && t in run[i].tcbs && HasResult(run[i], t, h)
    requires NoJoin(calls, run, i, j, t)
    ensures t in run[j].tcbs && HasResult(run[j], t, h)
  {
    if i == j {
    } else {
      NoJoinBefore(calls, run, i, j, t);
      RunResultStays(base, idle, calls, run, i, j - 1, t, h);
      ResultStays(base, idle, calls, run, j - 1, t, h);
    }
  }

  /** From the call that completes a join on, and until its next join, the joiner has the value
      with which the join was recorded. */
  lemma RecordedJoinHandsOver(base: Tcb, idle: Tcb, calls: seq<Call>, run: seq<Sys>, i: nat, k: nat, j: Join)
    requires SysRun(base, idle, calls, run) && i < k < |run| && j !in run[i].joins && j in run[i + 1].joins
    requires NoJoin(calls, run, i + 1, k, j.joiner)
    ensures j.joiner in run[k].tcbs && run[k].tcbs[j.joiner].joined == j.value
  {
    RecordedAt(base, idle, calls, run, i, j);
    RunResultStays(base, idle, calls, run, i + 1, k, j.joiner, j.target);
    RunLater(base, idle, calls, run, i + 1, k);
  }

  /** Once the joiner of a dead thread has been picked, it has the dead thread's result. */
  lemma CompletedJoinHandsOver(base: Tcb, idle: Tcb, calls: seq<Call>, run: seq<Sys>, i: nat, j: nat,
                               h: Tcb, t: Tcb, k: nat)
    requires SysRun(base, idle, calls, run) && i <= j < |run| && NoJoin(calls, run, i, j, t)
    requires Live(run[i], h) && run[i].tcbs[h].outcome.Exited? && run[i].tcbs[h].joiner == By(t)
    requires k < |run[i].ready| && run[i].ready[k] == t && |run[j].picked| > |run[i].picked| + k
    ensures t in run[j].tcbs && Exited(run[j].tcbs[t].joined) == run[i].tcbs[h].outcome
  {
    RunValid(base, idle, calls, run, i);
    assert ThreadOk(run[i], Running, null, h);
    RunJoining(base, idle, calls, run, i, j, t, h);
    JoinCompletes(base, idle, calls, run, i, j, h, t, k);
    RunValid(base, idle, calls, run, j);
    assert ThreadOk(run[j], Running, null, t);
    RunLater(base, idle, calls, run, i, j);
  }

  // ---------------------------------------------------------------- monitors

  predicate Enters(s: Sys, c: Call, t: Tcb, m: Monitor) {
    s.current == t && c == Enter(m)
  }

  predicate Exits(s: Sys, c: Call, t: Tcb, m: Monitor) {
    s.current == t && c == Exit(m)
  }

  /** Thread t has called enter on m before call j, and not exit since. */
  ghost predicate EnteredBefore(calls: seq<Call>, run: seq<Sys>, j: nat, t: Tcb, m: Monitor)
    requires j <= |calls| && j <= |run|
  {
    exists i {:trigger calls[i]} :: 0 <= i < j && Enters(run[i], calls[i], t, m)
      && forall k {:trigger calls[k]} | i < k < j :: !Exits(run[k], calls[k], t, m)
  }

  lemma EnteredStep(calls: seq<Call>, run: seq<Sys>, j: nat, t: Tcb, m: Monitor)
    requires j < |calls| && j < |run|
    ensures EnteredBefore(calls, run, j + 1, t, m)
       <==> Enters(run[j], calls[j], t, m) || (EnteredBefore(calls, run, j, t, m) && !Exits(run[j], calls[j], t, m))
  {
    if EnteredBefore(calls, run, j, t, m) && !Exits(run[j], calls[j], t, m) {
      var i :| 0 <= i < j && Enters(run[i], calls[i], t, m)
        && forall k {:trigger calls[k]} | i < k < j :: !Exits(run[k], calls[k], t, m);
      assert calls[i] == calls[i];
    }
  }

  predicate InsideOrEntering(s: Sys, t: Tcb, m: Monitor)
    requires t in s.tcbs
  {
    m in s.tcbs[t].inside || s.tcbs[t].cont == InEnter(m)
  }

  lemma InsideStep(base: Tcb, idle: Tcb, calls: seq<Call>, run: seq<Sys>, j: nat, t: Tcb, m: Monitor)
    requires SysRun(base, idle, calls, run) && j < |calls| && t in run[j].tcbs
    ensures t in run[j + 1].tcbs
    ensures InsideOrEntering(run[j + 1], t, m)
       <==> Enters(run[j], calls[j], t, m) || (InsideOrEntering(run[j], t, m) && !Exits(run[j], calls[j], t, m))
  {
    CallIs(base, idle, calls, run, j);
    EffectAt(base, idle, calls, run, j, t);
  }

  /** A thread is inside a monitor, or waits in enter, exactly if it has called enter on it and
      not exit since. */
  lemma {:induction false} InsideExactly(base: Tcb, idle: Tcb, calls: seq<Call>, run: seq<Sys>, j: nat,
                                         t: Tcb, m: Monitor)
    requires SysRun(base, idle, calls, run) && j < |run| && t in run[j].tcbs
    ensures InsideOrEntering(run[j], t, m) <==> EnteredBefore(calls, run, j, t, m)
  {
    if j == 0 {
    } else if t in run[j - 1].tcbs {
      InsideExactly(base, idle, calls, run, j - 1, t, m);
      InsideStep(base, idle, calls, run, j - 1, t, m);
      EnteredStep(calls, run, j - 1, t, m);
    } else {
      NewThread(base, idle, calls, run, j - 1, t);
      CreateMakesReady(base, idle, calls, run, j - 1, t);
      NotClaimedBefore(base, idle, calls, run, j - 1, t);
      EnteredStep(calls, run, j - 1, t, m);
      CallIs(base, idle, calls, run, j - 1);
    }
  }

  /** The thread that has the processor holds exactly the monitors that it has entered and not
      exited: an enter returns with the monitor, and not before. */
  lemma EnterReturnsInside(base: Tcb, idle: Tcb, calls: seq<Call>, run: seq<Sys>, j: nat, m: Monitor)
    requires SysRun(base, idle, calls, run) && j < |run|
    ensures EnteredBefore(calls, run, j, run[j].current, m)
       <==> m in run[j].monitors && run[j].monitors[m].holder == run[j].current
  {
    RunValid(base, idle, calls, run, j);
    var s := run[j];
    assert ThreadOk(s, Running, null, s.current);
    InsideExactly(base, idle, calls, run, j, s.current, m);
    if m in s.monitors {
      assert MonitorOk(s, Running, m);
    }
  }

  /** The threads that exits of m wake from call i up to call j, in order: each exit appends one
      to the ready queue, or none. */
  function WokenBy(calls: seq<Call>, run: seq<Sys>, i: nat, j: nat, m: Monitor): seq<Tcb>
    requires i <= j <= |calls| && j < |run|
  {
    if i == j then []
    else
      var s, s' := run[j - 1], run[j];
      WokenBy(calls, run, i, j - 1, m)
      + (if calls[j - 1] == Exit(m) && |s.ready| < |s'.ready| then s'.ready[|s.ready|..] else [])
  }

  /** Waiters are woken first in, first out. */
  lemma {:induction false} WaitersFifo(base: Tcb, idle: Tcb, calls: seq<Call>, run: seq<Sys>, i: nat, j: nat,
                                       m: Monitor)
    requires SysRun(base, idle, calls, run) && i <= j < |run| && m in run[i].monitors
    ensures m in run[j].monitors
    ensures run[i].monitors[m].waiters <= WokenBy(calls, run, i, j, m) + run[j].monitors[m].waiters
  {
    if i == j {
    } else {
      WaitersFifo(base, idle, calls, run, i, j - 1, m);
      var ws, ws' := run[j - 1].monitors[m].waiters, WokenBy(calls, run, i, j - 1, m);
      if calls[j - 1] == Exit(m) {
        ExitReleases(base, idle, calls, run, j - 1, m);
        assert ws != [] ==> ws' + ws == ws' + [ws[0]] + ws[1..];
      } else {
        OnlyExitReleases(base, idle, calls, run, j - 1, m);
      }
    }
  }

  // ---------------------------------------------------------------- the processor

  /** The thread that has the processor is the one picked last. */
  lemma {:induction false} PickedRuns(base: Tcb, idle: Tcb, calls: seq<Call>, run: seq<Sys>, i: nat)
    requires SysRun(base, idle, calls, run) && i < |run|
    ensures run[i].current == if run[i].picked == [] then base else run[i].picked[|run[i].picked| - 1]
  {
    if i == 0 {
    } else {
      PickedRuns(base, idle, calls, run, i - 1);
      CallIs(base, idle, calls, run, i - 1);
      PerformFollows(run[i - 1], calls[i - 1]);
    }
  }

  /** A call gives the processor up exactly if it is a yield, a return, the first join of a thread
      that has not died, or an enter of a monitor that is held. */
  lemma StopsExactly(base: Tcb, idle: Tcb, calls: seq<Call>, run: seq<Sys>, i: nat)
    requires SysRun(base, idle, calls, run) && i < |calls|
    ensures |run[i + 1].picked| > |run[i].picked| <==> Blocks(run[i], calls[i])
    ensures !Blocks(run[i], calls[i]) ==> run[i + 1].current == run[i].current
  {
    CallIs(base, idle, calls, run, i);
    PerformFollows(run[i], calls[i]);
  }

  lemma YieldQueues(base: Tcb, idle: Tcb, calls: seq<Call>, run: seq<Sys>, i: nat)
    requires SysRun(base, idle, calls, run) && i < |calls| && calls[i] == Yield
    ensures run[i].picked + run[i].ready + [run[i].current] <= run[i + 1].picked + run[i + 1].ready
  {
    CallIs(base, idle, calls, run, i);
    var s1 := Enqueue(run[i], run[i].current);
    YieldOk(run[i]);
    StopContinueLater(s1, s1, Runable);
    assert s1.picked + s1.ready == run[i].picked + run[i].ready + [run[i].current];
  }

  /** A thread that yields runs again only after every thread that was ready has been picked, in
      order. */
  lemma YieldIsFair(base: Tcb, idle: Tcb, calls: seq<Call>, run: seq<Sys>, i: nat, j: nat)
    requires SysRun(base, idle, calls, run) && i < j < |run| && calls[i] == Yield && run[j].current == run[i].current
    ensures run[i].picked + run[i].ready + [run[i].current] <= run[j].picked
  {
    YieldQueues(base, idle, calls, run, i);
    RunLater(base, idle, calls, run, i + 1, j);
    RunValid(base, idle, calls, run, j);
    var t, n := run[i].current, |run[i].picked| + |run[i].ready|;
    assert ThreadOk(run[j], Running, null, t);
    assert (run[j].picked + run[j].ready)[n] == t;
  }
}
