/** What holds over whole runs of the thread package on one processor, for every sequence of
    legal calls. */
module UthreadRuns {
  import opened ThreadQueue
  import opened UthreadSpec
  import opened UthreadInvariant
  import opened UthreadCalls

  /** run[i + 1] is the state after the i-th call. */
  predicate CallAt(calls: seq<Call>, run: seq<Sys>, i: int)
    requires 0 <= i < |calls| && |run| == |calls| + 1
  {
    Legal(run[i], calls[i]) && run[i + 1] == Perform(run[i], calls[i])
  }

  ghost predicate SysRun(base: Tcb, idle: Tcb, calls: seq<Call>, run: seq<Sys>) {
    && base != idle
    && |run| == |calls| + 1 && run[0] == Init(base, idle)
    && forall i {:trigger CallAt(calls, run, i)} | 0 <= i < |calls| :: CallAt(calls, run, i)
  }

  lemma InitOk(base: Tcb, idle: Tcb)
    requires base != idle
    ensures ValidSys(Init(base, idle))
  {
    var s := Init(base, idle);
    assert idle in s.tcbs && s.tcbs[idle].kind == Idle;
    forall t | t in s.tcbs ensures ThreadOk(s, Running, null, t) {
      assert t == base || t == idle;
    }
  }

  lemma StepIs(base: Tcb, idle: Tcb, calls: seq<Call>, run: seq<Sys>, i: nat)
    requires SysRun(base, idle, calls, run) && i < |calls|
    ensures Legal(run[i], calls[i]) && run[i + 1] == Perform(run[i], calls[i])
  {
    assert CallAt(calls, run, i);
  }

  lemma StepValid(base: Tcb, idle: Tcb, calls: seq<Call>, run: seq<Sys>, i: nat)
    requires SysRun(base, idle, calls, run) && i < |calls| && ValidSys(run[i])
    ensures ValidSys(run[i + 1])
  {
    StepIs(base, idle, calls, run, i);
    PerformOk(run[i], calls[i]);
  }

  lemma {:induction false} RunValid(base: Tcb, idle: Tcb, calls: seq<Call>, run: seq<Sys>, i: nat)
    requires SysRun(base, idle, calls, run) && i < |run|
    ensures ValidSys(run[i])
  {
    if i == 0 {
      InitOk(base, idle);
    } else {
      RunValid(base, idle, calls, run, i - 1);
      StepValid(base, idle, calls, run, i - 1);
    }
  }

  // ---------------------------------------------------------------- between calls

  /** No assertion fails, no lock is waited for in vain, and no freed control block is read. */
  lemma NoFault(base: Tcb, idle: Tcb, calls: seq<Call>, run: seq<Sys>, i: nat)
    requires SysRun(base, idle, calls, run) && i < |run|
    ensures !run[i].fault
  {
    RunValid(base, idle, calls, run, i);
  }

  /** Exactly the current thread is running; the ready queue holds exactly the nascent and the
      runable threads, each once; no thread is left dying unless it has been freed. */
  lemma StatesMatchQueues(base: Tcb, idle: Tcb, calls: seq<Call>, run: seq<Sys>, i: nat, t: Tcb)
    requires SysRun(base, idle, calls, run) && i < |run| && t in run[i].tcbs
    ensures run[i].tcbs[t].state == Running <==> t == run[i].current
    ensures run[i].tcbs[t].state == Nascent || run[i].tcbs[t].state == Runable <==> t in run[i].ready
    ensures NoDuplicates(run[i].ready)
    ensures run[i].tcbs[t].state == Dying ==> run[i].tcbs[t].frees == 1
  {
    RunValid(base, idle, calls, run, i);
    assert ThreadOk(run[i], Running, null, t) && ThreadOk(run[i], Running, null, run[i].current);
  }

  /** What can wake a blocked thread: the queue of a monitor, or the joiner field of a thread. */
  datatype WaitsOn = Waiter(m: Monitor) | JoinerOf(h: Tcb)

  predicate Waits(s: Sys, t: Tcb, on: WaitsOn) {
    match on
    case Waiter(m) => m in s.monitors && t in s.monitors[m].waiters
    case JoinerOf(h) => Live(s, h) && s.tcbs[h].state != Dead && s.tcbs[h].joiner == By(t)
  }

  /** A thread is blocked exactly if something is there to wake it, and then it is one thing. */
  lemma BlockedOnOne(base: Tcb, idle: Tcb, calls: seq<Call>, run: seq<Sys>, i: nat, t: Tcb)
    requires SysRun(base, idle, calls, run) && i < |run| && t in run[i].tcbs
    ensures run[i].tcbs[t].state == Blocked <==> exists on :: Waits(run[i], t, on)
    ensures forall on, on' | Waits(run[i], t, on) && Waits(run[i], t, on') :: on == on'
  {
    RunValid(base, idle, calls, run, i);
    var s := run[i];
    assert ThreadOk(s, Running, null, t) && ThreadOk(s, Running, null, s.current);
    forall on | Waits(s, t, on)
      ensures s.tcbs[t].state == Blocked
      ensures s.tcbs[t].cont == match on case Waiter(m) => InEnter(m) case JoinerOf(h) => InJoin(h)
    {
      match on
      case Waiter(m) => assert MonitorOk(s, Running, m);
      case JoinerOf(h) => assert ThreadOk(s, Running, null, h);
    }
    if s.tcbs[t].state == Blocked {
      match s.tcbs[t].cont
      case InEnter(m) => assert Waits(s, t, Waiter(m));
      case InJoin(h) => assert ThreadOk(s, Running, null, h); assert Waits(s, t, JoinerOf(h));
    }
  }

  /** A thread is on one queue at most and there once, as ThreadQueue wants it of the queues that
      share its `next` field. */
  lemma QueuesApart(base: Tcb, idle: Tcb, calls: seq<Call>, run: seq<Sys>, i: nat, m: Monitor, n: Monitor, t: Tcb)
    requires SysRun(base, idle, calls, run) && i < |run| && m in run[i].monitors && n in run[i].monitors
    requires t in run[i].monitors[m].waiters
    ensures t !in run[i].ready && NoDuplicates(run[i].ready) && NoDuplicates(run[i].monitors[m].waiters)
    ensures t in run[i].monitors[n].waiters ==> m == n
  {
    RunValid(base, idle, calls, run, i);
    assert MonitorOk(run[i], Running, m) && MonitorOk(run[i], Running, n);
    assert ThreadOk(run[i], Running, null, t);
  }

  /** start_proc is called exactly once for a thread that has ever run, and a thread is freed at
      most once, after its start_proc has returned and its handle has been joined or detached. */
  lemma Lifecycle(base: Tcb, idle: Tcb, calls: seq<Call>, run: seq<Sys>, i: nat, t: Tcb)
    requires SysRun(base, idle, calls, run) && i < |run| && t in run[i].tcbs
    ensures run[i].tcbs[t].starts == if run[i].tcbs[t].state == Nascent then 0 else 1
    ensures run[i].tcbs[t].frees <= 1
    ensures run[i].tcbs[t].frees == 1 ==> run[i].tcbs[t].claimed && run[i].tcbs[t].outcome.Exited?
    ensures run[i].tcbs[t].claimed && run[i].tcbs[t].outcome.Exited? ==>
              run[i].tcbs[t].frees == 1 || run[i].tcbs[t].joiner.By?
  {
    RunValid(base, idle, calls, run, i);
    assert ThreadOk(run[i], Running, null, t);
  }

  /** A handle that has been neither joined nor detached can be: its thread has not been freed. */
  lemma FirstClaimIsLegal(base: Tcb, idle: Tcb, calls: seq<Call>, run: seq<Sys>, i: nat, t: Tcb)
    requires SysRun(base, idle, calls, run) && i < |run| && t in run[i].tcbs && !run[i].tcbs[t].claimed
    requires run[i].current in run[i].tcbs && run[i].tcbs[run[i].current].kind != Idle
    ensures Legal(run[i], Detach(t))
    ensures t != run[i].current ==> Legal(run[i], JoinOn(t))
  {
    RunValid(base, idle, calls, run, i);
    assert ThreadOk(run[i], Running, null, t);
  }

  /** A freed thread is on no queue, runs on no processor and is nobody's joiner. */
  lemma FreedIsForgotten(base: Tcb, idle: Tcb, calls: seq<Call>, run: seq<Sys>, i: nat, t: Tcb)
    requires SysRun(base, idle, calls, run) && i < |run| && t in run[i].tcbs && run[i].tcbs[t].frees == 1
    ensures t != run[i].current && t !in run[i].ready
    ensures forall m | m in run[i].monitors :: t !in run[i].monitors[m].waiters && run[i].monitors[m].holder != t
    ensures forall h | Live(run[i], h) :: run[i].tcbs[h].joiner != By(t)
  {
    RunValid(base, idle, calls, run, i);
    var s := run[i];
    assert ThreadOk(s, Running, null, t);
    forall m | m in s.monitors ensures t !in s.monitors[m].waiters && s.monitors[m].holder != t {
      assert MonitorOk(s, Running, m);
    }
    forall h | Live(s, h) ensures s.tcbs[h].joiner != By(t) {
      assert ThreadOk(s, Running, null, h);
    }
  }

  /** A join that has returned gave what start_proc of its target returned, and the target has
      been freed; no thread is joined twice. */
  lemma JoinsReturnResults(base: Tcb, idle: Tcb, calls: seq<Call>, run: seq<Sys>, i: nat, k: nat, l: nat)
    requires SysRun(base, idle, calls, run) && i < |run| && k < |run[i].joins| && l < |run[i].joins|
    ensures run[i].joins[k].target in run[i].tcbs
    ensures run[i].tcbs[run[i].joins[k].target].outcome == Exited(run[i].joins[k].value)
    ensures run[i].tcbs[run[i].joins[k].target].frees == 1
    ensures run[i].joins[k].target == run[i].joins[l].target ==> k == l
  {
    RunValid(base, idle, calls, run, i);
    assert run[i].joins[k] in run[i].joins;
    if k < l {
      assert run[i].joins[k].target != run[i].joins[l].target;
    } else if l < k {
      assert run[i].joins[l].target != run[i].joins[k].target;
    }
  }

  /** A join of a thread that has a joiner already, or is detached, returns 0 and does nothing else. */
  lemma SecondJoinReturnsZero(base: Tcb, idle: Tcb, calls: seq<Call>, run: seq<Sys>, i: nat, h: Tcb)
    requires SysRun(base, idle, calls, run) && i < |calls| && calls[i] == JoinOn(h)
    requires h in run[i].tcbs && run[i].tcbs[h].claimed
    ensures run[i].current in run[i].tcbs
    ensures run[i + 1] == run[i].(tcbs := run[i].tcbs[run[i].current := run[i].tcbs[run[i].current].(joined := 0)])
  {
    RunValid(base, idle, calls, run, i);
    StepIs(base, idle, calls, run, i);
    assert ThreadOk(run[i], Running, null, h);
    assert ThreadOk(run[i], Running, null, run[i].current);
  }

  /** The joiner of a thread that has died is ready to take its result. */
  lemma JoinerIsWoken(base: Tcb, idle: Tcb, calls: seq<Call>, run: seq<Sys>, i: nat, h: Tcb, j: Tcb)
    requires SysRun(base, idle, calls, run) && i < |run|
    requires Live(run[i], h) && run[i].tcbs[h].outcome.Exited? && run[i].tcbs[h].joiner == By(j)
    ensures j in run[i].tcbs && j in run[i].ready && run[i].tcbs[j].cont == InJoin(h)
  {
    RunValid(base, idle, calls, run, i);
    assert ThreadOk(run[i], Running, null, h);
    assert ThreadOk(run[i], Running, null, j);
  }

  // ---------------------------------------------------------------- from one call to later ones

  /** What no call ever undoes: control blocks stay, start_proc's result stays, and the ready
      queue is first in, first out: what has been picked and what is queued only grows at the
      end, as do the joins that have returned. */
  ghost predicate Later(s: Sys, s': Sys) {
    && s.tcbs.Keys <= s'.tcbs.Keys
    && (forall t | t in s.tcbs && s.tcbs[t].outcome.Exited? :: s'.tcbs[t].outcome == s.tcbs[t].outcome)
    && s.picked + s.ready <= s'.picked + s'.ready
    && s.picked <= s'.picked && s.joins <= s'.joins
  }

  lemma LaterTransitive(s: Sys, s1: Sys, s2: Sys)
    requires Later(s, s1) && Later(s1, s2)
    ensures Later(s, s2)
  {
  }

  lemma StartLater(s: Sys, t: Tcb)
    ensures Later(s, Start(s, t))
  {
    assert forall u :: s.picked + s.ready <= s.picked + (s.ready + [u]);
  }

  lemma ReapLater(s: Sys, t: Tcb)
    ensures Later(s, Reap(s, t))
  {
    if Live(s, t) && !s.tcbs[t].joinLock && s.tcbs[t].joiner.By? {
      StartLater(s, s.tcbs[t].joiner.t);
    }
  }

  lemma PickLater(s: Sys)
    requires s.ready != []
    ensures Later(s, PickSelf(s))
  {
    assert PickSelf(s).picked + PickSelf(s).ready == s.picked + s.ready;
  }

  /** The records of the two threads of a switch. */
  lemma SwitchLater(s: Sys, to: Tcb, st: ThreadState)
    ensures Later(s, Switch(s, to, st))
  {
    if to != s.current && Live(s, to) && Live(s, s.current) && s.tcbs[to].state != Running && st == Dying {
      ReapLater(Set(s, s.current, s.tcbs[s.current].(state := st)).(current := to), s.current);
    }
  }

  lemma StopLater(s: Sys, st: ThreadState)
    ensures Later(s, Stop(s, st))
  {
    if s.ready != [] {
      PickLater(s);
      SwitchLater(PickSelf(s), s.ready[0], st);
      LaterTransitive(s, PickSelf(s), Stop(s, st));
    }
  }

  lemma {:induction false} ContinueLater(s: Sys)
    ensures Later(s, Continue(s))
    decreases |s.ready|
  {
    if !s.fault && s.current in s.tcbs && s.tcbs[s.current].cont.InEnter? {
      var m := s.tcbs[s.current].cont.m;
      if m in s.monitors && !s.monitors[m].spin && s.monitors[m].holder != null && s.ready != [] {
        StopLater(EnqueueWaiter(s, m), Blocked);
        ContinueLater(Stop(EnqueueWaiter(s, m), Blocked));
      }
    }
  }

  lemma StopContinueLater(s: Sys, s1: Sys, st: ThreadState)
    requires Later(s, s1)
    ensures Later(s, Continue(Stop(s1, st)))
  {
    StopLater(s1, st);
    ContinueLater(Stop(s1, st));
    LaterTransitive(s, s1, Stop(s1, st));
    LaterTransitive(s, Stop(s1, st), Continue(Stop(s1, st)));
  }

  lemma AwaitJoinLater(s: Sys, h: Tcb)
    requires s.current in s.tcbs && h in s.tcbs && h != s.current
    ensures Later(s, Continue(Stop(AwaitJoin(s, h), Blocked)))
  {
    StopContinueLater(s, AwaitJoin(s, h), Blocked);
  }

  lemma JoinDeadLater(s: Sys, h: Tcb)
    requires h in s.tcbs
    ensures Later(s, JoinDead(s, h))
  {
  }

  lemma JoinLater(s: Sys, h: Tcb)
    requires s.current in s.tcbs && h in s.tcbs && h != s.current
    ensures Later(s, JoinCall(s, h))
  {
    var await := Continue(Stop(AwaitJoin(s, h), Blocked));
    AwaitJoinLater(s, h);
    JoinDeadLater(s, h);
    assert JoinCall(s, h) == Fault(s) || JoinCall(s, h) == await || JoinCall(s, h) == JoinDead(s, h)
        || JoinCall(s, h) == Set(s, s.current, s.tcbs[s.current].(joined := 0));
  }

  lemma ExitLater(s: Sys, m: Monitor)
    ensures Later(s, ExitCall(s, m))
  {
    if m in s.monitors && s.current in s.tcbs && s.monitors[m].waiters != [] {
      var ws, r := s.monitors[m].waiters, s.tcbs[s.current];
      var s1 := SetMonitor(Set(s, s.current, r.(inside := r.inside - {m})), m, MonitorRec(null, false, ws[1..]));
      StartLater(s1, ws[0]);
    }
  }

  lemma ReturnLater(s: Sys, v: int)
    requires s.current in s.tcbs && s.tcbs[s.current].outcome == NotExited
    ensures Later(s, ReturnCall(s, v))
  {
    StopContinueLater(s, Set(s, s.current, s.tcbs[s.current].(returnVal := v, outcome := Exited(v))), Dying);
  }

  lemma QueueLater(s: Sys, t: Tcb)
    ensures Later(s, Enqueue(s, t))
  {
    assert s.picked + s.ready <= s.picked + (s.ready + [t]);
  }

  lemma PerformLater(s: Sys, c: Call)
    requires ValidSys(s) && Legal(s, c)
    ensures Later(s, Perform(s, c))
  {
    match c
    case Create(t) => QueueLater(Set(s, t, NEW_THREAD), t);
    case MakeMonitor(m) =>
    case Yield =>
      QueueLater(s, s.current);
      StopContinueLater(s, Enqueue(s, s.current), Runable);
    case JoinOn(h) => JoinLater(s, h);
    case Detach(h) =>
    case Enter(m) => ContinueLater(Set(s, s.current, s.tcbs[s.current].(cont := InEnter(m))));
    case Exit(m) => ExitLater(s, m);
    case Return(v) =>
      assert ThreadOk(s, Running, null, s.current);
      ReturnLater(s, v);
  }

  lemma CallLater(base: Tcb, idle: Tcb, calls: seq<Call>, run: seq<Sys>, i: nat)
    requires SysRun(base, idle, calls, run) && i < |calls|
    ensures Later(run[i], run[i + 1])
  {
    RunValid(base, idle, calls, run, i);
    StepIs(base, idle, calls, run, i);
    PerformLater(run[i], calls[i]);
  }

  lemma {:induction false} RunLater(base: Tcb, idle: Tcb, calls: seq<Call>, run: seq<Sys>, i: nat, j: nat)
    requires SysRun(base, idle, calls, run) && i <= j < |run|
    ensures Later(run[i], run[j])
  {
    if i == j {
    } else {
      RunLater(base, idle, calls, run, i, j - 1);
      CallLater(base, idle, calls, run, j - 1);
      LaterTransitive(run[i], run[j - 1], run[j - 1 + 1]);
    }
  }

  /** A thread whose start_proc has returned never runs again, and its result never changes. */
  lemma DeadStaysDead(base: Tcb, idle: Tcb, calls: seq<Call>, run: seq<Sys>, i: nat, j: nat, t: Tcb)
    requires SysRun(base, idle, calls, run) && i <= j < |run|
    requires t in run[i].tcbs && run[i].tcbs[t].outcome.Exited?
    ensures t in run[j].tcbs && run[j].tcbs[t].outcome == run[i].tcbs[t].outcome
    ensures run[j].current != t && t !in run[j].ready
  {
    RunLater(base, idle, calls, run, i, j);
    RunValid(base, idle, calls, run, j);
    assert ThreadOk(run[j], Running, null, t);
  }

  /** Bounded waiting: the thread at index k of the ready queue is what the (k+1)-th later
      uthread_stop selects, whatever is created, woken or blocked in between. */
  lemma BoundedWaiting(base: Tcb, idle: Tcb, calls: seq<Call>, run: seq<Sys>, i: nat, j: nat, k: nat)
    requires SysRun(base, idle, calls, run) && i <= j < |run| && k < |run[i].ready|
    requires |run[j].picked| > |run[i].picked| + k
    ensures run[j].picked[|run[i].picked| + k] == run[i].ready[k]
  {
    RunLater(base, idle, calls, run, i, j);
    var n := |run[i].picked| + k;
    assert (run[i].picked + run[i].ready)[n] == (run[j].picked + run[j].ready)[n];
  }
}
