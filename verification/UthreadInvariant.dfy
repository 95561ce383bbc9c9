/** The invariant between the public calls of the thread package on one processor, and that
    every legal call keeps it without a fault. */
module UthreadInvariant {
  import opened ThreadQueue
  import opened UthreadSpec

  ghost predicate NoDuplicates(q: seq<Tcb>) {
    forall i, j | 0 <= i < j < |q| :: q[i] != q[j]
  }

  /** The state of thread t, with st for that of the current thread: a thread that is about to
      stop counts as stopped, and one that has just been switched to counts as running. */
  function StateOf(s: Sys, st: ThreadState, t: Tcb): ThreadState
    requires t in s.tcbs
  {
    if t == s.current then st else s.tcbs[t].state
  }

  predicate Gone(e: ThreadState) {
    e == Dying || e == Dead
  }

  /** `doomed` is a thread that has died and that the new thread has yet to reap. */
  predicate StateOk(s: Sys, st: ThreadState, doomed: Tcb?, t: Tcb)
    requires t in s.tcbs
  {
    var r, e := s.tcbs[t], StateOf(s, st, t);
    && (t in s.ready <==> e == Nascent || e == Runable)
    && (e == Running ==> t == s.current)
    && (e == Dying ==> t == doomed || r.frees == 1)
    && (t == doomed ==> e == Dying && r.frees == 0)
    && r.frees <= 1
    && (r.frees == 1 ==> r.claimed && Gone(e))
    && (r.frees == 0 ==> !r.joinLock)
    && r.starts == (if r.state == Nascent then 0 else 1)
    && (r.state == Nascent ==> e == Nascent || t == s.current)
    && (if Gone(e) then r.outcome == Exited(r.returnVal) else r.outcome == NotExited)
    && (r.kind != Created ==> !Gone(e))
    && (r.kind == Idle ==> e != Blocked && r.inside == {} && r.cont == ToClient)
  }

  predicate JoinerOk(s: Sys, st: ThreadState, t: Tcb)
    requires t in s.tcbs
  {
    var r := s.tcbs[t];
    r.frees == 0 ==>
      && (r.claimed <==> r.joiner != Nobody)
      && (r.joiner == Detached ==> StateOf(s, st, t) != Dead)
      && (r.joiner.By? ==> Live(s, r.joiner.t) && r.joiner.t != t && s.tcbs[r.joiner.t].cont == InJoin(t))
  }

  predicate ContOk(s: Sys, st: ThreadState, t: Tcb)
    requires t in s.tcbs
  {
    var r, e := s.tcbs[t], StateOf(s, st, t);
    match r.cont
    case ToClient => e != Blocked
    case InJoin(h) =>
      && Live(s, h) && h != t && s.tcbs[h].joiner == By(t)
      && !Gone(e) && e != Nascent
      && (e == Blocked <==> StateOf(s, st, h) != Dead)
    case InEnter(m) => m in s.monitors && !Gone(e) && e != Nascent && (e == Blocked ==> t in s.monitors[m].waiters)
  }

  ghost predicate InsideOk(s: Sys, st: ThreadState, t: Tcb)
    requires t in s.tcbs
  {
    && (forall m | m in s.tcbs[t].inside :: m in s.monitors && s.monitors[m].holder == t)
    && (Gone(StateOf(s, st, t)) ==> s.tcbs[t].inside == {})
  }

  ghost predicate ThreadOk(s: Sys, st: ThreadState, doomed: Tcb?, t: Tcb)
    requires t in s.tcbs
  {
    StateOk(s, st, doomed, t) && JoinerOk(s, st, t) && ContOk(s, st, t) && InsideOk(s, st, t)
  }

  ghost predicate MonitorOk(s: Sys, st: ThreadState, m: Monitor)
    requires m in s.monitors
  {
    var r := s.monitors[m];
    && !r.spin && NoDuplicates(r.waiters)
    && (forall t | t in r.waiters :: t in s.tcbs && StateOf(s, st, t) == Blocked && s.tcbs[t].cont == InEnter(m))
    && (r.holder != null ==> r.holder in s.tcbs && m in s.tcbs[r.holder].inside)
  }

  /** Every join that has returned gave the result of a thread that it then freed. */
  ghost predicate JoinsOk(s: Sys) {
    && (forall j | j in s.joins ::
          j.target in s.tcbs && s.tcbs[j.target].frees == 1 && s.tcbs[j.target].outcome == Exited(j.value))
    && (forall i, k | 0 <= i < k < |s.joins| :: s.joins[i].target != s.joins[k].target)
  }

  ghost predicate QueueOk(s: Sys) {
    && s.current in s.tcbs && !s.fault
    && NoDuplicates(s.ready)
    && (forall t | t in s.ready :: t in s.tcbs)
    && (exists t :: t in s.tcbs && s.tcbs[t].kind == Idle)
  }

  ghost predicate Ok(s: Sys, st: ThreadState, doomed: Tcb?) {
    && QueueOk(s) && JoinsOk(s)
    && (forall t {:trigger ThreadOk(s, st, doomed, t)} | t in s.tcbs :: ThreadOk(s, st, doomed, t))
    && (forall m {:trigger MonitorOk(s, st, m)} | m in s.monitors :: MonitorOk(s, st, m))
  }

  /** Client code of the current thread is running. */
  ghost predicate ValidSys(s: Sys) {
    Ok(s, Running, null) && s.tcbs[s.current].state == Running && s.tcbs[s.current].cont == ToClient
  }

  // ---------------------------------------------------------------- uthread_stop

  /** The stopping thread has given the processor up; `to` has it, but has not run yet. */
  function Leave(s: Sys, st: ThreadState): Sys
    requires s.current in s.tcbs && s.ready != []
  {
    Set(s, s.current, s.tcbs[s.current].(state := st)).(
      current := s.ready[0], ready := s.ready[1..], picked := s.picked + [s.ready[0]])
  }

  function Run(s: Sys): Sys
    requires s.current in s.tcbs
  {
    var r := s.tcbs[s.current];
    Set(s, s.current, r.(state := Running, starts := if r.state == Nascent then r.starts + 1 else r.starts))
  }

  predicate Stops(st: ThreadState) {
    st == Runable || st == Blocked || st == Dying
  }

  /** The idle thread is ready whenever another thread stops. */
  lemma ReadyNotEmpty(s: Sys, st: ThreadState, doomed: Tcb?)
    requires Ok(s, st, doomed) && Stops(st)
    ensures s.ready != []
  {
    var t :| t in s.tcbs && s.tcbs[t].kind == Idle;
    assert ThreadOk(s, st, doomed, t);
  }

  lemma TailMembers(q: seq<Tcb>)
    requires NoDuplicates(q) && q != []
    ensures NoDuplicates(q[1..]) && forall t :: t in q[1..] <==> t in q && t != q[0]
  {
  }

  predicate Leaves(s: Sys, st: ThreadState) {
    s.current in s.tcbs && s.tcbs[s.current].state == Running && Stops(st) && s.ready != [] && s.ready[0] != s.current
  }

  lemma LeaveStateOk(s: Sys, st: ThreadState, doomed: Tcb?, t: Tcb)
    requires Leaves(s, st) && NoDuplicates(s.ready) && s.ready[0] in s.tcbs && t in s.tcbs
    requires StateOk(s, st, doomed, t)
    ensures StateOk(Leave(s, st), Running, doomed, t)
  {
    TailMembers(s.ready);
  }

  lemma LeaveContOk(s: Sys, st: ThreadState, doomed: Tcb?, t: Tcb)
    requires Leaves(s, st) && s.ready[0] in s.tcbs && t in s.tcbs
    requires StateOk(s, st, doomed, s.ready[0]) && StateOk(s, st, doomed, t)
    requires JoinerOk(s, st, t) && ContOk(s, st, t) && InsideOk(s, st, t)
    ensures JoinerOk(Leave(s, st), Running, t) && ContOk(Leave(s, st), Running, t) && InsideOk(Leave(s, st), Running, t)
  {
  }

  lemma LeaveThreadOk(s: Sys, st: ThreadState, doomed: Tcb?, t: Tcb)
    requires Ok(s, st, doomed) && Leaves(s, st) && t in s.tcbs
    ensures t in Leave(s, st).tcbs && ThreadOk(Leave(s, st), Running, doomed, t)
  {
    assert ThreadOk(s, st, doomed, s.ready[0]) && ThreadOk(s, st, doomed, t);
    LeaveStateOk(s, st, doomed, t);
    LeaveContOk(s, st, doomed, t);
  }

  lemma LeaveOk(s: Sys, st: ThreadState, doomed: Tcb?)
    requires Ok(s, st, doomed) && Leaves(s, st)
    ensures Ok(Leave(s, st), Running, doomed)
  {
    var s' := Leave(s, st);
    TailMembers(s.ready);
    forall t | t in s'.tcbs ensures ThreadOk(s', Running, doomed, t) {
      LeaveThreadOk(s, st, doomed, t);
    }
    assert ThreadOk(s, st, doomed, s.ready[0]);
    forall m | m in s'.monitors ensures MonitorOk(s', Running, m) {
      assert MonitorOk(s, st, m);
    }
    var i :| i in s.tcbs && s.tcbs[i].kind == Idle;
    assert i in s'.tcbs && s'.tcbs[i].kind == Idle;
  }

  lemma RunOk(s: Sys)
    requires Ok(s, Running, null)
    ensures Ok(Run(s), Running, null)
  {
    var s' := Run(s);
    forall t | t in s'.tcbs ensures ThreadOk(s', Running, null, t) {
      assert ThreadOk(s, Running, null, t);
    }
    forall m | m in s'.monitors ensures MonitorOk(s', Running, m) {
      assert MonitorOk(s, Running, m);
    }
    var i :| i in s.tcbs && s.tcbs[i].kind == Idle;
    assert i in s'.tcbs && s'.tcbs[i].kind == Idle;
  }

  // ---------------------------------------------------------------- queues

  /** A thread that is neither ready nor blocked on a monitor is on no queue. */
  lemma Unqueued(s: Sys, st: ThreadState, doomed: Tcb?, t: Tcb)
    requires Ok(s, st, doomed) && t in s.tcbs
    requires StateOf(s, st, t) != Nascent && StateOf(s, st, t) != Runable
    requires StateOf(s, st, t) == Blocked ==> !s.tcbs[t].cont.InEnter?
    ensures !OnQueue(s, t)
  {
    assert ThreadOk(s, st, doomed, t);
    forall m | m in s.monitors ensures t !in s.monitors[m].waiters {
      assert MonitorOk(s, st, m);
    }
  }

  lemma NewUnqueued(s: Sys, t: Tcb)
    requires ValidSys(s) && t !in s.tcbs
    ensures !OnQueue(s, t)
  {
    forall m | m in s.monitors ensures t !in s.monitors[m].waiters {
      assert MonitorOk(s, Running, m);
    }
  }

  /** t is marked runable and is on the ready queue. */
  function Woken(s: Sys, t: Tcb): Sys
    requires t in s.tcbs
  {
    Set(s, t, s.tcbs[t].(state := Runable)).(ready := s.ready + [t])
  }

  lemma StartIs(s: Sys, t: Tcb)
    requires Live(s, t) && s.tcbs[t].state != Running && !OnQueue(s, t)
    ensures Start(s, t) == Woken(s, t)
  {
  }

  // ---------------------------------------------------------------- reaping

  predicate OldThreads(s: Sys, s': Sys) {
    s'.tcbs.Keys == s.tcbs.Keys && s'.current == s.current && s'.monitors == s.monitors
    && s'.joins == s.joins && s'.picked == s.picked
  }

  lemma NewIdle(s: Sys, s': Sys)
    requires QueueOk(s) && s.tcbs.Keys <= s'.tcbs.Keys
    requires forall t | t in s.tcbs :: s'.tcbs[t].kind == s.tcbs[t].kind
    ensures exists t :: t in s'.tcbs && s'.tcbs[t].kind == Idle
  {
    var i :| i in s.tcbs && s.tcbs[i].kind == Idle;
    assert i in s'.tcbs && s'.tcbs[i].kind == Idle;
  }

  /** The facts about one thread that a step of the package looks at. */
  ghost predicate Here(s: Sys, st: ThreadState, doomed: Tcb?, t: Tcb) {
    t in s.tcbs && ThreadOk(s, st, doomed, t)
  }

  /** What is left of thread d, which was dying, with its joiner awake */
  function Reaped(s: Sys, d: Tcb): Sys
    requires d in s.tcbs && (s.tcbs[d].joiner.By? ==> s.tcbs[d].joiner.t in s.tcbs)
  {
    match s.tcbs[d].joiner
    case Detached => Set(s, d, s.tcbs[d].(joinLock := true, frees := s.tcbs[d].frees + 1))
    case Nobody => Set(s, d, s.tcbs[d].(state := Dead))
    case By(j) => Set(Woken(s, j), d, s.tcbs[d].(state := Dead))
  }

  /** Thread d is dying and not yet reaped, and its joiner waits for it. */
  ghost predicate MayReap(s: Sys, d: Tcb) {
    && s.current in s.tcbs && d != s.current && Here(s, Running, d, d)
    && (s.tcbs[d].joiner.By? ==> Here(s, Running, d, s.tcbs[d].joiner.t))
  }

  lemma ReapIs(s: Sys, d: Tcb)
    requires Ok(s, Running, d) && MayReap(s, d)
    ensures Reap(s, d) == Reaped(s, d)
  {
    if s.tcbs[d].joiner.By? {
      var j := s.tcbs[d].joiner.t;
      Unqueued(s, Running, d, j);
      StartIs(s, j);
    }
  }

  lemma ReapedStateOk(s: Sys, d: Tcb, t: Tcb)
    requires MayReap(s, d) && Here(s, Running, d, t)
    ensures t in Reaped(s, d).tcbs && StateOk(Reaped(s, d), Running, null, t)
  {
  }

  lemma ReapedJoinerOk(s: Sys, d: Tcb, t: Tcb)
    requires MayReap(s, d) && Here(s, Running, d, t)
    ensures t in Reaped(s, d).tcbs && JoinerOk(Reaped(s, d), Running, t)
  {
  }

  lemma ReapedContOk(s: Sys, d: Tcb, t: Tcb)
    requires MayReap(s, d) && Here(s, Running, d, t)
    ensures t in Reaped(s, d).tcbs && ContOk(Reaped(s, d), Running, t)
  {
  }

  lemma ReapedInsideOk(s: Sys, d: Tcb, t: Tcb)
    requires MayReap(s, d) && Here(s, Running, d, t)
    ensures t in Reaped(s, d).tcbs && InsideOk(Reaped(s, d), Running, t)
  {
  }

  lemma ReapedMonitorOk(s: Sys, d: Tcb, m: Monitor)
    requires MayReap(s, d) && m in s.monitors && MonitorOk(s, Running, m)
    ensures m in Reaped(s, d).monitors && MonitorOk(Reaped(s, d), Running, m)
  {
  }

  lemma ReapedKeeps(s: Sys, d: Tcb)
    requires MayReap(s, d)
    ensures OldThreads(s, Reaped(s, d)) && Reaped(s, d).tcbs[s.current] == s.tcbs[s.current]
    ensures forall t | t in s.tcbs :: Reaped(s, d).tcbs[t].kind == s.tcbs[t].kind
    ensures s.ready <= Reaped(s, d).ready
  {
  }

  lemma ReapedQueueOk(s: Sys, d: Tcb)
    requires MayReap(s, d) && QueueOk(s) && JoinsOk(s)
    ensures QueueOk(Reaped(s, d)) && JoinsOk(Reaped(s, d))
  {
    ReapedKeeps(s, d);
    NewIdle(s, Reaped(s, d));
  }

  /** A thread that has died is freed if it is detached, and otherwise left dead for the join
      or the detach to come, its joiner ready to run. */
  lemma ReapOk(s: Sys, d: Tcb)
    requires Ok(s, Running, d) && d in s.tcbs && d != s.current
    ensures Ok(Reap(s, d), Running, null)
    ensures OldThreads(s, Reap(s, d)) && Reap(s, d).tcbs[s.current] == s.tcbs[s.current]
    ensures s.ready <= Reap(s, d).ready
  {
    assert Here(s, Running, d, d);
    assert s.tcbs[d].joiner.By? ==> ThreadOk(s, Running, d, s.tcbs[d].joiner.t);
    ReapIs(s, d);
    var s' := Reaped(s, d);
    ReapedQueueOk(s, d);
    ReapedKeeps(s, d);
    forall t | t in s'.tcbs ensures ThreadOk(s', Running, null, t) {
      assert Here(s, Running, d, t);
      ReapedStateOk(s, d, t);
      ReapedJoinerOk(s, d, t);
      ReapedContOk(s, d, t);
      ReapedInsideOk(s, d, t);
    }
    forall m | m in s'.monitors ensures MonitorOk(s', Running, m) {
      assert MonitorOk(s, Running, m);
      ReapedMonitorOk(s, d, m);
    }
  }

  // ---------------------------------------------------------------- uthread_stop, completed

  /** The thread that stops has died if it stops with TS_DYING. */
  function Doomed(s: Sys, st: ThreadState): Tcb? {
    if st == Dying then s.current else null
  }

  /** The current thread is about to stop with state st. */
  ghost predicate Stopping(s: Sys, st: ThreadState) {
    Stops(st) && Ok(s, st, Doomed(s, st)) && s.tcbs[s.current].state == Running
  }

  /** A thread has been switched to and goes on from where it stopped. */
  ghost predicate Resumed(s: Sys) {
    Ok(s, Running, null) && s.tcbs[s.current].state == Running
  }

  function PickSelf(s: Sys): Sys
    requires s.ready != []
  {
    s.(ready := s.ready[1..], picked := s.picked + [s.ready[0]])
  }

  lemma PickSelfThreadOk(s: Sys, t: Tcb)
    requires QueueOk(s) && s.ready != [] && s.ready[0] == s.current && Here(s, Runable, null, t)
    requires s.tcbs[s.current].state == Running
    ensures ThreadOk(PickSelf(s), Running, null, t)
  {
    TailMembers(s.ready);
  }

  lemma PickSelfOk(s: Sys)
    requires Stopping(s, Runable) && s.ready != [] && s.ready[0] == s.current
    ensures Resumed(PickSelf(s))
  {
    var s' := PickSelf(s);
    TailMembers(s.ready);
    forall t | t in s'.tcbs ensures ThreadOk(s', Running, null, t) {
      assert Here(s, Runable, null, t);
      PickSelfThreadOk(s, t);
    }
    assert ThreadOk(s, Runable, null, s.current);
    forall m | m in s'.monitors ensures MonitorOk(s', Running, m) {
      assert MonitorOk(s, Runable, m);
    }
  }

  lemma SwitchIs(s: Sys, st: ThreadState)
    requires Leaves(s, st) && s.ready[0] in s.tcbs && s.tcbs[s.ready[0]].state != Running
    requires Live(s, s.ready[0]) && Live(s, s.current)
    requires var s1 := if st == Dying then Reap(Leave(s, st), s.current) else Leave(s, st);
             s1.current == s.ready[0] && s1.current in s1.tcbs
    ensures Stop(s, st) == Run(if st == Dying then Reap(Leave(s, st), s.current) else Leave(s, st))
  {
  }

  /** A thread that stops always finds another one, and what it finds can run. */
  lemma StopOk(s: Sys, st: ThreadState)
    requires Stopping(s, st)
    ensures s.ready != [] && Resumed(Stop(s, st))
    ensures Stop(s, st).picked == s.picked + [s.ready[0]] && Stop(s, st).current == s.ready[0]
  {
    ReadyNotEmpty(s, st, Doomed(s, st));
    var to := s.ready[0];
    assert ThreadOk(s, st, Doomed(s, st), to) && ThreadOk(s, st, Doomed(s, st), s.current);
    if to == s.current {
      PickSelfOk(s);
    } else {
      LeaveOk(s, st, Doomed(s, st));
      var s1 := Leave(s, st);
      var s2 := if st == Dying then Reap(s1, s.current) else s1;
      if st == Dying {
        ReapOk(s1, s.current);
      }
      RunOk(s2);
      SwitchIs(s, st);
    }
  }
}
