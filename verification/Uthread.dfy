/** The thread package of a9/uthread.c on one processor: thread control blocks and monitors as
    objects that are updated in place. The ghost field `sys` is the snapshot of these objects,
    and every method does to it what the function of the same name in UthreadSpec says. The
    ready queue and the waiter queues are sequences here; ThreadQueue has their links. */
module Uthread {
  import opened ThreadQueue
  import Spec = UthreadSpec
  import opened UthreadInvariant
  import opened UthreadCalls
  import opened UthreadRuns

  ghost predicate AgreesOn(r: Spec.Rec, t: Tcb)
    reads t
  {
    r == Spec.Rec(t.state, t.returnVal, t.joinLock, t.joiner, t.cont, t.joined,
                  t.kind, t.inside, t.claimed, t.starts, t.outcome, t.frees)
  }

  /** The records of a snapshot are what the fields of the objects say. */
  ghost predicate ThreadsAgree(recs: map<Tcb, Spec.Rec>)
    reads recs.Keys
  {
    forall t | t in recs :: AgreesOn(recs[t], t)
  }

  ghost predicate MonitorsAgree(recs: map<Monitor, Spec.MonitorRec>)
    reads recs.Keys
  {
    forall m | m in recs :: recs[m] == Spec.MonitorRec(m.holder, m.spin, m.waiters)
  }

  ghost predicate SameObjects(s: Spec.Sys, s': Spec.Sys) {
    s'.tcbs.Keys == s.tcbs.Keys && s'.monitors.Keys == s.monitors.Keys
  }

  lemma SameAfterReap(s: Spec.Sys, t: Tcb)
    ensures SameObjects(s, Spec.Reap(s, t)) && Spec.Reap(s, t).current == s.current
  {
  }

  function Saved(s: Spec.Sys, to: Tcb, st: ThreadState): Spec.Sys
    requires s.current in s.tcbs
  {
    Spec.Set(s, s.current, s.tcbs[s.current].(state := st)).(current := to)
  }

  lemma SameAfterSwitch(s: Spec.Sys, to: Tcb, st: ThreadState)
    requires s.current in s.tcbs
    ensures SameObjects(s, Spec.Switch(s, to, st))
  {
    SameAfterReap(Saved(s, to, st), s.current);
  }

  lemma SameAfterStop(s: Spec.Sys, st: ThreadState)
    requires s.current in s.tcbs
    ensures SameObjects(s, Spec.Stop(s, st))
  {
    if s.ready != [] {
      SameAfterSwitch(PickSelf(s), s.ready[0], st);
    }
  }

  function HandedOver(s: Spec.Sys, to: Tcb, st: ThreadState): Spec.Sys
    requires s.current in s.tcbs
  {
    if st == Dying then Spec.Reap(Saved(s, to, st), s.current) else Saved(s, to, st)
  }

  lemma SwitchParts(s: Spec.Sys, to: Tcb, st: ThreadState)
    requires s.current in s.tcbs && to != s.current && !Spec.Switch(s, to, st).fault
    ensures to in s.tcbs && s.tcbs[to].state != Running
    ensures var s' := HandedOver(s, to, st);
            !s'.fault && s'.current in s'.tcbs && Run(s') == Spec.Switch(s, to, st)
  {
    if st == Dying {
      SameAfterReap(Saved(s, to, st), s.current);
    }
  }

  /** The join lock of t is taken. */
  function Taken(s: Spec.Sys, t: Tcb): Spec.Sys
    requires t in s.tcbs
  {
    Spec.Set(s, t, s.tcbs[t].(joinLock := true))
  }

  function Locked(s: Spec.Sys, t: Tcb): Spec.Sys
    requires t in s.tcbs
  {
    if s.tcbs[t].joiner.By? then Spec.Start(Taken(s, t), s.tcbs[t].joiner.t) else Taken(s, t)
  }

  /** The dying thread is locked while its joiner is started. */
  lemma LockedReapIs(s: Spec.Sys, t: Tcb)
    requires t in s.tcbs && !s.tcbs[t].joinLock && s.tcbs[t].joiner != Detached && !Spec.Reap(s, t).fault
    ensures t in Locked(s, t).tcbs
    ensures Spec.Set(Locked(s, t), t, Locked(s, t).tcbs[t].(state := Dead, joinLock := false)) == Spec.Reap(s, t)
  {
    if s.tcbs[t].joiner.By? {
      LockedReapWakes(s, t, s.tcbs[t].joiner.t);
    } else {
      assert s.tcbs[t := s.tcbs[t].(joinLock := true)][t := s.tcbs[t].(state := Dead)]
          == s.tcbs[t := s.tcbs[t].(state := Dead)];
    }
  }

  /** An update of t is forgotten when t is updated again. */
  lemma Overwritten(recs: map<Tcb, Spec.Rec>, t: Tcb, a: Spec.Rec, j: Tcb, b: Spec.Rec, c: Spec.Rec)
    ensures recs[t := a][j := b][t := c] == recs[j := b][t := c]
    ensures recs[t := a][t := c] == recs[t := c]
  {
  }

  /** What uthread_start does to the records and to the ready queue */
  lemma StartParts(s: Spec.Sys, j: Tcb)
    requires !Spec.Start(s, j).fault
    ensures j in s.tcbs
    ensures var rec := if s.tcbs[j].state == Running then s.tcbs[j] else s.tcbs[j].(state := Runable);
            Spec.Start(s, j) == s.(tcbs := s.tcbs[j := rec], ready := s.ready + [j])
  {
    assert s.tcbs[j := s.tcbs[j]] == s.tcbs;
  }

  lemma LockedStart(s: Spec.Sys, t: Tcb, j: Tcb)
    requires t in s.tcbs && !Spec.Start(s, j).fault
    ensures Spec.Live(Taken(s, t), j) && !Spec.OnQueue(Taken(s, t), j) && !Spec.Start(Taken(s, t), j).fault
  {
  }

  lemma LockedReapWakes(s: Spec.Sys, t: Tcb, j: Tcb)
    requires t in s.tcbs && !s.tcbs[t].joinLock && s.tcbs[t].joiner == By(j) && !Spec.Reap(s, t).fault
    ensures t in Locked(s, t).tcbs
    ensures Spec.Set(Locked(s, t), t, Locked(s, t).tcbs[t].(state := Dead, joinLock := false)) == Spec.Reap(s, t)
  {
    var a := s.tcbs[t].(joinLock := true);
    var s1 := Taken(s, t);
    StartParts(s, j);
    LockedStart(s, t, j);
    StartParts(s1, j);
    Overwritten(s.tcbs, t, a, j, Spec.Start(s1, j).tcbs[j], s.tcbs[t].(state := Dead));
    Overwritten(s.tcbs, t, Spec.Start(s, j).tcbs[t], t, Spec.Start(s1, j).tcbs[t], s.tcbs[t].(state := Dead));
  }

  /** What the reaping of t does in its branches */
  lemma ReapParts(s: Spec.Sys, t: Tcb)
    requires !Spec.Reap(s, t).fault && !s.fault
    ensures Spec.Live(s, t) && !s.tcbs[t].joinLock
    ensures s.tcbs[t].joiner == Detached ==> Spec.Free(Taken(s, t), t) == Spec.Reap(s, t)
    ensures s.tcbs[t].joiner.By? ==>
              Spec.Live(Taken(s, t), s.tcbs[t].joiner.t) && !Spec.OnQueue(Taken(s, t), s.tcbs[t].joiner.t)
  {
    if s.tcbs[t].joiner.By? {
      LockedStart(s, t, s.tcbs[t].joiner.t);
    }
  }

  lemma WaitAgainOk(s: Spec.Sys, m: Monitor)
    requires Resumed(s) && s.tcbs[s.current].cont == InEnter(m)
    ensures m in s.monitors && !Spec.OnQueue(s, s.current)
    ensures s.monitors[m].holder != null ==>
              var s1 := Spec.EnqueueWaiter(s, m);
              s1.current in s1.tcbs && Resumed(Spec.Stop(s1, Blocked)) && !Spec.Stop(s1, Blocked).fault
              && SameObjects(s, s1) && SameObjects(s, Spec.Stop(s1, Blocked))
              && |Spec.Stop(s1, Blocked).ready| < |s.ready|
              && Spec.Continue(Spec.Stop(s1, Blocked)) == Spec.Continue(s)
  {
    assert ThreadOk(s, Running, null, s.current) && MonitorOk(s, Running, m);
    Unqueued(s, Running, null, s.current);
    if s.monitors[m].holder != null {
      EnqueueWaiterOk(s, m);
      StopOk(Spec.EnqueueWaiter(s, m), Blocked);
      SameAfterStop(Spec.EnqueueWaiter(s, m), Blocked);
    }
  }

  lemma InitIs(base: Tcb, idle: Tcb)
    requires base != idle
    ensures Spec.Enqueue(Spec.Set(Alone(base), idle, Spec.NEW_THREAD.(kind := Idle)), idle) == Spec.Init(base, idle)
  {
  }

  /** The base thread before the thread of pthread_base has been created */
  function Alone(base: Tcb): Spec.Sys {
    Spec.Sys(map[base := Spec.NEW_THREAD.(kind := Base, state := Running, starts := 1)], map[], base, [], [], [], false)
  }

  /** What uthread_join does in its three branches. */
  lemma JoinParts(s: Spec.Sys, h: Tcb)
    requires ValidSys(s) && Spec.Legal(s, Spec.JoinOn(h))
    ensures ValidSys(Spec.JoinCall(s, h))
    ensures s.tcbs[h].joiner == Nobody && s.tcbs[h].state != Dead ==>
              Stopping(Spec.AwaitJoin(s, h), Blocked)
              && Spec.JoinCall(s, h) == Spec.Continue(Spec.Stop(Spec.AwaitJoin(s, h), Blocked))
    ensures s.tcbs[h].joiner == Nobody && s.tcbs[h].state == Dead ==> Spec.JoinCall(s, h) == Spec.JoinDead(s, h)
  {
    assert ThreadOk(s, Running, null, h);
    JoinOk(s, h);
    if s.tcbs[h].joiner == Nobody && s.tcbs[h].state != Dead {
      AwaitJoinOk(s, h);
    }
  }

  lemma ExitParts(s: Spec.Sys, m: Monitor)
    requires s.current in s.tcbs && !Spec.ExitCall(s, m).fault
    ensures m in s.monitors && s.monitors[m].holder == s.current && !s.monitors[m].spin
    ensures s.monitors[m].waiters == [] ==> Spec.Released(s, m) == Spec.ExitCall(s, m)
    ensures s.monitors[m].waiters != [] ==>
              var waiter := s.monitors[m].waiters[0];
              Spec.Live(Spec.Released(s, m), waiter) && !Spec.OnQueue(Spec.Released(s, m), waiter)
              && Spec.Start(Spec.Released(s, m), waiter) == Spec.ExitCall(s, m)
  {
  }

  class Uthreads {
    var current: Tcb
    var ready: seq<Tcb>
    ghost var sys: Spec.Sys

    /** `sys` is the snapshot of the objects. */
    ghost predicate Coherent()
      reads this, sys.tcbs.Keys, sys.monitors.Keys
    {
      && sys.current == current && sys.ready == ready && !sys.fault
      && ThreadsAgree(sys.tcbs) && MonitorsAgree(sys.monitors)
    }

    /** Client code of the current thread is running. */
    ghost predicate Valid()
      reads this, sys.tcbs.Keys, sys.monitors.Keys
    {
      Coherent() && ValidSys(sys)
    }

    // -------------------------------------------------------------- inside the package

    /** uthread_start */
    method Start(t: Tcb)
      requires Coherent() && t in sys.tcbs && t.frees == 0 && !Spec.OnQueue(sys, t)
      modifies this, t
      ensures Coherent() && sys == Spec.Start(old(sys), t)
    {
      if t.state != Running {
        t.state := Runable;
      }
      ready := ready + [t];
      sys := Spec.Start(sys, t);
    }

    /** uthread_free */
    method Free(t: Tcb)
      requires Coherent() && t in sys.tcbs && t.frees == 0
      modifies this, t
      ensures Coherent() && sys == Spec.Free(old(sys), t)
    {
      t.frees := t.frees + 1;
      sys := Spec.Free(sys, t);
    }

    // -------------------------------------------------------------- uthread_init (1)

    /** Up to the creation of the thread of pthread_base. */
    constructor ()
      ensures Coherent() && fresh(current)
      ensures sys == Alone(current)
    {
      var base := new Tcb(Base);
      base.state, base.starts := Running, 1;
      current, ready := base, [];
      sys := Alone(base);
    }

    static method Initialize() returns (u: Uthreads, idle: Tcb)
      ensures fresh(u) && u.Valid() && idle != u.current && u.sys == Spec.Init(u.current, idle)
      ensures fresh(u.current) && fresh(idle)
    {
      u := new Uthreads();
      idle := u.NewThread(Idle);
      InitIs(u.current, idle);
      InitOk(u.current, idle);
    }

    /** uthread_new_thread, and its entry on the ready queue */
    method NewThread(ghost kind: Kind) returns (t: Tcb)
      requires Coherent()
      modifies this
      ensures Coherent() && fresh(t) && t !in old(sys).tcbs
      ensures sys == Spec.Enqueue(Spec.Set(old(sys), t, Spec.NEW_THREAD.(kind := kind)), t)
    {
      t := new Tcb(kind);
      ready := ready + [t];
      sys := Spec.Enqueue(Spec.Set(sys, t, Spec.NEW_THREAD.(kind := kind)), t);
    }

    // -------------------------------------------------------------- switching

    /** What uthread_switch does, on the new stack, with a thread that is dying. */
    method Reap(from: Tcb)
      requires Coherent() && !Spec.Reap(sys, from).fault
      modifies this, sys.tcbs.Keys
      ensures Coherent() && sys == Spec.Reap(old(sys), from)
    {
      ReapParts(sys, from);
      assert !from.joinLock;
      Lock(from);
      if from.joiner == Detached {
        Free(from);
      } else {
        if from.joiner != Nobody {
          assert Spec.Live(sys, from.joiner.t) && !Spec.OnQueue(sys, from.joiner.t);
          Start(from.joiner.t);
        }
        MarkDead(from);
        LockedReapIs(old(sys), from);
      }
    }

    method Lock(t: Tcb)
      requires Coherent() && t in sys.tcbs
      modifies this, t
      ensures Coherent() && sys == Taken(old(sys), t) && t.joiner == old(sys).tcbs[t].joiner
    {
      t.joinLock := true;
      sys := Taken(sys, t);
    }

    method MarkDead(t: Tcb)
      requires Coherent() && t in sys.tcbs
      modifies this, t
      ensures Coherent() && sys == Spec.Set(old(sys), t, old(sys).tcbs[t].(state := Dead, joinLock := false))
    {
      t.state := Dead;
      t.joinLock := false;
      sys := Spec.Set(sys, t, sys.tcbs[t].(state := Dead, joinLock := false));
    }

    /** The new thread is running, for the first time or again. */
    method SetRunning()
      requires Coherent() && current in sys.tcbs
      modifies this, current
      ensures Coherent() && sys == Run(old(sys))
    {
      if current.state == Nascent {
        current.starts := current.starts + 1;
      }
      current.state := Running;
      sys := Run(sys);
    }

    /** The old thread is saved with its new state and the stack is that of the new one. */
    method Save(to: Tcb, st: ThreadState)
      requires Coherent() && current in sys.tcbs
      modifies this, current
      ensures Coherent() && old(current).state == st && sys == Saved(old(sys), to, st)
    {
      current.state := st;
      sys := Saved(sys, to, st);
      current := to;
    }

    method HandOver(to: Tcb, st: ThreadState)
      requires Coherent() && current in sys.tcbs && !HandedOver(sys, to, st).fault
      modifies this, sys.tcbs.Keys
      ensures Coherent() && sys == HandedOver(old(sys), to, st)
    {
      var from := current;
      Save(to, st);
      if from.state == Dying {
        Reap(from);
      }
    }

    /** uthread_switch, until the new thread is running */
    method Switch(to: Tcb, st: ThreadState)
      requires Coherent() && current in sys.tcbs && !Spec.Switch(sys, to, st).fault
      modifies this, sys.tcbs.Keys
      ensures Coherent() && sys == Spec.Switch(old(sys), to, st)
    {
      if current == to {
        return;
      }
      SwitchParts(sys, to, st);
      assert to.state != Running;  // the hand-off spin ends at its first test
      HandOver(to, st);
      SetRunning();
    }

    /** uthread_stop */
    method Stop(st: ThreadState)
      requires Coherent() && current in sys.tcbs && !Spec.Stop(sys, st).fault
      modifies this, sys.tcbs.Keys
      ensures Coherent() && sys == Spec.Stop(old(sys), st)
    {
      assert ready != [];  // assert (to_thread)
      var to := ready[0];
      ready := ready[1..];
      sys := PickSelf(sys);
      Switch(to, st);
    }

    /** The end of uthread_join on thread h */
    method FinishJoin(h: Tcb)
      requires Coherent() && !Spec.FinishJoin(sys, h).fault
      modifies this, sys.tcbs.Keys
      ensures Coherent() && sys == Spec.FinishJoin(old(sys), h)
    {
      current.joined := h.returnVal;
      current.cont := ToClient;
      h.frees := h.frees + 1;
      sys := Spec.FinishJoin(sys, h);
    }

    /** A turn of the loop of uthread_monitor_enter, up to the next thread that runs */
    method WaitAgain()
      requires Coherent() && Resumed(sys) && current.cont.InEnter? && current.cont.m.holder != null
      modifies this, sys.tcbs.Keys, sys.monitors.Keys
      ensures Coherent() && Resumed(sys) && SameObjects(old(sys), sys)
      ensures Spec.Continue(sys) == Spec.Continue(old(sys)) && |sys.ready| < |old(sys).ready|
    {
      var m := current.cont.m;
      WaitAgainOk(sys, m);
      EnqueueWaiter(m);
      Stop(Blocked);
    }

    method EnqueueWaiter(m: Monitor)
      requires Coherent() && m in sys.monitors && !Spec.OnQueue(sys, current)
      modifies this, m
      ensures Coherent() && sys == Spec.EnqueueWaiter(old(sys), m)
    {
      m.waiters := m.waiters + [current];
      sys := Spec.EnqueueWaiter(sys, m);
    }

    /** The end of uthread_monitor_enter */
    method TakeMonitor()
      requires Coherent() && Resumed(sys) && current.cont.InEnter? && current.cont.m.holder == null
      modifies this, sys.tcbs.Keys, sys.monitors.Keys
      ensures Coherent() && sys == Spec.Continue(old(sys))
    {
      var m := current.cont.m;
      assert ThreadOk(sys, Running, null, current) && MonitorOk(sys, Running, m);
      m.holder := current;
      current.cont := ToClient;
      current.inside := current.inside + {m};
      sys := Spec.TakeMonitor(sys, m);
    }

    /** What follows uthread_stop on the stack of the thread that is now running; the loop is
        that of uthread_monitor_enter, on behalf of whichever thread is in it. */
    method Continue()
      requires Coherent() && Resumed(sys)
      modifies this, sys.tcbs.Keys, sys.monitors.Keys
      ensures Valid() && sys == Spec.Continue(old(sys))
    {
      ContinueOk(sys);
      while current.cont.InEnter? && current.cont.m.holder != null
        invariant Coherent() && Resumed(sys) && SameObjects(old(sys), sys)
        invariant Spec.Continue(sys) == Spec.Continue(old(sys))
        decreases |sys.ready|
      {
        WaitAgain();
      }
      if current.cont.InEnter? {
        TakeMonitor();
      } else if current.cont.InJoin? {
        FinishJoin(current.cont.target);
      }
    }

    // -------------------------------------------------------------- the public calls

    /** uthread_create */
    method Create() returns (t: Tcb)
      requires Valid() && current.kind != Idle
      modifies this
      ensures Valid() && fresh(t) && t !in old(sys).tcbs && sys == Spec.Perform(old(sys), Spec.Create(t))
    {
      t := NewThread(Created);
      CreateOk(old(sys), t);
    }

    /** uthread_monitor_create */
    method MakeMonitor() returns (m: Monitor)
      requires Valid() && current.kind != Idle
      modifies this
      ensures Valid() && fresh(m) && m !in old(sys).monitors && sys == Spec.Perform(old(sys), Spec.MakeMonitor(m))
    {
      m := new Monitor();
      sys := Spec.SetMonitor(sys, m, Spec.NEW_MONITOR);
      MakeMonitorOk(old(sys), m);
    }

    /** uthread_stop and what follows it */
    method StopAndContinue(st: ThreadState)
      requires Coherent() && Stopping(sys, st)
      modifies this, sys.tcbs.Keys, sys.monitors.Keys
      ensures Valid() && sys == Spec.Continue(Spec.Stop(old(sys), st))
    {
      StopOk(sys, st);
      SameAfterStop(sys, st);
      Stop(st);
      Continue();
    }

    /** uthread_yield */
    method Yield()
      requires Valid()
      modifies this, sys.tcbs.Keys, sys.monitors.Keys
      ensures Valid() && sys == Spec.Perform(old(sys), Spec.Yield)
    {
      YieldOk(sys);
      ready := ready + [current];
      sys := Spec.Enqueue(sys, current);
      StopAndContinue(Runable);
    }

    /** uthread_join; the result is left in `joined` of the calling thread */
    method Join(h: Tcb)
      requires Valid() && Spec.Legal(sys, Spec.JoinOn(h))
      modifies this, sys.tcbs.Keys, sys.monitors.Keys
      ensures Valid() && sys == Spec.Perform(old(sys), Spec.JoinOn(h))
    {
      JoinParts(sys, h);
      if h.joiner == Nobody {
        if h.state != Dead {
          Await(h);
          StopAndContinue(Blocked);
        } else {
          LockDead(h);
          FinishJoin(h);
        }
      } else {
        SetJoined(0);
      }
    }

    method SetJoined(v: int)
      requires Coherent() && current in sys.tcbs
      modifies this, current
      ensures Coherent() && sys == Spec.Set(old(sys), old(current), old(sys).tcbs[old(current)].(joined := v))
    {
      current.joined := v;
      sys := Spec.Set(sys, current, sys.tcbs[current].(joined := v));
    }

    /** uthread_join of a thread that is not dead, up to uthread_stop */
    method Await(h: Tcb)
      requires Coherent() && h in sys.tcbs && current in sys.tcbs && h != current
      modifies this, h, current
      ensures Coherent() && sys == Spec.AwaitJoin(old(sys), h)
    {
      h.joiner, h.claimed := By(current), true;
      current.cont := InJoin(h);
      sys := Spec.AwaitJoin(sys, h);
    }

    /** The lock of a dead thread is taken and never released. */
    method LockDead(h: Tcb)
      requires Coherent() && h in sys.tcbs
      modifies this, h
      ensures Coherent()
      ensures sys == Spec.LockDead(old(sys), h)
    {
      h.joinLock, h.claimed := true, true;
      sys := Spec.LockDead(sys, h);
    }

    method SetDetached(h: Tcb)
      requires Coherent() && h in sys.tcbs
      modifies this, h
      ensures Coherent()
      ensures sys == Spec.MarkDetached(old(sys), h)
    {
      h.joiner, h.claimed := ThreadQueue.Detached, true;
      sys := Spec.MarkDetached(sys, h);
    }

    /** uthread_detach */
    method Detach(h: Tcb)
      requires Valid() && Spec.Legal(sys, Spec.Detach(h))
      modifies this, sys.tcbs.Keys
      ensures Valid() && sys == Spec.Perform(old(sys), Spec.Detach(h))
    {
      DetachOk(sys, h);
      if h.joiner == Nobody {
        if h.state != Dead {
          SetDetached(h);
        } else {
          LockDead(h);
          Free(h);
        }
      }
    }

    /** uthread_monitor_enter */
    method Enter(m: Monitor)
      requires Valid() && Spec.Legal(sys, Spec.Enter(m))
      modifies this, sys.tcbs.Keys, sys.monitors.Keys
      ensures Valid() && sys == Spec.Perform(old(sys), Spec.Enter(m))
    {
      StartEnterOk(sys, m);
      current.cont := InEnter(m);
      sys := Spec.Entering(sys, m);
      Continue();
    }

    /** The part of uthread_monitor_exit that holds the spinlock */
    method Release(m: Monitor) returns (waiter: Tcb?)
      requires Coherent() && m in sys.monitors && current in sys.tcbs && !m.spin
      modifies this, m, current
      ensures Coherent() && sys == Spec.Released(old(sys), m)
      ensures waiter == if old(sys).monitors[m].waiters == [] then null else old(sys).monitors[m].waiters[0]
    {
      m.holder, waiter := null, null;
      if m.waiters != [] {
        waiter := m.waiters[0];
        m.waiters := m.waiters[1..];
      }
      current.inside := current.inside - {m};
      sys := Spec.Released(sys, m);
    }

    /** uthread_monitor_exit */
    method Exit(m: Monitor)
      requires Valid() && Spec.Legal(sys, Spec.Exit(m))
      modifies this, sys.tcbs.Keys, sys.monitors.Keys
      ensures Valid() && sys == Spec.Perform(old(sys), Spec.Exit(m))
    {
      ExitOk(sys, m);
      ExitParts(sys, m);
      assert m.holder == current;
      var waiter := Release(m);
      if waiter != null {
        Start(waiter);
      }
    }

    method SetReturned(v: int)
      requires Coherent() && current in sys.tcbs
      modifies this, current
      ensures Coherent() && sys == Spec.Returned(old(sys), v)
    {
      current.returnVal, current.outcome := v, Exited(v);
      sys := Spec.Returned(sys, v);
    }

    /** start_proc of the current thread returns v */
    method Return(v: int)
      requires Valid() && Spec.Legal(sys, Spec.Return(v))
      modifies this, sys.tcbs.Keys, sys.monitors.Keys
      ensures Valid() && sys == Spec.Perform(old(sys), Spec.Return(v))
    {
      ReturnStops(sys, v);
      SetReturned(v);
      StopAndContinue(Dying);
    }
  }
}
