/** What the calls of a9/uthread.c do on one processor, as functions on a snapshot of all
    thread control blocks, monitors and queues. A call runs from the client code of the
    current thread to the point where client code runs again: the caller's own, or that of
    the thread which uthread_switch has resumed. A failed assertion, an endless spin, an access
    to a freed control block and an enqueue of a thread that is on a queue set `fault`. */
module UthreadSpec {
  import opened ThreadQueue

  datatype Rec = Rec(state: ThreadState, returnVal: int, joinLock: bool, joiner: Joiner, cont: Cont, joined: int,
                     kind: Kind, inside: set<Monitor>, claimed: bool, starts: nat, outcome: Outcome, frees: nat)

  datatype MonitorRec = MonitorRec(holder: Tcb?, spin: bool, waiters: seq<Tcb>)

  /** A join that has returned. */
  datatype Join = Join(joiner: Tcb, target: Tcb, value: int)

  /** `picked` lists the threads that uthread_stop has taken off the ready queue, in order, and
      `joins` the joins that have returned. */
  datatype Sys = Sys(tcbs: map<Tcb, Rec>, monitors: map<Monitor, MonitorRec>, current: Tcb, ready: seq<Tcb>,
                     picked: seq<Tcb>, joins: seq<Join>, fault: bool)

  const NEW_THREAD := Rec(Nascent, 0, false, Nobody, ToClient, 0, Created, {}, false, 0, NotExited, 0)
  const NEW_MONITOR := MonitorRec(null, false, [])

  function Fault(s: Sys): Sys {
    s.(fault := true)
  }

  /** t has been allocated and not freed. */
  predicate Live(s: Sys, t: Tcb) {
    t in s.tcbs && s.tcbs[t].frees == 0
  }

  function Set(s: Sys, t: Tcb, r: Rec): Sys {
    s.(tcbs := s.tcbs[t := r])
  }

  function SetMonitor(s: Sys, m: Monitor, r: MonitorRec): Sys {
    s.(monitors := s.monitors[m := r])
  }

  // ---------------------------------------------------------------- inside the package

  /** t is on a queue, and its `next` field is in use. */
  predicate OnQueue(s: Sys, t: Tcb) {
    t in s.ready || exists m | m in s.monitors :: t in s.monitors[m].waiters
  }

  function Enqueue(s: Sys, t: Tcb): Sys {
    if OnQueue(s, t) then Fault(s) else s.(ready := s.ready + [t])
  }

  /** uthread_start */
  function Start(s: Sys, t: Tcb): Sys {
    if !Live(s, t) then Fault(s)
    else if s.tcbs[t].state != Running then Enqueue(Set(s, t, s.tcbs[t].(state := Runable)), t)
    else Enqueue(s, t)
  }

  /** uthread_free */
  function Free(s: Sys, t: Tcb): Sys {
    if !Live(s, t) then Fault(s) else Set(s, t, s.tcbs[t].(frees := s.tcbs[t].frees + 1))
  }

  /** What uthread_switch does, on the new stack, with a thread that is dying. */
  function Reap(s: Sys, from: Tcb): Sys {
    if !Live(s, from) || s.tcbs[from].joinLock then Fault(s)
    else
      match s.tcbs[from].joiner
      case Detached => Free(Set(s, from, s.tcbs[from].(joinLock := true)), from)
      case Nobody => Set(s, from, s.tcbs[from].(state := Dead))
      case By(j) => Set(Start(s, j), from, s.tcbs[from].(state := Dead))
  }

  /** uthread_switch up to the point where the new thread is running. */
  function Switch(s: Sys, to: Tcb, st: ThreadState): Sys {
    if to == s.current then s
    else if !Live(s, to) || !Live(s, s.current) || s.tcbs[to].state == Running then Fault(s)
    else
      var s1 := Set(s, s.current, s.tcbs[s.current].(state := st)).(current := to);
      var s2 := if st == Dying then Reap(s1, s.current) else s1;
      if to !in s2.tcbs then Fault(s)
      else
        var r := s2.tcbs[to];
        Set(s2, to, r.(state := Running, starts := if r.state == Nascent then r.starts + 1 else r.starts))
  }

  /** uthread_stop */
  function Stop(s: Sys, st: ThreadState): (s': Sys)
    ensures s.ready != [] ==> |s'.ready| <= |s.ready| - 1 + (if st == Dying then 1 else 0)
  {
    if s.ready == [] then Fault(s)
    else Switch(s.(ready := s.ready[1..], picked := s.picked + [s.ready[0]]), s.ready[0], st)
  }

  /** The end of uthread_join on thread h. */
  function FinishJoin(s: Sys, h: Tcb): Sys {
    if !Live(s, h) || !Live(s, s.current) then Fault(s)
    else
      var v := s.tcbs[h].returnVal;
      var s1 := Set(s, s.current, s.tcbs[s.current].(joined := v, cont := ToClient));
      Free(s1.(joins := s.joins + [Join(s.current, h, v)]), h)
  }

  /** The current thread takes monitor m and leaves uthread_monitor_enter. */
  function TakeMonitor(s: Sys, m: Monitor): Sys
    requires m in s.monitors && s.current in s.tcbs
  {
    var r := s.tcbs[s.current];
    Set(SetMonitor(s, m, s.monitors[m].(holder := s.current)), s.current,
        r.(cont := ToClient, inside := r.inside + {m}))
  }

  function EnqueueWaiter(s: Sys, m: Monitor): Sys
    requires m in s.monitors
  {
    if OnQueue(s, s.current) then Fault(s)
    else SetMonitor(s, m, s.monitors[m].(waiters := s.monitors[m].waiters + [s.current]))
  }

  /** The code after uthread_stop on the stack of the thread that is now running: back to the
      client, or on in uthread_join or in the loop of uthread_monitor_enter, which may stop
      again. */
  function Continue(s: Sys): Sys
    decreases |s.ready|
  {
    if s.fault || s.current !in s.tcbs then Fault(s)
    else
      match s.tcbs[s.current].cont
      case ToClient => s
      case InJoin(h) => FinishJoin(s, h)
      case InEnter(m) =>
        if m !in s.monitors || s.monitors[m].spin then Fault(s)
        else if s.monitors[m].holder == null then TakeMonitor(s, m)
        else if s.ready == [] then Fault(s)
        else Continue(Stop(EnqueueWaiter(s, m), Blocked))
  }

  // ---------------------------------------------------------------- the public calls

  datatype Call =
    | Create(t: Tcb)
    | MakeMonitor(m: Monitor)
    | Yield
    | JoinOn(h: Tcb)
    | Detach(h: Tcb)
    | Enter(m: Monitor)
    | Exit(m: Monitor)
    | Return(v: int)

  /** The current thread waits for h, which is alive. */
  function AwaitJoin(s: Sys, h: Tcb): Sys
    requires s.current in s.tcbs && h in s.tcbs && h != s.current
  {
    var s1 := Set(s, h, s.tcbs[h].(claimed := true, joiner := By(s.current)));
    Set(s1, s.current, s.tcbs[s.current].(cont := InJoin(h)))
  }

  /** The lock of a dead thread is taken by the join or the detach that frees it. */
  function LockDead(s: Sys, h: Tcb): Sys
    requires h in s.tcbs
  {
    Set(s, h, s.tcbs[h].(claimed := true, joinLock := true))
  }

  /** The join of a dead thread returns at once. */
  function JoinDead(s: Sys, h: Tcb): Sys
    requires h in s.tcbs
  {
    FinishJoin(LockDead(s, h), h)
  }

  /** A join of a thread that has a joiner already, or is detached, returns 0. */
  function NotJoined(s: Sys): Sys
    requires s.current in s.tcbs
  {
    Set(s, s.current, s.tcbs[s.current].(joined := 0))
  }

  function JoinCall(s: Sys, h: Tcb): Sys {
    if !Live(s, h) || !Live(s, s.current) then Fault(s)
    else if s.tcbs[h].joiner != Nobody then NotJoined(s)
    else if s.tcbs[h].joinLock || h == s.current then Fault(s)
    else if s.tcbs[h].state != Dead then Continue(Stop(AwaitJoin(s, h), Blocked))
    else JoinDead(s, h)
  }

  function MarkDetached(s: Sys, h: Tcb): Sys
    requires h in s.tcbs
  {
    Set(s, h, s.tcbs[h].(claimed := true, joiner := Detached))
  }

  function DetachDead(s: Sys, h: Tcb): Sys
    requires h in s.tcbs
  {
    Free(LockDead(s, h), h)
  }

  function DetachCall(s: Sys, h: Tcb): Sys {
    if !Live(s, h) then Fault(s)
    else if s.tcbs[h].joiner != Nobody then s
    else if s.tcbs[h].joinLock then Fault(s)
    else if s.tcbs[h].state != Dead then MarkDetached(s, h)
    else DetachDead(s, h)
  }

  /** The current thread is in enter, before its first test. */
  function Entering(s: Sys, m: Monitor): Sys
    requires s.current in s.tcbs
  {
    Set(s, s.current, s.tcbs[s.current].(cont := InEnter(m)))
  }

  function EnterCall(s: Sys, m: Monitor): Sys {
    if s.current !in s.tcbs then Fault(s) else Continue(Entering(s, m))
  }

  /** The monitor without its holder and without its first waiter */
  function Released(s: Sys, m: Monitor): Sys
    requires m in s.monitors && s.current in s.tcbs
  {
    var ws, r := s.monitors[m].waiters, s.tcbs[s.current];
    SetMonitor(Set(s, s.current, r.(inside := r.inside - {m})), m,
               MonitorRec(null, false, if ws == [] then [] else ws[1..]))
  }

  function ExitCall(s: Sys, m: Monitor): Sys {
    if m !in s.monitors || s.monitors[m].spin || s.monitors[m].holder != s.current || s.current !in s.tcbs then Fault(s)
    else if s.monitors[m].waiters == [] then Released(s, m)
    else Start(Released(s, m), s.monitors[m].waiters[0])
  }

  /** start_proc of the current thread has returned v. */
  function Returned(s: Sys, v: int): Sys
    requires s.current in s.tcbs
  {
    Set(s, s.current, s.tcbs[s.current].(returnVal := v, outcome := Exited(v)))
  }

  function ReturnCall(s: Sys, v: int): Sys {
    if s.current !in s.tcbs then Fault(s) else Continue(Stop(Returned(s, v), Dying))
  }

  function Perform(s: Sys, c: Call): Sys {
    match c
    case Create(t) => Enqueue(Set(s, t, NEW_THREAD), t)
    case MakeMonitor(m) => SetMonitor(s, m, NEW_MONITOR)
    case Yield => Continue(Stop(Enqueue(s, s.current), Runable))
    case JoinOn(h) => JoinCall(s, h)
    case Detach(h) => DetachCall(s, h)
    case Enter(m) => EnterCall(s, m)
    case Exit(m) => ExitCall(s, m)
    case Return(v) => ReturnCall(s, v)
  }

  /** What client code may call: handles of threads that have not been freed are joined by
      another thread or detached, which includes every first join or detach of a handle;
      monitors are exited by code that is inside them, and the idle thread only yields. The
      base thread's start procedure does not return. */
  predicate Legal(s: Sys, c: Call) {
    && s.current in s.tcbs
    && var r := s.tcbs[s.current];
       match c
       case Create(t) => r.kind != Idle && t !in s.tcbs
       case MakeMonitor(m) => r.kind != Idle && m !in s.monitors
       case Yield => true
       case JoinOn(h) => r.kind != Idle && Live(s, h) && h != s.current
       case Detach(h) => r.kind != Idle && Live(s, h)
       case Enter(m) => r.kind != Idle && m in s.monitors
       case Exit(m) => m in r.inside
       case Return(_) => r.kind == Created && r.inside == {}
  }

  /** After uthread_init (1): the base thread runs and the idle thread is ready. */
  function Init(base: Tcb, idle: Tcb): Sys {
    Sys(map[base := NEW_THREAD.(kind := Base, state := Running, starts := 1), idle := NEW_THREAD.(kind := Idle)],
        map[], base, [idle], [], [], false)
  }
}
