/** The user-level thread package of a9/uthread.c on any number of processors, as an
    interleaved step machine. One step is one access that other processors can observe:
    a read of a lock word, an exchange, one queue operation inside its spinlock, an unlock,
    a read or a write of a thread's state, a save or a load of a stack pointer.

    Processors execute thread stacks. A processor's `pc` is the program point it has reached
    on the stack of thread `cur`; a thread's `saved` context is the program point at which
    its stack was last saved, and it is consumed when a processor loads it. Every assertion
    of the source, and every use of a context that is not there, is a `Failed` program point
    that the machine really enters: no step is guarded by the property it is meant to keep. */
module Kernel {

  datatype Option<+T> = None | Some(value: T)

  type Tid = nat
  type Mid = nat

  /** TS_NASCENT, TS_RUNNING, TS_RUNABLE and TS_BLOCKED. */
  datatype ThreadState = Nascent | Running | Runable | Blocked

  /** Where uthread_switch returns to when the saved context is loaded again: into the empty
      frame laid out for a new thread, through uthread_yield to the client, or into the loop
      of uthread_monitor_enter. */
  datatype Cont = ToStart | ToClient | ToEnter(m: Mid)

  /** `starts` counts the calls of start_proc; `inside` holds the monitors between whose
      enter and exit the thread's client code is. */
  datatype Thread = Thread(state: ThreadState, saved: Option<Cont>, starts: nat, idle: bool, inside: set<Mid>)

  datatype Monitor = Monitor(holder: Option<Tid>, spin: bool, waiters: seq<Tid>)

  datatype Lock = ReadyLock | MonitorLock(m: Mid)

  /** The critical sections; `again` tells the spinlock_lock inside the loop of
      uthread_monitor_enter from the one before it. */
  datatype Section =
    | ReadyEnqueue(t: Tid, thenStop: bool)
    | ReadyDequeue(k: Cont)
    | EnterTest(m: Mid, again: bool)
    | ExitTest(m: Mid)

  /** The loop of spinlock_lock, and the first access with the lock held. */
  datatype AcquirePoint = SpinTest | SpinXchg | Held

  /** In uthread_switch: the test of from_thread against to_thread, the spin on to_thread's
      state, the store of saved_sp, the store of state, the load of the new saved_sp. */
  datatype SwitchPoint = TestSelf | SpinState | SaveSp | CommitState | LoadSp

  datatype MonitorPoint = Enqueue | UnlockWait | Take | UnlockTaken | EnterReturn | Clear | Dequeue

  datatype Fault = ReadyQueueEmpty | NotHolder | StaleContext | BlankFrame

  datatype Pc =
    | Boot(left: nat)                                    // the loop of uthread_init
    | Client
    | Acquire(c: Section, at: AcquirePoint)
    | EnqueueUnlock(thenStop: bool)
    | Dequeued(to: Option<Tid>, k: Cont, unlocked: bool) // up to assert (to_thread)
    | Switch(t: Tid, k: Cont, point: SwitchPoint)
    | ResumeTest(k: Cont)                                // to_thread->state == TS_NASCENT
    | ResumeRun(k: Cont, first: bool)                    // to_thread->state = TS_RUNNING
    | InMonitor(m: Mid, where: MonitorPoint)
    | ExitUnlock(m: Mid, w: Option<Tid>)
    | Start(t: Tid, storing: bool)                       // uthread_start
    | Failed(why: Fault)

  datatype Proc = Proc(cur: Tid, pc: Pc)

  datatype State = State(
    procs: seq<Proc>,
    threads: seq<Thread>,
    ready: seq<Tid>,
    readySpin: bool,
    monitors: seq<Monitor>)

  /** What client code may ask for next. */
  datatype Call = Yield | Create | MakeMonitor | Enter(m: Mid) | Exit(m: Mid)

  // ---------------------------------------------------------------- well-formed states

  predicate ContOk(s: State, k: Cont) {
    k.ToEnter? ==> k.m < |s.monitors|
  }

  /** A continuation that uthread_stop can be called from. */
  predicate StopOk(s: State, k: Cont) {
    !k.ToStart? && ContOk(s, k)
  }

  predicate SectionOk(s: State, c: Section) {
    match c
    case ReadyEnqueue(t, _) => t < |s.threads|
    case ReadyDequeue(k) => StopOk(s, k)
    case EnterTest(m, _) => m < |s.monitors|
    case ExitTest(m) => m < |s.monitors|
  }

  predicate ThreadOk(s: State, t: Option<Tid>) {
    t.Some? ==> t.value < |s.threads|
  }

  predicate PcOk(s: State, pc: Pc) {
    match pc
    case Boot(_) => true
    case Client => true
    case Acquire(c, _) => SectionOk(s, c)
    case EnqueueUnlock(_) => true
    case Dequeued(to, k, _) => ThreadOk(s, to) && StopOk(s, k)
    case Switch(t, k, _) => t < |s.threads| && StopOk(s, k)
    case ResumeTest(k) => ContOk(s, k)
    case ResumeRun(k, _) => ContOk(s, k)
    case InMonitor(m, _) => m < |s.monitors|
    case ExitUnlock(m, w) => m < |s.monitors| && ThreadOk(s, w)
    case Start(t, _) => t < |s.threads|
    case Failed(_) => true
  }

  predicate RecordOk(s: State, th: Thread) {
    th.saved.Some? ==> ContOk(s, th.saved.value)
  }

  predicate WellFormed(s: State) {
    && (forall p | 0 <= p < |s.procs| :: s.procs[p].cur < |s.threads| && PcOk(s, s.procs[p].pc))
    && (forall t | 0 <= t < |s.threads| :: RecordOk(s, s.threads[t]))
    && (forall i | 0 <= i < |s.ready| :: s.ready[i] < |s.threads|)
    && (forall m, i | 0 <= m < |s.monitors| && 0 <= i < |s.monitors[m].waiters| ::
          s.monitors[m].waiters[i] < |s.threads|)
  }

  // ---------------------------------------------------------------- accesses

  /** What one step does to the shared state, and the program point it leads to. */
  datatype Access =
    | Test(next: Pc)                            // a read, or nothing shared at all
    | SetLock(l: Lock, b: bool, next: Pc)
    | PushReady(t: Tid, next: Pc)
    | PopReady(k: Cont)
    | PushWaiter(m: Mid, t: Tid, next: Pc)
    | PopWaiter(m: Mid)
    | SetHolder(m: Mid, h: Option<Tid>, next: Pc)
    | SetThread(t: Tid, th: Thread, next: Pc)
    | LoadContext(t: Tid, k: Cont)
    | NewThread(th: Thread, next: Pc)
    | NewProc(th: Thread, next: Pc)
    | NewMonitor(next: Pc)

  predicate LockOk(s: State, l: Lock) {
    l.MonitorLock? ==> l.m < |s.monitors|
  }

  predicate AccessOk(s: State, a: Access) {
    match a
    case Test(next) => PcOk(s, next)
    case SetLock(l, _, next) => LockOk(s, l) && PcOk(s, next)
    case PushReady(t, next) => t < |s.threads| && PcOk(s, next)
    case PopReady(k) => StopOk(s, k)
    case PushWaiter(m, t, next) => m < |s.monitors| && t < |s.threads| && PcOk(s, next)
    case PopWaiter(m) => m < |s.monitors|
    case SetHolder(m, _, next) => m < |s.monitors| && PcOk(s, next)
    case SetThread(t, th, next) => t < |s.threads| && RecordOk(s, th) && PcOk(s, next)
    case LoadContext(t, k) => t < |s.threads| && ContOk(s, k)
    case NewThread(th, next) => RecordOk(s, th) && PcOk(s.(threads := s.threads + [th]), next)
    case NewProc(th, next) => RecordOk(s, th) && PcOk(s, next)
    case NewMonitor(next) => PcOk(s, next)
  }

  function Head(q: seq<Tid>): Option<Tid> {
    if q == [] then None else Some(q[0])
  }

  function Tail(q: seq<Tid>): seq<Tid> {
    if q == [] then [] else q[1..]
  }

  function Goto(s: State, p: nat, pc: Pc): State
    requires p < |s.procs|
  {
    s.(procs := s.procs[p := s.procs[p].(pc := pc)])
  }

  function WithMonitor(s: State, m: Mid, mon: Monitor): State
    requires m < |s.monitors|
  {
    s.(monitors := s.monitors[m := mon])
  }

  /** Processor p performs access a. */
  function Apply(s: State, p: nat, a: Access): State
    requires p < |s.procs| && AccessOk(s, a)
  {
    match a
    case Test(next) => Goto(s, p, next)
    case SetLock(l, b, next) =>
      (match l
       case ReadyLock => Goto(s, p, next).(readySpin := b)
       case MonitorLock(m) => WithMonitor(Goto(s, p, next), m, s.monitors[m].(spin := b)))
    case PushReady(t, next) => Goto(s, p, next).(ready := s.ready + [t])
    case PopReady(k) => Goto(s, p, Dequeued(Head(s.ready), k, false)).(ready := Tail(s.ready))
    case PushWaiter(m, t, next) =>
      WithMonitor(Goto(s, p, next), m, s.monitors[m].(waiters := s.monitors[m].waiters + [t]))
    case PopWaiter(m) =>
      WithMonitor(Goto(s, p, ExitUnlock(m, Head(s.monitors[m].waiters))), m,
                  s.monitors[m].(waiters := Tail(s.monitors[m].waiters)))
    case SetHolder(m, h, next) => WithMonitor(Goto(s, p, next), m, s.monitors[m].(holder := h))
    case SetThread(t, th, next) => Goto(s, p, next).(threads := s.threads[t := th])
    case LoadContext(t, k) =>
      s.(procs := s.procs[p := Proc(t, ResumeTest(k))],
         threads := s.threads[t := s.threads[t].(saved := None)])
    case NewThread(th, next) => Goto(s, p, next).(threads := s.threads + [th])
    case NewProc(th, next) =>
      s.(procs := s.procs[p := s.procs[p].(pc := next)] + [Proc(|s.threads|, Client)],
         threads := s.threads + [th])
    case NewMonitor(next) => Goto(s, p, next).(monitors := s.monitors + [Monitor(None, false, [])])
  }

  // ---------------------------------------------------------------- the program

  function LockOf(c: Section): Lock {
    match c
    case ReadyEnqueue(_, _) => ReadyLock
    case ReadyDequeue(_) => ReadyLock
    case EnterTest(m, _) => MonitorLock(m)
    case ExitTest(m) => MonitorLock(m)
  }

  predicate IsLocked(s: State, l: Lock)
    requires LockOk(s, l)
  {
    match l
    case ReadyLock => s.readySpin
    case MonitorLock(m) => s.monitors[m].spin
  }

  function StopState(k: Cont): ThreadState {
    if k.ToEnter? then Blocked else Runable
  }

  /** Where a thread goes on once uthread_stop has returned to it. */
  function Return(k: Cont): Pc {
    match k
    case ToStart => Failed(BlankFrame)
    case ToClient => Client
    case ToEnter(m) => Acquire(EnterTest(m, true), SpinTest)
  }

  const NASCENT_THREAD := Thread(Nascent, Some(ToStart), 0, false, {})

  /** The idle thread of a pthread, which the operating system starts. */
  const IDLE_THREAD := Thread(Running, None, 1, true, {})

  /** Client code of thread t may issue c: the idle threads only yield, and a monitor is
      exited only by code that is inside it. */
  predicate MayCall(s: State, t: Tid, c: Call)
    requires t < |s.threads|
  {
    match c
    case Yield => true
    case Create => !s.threads[t].idle
    case MakeMonitor => !s.threads[t].idle
    case Enter(m) => !s.threads[t].idle && m < |s.monitors|
    case Exit(m) => m < |s.monitors| && m in s.threads[t].inside
  }

  function ClientAccess(s: State, cur: Tid, c: Call): (a: Access)
    requires WellFormed(s) && cur < |s.threads| && MayCall(s, cur, c)
    ensures AccessOk(s, a)
  {
    match c
    case Yield => Test(Acquire(ReadyEnqueue(cur, true), SpinTest))
    case Create => NewThread(NASCENT_THREAD, Acquire(ReadyEnqueue(|s.threads|, false), SpinTest))
    case MakeMonitor => NewMonitor(Client)
    case Enter(m) => Test(Acquire(EnterTest(m, false), SpinTest))
    case Exit(m) =>
      SetThread(cur, s.threads[cur].(inside := s.threads[cur].inside - {m}), Acquire(ExitTest(m), SpinTest))
  }

  /** The first access of each critical section. */
  function HeldAccess(s: State, cur: Tid, c: Section): (a: Access)
    requires WellFormed(s) && SectionOk(s, c)
    ensures AccessOk(s, a)
  {
    match c
    case ReadyEnqueue(t, thenStop) => PushReady(t, EnqueueUnlock(thenStop))
    case ReadyDequeue(k) => PopReady(k)
    case EnterTest(m, _) => Test(InMonitor(m, if s.monitors[m].holder.Some? then Enqueue else Take))
    case ExitTest(m) =>
      Test(if s.monitors[m].holder == Some(cur) then InMonitor(m, Clear) else Failed(NotHolder))
  }

  function AcquireAccess(s: State, cur: Tid, c: Section, at: AcquirePoint): (a: Access)
    requires WellFormed(s) && SectionOk(s, c)
    ensures AccessOk(s, a)
  {
    match at
    case SpinTest => Test(Acquire(c, if IsLocked(s, LockOf(c)) then SpinTest else SpinXchg))
    case SpinXchg =>
      if IsLocked(s, LockOf(c)) then Test(Acquire(c, SpinTest)) else SetLock(LockOf(c), true, Acquire(c, Held))
    case Held => HeldAccess(s, cur, c)
  }

  /** uthread_switch up to the load of the new stack pointer. */
  function SwitchAccess(s: State, cur: Tid, t: Tid, k: Cont, point: SwitchPoint): (a: Access)
    requires WellFormed(s) && cur < |s.threads| && t < |s.threads| && StopOk(s, k)
    ensures AccessOk(s, a)
  {
    match point
    case TestSelf => Test(if t == cur then Return(k) else Switch(t, k, SpinState))
    case SpinState => Test(Switch(t, k, if s.threads[t].state == Running then SpinState else SaveSp))
    case SaveSp => SetThread(cur, s.threads[cur].(saved := Some(k)), Switch(t, k, CommitState))
    case CommitState => SetThread(cur, s.threads[cur].(state := StopState(k)), Switch(t, k, LoadSp))
    case LoadSp =>
      if s.threads[t].saved.None? then Test(Failed(StaleContext)) else LoadContext(t, s.threads[t].saved.value)
  }

  /** uthread_monitor_enter and uthread_monitor_exit after the first access of their critical
      sections. */
  function MonitorAccess(s: State, cur: Tid, m: Mid, where: MonitorPoint): (a: Access)
    requires WellFormed(s) && cur < |s.threads| && m < |s.monitors|
    ensures AccessOk(s, a)
  {
    match where
    case Enqueue => PushWaiter(m, cur, InMonitor(m, UnlockWait))
    case UnlockWait => SetLock(MonitorLock(m), false, Acquire(ReadyDequeue(ToEnter(m)), SpinTest))
    case Take => SetHolder(m, Some(cur), InMonitor(m, UnlockTaken))
    case UnlockTaken => SetLock(MonitorLock(m), false, InMonitor(m, EnterReturn))
    case EnterReturn => SetThread(cur, s.threads[cur].(inside := s.threads[cur].inside + {m}), Client)
    case Clear => SetHolder(m, None, InMonitor(m, Dequeue))
    case Dequeue => PopWaiter(m)
  }

  predicate Enabled(s: State, p: nat, c: Call)
    requires WellFormed(s)
  {
    && p < |s.procs|
    && !s.procs[p].pc.Failed?
    && (s.procs[p].pc.Client? ==> MayCall(s, s.procs[p].cur, c))
  }

  /** The access processor p makes next; c is what client code asks for if it is its turn. */
  function NextAccess(s: State, p: nat, c: Call): (a: Access)
    requires WellFormed(s) && Enabled(s, p, c)
    ensures AccessOk(s, a)
  {
    var cur, pc := s.procs[p].cur, s.procs[p].pc;
    match pc
    case Boot(left) => if left == 0 then Test(Client) else NewProc(IDLE_THREAD, Boot(left - 1))
    case Client => ClientAccess(s, cur, c)
    case Acquire(x, at) => AcquireAccess(s, cur, x, at)
    case EnqueueUnlock(thenStop) =>
      SetLock(ReadyLock, false, if thenStop then Acquire(ReadyDequeue(ToClient), SpinTest) else Client)
    case Dequeued(to, k, unlocked) =>
      if !unlocked then SetLock(ReadyLock, false, Dequeued(to, k, true))
      else Test(if to.None? then Failed(ReadyQueueEmpty) else Switch(to.value, k, TestSelf))
    case Switch(t, k, point) => SwitchAccess(s, cur, t, k, point)
    case ResumeTest(k) => Test(ResumeRun(k, s.threads[cur].state == Nascent))
    case ResumeRun(k, first) =>
      var n := s.threads[cur].starts;
      SetThread(cur, s.threads[cur].(state := Running, starts := if first then n + 1 else n),
                if first then Client else Return(k))
    case InMonitor(m, where) => MonitorAccess(s, cur, m, where)
    case ExitUnlock(m, w) => SetLock(MonitorLock(m), false, if w.Some? then Start(w.value, false) else Client)
    case Start(t, storing) =>
      if storing then SetThread(t, s.threads[t].(state := Runable), Acquire(ReadyEnqueue(t, false), SpinTest))
      else Test(if s.threads[t].state != Running then Start(t, true) else Acquire(ReadyEnqueue(t, false), SpinTest))
  }

  /** One step of processor p. */
  function Next(s: State, p: nat, c: Call): State
    requires WellFormed(s) && Enabled(s, p, c)
  {
    Apply(s, p, NextAccess(s, p, c))
  }

  /** After line 235 of uthread_init: the base thread runs on the only processor so far, the
      first idle thread is on the ready queue, `extra` processors are still to be started. */
  function Init(extra: nat): State {
    State([Proc(0, Boot(extra))],
          [IDLE_THREAD.(idle := false), NASCENT_THREAD.(idle := true)],
          [1], false, [])
  }

  ghost predicate Step(s: State, s': State) {
    WellFormed(s) && exists p, c :: Enabled(s, p, c) && s' == Next(s, p, c)
  }

  /** A run: any interleaving of any number of processors, from the state uthread_init builds. */
  ghost predicate Run(extra: nat, run: seq<State>) {
    && |run| > 0
    && run[0] == Init(extra)
    && (forall i | 0 <= i < |run| - 1 :: Step(run[i], run[i + 1]))
  }
}
