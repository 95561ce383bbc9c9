/** The reader and writer threads of a9/reader_writer_test.c as clients of the thread package:
    their loops, with every access to c0 and c1 a step of its own, run on the machine of
    module Kernel. */
module ReaderWriter {
  import opened Kernel

  /** Where a thread of drive_test is in its loop. The points after Loop and before Exited lie
      between the calls of uthread_monitor_enter and uthread_monitor_exit. */
  datatype Point =
    | Loop                     // i < dta->count, then read_proc or write_proc
    | ReadC0                   // read: if (c0 != c1)
    | ReadC1(v0: int)
    | LoadC0                   // write: c0 = c0 + 1
    | StoreC0(v: int)
    | LoadC1                   // c1 = c1 + 1
    | StoreC1(v: int)
    | CheckC0                  // if (c0 != c1)
    | CheckC1(v0: int)
    | Work                     // do_some_work, then the call of exit
    | Exited

  /** What a thread's client code does: the idle threads yield; the base thread runs do_test,
      which makes the monitor and creates a thread for each entry of `todo` (true for a
      writer); the others run drive_test. */
  datatype Script =
    | Idle
    | Setup(todo: seq<bool>)
    | Creating(todo: seq<bool>)
    | Tester(write: bool, i: nat, at: Point)

  datatype World = World(k: State, scripts: seq<Script>, mon: Mid, c0: int, c1: int, error: bool)

  predicate InBody(at: Point) {
    !at.Loop? && !at.Exited?
  }

  predicate AtStart(at: Point) {
    at.ReadC0? || at.LoadC0?
  }

  // ---------------------------------------------------------------- steps

  predicate Shape(w: World) {
    WellFormed(w.k) && |w.scripts| == |w.k.threads|
  }

  /** The library call that the client code of thread t makes next, if it makes one. */
  function NextCall(w: World, count: nat, t: Tid): Option<Call>
    requires t < |w.scripts|
  {
    match w.scripts[t]
    case Idle => Some(Yield)
    case Setup(_) => Some(MakeMonitor)
    case Creating(todo) => Some(if todo == [] then Yield else Create)
    case Tester(_, i, at) =>
      if at.Loop? then Some(if i < count then Enter(w.mon) else Yield)
      else if at.Work? then Some(Exit(w.mon))
      else None
  }

  /** The script of the calling thread after that call. */
  function AfterCall(sc: Script, count: nat): Script {
    match sc
    case Idle => sc
    case Setup(todo) => Creating(todo)
    case Creating(todo) => if todo == [] then sc else Creating(todo[1..])
    case Tester(write, i, at) =>
      if at.Loop? && i < count then Tester(write, i, if write then LoadC0 else ReadC0)
      else if at.Work? then Tester(write, i, Exited)
      else sc
  }

  /** One access of the client code of a tester to the globals. */
  function GlobalsStep(w: World, t: Tid): World
    requires t < |w.scripts| && w.scripts[t].Tester?
  {
    var sc := w.scripts[t];
    var go := (at: Point) => w.scripts[t := sc.(at := at)];
    match sc.at
    case ReadC0 => w.(scripts := go(ReadC1(w.c0)))
    case ReadC1(v0) => w.(scripts := go(Work), error := w.error || v0 != w.c1)
    case LoadC0 => w.(scripts := go(StoreC0(w.c0)))
    case StoreC0(v) => w.(scripts := go(LoadC1), c0 := v + 1)
    case LoadC1 => w.(scripts := go(StoreC1(w.c1)))
    case StoreC1(v) => w.(scripts := go(CheckC0), c1 := v + 1)
    case CheckC0 => w.(scripts := go(CheckC1(w.c0)))
    case CheckC1(v0) => w.(scripts := go(Work), error := w.error || v0 != w.c1)
    case Exited => w.(scripts := w.scripts[t := Tester(sc.write, sc.i + 1, Loop)])
    case _ => w
  }

  /** Client code runs exactly when its thread's processor is outside the library. */
  predicate ClientTurn(w: World, p: nat)
    requires p < |w.k.procs|
  {
    w.k.procs[p].pc.Client?
  }

  function CallOf(w: World, count: nat, p: nat): Call
    requires Shape(w) && p < |w.k.procs|
  {
    var c := NextCall(w, count, w.k.procs[p].cur);
    if ClientTurn(w, p) && c.Some? then c.value else Yield
  }

  /** The script of a thread that the step adds: a tester for the one that do_test creates, an
      idle thread for one that comes with a new processor. */
  function Added(w: World, k': State, p: nat): seq<Script>
    requires p < |w.k.procs| && w.k.procs[p].cur < |w.scripts|
  {
    var sc := w.scripts[w.k.procs[p].cur];
    if |k'.threads| <= |w.scripts| then []
    else if ClientTurn(w, p) && sc.Creating? && sc.todo != [] then [Tester(sc.todo[0], 0, Loop)]
    else [Idle]
  }

  /** The scripts after the call that the client code of processor p's thread makes, if any. */
  function Called(w: World, count: nat, p: nat): seq<Script>
    requires p < |w.k.procs| && w.k.procs[p].cur < |w.scripts|
  {
    var t := w.k.procs[p].cur;
    if ClientTurn(w, p) then w.scripts[t := AfterCall(w.scripts[t], count)] else w.scripts
  }

  function CallStep(w: World, count: nat, p: nat): World
    requires Shape(w) && p < |w.k.procs| && Enabled(w.k, p, CallOf(w, count, p))
  {
    var t, k' := w.k.procs[p].cur, Next(w.k, p, CallOf(w, count, p));
    w.(k := k',
       mon := if ClientTurn(w, p) && w.scripts[t].Setup? then |w.k.monitors| else w.mon,
       scripts := Called(w, count, p) + Added(w, k', p))
  }

  predicate TouchesGlobals(w: World, count: nat, p: nat)
    requires Shape(w) && p < |w.k.procs|
  {
    ClientTurn(w, p) && NextCall(w, count, w.k.procs[p].cur).None?
  }

  predicate Takes(w: World, count: nat, p: nat)
    requires Shape(w)
  {
    p < |w.k.procs| && (TouchesGlobals(w, count, p) || Enabled(w.k, p, CallOf(w, count, p)))
  }

  function WorldNext(w: World, count: nat, p: nat): World
    requires Shape(w) && Takes(w, count, p)
  {
    if TouchesGlobals(w, count, p) then GlobalsStep(w, w.k.procs[p].cur)
    else CallStep(w, count, p)
  }

  function WorldInit(extra: nat, todo: seq<bool>): World {
    World(Init(extra), [Setup(todo), Idle], 0, 0, 0, false)
  }

  ghost predicate WorldStep(count: nat, w: World, w': World) {
    Shape(w) && exists p :: Takes(w, count, p) && w' == WorldNext(w, count, p)
  }

  ghost predicate WorldRun(extra: nat, todo: seq<bool>, count: nat, run: seq<World>) {
    && |run| > 0
    && run[0] == WorldInit(extra, todo)
    && (forall i | 0 <= i < |run| - 1 :: WorldStep(count, run[i], run[i + 1]))
  }
}
