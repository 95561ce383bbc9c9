/** The end-to-end result of the reader-writer test: monitor-protected reads never see c0 and
    c1 apart, and when every loop has run out both count every write. */
module ReaderWriterProof {
  import opened Kernel
  import opened KernelOwnership
  import opened KernelExecution
  import opened KernelMonitor
  import opened KernelSafety
  import opened ReaderWriter

  // ---------------------------------------------------------------- a thread inside enter

  /** The program points of uthread_monitor_enter on monitor m. */
  predicate EnterPc(pc: Pc, m: Mid) {
    match pc
    case Acquire(c, _) => c == EnterTest(m, false) || c == EnterTest(m, true) || c == ReadyDequeue(ToEnter(m))
    case Dequeued(_, k, _) => k == ToEnter(m)
    case Switch(_, k, _) => k == ToEnter(m)
    case ResumeTest(k) => k == ToEnter(m)
    case ResumeRun(k, _) => k == ToEnter(m)
    case InMonitor(x, where) => x == m && !where.Clear? && !where.Dequeue?
    case _ => false
  }

  ghost predicate Entering(s: State, t: Tid, m: Mid) {
    && t < |s.threads|
    && (s.threads[t].saved.Some? ==> s.threads[t].saved == Some(ToEnter(m)))
    && (forall p | 0 <= p < |s.procs| && s.procs[p].cur == t && Executing(s.procs[p].pc) ::
          EnterPc(s.procs[p].pc, m))
  }

  lemma StepInEnter(s: State, p: nat, c: Call, m: Mid)
    requires WellFormed(s) && Enabled(s, p, c) && ProcOk(s, s.procs[p])
    requires EnterPc(s.procs[p].pc, m) && Executing(s.procs[p].pc) && !Next(s, p, c).procs[p].pc.Failed?
    ensures s.procs[p].cur < |Next(s, p, c).threads| && Next(s, p, c).procs[p].cur == s.procs[p].cur
    ensures || (EnterPc(Next(s, p, c).procs[p].pc, m)
                && (Next(s, p, c).threads[s.procs[p].cur].saved.Some? ==>
                      Next(s, p, c).threads[s.procs[p].cur].saved == Some(ToEnter(m))))
            || m in Next(s, p, c).threads[s.procs[p].cur].inside
  {
  }

  lemma SwitchNotInEnter(s: State, p: nat, c: Call, t: Tid, m: Mid)
    requires WellFormed(s) && Enabled(s, p, c) && t < |s.threads|
    requires s.threads[t].saved.Some? ==> s.threads[t].saved == Some(ToEnter(m))
    requires s.procs[p].cur == t ==> !Executing(s.procs[p].pc)
    requires s.procs[p].pc.Switch? && !Next(s, p, c).procs[p].pc.Failed?
    ensures t < |Next(s, p, c).threads|
    ensures Next(s, p, c).threads[t].saved.Some? ==> Next(s, p, c).threads[t].saved == Some(ToEnter(m))
    ensures Next(s, p, c).procs[p].cur == t && Executing(Next(s, p, c).procs[p].pc) ==>
              EnterPc(Next(s, p, c).procs[p].pc, m)
  {
  }

  lemma OtherNotInEnter(s: State, p: nat, c: Call, t: Tid, m: Mid)
    requires WellFormed(s) && Enabled(s, p, c) && t < |s.threads|
    requires s.threads[t].saved.Some? ==> s.threads[t].saved == Some(ToEnter(m))
    requires s.procs[p].cur == t ==> !Executing(s.procs[p].pc)
    requires !s.procs[p].pc.Switch? && !Next(s, p, c).procs[p].pc.Failed?
    ensures t < |Next(s, p, c).threads|
    ensures Next(s, p, c).threads[t].saved.Some? ==> Next(s, p, c).threads[t].saved == Some(ToEnter(m))
    ensures Next(s, p, c).procs[p].cur == t && Executing(Next(s, p, c).procs[p].pc) ==>
              EnterPc(Next(s, p, c).procs[p].pc, m)
  {
  }

  lemma StepNotInEnter(s: State, p: nat, c: Call, t: Tid, m: Mid)
    requires WellFormed(s) && Enabled(s, p, c) && t < |s.threads|
    requires s.threads[t].saved.Some? ==> s.threads[t].saved == Some(ToEnter(m))
    requires s.procs[p].cur == t ==> !Executing(s.procs[p].pc)
    requires !Next(s, p, c).procs[p].pc.Failed?
    ensures t < |Next(s, p, c).threads|
    ensures Next(s, p, c).threads[t].saved.Some? ==> Next(s, p, c).threads[t].saved == Some(ToEnter(m))
    ensures Next(s, p, c).procs[p].cur == t && Executing(Next(s, p, c).procs[p].pc) ==>
              EnterPc(Next(s, p, c).procs[p].pc, m)
  {
    if s.procs[p].pc.Switch? {
      SwitchNotInEnter(s, p, c, t, m);
    } else {
      OtherNotInEnter(s, p, c, t, m);
    }
  }

  lemma StepEntering(s: State, p: nat, c: Call, t: Tid, m: Mid)
    requires WellFormed(s) && Enabled(s, p, c) && ProcOk(s, s.procs[p]) && Entering(s, t, m)
    requires !Next(s, p, c).procs[p].pc.Failed?
    ensures t < |Next(s, p, c).threads|
    ensures Entering(Next(s, p, c), t, m) || m in Next(s, p, c).threads[t].inside
  {
    StepOneProc(s, p, c);
    if s.procs[p].cur == t && Executing(s.procs[p].pc) {
      StepInEnter(s, p, c, m);
    } else {
      StepNotInEnter(s, p, c, t, m);
    }
  }

  /** A call of enter starts one. */
  lemma CallEnters(s: State, own: seq<Owner>, p: nat, m: Mid)
    requires InvWith(s, own) && Enabled(s, p, Enter(m)) && s.procs[p].pc.Client?
    ensures Entering(Next(s, p, Enter(m)), s.procs[p].cur, m)
  {
    StepOneProc(s, p, Enter(m));
    assert ProcOk(s, s.procs[p]);
  }

  // ---------------------------------------------------------------- counting

  datatype Global = C0 | C1

  /** How often a writer has incremented the global so far. */
  function Increments(sc: Script, g: Global): nat {
    if !sc.Tester? || !sc.write then 0
    else
      match sc.at
      case Loop => sc.i
      case LoadC0 => sc.i
      case StoreC0(_) => sc.i
      case LoadC1 => if g.C0? then sc.i + 1 else sc.i
      case StoreC1(_) => if g.C0? then sc.i + 1 else sc.i
      case _ => sc.i + 1
  }

  function Sum(scripts: seq<Script>, g: Global): nat {
    if scripts == [] then 0 else Sum(scripts[..|scripts| - 1], g) + Increments(scripts[|scripts| - 1], g)
  }

  lemma {:induction false} SumUpdate(scripts: seq<Script>, g: Global, t: nat, sc: Script)
    requires t < |scripts|
    ensures Sum(scripts[t := sc], g) == Sum(scripts, g) - Increments(scripts[t], g) + Increments(sc, g)
  {
    var n := |scripts| - 1;
    if t == n {
      assert scripts[t := sc][..n] == scripts[..n];
    } else {
      assert scripts[t := sc][..n] == scripts[..n][t := sc];
      SumUpdate(scripts[..n], g, t, sc);
    }
  }

  lemma SumAppend(scripts: seq<Script>, g: Global, sc: Script)
    ensures Sum(scripts + [sc], g) == Sum(scripts, g) + Increments(sc, g)
  {
    assert (scripts + [sc])[..|scripts|] == scripts;
  }

  /** When nobody is between the two increments, both globals have been incremented alike. */
  lemma {:induction false} SumsAgree(scripts: seq<Script>)
    requires forall t | 0 <= t < |scripts| :: Increments(scripts[t], C0) == Increments(scripts[t], C1)
    ensures Sum(scripts, C0) == Sum(scripts, C1)
  {
    if scripts == [] {
    } else {
      SumsAgree(scripts[..|scripts| - 1]);
    }
  }

  function Writers(scripts: seq<Script>): nat {
    if scripts == [] then 0
    else
      var sc := scripts[|scripts| - 1];
      Writers(scripts[..|scripts| - 1]) + (if sc.Tester? && sc.write then 1 else 0)
  }

  function WritersToCome(todo: seq<bool>): nat {
    if todo == [] then 0 else (if todo[0] then 1 else 0) + WritersToCome(todo[1..])
  }

  lemma {:induction false} WritersUpdate(scripts: seq<Script>, t: nat, sc: Script)
    requires t < |scripts|
    requires (scripts[t].Tester? && scripts[t].write) == (sc.Tester? && sc.write)
    ensures Writers(scripts[t := sc]) == Writers(scripts)
  {
    var n := |scripts| - 1;
    if t == n {
      assert scripts[t := sc][..n] == scripts[..n];
    } else {
      assert scripts[t := sc][..n] == scripts[..n][t := sc];
      WritersUpdate(scripts[..n], t, sc);
    }
  }

  /** A finished writer has incremented both globals `count` times. */
  lemma {:induction false} FinishedSum(scripts: seq<Script>, count: nat, g: Global)
    requires forall t | 0 <= t < |scripts| && scripts[t].Tester? :: scripts[t].at.Loop? && scripts[t].i == count
    ensures Sum(scripts, g) == Writers(scripts) * count
  {
    if scripts == [] {
    } else {
      FinishedSum(scripts[..|scripts| - 1], count, g);
    }
  }

  // ---------------------------------------------------------------- the invariant

  /** What a tester remembers of the globals is current. */
  predicate Local(w: World, count: nat, sc: Script) {
    sc.Tester? ==>
      && sc.i <= count && (!sc.at.Loop? ==> sc.i < count)
      && (sc.write ==> !sc.at.ReadC0? && !sc.at.ReadC1?)
      && (!sc.write ==> sc.at.Loop? || sc.at.ReadC0? || sc.at.ReadC1? || sc.at.Work? || sc.at.Exited?)
      && (sc.at.StoreC0? ==> sc.at.v == w.c0)
      && (sc.at.StoreC1? ==> sc.at.v == w.c1)
      && (sc.at.ReadC1? ==> sc.at.v0 == w.c0)
      && (sc.at.CheckC1? ==> sc.at.v0 == w.c0)
  }

  /** A tester between the calls of enter and exit is inside the monitor, or still in enter. */
  ghost predicate Bracket(w: World, t: Tid)
    requires Shape(w) && t < |w.scripts|
  {
    var sc := w.scripts[t];
    sc.Tester? && InBody(sc.at) ==>
      w.mon in w.k.threads[t].inside || (AtStart(sc.at) && Entering(w.k, t, w.mon))
  }

  /** Thread 0 runs do_test; the monitor is made before the first tester. */
  predicate Roles(w: World, t: Tid)
    requires Shape(w) && t < |w.scripts|
  {
    var sc := w.scripts[t];
    && (sc.Idle? <==> w.k.threads[t].idle)
    && (t == 0 <==> sc.Setup? || sc.Creating?)
    && (sc.Creating? ==> w.mon < |w.k.monitors|)
    && (sc.Tester? ==> w.mon < |w.k.monitors| && !w.scripts[0].Setup?)
  }

  function Todo(sc: Script): seq<bool> {
    if sc.Setup? || sc.Creating? then sc.todo else []
  }

  ghost predicate WorldInv(w: World, count: nat, writers: nat) {
    && Shape(w) && Inv(w.k) && |w.scripts| > 0
    && (forall t | 0 <= t < |w.scripts| :: Roles(w, t))
    && (forall t | 0 <= t < |w.scripts| :: Local(w, count, w.scripts[t]))
    && (forall t | 0 <= t < |w.scripts| :: Bracket(w, t))
    && w.c0 == Sum(w.scripts, C0) && w.c1 == Sum(w.scripts, C1)
    && Writers(w.scripts) + WritersToCome(Todo(w.scripts[0])) == writers
    && !w.error
  }

  lemma InitWorldInv(extra: nat, todo: seq<bool>, count: nat)
    ensures WorldInv(WorldInit(extra, todo), count, WritersToCome(todo))
  {
    InitInv(extra);
    var main := [Setup(todo)];
    assert [Setup(todo), Idle] == main + [Idle] && main == [] + main;
    forall g ensures Sum([Setup(todo), Idle], g) == 0 {
      SumAppend(main, g, Idle);
      SumAppend([], g, Setup(todo));
    }
    assert [Setup(todo), Idle][..1] == main && main[..0] == [];
    assert Writers(main) == 0;
  }

  // ---------------------------------------------------------------- an access to the globals

  /** Only one tester has got past its call of enter. */
  lemma Alone(w: World, count: nat, writers: nat, p: nat, t: Tid)
    requires WorldInv(w, count, writers) && p < |w.k.procs| && TouchesGlobals(w, count, p)
    requires t < |w.scripts| && t != w.k.procs[p].cur
    requires w.scripts[w.k.procs[p].cur].Tester? && InBody(w.scripts[w.k.procs[p].cur].at)
    ensures w.scripts[t].Tester? && InBody(w.scripts[t].at) ==>
              AtStart(w.scripts[t].at) && w.mon !in w.k.threads[t].inside
  {
    var cur := w.k.procs[p].cur;
    var own :| InvWith(w.k, own);
    assert Bracket(w, cur) && Bracket(w, t);
    assert !EnterPc(w.k.procs[p].pc, w.mon) && Executing(w.k.procs[p].pc);
    assert InsideHolds(w.k, cur, w.mon) && InsideHolds(w.k, t, w.mon);
  }

  lemma AccessBracket(w: World, count: nat, writers: nat, p: nat)
    requires WorldInv(w, count, writers) && p < |w.k.procs| && TouchesGlobals(w, count, p)
    ensures w.scripts[w.k.procs[p].cur].Tester?
    ensures var sc := w.scripts[w.k.procs[p].cur];
            InBody(sc.at) ==> w.mon in w.k.threads[w.k.procs[p].cur].inside
  {
    var cur := w.k.procs[p].cur;
    assert Bracket(w, cur);
    assert !EnterPc(w.k.procs[p].pc, w.mon) && Executing(w.k.procs[p].pc);
  }

  lemma AccessLocals(w: World, count: nat, writers: nat, p: nat)
    requires WorldInv(w, count, writers) && p < |w.k.procs| && TouchesGlobals(w, count, p)
    requires w.scripts[w.k.procs[p].cur].Tester?
    ensures var w' := GlobalsStep(w, w.k.procs[p].cur);
            |w'.scripts| == |w.scripts| && forall t | 0 <= t < |w'.scripts| :: Local(w', count, w'.scripts[t])
  {
    var cur := w.k.procs[p].cur;
    var w' := GlobalsStep(w, cur);
    assert Local(w, count, w.scripts[cur]);
    forall t | 0 <= t < |w'.scripts| ensures Local(w', count, w'.scripts[t]) {
      assert Local(w, count, w.scripts[t]);
      if t != cur && InBody(w.scripts[cur].at) {
        Alone(w, count, writers, p, t);
      }
    }
  }

  lemma AccessRoles(w: World, count: nat, writers: nat, p: nat)
    requires WorldInv(w, count, writers) && p < |w.k.procs| && TouchesGlobals(w, count, p)
    requires w.scripts[w.k.procs[p].cur].Tester?
    ensures var w' := GlobalsStep(w, w.k.procs[p].cur);
            Shape(w') && |w'.scripts| == |w.scripts| && forall t | 0 <= t < |w'.scripts| :: Roles(w', t)
  {
    var w' := GlobalsStep(w, w.k.procs[p].cur);
    forall t | 0 <= t < |w'.scripts| ensures Roles(w', t) {
      assert Roles(w, t);
    }
  }

  lemma AccessBrackets(w: World, count: nat, writers: nat, p: nat)
    requires WorldInv(w, count, writers) && p < |w.k.procs| && TouchesGlobals(w, count, p)
    requires w.scripts[w.k.procs[p].cur].Tester?
    ensures var w' := GlobalsStep(w, w.k.procs[p].cur);
            Shape(w') && |w'.scripts| == |w.scripts| && forall t | 0 <= t < |w'.scripts| :: Bracket(w', t)
  {
    var w' := GlobalsStep(w, w.k.procs[p].cur);
    AccessBracket(w, count, writers, p);
    forall t | 0 <= t < |w'.scripts| ensures Bracket(w', t) {
      assert Bracket(w, t);
    }
  }

  lemma AccessSums(w: World, count: nat, writers: nat, p: nat)
    requires WorldInv(w, count, writers) && p < |w.k.procs| && TouchesGlobals(w, count, p)
    requires w.scripts[w.k.procs[p].cur].Tester?
    ensures var w' := GlobalsStep(w, w.k.procs[p].cur);
            w'.c0 == Sum(w'.scripts, C0) && w'.c1 == Sum(w'.scripts, C1)
  {
    var cur := w.k.procs[p].cur;
    var w' := GlobalsStep(w, cur);
    assert Local(w, count, w.scripts[cur]);
    assert w'.scripts == w.scripts[cur := w'.scripts[cur]];
    SumUpdate(w.scripts, C0, cur, w'.scripts[cur]);
    SumUpdate(w.scripts, C1, cur, w'.scripts[cur]);
  }

  /** A comparison of c0 and c1 inside the monitor finds them equal. */
  lemma AccessSeesEqual(w: World, count: nat, writers: nat, p: nat)
    requires WorldInv(w, count, writers) && p < |w.k.procs| && TouchesGlobals(w, count, p)
    requires w.scripts[w.k.procs[p].cur].Tester?
    ensures !GlobalsStep(w, w.k.procs[p].cur).error
  {
    var cur := w.k.procs[p].cur;
    var at := w.scripts[cur].at;
    if at.ReadC1? || at.CheckC1? {
      assert Local(w, count, w.scripts[cur]);
      forall t | 0 <= t < |w.scripts| ensures Increments(w.scripts[t], C0) == Increments(w.scripts[t], C1) {
        if t != cur {
          Alone(w, count, writers, p, t);
        }
      }
      SumsAgree(w.scripts);
    }
  }

  lemma AccessInv(w: World, count: nat, writers: nat, p: nat)
    requires WorldInv(w, count, writers) && p < |w.k.procs| && TouchesGlobals(w, count, p)
    ensures w.scripts[w.k.procs[p].cur].Tester?
    ensures WorldInv(GlobalsStep(w, w.k.procs[p].cur), count, writers)
  {
    var cur := w.k.procs[p].cur;
    var w' := GlobalsStep(w, cur);
    AccessLocals(w, count, writers, p);
    AccessRoles(w, count, writers, p);
    AccessBrackets(w, count, writers, p);
    AccessSums(w, count, writers, p);
    AccessSeesEqual(w, count, writers, p);
    assert Roles(w, cur);
    assert w'.scripts == w.scripts[cur := w'.scripts[cur]];
    WritersUpdate(w.scripts, cur, w'.scripts[cur]);
  }

  // ---------------------------------------------------------------- a step of the package

  lemma StepAdded(s: State, p: nat, c: Call)
    requires WellFormed(s) && Enabled(s, p, c)
    ensures |s.threads| <= |Next(s, p, c).threads| <= |s.threads| + 1
    ensures |Next(s, p, c).threads| > |s.threads| ==>
              if s.procs[p].pc.Client? then c.Create? && Next(s, p, c).threads[|s.threads|] == NASCENT_THREAD
              else Next(s, p, c).threads[|s.threads|] == IDLE_THREAD
    ensures s.procs[p].pc.Client? && c.Create? ==> |Next(s, p, c).threads| == |s.threads| + 1
    ensures |s.monitors| <= |Next(s, p, c).monitors|
    ensures s.procs[p].pc.Client? && c.MakeMonitor? ==> |Next(s, p, c).monitors| == |s.monitors| + 1
  {
  }

  lemma StepIdleFlag(s: State, p: nat, c: Call, t: Tid)
    requires WellFormed(s) && Enabled(s, p, c) && t < |s.threads|
    ensures t < |Next(s, p, c).threads| && Next(s, p, c).threads[t].idle == s.threads[t].idle
  {
  }

  ghost predicate Calls(w: World, count: nat, writers: nat, p: nat) {
    WorldInv(w, count, writers) && Takes(w, count, p) && !TouchesGlobals(w, count, p)
  }

  lemma CallShape(w: World, count: nat, writers: nat, p: nat)
    requires Calls(w, count, writers, p)
    ensures Shape(CallStep(w, count, p)) && Inv(CallStep(w, count, p).k)
    ensures |w.scripts| <= |CallStep(w, count, p).scripts| <= |w.scripts| + 1
  {
    var own :| InvWith(w.k, own);
    StepInv(w.k, own, p, CallOf(w, count, p));
    StepAdded(w.k, p, CallOf(w, count, p));
  }

  /** How the script of thread t changes: by the call it makes, if it is the thread that steps. */
  lemma CallScript(w: World, count: nat, writers: nat, p: nat, t: Tid)
    requires Calls(w, count, writers, p) && t < |w.scripts|
    ensures t < |CallStep(w, count, p).scripts|
    ensures CallStep(w, count, p).scripts[t] ==
            if ClientTurn(w, p) && w.k.procs[p].cur == t then AfterCall(w.scripts[t], count) else w.scripts[t]
  {
  }

  lemma CallRoles(w: World, count: nat, writers: nat, p: nat, t: Tid)
    requires Calls(w, count, writers, p) && Shape(CallStep(w, count, p)) && t < |w.scripts|
    ensures t < |CallStep(w, count, p).scripts| && Roles(CallStep(w, count, p), t)
  {
    CallScript(w, count, writers, p, t);
    CallScript(w, count, writers, p, 0);
    StepAdded(w.k, p, CallOf(w, count, p));
    StepIdleFlag(w.k, p, CallOf(w, count, p), t);
    assert Roles(w, t) && Roles(w, 0) && Roles(w, w.k.procs[p].cur);
  }

  lemma AddedRoles(w: World, count: nat, p: nat, t: Tid)
    requires Shape(w) && Takes(w, count, p) && !TouchesGlobals(w, count, p) && |w.scripts| > 0
    requires Roles(w, 0) && Roles(w, w.k.procs[p].cur) && Shape(CallStep(w, count, p))
    requires |w.scripts| <= t < |CallStep(w, count, p).scripts|
    ensures Roles(CallStep(w, count, p), t)
  {
    StepAdded(w.k, p, CallOf(w, count, p));
  }

  lemma AddedLocal(w: World, count: nat, p: nat, t: Tid)
    requires Shape(w) && Takes(w, count, p) && !TouchesGlobals(w, count, p) && |w.scripts| > 0
    requires Roles(w, 0) && Roles(w, w.k.procs[p].cur) && Shape(CallStep(w, count, p))
    requires |w.scripts| <= t < |CallStep(w, count, p).scripts|
    ensures Local(CallStep(w, count, p), count, CallStep(w, count, p).scripts[t])
    ensures Bracket(CallStep(w, count, p), t)
  {
    StepAdded(w.k, p, CallOf(w, count, p));
  }

  lemma CallLocal(w: World, count: nat, writers: nat, p: nat, t: Tid)
    requires Calls(w, count, writers, p) && t < |w.scripts|
    ensures t < |CallStep(w, count, p).scripts|
    ensures Local(CallStep(w, count, p), count, CallStep(w, count, p).scripts[t])
  {
    CallScript(w, count, writers, p, t);
    assert Local(w, count, w.scripts[t]);
  }

  /** The thread that calls enter is in enter; one that calls exit is out of its body; for the
      others nothing changes, or their call of enter goes on. */
  lemma CallBracket(w: World, count: nat, writers: nat, p: nat, t: Tid)
    requires Calls(w, count, writers, p) && Shape(CallStep(w, count, p)) && t < |w.scripts|
    ensures t < |CallStep(w, count, p).scripts| && Bracket(CallStep(w, count, p), t)
  {
    var own :| InvWith(w.k, own);
    var c, sc := CallOf(w, count, p), w.scripts[t];
    CallScript(w, count, writers, p, t);
    StepInside(w.k, p, c, t);
    StepNoFault(w.k, own, p, c);
    assert Bracket(w, t) && Roles(w, t) && ProcOk(w.k, w.k.procs[p]);
    if ClientTurn(w, p) && w.k.procs[p].cur == t {
      if sc.Tester? && sc.at.Loop? && sc.i < count {
        CallEnters(w.k, own, p, w.mon);
      }
    } else if sc.Tester? && InBody(sc.at) {
      assert w.scripts[w.k.procs[p].cur].Setup? ==> w.k.procs[p].cur == 0 by { assert Roles(w, w.k.procs[p].cur); }
      if w.mon !in w.k.threads[t].inside {
        StepEntering(w.k, p, c, t, w.mon);
      }
    }
  }

  lemma CalledSums(w: World, count: nat, p: nat, g: Global)
    requires p < |w.k.procs| && w.k.procs[p].cur < |w.scripts|
    ensures Sum(Called(w, count, p), g) == Sum(w.scripts, g)
  {
    var cur := w.k.procs[p].cur;
    SumUpdate(w.scripts, g, cur, AfterCall(w.scripts[cur], count));
  }

  lemma CallSums(w: World, count: nat, p: nat, g: Global)
    requires Shape(w) && Takes(w, count, p) && !TouchesGlobals(w, count, p)
    ensures Sum(CallStep(w, count, p).scripts, g) == Sum(w.scripts, g)
  {
    var k' := CallStep(w, count, p).k;
    var called, added := Called(w, count, p), Added(w, k', p);
    CalledSums(w, count, p, g);
    if added != [] {
      SumAppend(called, g, added[0]);
    } else {
      assert called + added == called;
    }
  }

  /** The writer that do_test creates is taken off the list of those to come. */
  lemma CallWriters(w: World, count: nat, writers: nat, p: nat)
    requires Calls(w, count, writers, p)
    ensures |CallStep(w, count, p).scripts| > 0
    ensures Writers(CallStep(w, count, p).scripts) + WritersToCome(Todo(CallStep(w, count, p).scripts[0])) == writers
  {
    var cur, w' := w.k.procs[p].cur, CallStep(w, count, p);
    var called := Called(w, count, p);
    WritersUpdate(w.scripts, cur, AfterCall(w.scripts[cur], count));
    assert Roles(w, cur) && Roles(w, 0);
    StepAdded(w.k, p, CallOf(w, count, p));
    var added := Added(w, w'.k, p);
    if added != [] {
      assert (called + added)[..|called|] == called;
    } else {
      assert called + added == called;
    }
  }

  lemma CallInv(w: World, count: nat, writers: nat, p: nat)
    requires Calls(w, count, writers, p)
    ensures WorldInv(CallStep(w, count, p), count, writers)
  {
    var w' := CallStep(w, count, p);
    CallShape(w, count, writers, p);
    forall t | 0 <= t < |w'.scripts| ensures Roles(w', t) && Local(w', count, w'.scripts[t]) && Bracket(w', t) {
      if t < |w.scripts| {
        CallRoles(w, count, writers, p, t);
        CallLocal(w, count, writers, p, t);
        CallBracket(w, count, writers, p, t);
      } else {
        AddedRoles(w, count, p, t);
        AddedLocal(w, count, p, t);
      }
    }
    CallSums(w, count, p, C0);
    CallSums(w, count, p, C1);
    CallWriters(w, count, writers, p);
  }

  lemma {:induction false} WorldRunInv(extra: nat, todo: seq<bool>, count: nat, run: seq<World>, i: nat)
    requires WorldRun(extra, todo, count, run) && i < |run|
    ensures WorldInv(run[i], count, WritersToCome(todo))
  {
    if i == 0 {
      InitWorldInv(extra, todo, count);
    } else {
      WorldRunInv(extra, todo, count, run, i - 1);
      var w := run[i - 1];
      assert WorldStep(count, w, run[i - 1 + 1]);
      var p :| Takes(w, count, p) && run[i] == WorldNext(w, count, p);
      if TouchesGlobals(w, count, p) {
        AccessInv(w, count, WritersToCome(todo), p);
      } else {
        CallInv(w, count, WritersToCome(todo), p);
      }
    }
  }

  // ---------------------------------------------------------------- the theorems

  /** No read or write inside the monitor ever reports an error. */
  lemma NoErrorReported(extra: nat, todo: seq<bool>, count: nat, run: seq<World>, i: nat)
    requires WorldRun(extra, todo, count, run) && i < |run|
    ensures !run[i].error
  {
    WorldRunInv(extra, todo, count, run, i);
  }

  /** While a tester compares c0 with c1 inside the monitor, the two are equal. */
  lemma ComparesEqual(extra: nat, todo: seq<bool>, count: nat, run: seq<World>, i: nat, p: nat)
    requires WorldRun(extra, todo, count, run) && i < |run|
    requires p < |run[i].k.procs| && Shape(run[i]) && TouchesGlobals(run[i], count, p)
    requires var at := run[i].scripts[run[i].k.procs[p].cur].at;
             at.ReadC0? || at.ReadC1? || at.CheckC0? || at.CheckC1?
    ensures run[i].c0 == run[i].c1
  {
    WorldRunInv(extra, todo, count, run, i);
    var w, cur := run[i], run[i].k.procs[p].cur;
    forall t | 0 <= t < |w.scripts| ensures Increments(w.scripts[t], C0) == Increments(w.scripts[t], C1) {
      if t != cur {
        Alone(w, count, WritersToCome(todo), p, t);
      }
    }
    SumsAgree(w.scripts);
  }

  /** The loops of all threads that do_test creates have run out. */
  predicate Finished(w: World, count: nat) {
    && |w.scripts| > 0 && w.scripts[0] == Creating([])
    && forall t | 0 <= t < |w.scripts| && w.scripts[t].Tester? :: w.scripts[t].at.Loop? && w.scripts[t].i == count
  }

  /** The final check of do_test: both counters are the number of writers times the count. */
  lemma EndResult(extra: nat, todo: seq<bool>, count: nat, run: seq<World>, i: nat)
    requires WorldRun(extra, todo, count, run) && i < |run| && Finished(run[i], count)
    ensures run[i].c0 == run[i].c1 == WritersToCome(todo) * count
    ensures !run[i].error
  {
    WorldRunInv(extra, todo, count, run, i);
    FinishedSum(run[i].scripts, count, C0);
    FinishedSum(run[i].scripts, count, C1);
  }

  /** The client keeps to the brackets: whatever its script does next, the package allows it,
      so no processor is ever stuck outside the library. */
  lemma NeverRefused(extra: nat, todo: seq<bool>, count: nat, run: seq<World>, i: nat, p: nat)
    requires WorldRun(extra, todo, count, run) && i < |run| && p < |run[i].k.procs|
    ensures Shape(run[i]) && Takes(run[i], count, p)
  {
    WorldRunInv(extra, todo, count, run, i);
    var w := run[i];
    var own :| InvWith(w.k, own);
    var cur := w.k.procs[p].cur;
    assert Roles(w, cur) && Bracket(w, cur);
    if ClientTurn(w, p) {
      assert !EnterPc(w.k.procs[p].pc, w.mon) && Executing(w.k.procs[p].pc);
    }
  }

  // ---------------------------------------------------------------- the bodies on their own

  /** n accesses of thread t with no other thread in between */
  function Accesses(w: World, t: Tid, n: nat): (w': World)
    requires t < |w.scripts| && w.scripts[t].Tester?
    ensures t < |w'.scripts| && w'.scripts[t].Tester?
    decreases n
  {
    if n == 0 then w else Accesses(GlobalsStep(w, t), t, n - 1)
  }

  /** On its own, read reports an error exactly if the counters differ, and changes neither. */
  lemma ReadAlone(w: World, t: Tid)
    requires t < |w.scripts| && w.scripts[t].Tester? && w.scripts[t].at.ReadC0?
    ensures Accesses(w, t, 2)
         == w.(scripts := w.scripts[t := w.scripts[t].(at := Work)], error := w.error || w.c0 != w.c1)
  {
    var w1 := GlobalsStep(w, t);
    var w2 := GlobalsStep(w1, t);
    assert Accesses(w, t, 2) == Accesses(w1, t, 1) == Accesses(w2, t, 0);
    assert w2.scripts == w.scripts[t := w.scripts[t].(at := Work)];
  }

  /** On its own, write adds 1 to each counter and reports an error exactly if they differ. */
  lemma WriteAlone(w: World, t: Tid)
    requires t < |w.scripts| && w.scripts[t].Tester? && w.scripts[t].at.LoadC0?
    ensures Accesses(w, t, 6)
         == w.(scripts := w.scripts[t := w.scripts[t].(at := Work)], c0 := w.c0 + 1, c1 := w.c1 + 1,
               error := w.error || w.c0 != w.c1)
  {
    var w1 := GlobalsStep(w, t);
    var w2 := GlobalsStep(w1, t);
    var w3 := GlobalsStep(w2, t);
    var w4 := GlobalsStep(w3, t);
    var w5 := GlobalsStep(w4, t);
    var w6 := GlobalsStep(w5, t);
    assert Accesses(w, t, 6) == Accesses(w1, t, 5) == Accesses(w2, t, 4) == Accesses(w3, t, 3);
    assert Accesses(w3, t, 3) == Accesses(w4, t, 2) == Accesses(w5, t, 1) == Accesses(w6, t, 0);
    assert w6.scripts == w.scripts[t := w.scripts[t].(at := Work)];
  }
}
