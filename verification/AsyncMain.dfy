/** The main program of a7/async.c, with an interrupt possible between any two of its steps. */
module AsyncMain {
  import opened Sm213
  import opened CompletionRing
  import opened AsyncQueue

  /** The fields of a triple */
  datatype Values = Values(result: Word, arg0: Word, arg1: Word, locked: bool)

  /** An entry of the ring: a handler and the number of its triple, t1 to t4 */
  datatype Task = Task(handler: Handler, t: nat)

  /** The operands of the expression ((a + b) - (c + d)) + e */
  datatype Input = Input(a: Word, b: Word, c: Word, d: Word, e: Word)

  /** `pc` numbers the steps of main. */
  datatype State = State(pc: nat, t1: Values, t2: Values, t3: Values, t4: Values, ring: Ring<Task>, answer: Word)

  const T1 := Task(Add, 1)
  const T2 := Task(Add, 2)
  const T3 := Task(Sub, 3)
  const T4 := Task(Add, 4)
  const DONE := 21

  predicate Starts(s: State) {
    s.pc == 0 && IsRing(s.ring) && Outstanding(s.ring) == []
  }

  function Goto(s: State, pc: nat): State {
    s.(pc := pc)
  }

  function DoAsync(s: State, t: Task): State
    requires IsRing(s.ring)
  {
    s.(ring := Submit(s.ring, t))
  }

  /** One step of main */
  function MainStep(s: State, x: Input): State
    requires IsRing(s.ring)
  {
    match s.pc
    case 0 => Goto(s, 1).(t1 := s.t1.(arg0 := x.a))
    case 1 => Goto(s, 2).(t1 := s.t1.(arg1 := x.b))
    case 2 => Goto(s, 3).(t1 := s.t1.(locked := true))
    case 3 => Goto(s, 4).(t2 := s.t2.(arg0 := x.c))
    case 4 => Goto(s, 5).(t2 := s.t2.(arg1 := x.d))
    case 5 => Goto(s, 6).(t2 := s.t2.(locked := true))
    case 6 => DoAsync(Goto(s, 7), T1)
    case 7 => DoAsync(Goto(s, 8), T2)
    case 8 => if s.t1.locked then s else Goto(s, 9)
    case 9 => Goto(s, 10).(t3 := s.t3.(arg0 := s.t1.result))
    case 10 => if s.t2.locked then s else Goto(s, 11)
    case 11 => Goto(s, 12).(t3 := s.t3.(arg1 := s.t2.result))
    case 12 => Goto(s, 13).(t3 := s.t3.(locked := true))
    case 13 => DoAsync(Goto(s, 14), T3)
    case 14 => if s.t3.locked then s else Goto(s, 15)
    case 15 => Goto(s, 16).(t4 := s.t4.(arg0 := s.t3.result))
    case 16 => Goto(s, 17).(t4 := s.t4.(arg1 := x.e))
    case 17 => Goto(s, 18).(t4 := s.t4.(locked := true))
    case 18 => DoAsync(Goto(s, 19), T4)
    case 19 => if s.t4.locked then s else Goto(s, 20)
    case 20 => Goto(s, DONE).(answer := s.t4.result)
    case _ => s
  }

  function Finished(t: Values, h: Handler): Values {
    t.(result := Computed(h, t.arg0, t.arg1), locked := false)
  }

  function Handle(s: State, c: Task): State {
    match c.t
    case 1 => s.(t1 := Finished(s.t1, c.handler))
    case 2 => s.(t2 := Finished(s.t2, c.handler))
    case 3 => s.(t3 := Finished(s.t3, c.handler))
    case _ => s.(t4 := Finished(s.t4, c.handler))
  }

  /** The interrupt service routine */
  function InterruptStep(s: State): State
    requires IsRing(s.ring)
  {
    if s.ring.head == s.ring.tail then s
    else Handle(s.(ring := Interrupt(s.ring)), s.ring.slots[Next(s.ring.tail)])
  }

  datatype Act = Main | Alarmed

  function Step(s: State, x: Input, act: Act): State
    requires IsRing(s.ring)
  {
    match act
    case Main => MainStep(s, x)
    case Alarmed => InterruptStep(s)
  }

  // ---------------------------------------------------------------- the invariant

  /** t is waited for from the time it is submitted, after step p, until it is handled. */
  function Pending(pc: nat, p: nat, t: Values, c: Task): seq<Task> {
    if pc > p && t.locked then [c] else []
  }

  function Waiting(s: State): seq<Task> {
    Pending(s.pc, 6, s.t1, T1) + Pending(s.pc, 7, s.t2, T2) + Pending(s.pc, 13, s.t3, T3) + Pending(s.pc, 18, s.t4, T4)
  }

  /** The life of a triple: its arguments v and w are written by the steps before b and c, it is
      locked when it is submitted by step p, and unlocked with its result in it after step q. */
  predicate Life(pc: nat, t: Values, h: Handler, v: Word, b: nat, w: Word, c: nat, p: nat, q: nat) {
    && (pc >= b ==> t.arg0 == v) && (pc >= c ==> t.arg1 == w)
    && (pc == p ==> t.locked)
    && (pc > p && !t.locked ==> t.result == Computed(h, v, w))
    && (pc > q ==> !t.locked)
  }

  function Sum1(x: Input): Word { Plus(x.a, x.b) }

  function Sum2(x: Input): Word { Plus(x.c, x.d) }

  function Difference(x: Input): Word { Minus(Sum1(x), Sum2(x)) }

  function Result(x: Input): Word { Plus(Difference(x), x.e) }

  ghost predicate Inv(s: State, x: Input) {
    && s.pc <= DONE && IsRing(s.ring) && Outstanding(s.ring) == Waiting(s)
    && (3 <= s.pc <= 6 ==> s.t1.locked)
    && Life(s.pc, s.t1, Add, x.a, 1, x.b, 2, 6, 8)
    && (6 <= s.pc <= 7 ==> s.t2.locked)
    && Life(s.pc, s.t2, Add, x.c, 4, x.d, 5, 7, 10)
    && Life(s.pc, s.t3, Sub, Sum1(x), 10, Sum2(x), 12, 13, 14)
    && Life(s.pc, s.t4, Add, Difference(x), 16, x.e, 17, 18, 19)
    && (s.pc == DONE ==> s.answer == Result(x))
  }

  lemma StartInv(s: State, x: Input)
    requires Starts(s)
    ensures Inv(s, x)
  {
  }

  lemma MainInv(s: State, x: Input)
    requires Inv(s, x)
    ensures Inv(MainStep(s, x), x)
  {
    SubmitAppends(s.ring, T1);
    SubmitAppends(s.ring, T2);
    SubmitAppends(s.ring, T3);
    SubmitAppends(s.ring, T4);
  }

  lemma InterruptInv(s: State, x: Input)
    requires Inv(s, x)
    ensures Inv(InterruptStep(s), x)
  {
    InterruptTakesFirst(s.ring);
  }

  // ---------------------------------------------------------------- every schedule

  /** run[i + 1] is the state after the i-th act of main or of the interrupt. */
  ghost predicate IsRun(x: Input, acts: seq<Act>, run: seq<State>) {
    && |run| == |acts| + 1 && Starts(run[0])
    && forall i {:trigger acts[i]} | 0 <= i < |acts| :: IsRing(run[i].ring) && run[i + 1] == Step(run[i], x, acts[i])
  }

  lemma {:induction false} RunInv(x: Input, acts: seq<Act>, run: seq<State>, n: nat)
    requires IsRun(x, acts, run) && n < |run|
    ensures Inv(run[n], x)
  {
    if n == 0 {
      StartInv(run[0], x);
    } else {
      RunInv(x, acts, run, n - 1);
      assert run[n - 1 + 1] == Step(run[n - 1], x, acts[n - 1]);
      match acts[n - 1]
      case Main => MainInv(run[n - 1], x);
      case Alarmed => InterruptInv(run[n - 1], x);
    }
  }

  /** Whenever the interrupts come, main can only finish with ((a + b) - (c + d)) + e. */
  lemma FinishesRight(x: Input, acts: seq<Act>, run: seq<State>, n: nat)
    requires IsRun(x, acts, run) && n < |run| && run[n].pc == DONE
    ensures run[n].answer == Wrap((x.a as int + x.b as int) - (x.c as int + x.d as int) + x.e as int)
  {
    RunInv(x, acts, run, n);
    ResultIsWrapped(x);
  }

  lemma ResultIsWrapped(x: Input)
    ensures Result(x) == Wrap((x.a as int + x.b as int) - (x.c as int + x.d as int) + x.e as int)
  {
    var ab, cd := x.a as int + x.b as int, x.c as int + x.d as int;
    MinusOfWraps(Sum1(x), Sum2(x), ab, cd);
    PlusOfWraps(Difference(x), x.e, ab - cd, x.e as int);
  }

  /** Twice the steps of main to come, and the interrupts that are outstanding */
  function Remaining(s: State): int
    requires IsRing(s.ring)
  {
    2 * (DONE - s.pc) + Count(s.ring)
  }

  lemma MainProgress(s: State, x: Input)
    requires Inv(s, x) && MainStep(s, x) != s
    ensures IsRing(MainStep(s, x).ring) && Remaining(MainStep(s, x)) < Remaining(s)
  {
    SubmitAppends(s.ring, T1);
    SubmitAppends(s.ring, T2);
    SubmitAppends(s.ring, T3);
    SubmitAppends(s.ring, T4);
  }

  lemma InterruptProgress(s: State, x: Input)
    requires Inv(s, x) && InterruptStep(s) != s
    ensures IsRing(InterruptStep(s).ring) && Remaining(InterruptStep(s)) < Remaining(s)
  {
    InterruptTakesFirst(s.ring);
    assert Count(Interrupt(s.ring)) == |Outstanding(Interrupt(s.ring))|;
  }

  /** An act that changes anything brings the end nearer, ... */
  lemma EveryChangeIsProgress(x: Input, acts: seq<Act>, run: seq<State>, n: nat)
    requires IsRun(x, acts, run) && n < |acts| && run[n + 1] != run[n]
    ensures IsRing(run[n].ring) && IsRing(run[n + 1].ring) && 0 <= Remaining(run[n + 1]) < Remaining(run[n])
  {
    RunInv(x, acts, run, n);
    RunInv(x, acts, run, n + 1);
    assert run[n + 1] == Step(run[n], x, acts[n]);
    match acts[n]
    case Main => MainProgress(run[n], x);
    case Alarmed => InterruptProgress(run[n], x);
  }

  /** ... and before the end main or the interrupt can change something: what main waits for is
      outstanding. */
  lemma NeverStuck(x: Input, acts: seq<Act>, run: seq<State>, n: nat)
    requires IsRun(x, acts, run) && n < |run| && run[n].pc != DONE
    ensures IsRing(run[n].ring)
    ensures MainStep(run[n], x) != run[n] || InterruptStep(run[n]) != run[n]
  {
    RunInv(x, acts, run, n);
    InterruptTakesFirst(run[n].ring);
    if MainStep(run[n], x) == run[n] {
      assert Waiting(run[n]) != [];
    }
  }
}
