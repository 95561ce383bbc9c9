/** a6/A5-c.s against a6/A5-c.c: a function with a range check, a jump table and five cases. */
module SwitchCall {
  import opened Sm213
  import opened Sm213Run

  /** foo of a6/A5-c.c, with words that wrap around. */
  function Foo(arg0: Word, arg1: Word, arg2: Word): Word {
    match arg0
    case 10 => Plus(arg1, arg2)
    case 12 => Minus(arg1, arg2)
    case 14 => if Minus(arg1, arg2) > 0 then 1 else 0
    case 16 => if Minus(arg2, arg1) > 0 then 1 else 0
    case 18 => if Minus(arg1, arg2) == 0 then 1 else 0
    case _ => 0
  }

  predicate CheckCode(mem: Memory) {
    && Short(mem, 0x300, 0x10, 0x50) && Short(mem, 0x302, 0x11, 0x51) && Short(mem, 0x304, 0x12, 0x52)
    && Long(mem, 0x306, 0x03, -10)   && Short(mem, 0x30c, 0x61, 0x30)
    && Short(mem, 0x30e, 0x60, 0x03) && Short(mem, 0x310, 0x67, 0x03) && Short(mem, 0x312, 0x63, 0x03)
    && Short(mem, 0x314, 0xa3, 0x37) && Short(mem, 0x316, 0x60, 0x03)
    && Long(mem, 0x318, 0x04, -8)    && Short(mem, 0x31e, 0x61, 0x43) && Short(mem, 0x320, 0xa3, 0x31)
    && Long(mem, 0x322, 0x03, 0x400) && Short(mem, 0x328, 0xe3, 0x00)
  }

  predicate SumCode(mem: Memory) {
    && Short(mem, 0x330, 0x61, 0x12) && Short(mem, 0x332, 0x80, 0x2c)
    && Short(mem, 0x334, 0x67, 0x02) && Short(mem, 0x336, 0x63, 0x02) && Short(mem, 0x338, 0x61, 0x12)
    && Short(mem, 0x33a, 0x80, 0x28)
  }

  /** The three cases that compare have this shape, from address a; d is the register that
      gets the difference and b the branch on it. */
  predicate CompareCode(mem: Memory, a: int, s: int, d: int, b: int, done: int) {
    && Short(mem, a, 0x67, d) && Short(mem, a + 2, 0x63, d) && Short(mem, a + 4, 0x61, 16 * s + d)
    && Short(mem, a + 6, b + d, 0x04)
    && Long(mem, a + 8, 0x02, 0) && Short(mem, a + 14, 0x80, 0x03)
    && Long(mem, a + 16, 0x02, 1) && Short(mem, a + 22, 0x80, done)
  }

  predicate EndCode(mem: Memory) {
    && Long(mem, 0x384, 0x02, 0) && Short(mem, 0x38a, 0x80, 0x00)
    && Short(mem, 0x38c, 0x60, 0x20) && Short(mem, 0x38e, 0xc6, 0x00)
  }

  predicate Table(mem: Memory) {
    && InRange(mem, 0x400, 36)
    && Read(mem, 0x400) == 0x330 && Read(mem, 0x404) == 0x384 && Read(mem, 0x408) == 0x334
    && Read(mem, 0x40c) == 0x384 && Read(mem, 0x410) == 0x33c && Read(mem, 0x414) == 0x384
    && Read(mem, 0x418) == 0x354 && Read(mem, 0x41c) == 0x384 && Read(mem, 0x420) == 0x36c
  }

  predicate Code(mem: Memory) {
    && CheckCode(mem) && SumCode(mem) && EndCode(mem) && Table(mem)
    && CompareCode(mem, 0x33c, 1, 2, 0xa0, 0x1c)
    && CompareCode(mem, 0x354, 2, 1, 0xa0, 0x10)
    && CompareCode(mem, 0x36c, 1, 2, 0x90, 0x04)
  }

  /** m is in foo, which was called in m0: memory and the registers of the caller are as they
      were. */
  ghost predicate Inside(m0: Machine, m: Machine) {
    Reaches(m0, m) && m.mem == m0.mem && m.reg[5] == m0.reg[5] && m.reg[6] == m0.reg[6]
  }

  /** The two tests let exactly the numbers from 10 to 18 pass, wherever the differences wrap. */
  lemma RangeTest(x: Word)
    ensures Plus(-(Plus(-10, x) as int) - 1, 1) > 0 || Plus(-8, Plus(-10, x)) > 0 <==> !(10 <= x <= 18)
    ensures 10 <= x <= 18 ==> Plus(-10, x) == x - 10
  {
    var d := Plus(-10, x);
    WrapOnce(x as int - 10);
    WrapOnce(-(d as int));
    WrapOnce(d as int - 8);
  }

  /** The arguments are loaded, and 10 is taken off the first one. */
  lemma LoadArguments(m0: Machine) returns (m: Machine)
    requires CheckCode(m0.mem) && m0.pc == 0x300 && InRange(m0.mem, m0.reg[5], 12)
    ensures Inside(m0, m) && m.pc == 0x30e
    ensures m.reg[0] == Plus(-10, Read(m0.mem, m0.reg[5]))
    ensures m.reg[1] == Read(m0.mem, m0.reg[5] + 4) && m.reg[2] == Read(m0.mem, m0.reg[5] + 8)
  {
    ReachesSelf(m0);
    m := LoadBase(m0, m0, 0, 5, 0);
    m := LoadBase(m0, m, 1, 5, 1);
    m := LoadBase(m0, m, 2, 5, 2);
    m := LoadImmediate(m0, m, -10, 3);
    m := Add(m0, m, 3, 0);
  }

  lemma LowerBound(m0: Machine, m: Machine) returns (m': Machine)
    requires Inside(m0, m) && CheckCode(m.mem) && m.pc == 0x30e
    ensures Inside(m0, m') && m'.reg[0] == m.reg[0] && m'.reg[1] == m.reg[1] && m'.reg[2] == m.reg[2]
    ensures m'.pc == if Plus(-(m.reg[0] as int) - 1, 1) > 0 then 0x384 else 0x316
  {
    m' := Move(m0, m, 0, 3);
    m' := Not(m0, m', 3);
    m' := Increment(m0, m', 3);
    m' := BranchIfPositive(m0, m', 3, 0x37);
  }

  lemma UpperBound(m0: Machine, m: Machine) returns (m': Machine)
    requires Inside(m0, m) && CheckCode(m.mem) && m.pc == 0x316
    ensures Inside(m0, m') && m'.reg[0] == m.reg[0] && m'.reg[1] == m.reg[1] && m'.reg[2] == m.reg[2]
    ensures m'.pc == if Plus(-8, m.reg[0]) > 0 then 0x384 else 0x322
  {
    m' := Move(m0, m, 0, 3);
    m' := LoadImmediate(m0, m', -8, 4);
    m' := Add(m0, m', 4, 3);
    m' := BranchIfPositive(m0, m', 3, 0x31);
  }

  /** The arguments are loaded and the range of the first one is tested. */
  lemma Check(m0: Machine) returns (m: Machine)
    requires CheckCode(m0.mem) && m0.pc == 0x300 && InRange(m0.mem, m0.reg[5], 12)
    ensures Inside(m0, m)
    ensures m.reg[1] == Read(m0.mem, m0.reg[5] + 4) && m.reg[2] == Read(m0.mem, m0.reg[5] + 8)
    ensures var x := Read(m0.mem, m0.reg[5]);
            if 10 <= x <= 18 then m.pc == 0x322 && m.reg[0] == x - 10 else m.pc == 0x384
  {
    m := LoadArguments(m0);
    RangeTest(Read(m0.mem, m0.reg[5]));
    m := LowerBound(m0, m);
    if m.pc == 0x316 {
      m := UpperBound(m0, m);
    }
  }

  /** The entry of the jump table for an index, and of the default case for any other number */
  function Entry(k: int): Word {
    if k == 0 then 0x330 else if k == 2 then 0x334 else if k == 4 then 0x33c
    else if k == 6 then 0x354 else if k == 8 then 0x36c else 0x384
  }

  lemma TableEntry(mem: Memory, k: nat)
    requires Table(mem) && k <= 8
    ensures var a := Slot(0x400, k);
            InRange(mem, a, 4) && Aligned(a) && Read(mem, a) == Entry(k)
  {
  }

  /** The jump through the table, for an index k from 0 to 8 */
  lemma Dispatch(m0: Machine, m: Machine, k: nat) returns (m': Machine)
    requires Inside(m0, m) && Code(m.mem) && m.pc == 0x322 && m.reg[0] == k && k <= 8
    ensures Inside(m0, m') && m'.reg[1] == m.reg[1] && m'.reg[2] == m.reg[2]
    ensures m'.pc == Entry(k)
  {
    TableEntry(m.mem, k);
    m' := LoadImmediate(m0, m, 0x400, 3);
    m' := JumpTable(m0, m', 3, 0);
  }

  /** Every case ends at L7 with its result in r2. */
  ghost predicate Answered(m0: Machine, m: Machine, r: Word) {
    Inside(m0, m) && m.pc == 0x38c && m.reg[2] == r
  }

  lemma SumCase(m0: Machine, m: Machine) returns (m': Machine)
    requires Inside(m0, m) && Code(m.mem) && m.pc == 0x330
    ensures Answered(m0, m', Plus(m.reg[1], m.reg[2]))
  {
    m' := Add(m0, m, 1, 2);
    m' := Branch(m0, m', 0x2c);
  }

  lemma DifferenceCase(m0: Machine, m: Machine) returns (m': Machine)
    requires Inside(m0, m) && Code(m.mem) && m.pc == 0x334
    ensures Answered(m0, m', Minus(m.reg[1], m.reg[2]))
  {
    m' := Subtract(m0, m, 1, 2);
    m' := Branch(m0, m', 0x28);
  }

  /** 0 or 1, as the branch of a comparing case has decided */
  lemma Constant(m0: Machine, m: Machine, a: int, s: int, d: int, b: int, done: int) returns (m': Machine)
    requires Inside(m0, m) && CompareCode(m.mem, a, s, d, b, done) && 0x300 <= a <= 0x36c
    requires m.pc == a + 8 || m.pc == a + 16
    ensures Inside(m0, m') && m'.pc == a + 22 && m'.reg[2] == if m.pc == a + 16 then 1 else 0
  {
    if m.pc == a + 16 {
      m' := LoadImmediate(m0, m, 1, 2);
    } else {
      m' := LoadImmediate(m0, m, 0, 2);
      m' := Branch(m0, m', 3);
    }
  }

  lemma Leave(m0: Machine, m: Machine, d: int) returns (m': Machine)
    requires Inside(m0, m) && Short(m.mem, m.pc, 0x80, d) && 0 <= d < 128 && m.pc as int + 2 + 2 * d == 0x38c
    ensures Answered(m0, m', m.reg[2])
  {
    m' := Branch(m0, m, d);
  }

  /** The end of a comparing case, with the outcome of its branch */
  lemma ZeroOrOne(m0: Machine, m: Machine, a: int, s: int, d: int, b: int, done: int) returns (m': Machine)
    requires Inside(m0, m) && CompareCode(m.mem, a, s, d, b, done) && 0x300 <= a <= 0x36c
    requires 0 <= done < 0x20 && a + 24 + 2 * done == 0x38c
    requires m.pc == a + 8 || m.pc == a + 16
    ensures Answered(m0, m', if m.pc == a + 16 then 1 else 0)
  {
    m' := Constant(m0, m, a, s, d, b, done);
    m' := Leave(m0, m', done);
  }

  lemma GreaterCase(m0: Machine, m: Machine) returns (m': Machine)
    requires Inside(m0, m) && Code(m.mem) && m.pc == 0x33c
    ensures Answered(m0, m', if Minus(m.reg[1], m.reg[2]) > 0 then 1 else 0)
  {
    m' := Subtract(m0, m, 1, 2);
    m' := BranchIfPositive(m0, m', 2, 4);
    m' := ZeroOrOne(m0, m', 0x33c, 1, 2, 0xa0, 0x1c);
  }

  lemma LessCase(m0: Machine, m: Machine) returns (m': Machine)
    requires Inside(m0, m) && Code(m.mem) && m.pc == 0x354
    ensures Answered(m0, m', if Minus(m.reg[2], m.reg[1]) > 0 then 1 else 0)
  {
    m' := Subtract(m0, m, 2, 1);
    m' := BranchIfPositive(m0, m', 1, 4);
    m' := ZeroOrOne(m0, m', 0x354, 2, 1, 0xa0, 0x10);
  }

  lemma EqualCase(m0: Machine, m: Machine) returns (m': Machine)
    requires Inside(m0, m) && Code(m.mem) && m.pc == 0x36c
    ensures Answered(m0, m', if Minus(m.reg[1], m.reg[2]) == 0 then 1 else 0)
  {
    m' := Subtract(m0, m, 1, 2);
    m' := BranchIfZero(m0, m', 2, 4);
    m' := ZeroOrOne(m0, m', 0x36c, 1, 2, 0x90, 0x04);
  }

  lemma DefaultCase(m0: Machine, m: Machine) returns (m': Machine)
    requires Inside(m0, m) && Code(m.mem) && m.pc == 0x384
    ensures Answered(m0, m', 0)
  {
    m' := LoadImmediate(m0, m, 0, 2);
    m' := Branch(m0, m', 0);
  }

  /** From the entry of the selected case to L7 */
  lemma Case(m0: Machine, m: Machine, x: Word) returns (m': Machine)
    requires Inside(m0, m) && Code(m.mem)
    requires m.pc == Entry(x as int - 10)
    ensures Answered(m0, m', Foo(x, m.reg[1], m.reg[2]))
  {
    if x == 10 {
      m' := SumCase(m0, m);
    } else if x == 12 {
      m' := DifferenceCase(m0, m);
    } else if x == 14 {
      m' := GreaterCase(m0, m);
    } else if x == 16 {
      m' := LessCase(m0, m);
    } else if x == 18 {
      m' := EqualCase(m0, m);
    } else {
      m' := DefaultCase(m0, m);
    }
  }

  /** The assembly is the C function: for all words as arguments on the stack it returns to the
      address in r6 with the result in r0, the stack pointer, the return address and memory
      unchanged. */
  lemma AssemblyEqualsC(m0: Machine) returns (m: Machine)
    requires Code(m0.mem) && m0.pc == 0x300 && InRange(m0.mem, m0.reg[5], 12)
    ensures Reaches(m0, m) && m.pc == m0.reg[6]
    ensures m.reg[0] == Foo(Read(m0.mem, m0.reg[5]), Read(m0.mem, m0.reg[5] + 4), Read(m0.mem, m0.reg[5] + 8))
    ensures m.reg[5] == m0.reg[5] && m.reg[6] == m0.reg[6] && m.mem == m0.mem
  {
    var x := Read(m0.mem, m0.reg[5]);
    m := Check(m0);
    if 10 <= x <= 18 {
      m := Dispatch(m0, m, x - 10);
    }
    m := Case(m0, m, x);
    m := Move(m0, m, 2, 0);
    m := JumpTo(m0, m, 6);
  }
}
