/** a5/A5-b.s: bar calls foo twice, with arguments and return addresses on a stack; foo adds
    its first argument to the array element that its second argument says. */
module CallConvention {
  import opened Sm213
  import opened Sm213Run

  /** The word that holds the address of the array. */
  const ARRAY_AT := 0x100

  predicate FooCode(mem: Memory) {
    && Short(mem, 0x200, 0x10, 0x50) && Short(mem, 0x202, 0x11, 0x51) && Long(mem, 0x204, 0x02, ARRAY_AT)
    && Short(mem, 0x20a, 0x10, 0x22) && Short(mem, 0x20c, 0x22, 0x13) && Short(mem, 0x20e, 0x61, 0x30)
    && Short(mem, 0x210, 0x40, 0x21) && Short(mem, 0x212, 0xc6, 0x00)
  }

  /** bar: its frame, its two calls and its return */
  predicate FrameCode(mem: Memory) {
    && Long(mem, 0x300, 0x00, -12) && Short(mem, 0x306, 0x61, 0x05) && Short(mem, 0x308, 0x36, 0x25)
    && Long(mem, 0x30a, 0x00, 1)   && Short(mem, 0x310, 0x30, 0x05)
    && Long(mem, 0x312, 0x00, 2)   && Short(mem, 0x318, 0x30, 0x15)
  }

  predicate FirstCode(mem: Memory) {
    && Long(mem, 0x31a, 0x00, -8)  && Short(mem, 0x320, 0x61, 0x05)
    && Long(mem, 0x322, 0x00, 3)   && Short(mem, 0x328, 0x30, 0x05)
    && Long(mem, 0x32a, 0x00, 4)   && Short(mem, 0x330, 0x30, 0x15)
    && Short(mem, 0x332, 0x6f, 0x36) && Long(mem, 0x334, 0xb0, 0x200)
  }

  predicate SecondCode(mem: Memory) {
    && Long(mem, 0x33a, 0x00, 8)     && Short(mem, 0x340, 0x61, 0x05)
    && Short(mem, 0x342, 0x10, 0x51) && Short(mem, 0x344, 0x11, 0x52)
    && Long(mem, 0x346, 0x00, -8)    && Short(mem, 0x34c, 0x61, 0x05)
    && Short(mem, 0x34e, 0x31, 0x05) && Short(mem, 0x350, 0x32, 0x15)
    && Short(mem, 0x352, 0x6f, 0x36) && Long(mem, 0x354, 0xb0, 0x200)
  }

  predicate LastCode(mem: Memory) {
    && Long(mem, 0x35a, 0x00, 8)   && Short(mem, 0x360, 0x61, 0x05) && Short(mem, 0x362, 0x12, 0x56)
    && Long(mem, 0x364, 0x00, 0xc) && Short(mem, 0x36a, 0x61, 0x05) && Short(mem, 0x36c, 0xc6, 0x00)
  }

  predicate Code(mem: Memory) {
    && InRange(mem, ARRAY_AT, 4)
    && FooCode(mem) && FrameCode(mem) && FirstCode(mem) && SecondCode(mem) && LastCode(mem)
  }

  /** The bytes from lo up to hi are neither code nor the word at ARRAY_AT. */
  predicate Clear(lo: int, hi: int) {
    && (hi <= 0x100 || 0x104 <= lo) && (hi <= 0x200 || 0x214 <= lo) && (hi <= 0x300 || 0x36e <= lo)
  }

  lemma FooStays(mem: Memory, a: int, w: Word)
    requires FooCode(mem) && InRange(mem, a, 4) && Clear(a, a + 4)
    ensures FooCode(Write(mem, a, w))
  {
    WriteAgrees(mem, a, w, 0x200, 0x214);
    CodeKept(mem, Write(mem, a, w), 0x200, 0x214);
  }

  // ---------------------------------------------------------------- foo

  /** The element that foo changes when it is called with stack pointer sp. */
  function Element(mem: Memory, sp: Word): Word
    requires InRange(mem, ARRAY_AT, 4) && InRange(mem, sp, 8)
  {
    Slot(Read(mem, ARRAY_AT), Read(mem, sp + 4))
  }

  lemma FooLoads(m0: Machine, m: Machine) returns (m': Machine)
    requires Reaches(m0, m) && FooCode(m.mem) && InRange(m.mem, ARRAY_AT, 4) && m.pc == 0x200
    requires InRange(m.mem, m.reg[5], 8) && InRange(m.mem, Element(m.mem, m.reg[5]), 4)
    ensures Reaches(m0, m') && m'.mem == m.mem && m'.pc == 0x210
    ensures m'.reg[5] == m.reg[5] && m'.reg[6] == m.reg[6]
    ensures m'.reg[2] == Read(m.mem, ARRAY_AT) && m'.reg[1] == Read(m.mem, m.reg[5] + 4)
    ensures m'.reg[0] == Plus(Read(m.mem, Element(m.mem, m.reg[5])), Read(m.mem, m.reg[5]))
  {
    m' := LoadBase(m0, m, 0, 5, 0);
    m' := LoadBase(m0, m', 1, 5, 1);
    m' := LoadImmediate(m0, m', ARRAY_AT, 2);
    m' := LoadBase(m0, m', 0, 2, 2);
    m' := LoadIndexed(m0, m', 2, 1, 3);
    m' := Add(m0, m', 3, 0);
  }

  /** foo: a[arg1] += arg0 */
  lemma FooAdds(m0: Machine, m: Machine) returns (m': Machine)
    requires Reaches(m0, m) && FooCode(m.mem) && m.pc == 0x200
    requires InRange(m.mem, ARRAY_AT, 4) && InRange(m.mem, m.reg[5], 8)
    requires var a := Element(m.mem, m.reg[5]); InRange(m.mem, a, 4) && Aligned(a) && Clear(a, a + 4)
    ensures var a := Element(m.mem, m.reg[5]);
            && Reaches(m0, m') && m'.pc == m.reg[6] && m'.reg[5] == m.reg[5] && m'.reg[6] == m.reg[6]
            && m'.mem == Write(m.mem, a, Plus(Read(m.mem, a), Read(m.mem, m.reg[5])))
  {
    m' := FooLoads(m0, m);
    FooStays(m.mem, Element(m.mem, m.reg[5]), m'.reg[0]);
    m' := StoreIndexed(m0, m', 0, 2, 1);
    m' := JumpTo(m0, m', 6);
  }

  // ---------------------------------------------------------------- bar

  /** The five stack words below sp and the ten array words at address arr are in memory, apart
      from each other and from the code. */
  predicate Layout(mem: Memory, sp: Word, arr: Word) {
    && 20 <= sp <= |mem| && Clear(sp - 20, sp)
    && InRange(mem, arr, 40) && Aligned(arr) && Clear(arr, arr + 40)
    && (sp <= arr || arr + 40 <= sp - 20)
  }

  /** Where bar and foo may write */
  predicate Touched(sp: Word, arr: Word, i: int) {
    sp - 20 <= i < sp || arr + 8 <= i < arr + 12 || arr + 16 <= i < arr + 20
  }

  ghost predicate OthersKept(mem: Memory, mem': Memory, sp: Word, arr: Word) {
    && |mem'| == |mem|
    && forall i {:trigger Touched(sp, arr, i)} | 0 <= i < |mem| && !Touched(sp, arr, i) :: mem'[i] == mem[i]
  }

  /** What holds all through bar, with v2 and v4 in elements 2 and 4. */
  ghost predicate Steady(mem0: Memory, sp: Word, arr: Word, mem: Memory, v2: Word, v4: Word) {
    Layout(mem, sp, arr) && OthersKept(mem0, mem, sp, arr) && Read(mem, arr + 8) == v2 && Read(mem, arr + 16) == v4
  }

  lemma CodeAgrees(mem0: Memory, mem: Memory, sp: Word, arr: Word, lo: int, hi: int)
    requires Layout(mem, sp, arr) && OthersKept(mem0, mem, sp, arr)
    requires (lo, hi) == (0x100, 0x104) || (lo, hi) == (0x200, 0x214) || (lo, hi) == (0x300, 0x36e)
    ensures Agree(mem0, mem, lo, hi)
  {
    forall i | lo <= i < hi && 0 <= i < |mem| ensures mem[i] == mem0[i] {
      assert !Touched(sp, arr, i);
    }
  }

  /** bar and foo write to none of their instructions. */
  lemma FirstStill(mem0: Memory, mem: Memory, sp: Word, arr: Word)
    requires FirstCode(mem0) && Layout(mem, sp, arr) && OthersKept(mem0, mem, sp, arr)
    ensures FirstCode(mem)
  {
    CodeAgrees(mem0, mem, sp, arr, 0x300, 0x36e);
    CodeKept(mem0, mem, 0x300, 0x36e);
  }

  lemma SecondStill(mem0: Memory, mem: Memory, sp: Word, arr: Word)
    requires SecondCode(mem0) && Layout(mem, sp, arr) && OthersKept(mem0, mem, sp, arr)
    ensures SecondCode(mem)
  {
    CodeAgrees(mem0, mem, sp, arr, 0x300, 0x36e);
    CodeKept(mem0, mem, 0x300, 0x36e);
  }

  lemma LastStill(mem0: Memory, mem: Memory, sp: Word, arr: Word)
    requires LastCode(mem0) && Layout(mem, sp, arr) && OthersKept(mem0, mem, sp, arr)
    ensures LastCode(mem)
  {
    CodeAgrees(mem0, mem, sp, arr, 0x300, 0x36e);
    CodeKept(mem0, mem, 0x300, 0x36e);
  }

  lemma FooStill(mem0: Memory, mem: Memory, sp: Word, arr: Word)
    requires FooCode(mem0) && InRange(mem0, ARRAY_AT, 4) && Layout(mem, sp, arr) && OthersKept(mem0, mem, sp, arr)
    ensures FooCode(mem) && Read(mem, ARRAY_AT) == Read(mem0, ARRAY_AT)
  {
    CodeAgrees(mem0, mem, sp, arr, 0x200, 0x214);
    CodeKept(mem0, mem, 0x200, 0x214);
    CodeAgrees(mem0, mem, sp, arr, 0x100, 0x104);
    CodeKept(mem0, mem, 0x100, 0x104);
  }

  lemma WriteKeepsOthers(mem: Memory, a: int, w: Word, sp: Word, arr: Word)
    requires InRange(mem, a, 4)
    requires sp - 20 <= a <= sp - 4 || a == arr + 8 || a == arr + 16
    ensures OthersKept(mem, Write(mem, a, w), sp, arr)
  {
    forall i | 0 <= i < |mem| && !Touched(sp, arr, i) ensures Write(mem, a, w)[i] == mem[i] {
      WrittenBytes(mem, a, ToBytes(w), i);
    }
  }

  lemma StackWrite(mem0: Memory, sp: Word, arr: Word, mem: Memory, v2: Word, v4: Word, a: int, w: Word)
    requires Steady(mem0, sp, arr, mem, v2, v4) && sp - 20 <= a <= sp - 4
    ensures Steady(mem0, sp, arr, Write(mem, a, w), v2, v4)
  {
    ReadApart(mem, a, w, arr + 8);
    ReadApart(mem, a, w, arr + 16);
    WriteKeepsOthers(mem, a, w, sp, arr);
  }

  lemma ArrayWrite(mem0: Memory, sp: Word, arr: Word, mem: Memory, v2: Word, v4: Word, k: nat, w: Word)
    requires Steady(mem0, sp, arr, mem, v2, v4) && (k == 2 || k == 4)
    ensures InRange(mem, arr + 4 * k, 4)
    ensures Steady(mem0, sp, arr, Write(mem, arr + 4 * k, w), if k == 2 then w else v2, if k == 4 then w else v4)
  {
    ReadBack(mem, arr + 4 * k, w);
    ReadApart(mem, arr + 4 * k, w, arr + 4 * (6 - k));
    WriteKeepsOthers(mem, arr + 4 * k, w, sp, arr);
  }

  /** The code of bar is the same in both memories. */
  ghost predicate SameBar(mem: Memory, mem': Memory) {
    && (forall a, b0, b1 | 0x300 <= a && a + 2 <= 0x36e && Short(mem, a, b0, b1) :: Short(mem', a, b0, b1))
    && (forall a, b0, w | 0x300 <= a && a + 6 <= 0x36e && Long(mem, a, b0, w) :: Long(mem', a, b0, w))
  }

  /** A store on the stack leaves the code of bar as it is. */
  lemma Push(m0: Machine, m: Machine, rs: nat, p: nat, a: Word) returns (m': Machine)
    requires Reaches(m0, m) && p < 16 && rs < 8 && Short(m.mem, m.pc, 0x30 + rs, 16 * p + 5)
    requires a == Reg(m, 5) + p * 4 && InRange(m.mem, a, 4) && Clear(a, a + 4)
    ensures Reaches(m0, m') && SameBar(m.mem, m'.mem)
    ensures m' == m.(pc := m.pc + 2, mem := Write(m.mem, a, m.reg[rs]))
  {
    m' := StoreBase(m0, m, rs, p, 5);
    WriteAgrees(m.mem, a, m.reg[rs], 0x300, 0x36e);
    CodeKept(m.mem, m'.mem, 0x300, 0x36e);
  }

  /** ld $w, r0; st r0, 4p(r5) */
  lemma PushConstant(m0: Machine, m: Machine, w: Word, p: nat, a: Word) returns (m': Machine)
    requires Reaches(m0, m) && p < 16 && m.pc < 0x1000
    requires Long(m.mem, m.pc, 0x00, w) && Short(m.mem, m.pc + 6, 0x30, 16 * p + 5)
    requires a == Reg(m, 5) + p * 4 && InRange(m.mem, a, 4) && Clear(a, a + 4)
    ensures Reaches(m0, m') && SameBar(m.mem, m'.mem)
    ensures m' == m.(pc := m.pc + 8, mem := Write(m.mem, a, w), reg := m.reg[0 := w])
  {
    m' := LoadImmediate(m0, m, w, 0);
    m' := Push(m0, m', 0, p, a);
  }

  /** ld $w, r0; add r0, r5 */
  lemma MoveStack(m0: Machine, m: Machine, w: Word) returns (m': Machine)
    requires Reaches(m0, m) && Long(m.mem, m.pc, 0x00, w) && m.pc < 0x1000 && Short(m.mem, m.pc + 6, 0x61, 0x05)
    ensures Reaches(m0, m') && m' == m.(pc := m.pc + 8, reg := m.reg[0 := w][5 := Plus(w, m.reg[5])])
  {
    m' := LoadImmediate(m0, m, w, 0);
    m' := Add(m0, m', 0, 5);
  }

  /** What bar keeps in its frame, from sp - 12 on: the numbers 1 and 2 and its return address */
  predicate Framed(mem: Memory, sp: Word, ra: Word) {
    && 20 <= sp <= |mem|
    && Read(mem, sp - 4) == ra && Read(mem, sp - 12) == 1 && Read(mem, sp - 8) == 2
  }

  function WithFrame(mem: Memory, sp: Word, ra: Word): Memory
    requires 20 <= sp <= |mem|
  {
    Write(Write(Write(mem, sp - 4, ra), sp - 12, 1), sp - 8, 2)
  }

  function WithArguments(mem: Memory, sp: Word, x: Word, y: Word): Memory
    requires 20 <= sp <= |mem|
  {
    Write(Write(mem, sp - 20, x), sp - 16, y)
  }

  lemma MakeFrame(m0: Machine, sp: Word) returns (m: Machine)
    requires FrameCode(m0.mem) && m0.pc == 0x300 && m0.reg[5] == sp
    requires 20 <= sp <= |m0.mem| && Clear(sp - 20, sp)
    ensures Reaches(m0, m) && m.pc == 0x31a && m.reg[5] == sp - 12 && m.mem == WithFrame(m0.mem, sp, m0.reg[6])
  {
    ReachesSelf(m0);
    m := MoveStack(m0, m0, -12);
    m := Push(m0, m, 6, 2, sp - 4);
    m := PushConstant(m0, m, 1, 0, sp - 12);
    m := PushConstant(m0, m, 2, 1, sp - 8);
  }

  lemma FrameHolds(mem: Memory, sp: Word, ra: Word)
    requires 20 <= sp <= |mem|
    ensures Framed(WithFrame(mem, sp, ra), sp, ra)
  {
    var mem1 := Write(mem, sp - 4, ra);
    var mem2 := Write(mem1, sp - 12, 1);
    ReadBack(mem, sp - 4, ra);
    ReadApart(mem1, sp - 12, 1, sp - 4);
    ReadBack(mem1, sp - 12, 1);
    ReadApart(mem2, sp - 8, 2, sp - 4);
    ReadApart(mem2, sp - 8, 2, sp - 12);
    ReadBack(mem2, sp - 8, 2);
  }

  lemma FrameStays(mem: Memory, sp: Word, ra: Word, a: int, w: Word)
    requires Framed(mem, sp, ra) && InRange(mem, a, 4) && (a + 4 <= sp - 12 || sp <= a)
    ensures Framed(Write(mem, a, w), sp, ra)
  {
    ReadApart(mem, a, w, sp - 4);
    ReadApart(mem, a, w, sp - 12);
    ReadApart(mem, a, w, sp - 8);
  }

  lemma TwoStackWrites(mem0: Memory, sp: Word, arr: Word, mem: Memory, v2: Word, v4: Word,
                       a: int, x: Word, b: int, y: Word)
    requires Steady(mem0, sp, arr, mem, v2, v4) && sp - 20 <= a <= sp - 4 && sp - 20 <= b <= sp - 4
    ensures Steady(mem0, sp, arr, Write(Write(mem, a, x), b, y), v2, v4)
  {
    StackWrite(mem0, sp, arr, mem, v2, v4, a, x);
    StackWrite(mem0, sp, arr, Write(mem, a, x), v2, v4, b, y);
  }

  lemma SteadyFrame(mem0: Memory, sp: Word, arr: Word, mem: Memory, v2: Word, v4: Word, ra: Word)
    requires Steady(mem0, sp, arr, mem0, v2, v4) && mem == WithFrame(mem0, sp, ra)
    ensures Steady(mem0, sp, arr, mem, v2, v4)
  {
    var mem1 := Write(mem0, sp - 4, ra);
    var mem2 := Write(mem1, sp - 12, 1);
    assert mem == Write(mem2, sp - 8, 2);
    StackWrite(mem0, sp, arr, mem0, v2, v4, sp - 4, ra);
    StackWrite(mem0, sp, arr, mem1, v2, v4, sp - 12, 1);
    StackWrite(mem0, sp, arr, mem2, v2, v4, sp - 8, 2);
  }

  lemma SteadyArguments(mem0: Memory, sp: Word, arr: Word, mem: Memory, v2: Word, v4: Word, x: Word, y: Word)
    requires Steady(mem0, sp, arr, mem, v2, v4)
    ensures Steady(mem0, sp, arr, WithArguments(mem, sp, x, y), v2, v4)
  {
    TwoStackWrites(mem0, sp, arr, mem, v2, v4, sp - 20, x, sp - 16, y);
  }

  /** bar has its frame, and its arguments for foo are x and y. */
  ghost predicate Calling(m0: Machine, m: Machine, sp: Word, arr: Word, v2: Word, v4: Word, x: Word, y: Word) {
    && Reaches(m0, m) && Steady(m0.mem, sp, arr, m.mem, v2, v4) && Framed(m.mem, sp, m0.reg[6])
    && m.pc == 0x200 && m.reg[5] == sp - 20 && Read(m.mem, sp - 20) == x && Read(m.mem, sp - 16) == y
  }

  lemma ArgumentsHold(mem: Memory, sp: Word, ra: Word, x: Word, y: Word)
    requires Framed(mem, sp, ra)
    ensures var mem' := WithArguments(mem, sp, x, y);
            Framed(mem', sp, ra) && Read(mem', sp - 20) == x && Read(mem', sp - 16) == y
  {
    FrameStays(mem, sp, ra, sp - 20, x);
    FrameStays(Write(mem, sp - 20, x), sp, ra, sp - 16, y);
    ReadBack(mem, sp - 20, x);
    ReadApart(Write(mem, sp - 20, x), sp - 16, y, sp - 20);
    ReadBack(Write(mem, sp - 20, x), sp - 16, y);
  }

  /** gpc $6, r6; j foo */
  lemma CallFoo(m0: Machine, m: Machine) returns (m': Machine)
    requires Reaches(m0, m) && m.pc < 0x1000 && Short(m.mem, m.pc, 0x6f, 0x36) && Long(m.mem, m.pc + 2, 0xb0, 0x200)
    ensures Reaches(m0, m') && m' == m.(pc := 0x200, reg := m.reg[6 := m.pc + 8])
  {
    m' := GetPc(m0, m, 3, 6);
    m' := Jump(m0, m', 0x200);
  }

  lemma PushFirst(m0: Machine, m: Machine, sp: Word) returns (m': Machine)
    requires Reaches(m0, m) && FirstCode(m.mem) && m.pc == 0x31a && m.reg[5] == sp - 12
    requires 20 <= sp <= |m.mem| && Clear(sp - 20, sp)
    ensures Reaches(m0, m') && SameBar(m.mem, m'.mem)
    ensures m'.pc == 0x332 && m'.reg[5] == sp - 20 && m'.mem == WithArguments(m.mem, sp, 3, 4)
  {
    m' := MoveStack(m0, m, -8);
    m' := PushConstant(m0, m', 3, 0, sp - 20);
    m' := PushConstant(m0, m', 4, 1, sp - 16);
  }

  /** From the frame to the first call, foo (3, 4) */
  lemma FirstCall(m0: Machine, m: Machine, sp: Word, arr: Word, v2: Word, v4: Word) returns (m': Machine)
    requires Reaches(m0, m) && Steady(m0.mem, sp, arr, m.mem, v2, v4) && Framed(m.mem, sp, m0.reg[6])
    requires FirstCode(m.mem) && m.pc == 0x31a && m.reg[5] == sp - 12
    ensures Calling(m0, m', sp, arr, v2, v4, 3, 4) && m'.reg[6] == 0x33a
  {
    m' := PushFirst(m0, m, sp);
    m' := CallFoo(m0, m');
    ArgumentsHold(m.mem, sp, m0.reg[6], 3, 4);
    SteadyArguments(m0.mem, sp, arr, m.mem, v2, v4, 3, 4);
  }

  lemma ReloadArguments(m0: Machine, m: Machine, sp: Word) returns (m': Machine)
    requires Reaches(m0, m) && SecondCode(m.mem) && m.pc == 0x33a && m.reg[5] == sp - 20
    requires 20 <= sp <= |m.mem| && Read(m.mem, sp - 12) == 1 && Read(m.mem, sp - 8) == 2
    ensures Reaches(m0, m') && m'.mem == m.mem
    ensures m'.pc == 0x34e && m'.reg[5] == sp - 20 && m'.reg[1] == 1 && m'.reg[2] == 2
  {
    m' := MoveStack(m0, m, 8);
    m' := LoadBase(m0, m', 0, 5, 1);
    m' := LoadBase(m0, m', 1, 5, 2);
    m' := MoveStack(m0, m', -8);
  }

  lemma PushSecond(m0: Machine, m: Machine, sp: Word) returns (m': Machine)
    requires Reaches(m0, m) && SecondCode(m.mem) && m.pc == 0x34e && m.reg[5] == sp - 20
    requires 20 <= sp <= |m.mem| && Clear(sp - 20, sp) && m.reg[1] == 1 && m.reg[2] == 2
    ensures Reaches(m0, m') && SameBar(m.mem, m'.mem)
    ensures m'.pc == 0x352 && m'.reg[5] == sp - 20 && m'.mem == WithArguments(m.mem, sp, 1, 2)
  {
    m' := Push(m0, m, 1, 0, sp - 20);
    m' := Push(m0, m', 2, 1, sp - 16);
  }

  /** From the return of the first call to the second one, foo (1, 2) */
  lemma SecondCall(m0: Machine, m: Machine, sp: Word, arr: Word, v2: Word, v4: Word) returns (m': Machine)
    requires Reaches(m0, m) && Steady(m0.mem, sp, arr, m.mem, v2, v4) && Framed(m.mem, sp, m0.reg[6])
    requires SecondCode(m.mem) && m.pc == 0x33a && m.reg[5] == sp - 20
    ensures Calling(m0, m', sp, arr, v2, v4, 1, 2) && m'.reg[6] == 0x35a
  {
    m' := ReloadArguments(m0, m, sp);
    m' := PushSecond(m0, m', sp);
    m' := CallFoo(m0, m');
    ArgumentsHold(m.mem, sp, m0.reg[6], 1, 2);
    SteadyArguments(m0.mem, sp, arr, m.mem, v2, v4, 1, 2);
  }

  lemma ElementAt(mem: Memory, sp: Word, arr: Word, k: Word)
    requires Layout(mem, sp, arr) && (k == 2 || k == 4) && InRange(mem, ARRAY_AT, 4)
    requires Read(mem, ARRAY_AT) == arr && Read(mem, sp - 16) == k
    ensures Element(mem, sp - 20) == arr + 4 * k && Aligned(arr + 4 * k)
  {
  }

  /** foo (x, 4) and foo (x, 2), called by bar, add x to an element. */
  lemma FooInBar(m0: Machine, m: Machine, sp: Word, arr: Word, v2: Word, v4: Word, x: Word, k: Word)
    returns (m': Machine)
    requires Calling(m0, m, sp, arr, v2, v4, x, k) && (k == 2 || k == 4)
    requires FooCode(m.mem) && InRange(m.mem, ARRAY_AT, 4) && Read(m.mem, ARRAY_AT) == arr
    ensures Reaches(m0, m') && m'.pc == m.reg[6] && m'.reg[5] == sp - 20
    ensures m'.mem == Write(m.mem, arr + 4 * k, Plus(if k == 2 then v2 else v4, x))
  {
    ElementAt(m.mem, sp, arr, k);
    m' := FooAdds(m0, m);
  }

  /** What the two calls leave behind */
  lemma AfterFoo(m0: Machine, m: Machine, sp: Word, arr: Word, v2: Word, v4: Word, x: Word, k: Word)
    requires Calling(m0, m, sp, arr, v2, v4, x, k) && (k == 2 || k == 4)
    ensures InRange(m.mem, arr + 4 * k, 4)
    ensures var mem' := Write(m.mem, arr + 4 * k, Plus(if k == 2 then v2 else v4, x));
            && Framed(mem', sp, m0.reg[6])
            && Steady(m0.mem, sp, arr, mem', if k == 2 then Plus(v2, x) else v2, if k == 4 then Plus(v4, x) else v4)
  {
    var v := Plus(if k == 2 then v2 else v4, x);
    ArrayWrite(m0.mem, sp, arr, m.mem, v2, v4, k, v);
    FrameStays(m.mem, sp, m0.reg[6], arr + 4 * k, v);
  }

  lemma LeaveBar(m0: Machine, m: Machine, sp: Word, arr: Word) returns (m': Machine)
    requires Reaches(m0, m) && Framed(m.mem, sp, m0.reg[6])
    requires LastCode(m.mem) && m.pc == 0x35a && m.reg[5] == sp - 20
    ensures Reaches(m0, m') && m'.pc == m0.reg[6] && m'.reg[5] == sp && m'.mem == m.mem
  {
    m' := MoveStack(m0, m, 8);
    m' := LoadBase(m0, m', 2, 5, 6);
    m' := MoveStack(m0, m', 12);
    m' := JumpTo(m0, m', 6);
  }

  /** bar up to the return of its first call */
  lemma FirstHalf(m0: Machine, sp: Word, arr: Word, v2: Word, v4: Word) returns (m: Machine)
    requires Code(m0.mem) && Read(m0.mem, ARRAY_AT) == arr && m0.pc == 0x300 && m0.reg[5] == sp
    requires Steady(m0.mem, sp, arr, m0.mem, v2, v4)
    ensures Reaches(m0, m) && m.pc == 0x33a && m.reg[5] == sp - 20 && Framed(m.mem, sp, m0.reg[6])
    ensures Steady(m0.mem, sp, arr, m.mem, v2, Plus(v4, 3))
  {
    m := MakeFrame(m0, sp);
    SteadyFrame(m0.mem, sp, arr, m.mem, v2, v4, m0.reg[6]);
    FrameHolds(m0.mem, sp, m0.reg[6]);
    FirstStill(m0.mem, m.mem, sp, arr);
    m := FirstCall(m0, m, sp, arr, v2, v4);
    FooStill(m0.mem, m.mem, sp, arr);
    AfterFoo(m0, m, sp, arr, v2, v4, 3, 4);
    m := FooInBar(m0, m, sp, arr, v2, v4, 3, 4);
  }

  /** bar from there to the return of its second call */
  lemma SecondHalf(m0: Machine, m: Machine, sp: Word, arr: Word, v2: Word, v4: Word) returns (m': Machine)
    requires Code(m0.mem) && Read(m0.mem, ARRAY_AT) == arr
    requires Reaches(m0, m) && m.pc == 0x33a && m.reg[5] == sp - 20 && Framed(m.mem, sp, m0.reg[6])
    requires Steady(m0.mem, sp, arr, m.mem, v2, v4)
    ensures Reaches(m0, m') && m'.pc == 0x35a && m'.reg[5] == sp - 20 && Framed(m'.mem, sp, m0.reg[6])
    ensures Steady(m0.mem, sp, arr, m'.mem, Plus(v2, 1), v4)
  {
    SecondStill(m0.mem, m.mem, sp, arr);
    m' := SecondCall(m0, m, sp, arr, v2, v4);
    FooStill(m0.mem, m'.mem, sp, arr);
    AfterFoo(m0, m', sp, arr, v2, v4, 1, 2);
    m' := FooInBar(m0, m', sp, arr, v2, v4, 1, 2);
  }

  /** From any stack pointer and with any array, bar returns to its caller with the stack
      pointer restored, element 4 increased by 3 and element 2 by 1, and with nothing else
      changed but the five words below the stack pointer. */
  lemma BarReturns(m0: Machine, sp: Word, arr: Word) returns (m: Machine)
    requires Code(m0.mem) && m0.pc == 0x300 && m0.reg[5] == sp && Read(m0.mem, ARRAY_AT) == arr
    requires Layout(m0.mem, sp, arr)
    ensures Reaches(m0, m) && m.pc == m0.reg[6] && m.reg[5] == sp && |m.mem| == |m0.mem|
    ensures Read(m.mem, arr + 16) == Plus(Read(m0.mem, arr + 16), 3)
    ensures Read(m.mem, arr + 8) == Plus(Read(m0.mem, arr + 8), 1)
    ensures OthersKept(m0.mem, m.mem, sp, arr)
  {
    var v2, v4 := Read(m0.mem, arr + 8), Read(m0.mem, arr + 16);
    m := FirstHalf(m0, sp, arr, v2, v4);
    m := SecondHalf(m0, m, sp, arr, v2, Plus(v4, 3));
    LastStill(m0.mem, m.mem, sp, arr);
    m := LeaveBar(m0, m, sp, arr);
  }
}
