/** a6/SA-dynamic-call.s: bar calls foo for two objects, and foo calls two methods of each through
    the words of the object, whichever methods these are. */
module DynamicCall {
  import opened Sm213
  import opened Sm213Run

  const A_AT := 0x500
  const B_AT := 0x504

  predicate StartCode(mem: Memory) {
    && Long(mem, 0x100, 0x05, 0x2028) && Short(mem, 0x106, 0x6f, 0x36) && Long(mem, 0x108, 0xb0, 0x200)
    && Short(mem, 0x10e, 0xf0, 0x00)
  }

  /** bar up to its first call, from there to the second, and to its return */
  predicate FirstCode(mem: Memory) {
    && Short(mem, 0x200, 0x66, 0x05) && Short(mem, 0x202, 0x36, 0x05) && Short(mem, 0x204, 0x66, 0x05)
    && Long(mem, 0x206, 0x00, A_AT) && Short(mem, 0x20c, 0x10, 0x00) && Short(mem, 0x20e, 0x30, 0x05)
    && Short(mem, 0x210, 0x6f, 0x36) && Long(mem, 0x212, 0xb0, 0x300)
  }

  predicate SecondCode(mem: Memory) {
    && Short(mem, 0x218, 0x64, 0x05) && Long(mem, 0x21a, 0x00, B_AT) && Short(mem, 0x220, 0x10, 0x00)
    && Short(mem, 0x222, 0x66, 0x05) && Short(mem, 0x224, 0x30, 0x05)
    && Short(mem, 0x226, 0x6f, 0x36) && Long(mem, 0x228, 0xb0, 0x300)
  }

  predicate LastCode(mem: Memory) {
    && Short(mem, 0x22e, 0x64, 0x05) && Short(mem, 0x230, 0x10, 0x56) && Short(mem, 0x232, 0x64, 0x05)
    && Short(mem, 0x234, 0xc6, 0x00)
  }

  predicate FooCode(mem: Memory) {
    && Short(mem, 0x300, 0x66, 0x05) && Short(mem, 0x302, 0x36, 0x05) && Short(mem, 0x304, 0x11, 0x50)
    && Short(mem, 0x306, 0x6f, 0x16) && Short(mem, 0x308, 0xd0, 0x00)
    && Short(mem, 0x30a, 0x6f, 0x16) && Short(mem, 0x30c, 0xd0, 0x01)
    && Short(mem, 0x30e, 0x10, 0x56) && Short(mem, 0x310, 0x64, 0x05) && Short(mem, 0x312, 0xc6, 0x00)
  }

  predicate Code(mem: Memory) {
    StartCode(mem) && FirstCode(mem) && SecondCode(mem) && LastCode(mem) && FooCode(mem) && InRange(mem, A_AT, 8)
  }

  // ---------------------------------------------------------------- what stays

  /** The three words below sp are in memory and apart from the code and the variables. */
  predicate Stack(mem: Memory, sp: Word) {
    12 <= sp <= |mem| && Clear(sp, 0x100, 0x110) && Clear(sp, 0x200, 0x236) && Clear(sp, 0x300, 0x314)
    && Clear(sp, A_AT, A_AT + 8)
  }

  /** The bytes from lo up to hi are not on the stack. */
  predicate Clear(sp: Word, lo: int, hi: int) {
    hi <= sp - 12 || sp <= lo
  }

  predicate OnStack(sp: Word, i: int) {
    sp - 12 <= i < sp
  }

  ghost predicate OthersKept(mem: Memory, mem': Memory, sp: Word) {
    && |mem'| == |mem|
    && forall i {:trigger OnStack(sp, i)} | 0 <= i < |mem| && !OnStack(sp, i) :: mem'[i] == mem[i]
  }

  lemma KeptAgrees(mem0: Memory, mem: Memory, sp: Word, lo: int, hi: int)
    requires OthersKept(mem0, mem, sp) && Clear(sp, lo, hi)
    ensures Agree(mem0, mem, lo, hi)
  {
    forall i | lo <= i < hi && 0 <= i < |mem| ensures mem[i] == mem0[i] {
      assert !OnStack(sp, i);
    }
  }

  lemma KeptReads(mem0: Memory, mem: Memory, sp: Word, a: int)
    requires OthersKept(mem0, mem, sp) && Clear(sp, a, a + 4) && InRange(mem0, a, 4)
    ensures Read(mem, a) == Read(mem0, a)
  {
    KeptAgrees(mem0, mem, sp, a, a + 4);
  }

  lemma PushKeeps(mem0: Memory, mem: Memory, sp: Word, a: int, w: Word)
    requires OthersKept(mem0, mem, sp) && InRange(mem, a, 4) && sp - 12 <= a <= sp - 4
    ensures OthersKept(mem0, Write(mem, a, w), sp)
  {
    forall i | 0 <= i < |mem| && !OnStack(sp, i) ensures Write(mem, a, w)[i] == mem0[i] {
      WrittenBytes(mem, a, ToBytes(w), i);
    }
  }

  lemma FooStays(mem0: Memory, mem: Memory, sp: Word)
    requires OthersKept(mem0, mem, sp) && Stack(mem0, sp) && FooCode(mem0)
    ensures FooCode(mem)
  {
    KeptAgrees(mem0, mem, sp, 0x300, 0x314);
    CodeKept(mem0, mem, 0x300, 0x314);
  }

  lemma FirstStays(mem0: Memory, mem: Memory, sp: Word)
    requires OthersKept(mem0, mem, sp) && Stack(mem0, sp) && FirstCode(mem0)
    ensures FirstCode(mem)
  {
    KeptAgrees(mem0, mem, sp, 0x200, 0x236);
    CodeKept(mem0, mem, 0x200, 0x236);
  }

  lemma SecondStays(mem0: Memory, mem: Memory, sp: Word)
    requires OthersKept(mem0, mem, sp) && Stack(mem0, sp) && SecondCode(mem0)
    ensures SecondCode(mem)
  {
    KeptAgrees(mem0, mem, sp, 0x200, 0x236);
    CodeKept(mem0, mem, 0x200, 0x236);
  }

  lemma LastStays(mem0: Memory, mem: Memory, sp: Word)
    requires OthersKept(mem0, mem, sp) && Stack(mem0, sp) && LastCode(mem0)
    ensures LastCode(mem)
  {
    KeptAgrees(mem0, mem, sp, 0x200, 0x236);
    CodeKept(mem0, mem, 0x200, 0x236);
  }

  // ---------------------------------------------------------------- objects

  /** A method that returns at once, as those of the program do */
  predicate Method(mem: Memory, sp: Word, f: Word) {
    Short(mem, f, 0xc6, 0x00) && Clear(sp, f, f + 2)
  }

  /** The object at address o has ping and pong in its first two words. */
  predicate Object(mem: Memory, sp: Word, o: Word) {
    && InRange(mem, o, 8) && Aligned(o) && Clear(sp, o, o + 8)
    && Method(mem, sp, Read(mem, o)) && Method(mem, sp, Read(mem, o + 4))
  }

  lemma MethodStays(mem0: Memory, mem: Memory, sp: Word, f: Word)
    requires OthersKept(mem0, mem, sp) && Method(mem0, sp, f)
    ensures Method(mem, sp, f)
  {
    KeptAgrees(mem0, mem, sp, f, f + 2);
    CodeKept(mem0, mem, f, f + 2);
  }

  lemma ObjectStays(mem0: Memory, mem: Memory, sp: Word, o: Word)
    requires OthersKept(mem0, mem, sp) && Object(mem0, sp, o)
    ensures Object(mem, sp, o) && Read(mem, o) == Read(mem0, o) && Read(mem, o + 4) == Read(mem0, o + 4)
  {
    KeptReads(mem0, mem, sp, o);
    KeptReads(mem0, mem, sp, o + 4);
    MethodStays(mem0, mem, sp, Read(mem0, o));
    MethodStays(mem0, mem, sp, Read(mem0, o + 4));
  }

  // ---------------------------------------------------------------- foo

  /** deca r5; st r6, (r5) */
  lemma PushReturn(m0: Machine, m: Machine, a: Word) returns (m': Machine)
    requires Reaches(m0, m) && Short(m.mem, m.pc, 0x66, 0x05) && Short(m.mem, m.pc + 2, 0x36, 0x05)
    requires InRange(m.mem, a, 4) && m.reg[5] == a + 4
    ensures Reaches(m0, m')
    ensures m' == m.(pc := m.pc + 4, reg := m.reg[5 := a], mem := Write(m.mem, a, m.reg[6]))
  {
    m' := DecrementAddress(m0, m, 5);
    m' := StoreBase(m0, m', 6, 0, 5);
  }

  /** ld 4(r5), r0; gpc $2, r6; j *0(r0) */
  lemma FetchPing(m0: Machine, m: Machine, sp: Word, o: Word) returns (m': Machine)
    requires Reaches(m0, m) && FooCode(m.mem) && m.pc == 0x304 && m.reg[5] == sp - 12 && 12 <= sp <= |m.mem|
    requires Read(m.mem, sp - 8) == o && InRange(m.mem, o, 8) && Aligned(o)
    ensures Reaches(m0, m') && m'.pc == Read(m.mem, o) && m'.mem == m.mem
    ensures m'.reg[0] == o && m'.reg[5] == sp - 12 && m'.reg[6] == 0x30a
  {
    m' := LoadBase(m0, m, 1, 5, 0);
    m' := GetPc(m0, m', 1, 6);
    m' := JumpIndirect(m0, m', 0, 0);
  }

  /** The push of foo's return address leaves foo, the object and the argument as they are. */
  lemma FooFramed(mem: Memory, sp: Word, ra: Word, o: Word)
    requires FooCode(mem) && Stack(mem, sp) && Object(mem, sp, o) && Read(mem, sp - 8) == o
    ensures FooCode(Write(mem, sp - 12, ra)) && Read(Write(mem, sp - 12, ra), sp - 8) == o
    ensures Read(Write(mem, sp - 12, ra), o) == Read(mem, o)
  {
    PushKeeps(mem, mem, sp, sp - 12, ra);
    FooStays(mem, Write(mem, sp - 12, ra), sp);
    KeptReads(mem, Write(mem, sp - 12, ra), sp, o);
    ReadApart(mem, sp - 12, ra, sp - 8);
  }

  /** Up to the first instruction of the object's ping */
  lemma CallsPing(m: Machine, sp: Word, o: Word) returns (m': Machine)
    requires FooCode(m.mem) && Stack(m.mem, sp) && Object(m.mem, sp, o)
    requires m.pc == 0x300 && m.reg[5] == sp - 8 && Read(m.mem, sp - 8) == o
    ensures Reaches(m, m') && m'.pc == Read(m.mem, o) && m'.mem == Write(m.mem, sp - 12, m.reg[6])
    ensures m'.reg[0] == o && m'.reg[5] == sp - 12 && m'.reg[6] == 0x30a
  {
    ReachesSelf(m);
    FooFramed(m.mem, sp, m.reg[6], o);
    m' := PushReturn(m, m, sp - 12);
    m' := FetchPing(m, m', sp, o);
  }

  /** gpc $2, r6; j *4(r0) */
  lemma FetchPong(m0: Machine, m: Machine, o: Word) returns (m': Machine)
    requires Reaches(m0, m) && m.pc == 0x30a && Short(m.mem, 0x30a, 0x6f, 0x16) && Short(m.mem, 0x30c, 0xd0, 0x01)
    requires m.reg[0] == o && InRange(m.mem, o, 8) && Aligned(o)
    ensures Reaches(m0, m') && m'.pc == Read(m.mem, o + 4) && m'.mem == m.mem
    ensures m'.reg[5] == m.reg[5] && m'.reg[6] == 0x30e
  {
    m' := GetPc(m0, m, 1, 6);
    m' := JumpIndirect(m0, m', 0, 1);
  }

  /** From the return of ping to the first instruction of pong */
  lemma CallsPong(m: Machine, sp: Word, o: Word) returns (m': Machine)
    requires FooCode(m.mem) && Object(m.mem, sp, o) && Method(m.mem, sp, m.pc)
    requires m.reg[0] == o && m.reg[6] == 0x30a
    ensures Reaches(m, m') && m'.pc == Read(m.mem, o + 4) && m'.mem == m.mem
    ensures m'.reg[5] == m.reg[5] && m'.reg[6] == 0x30e
  {
    ReachesSelf(m);
    m' := JumpTo(m, m, 6);
    m' := FetchPong(m, m', o);
  }

  /** From the return of pong to the return of foo: ld (r5), r6; inca r5; j (r6) */
  lemma LeavesFoo(m: Machine, sp: Word) returns (m': Machine)
    requires FooCode(m.mem) && Stack(m.mem, sp) && Method(m.mem, sp, m.pc)
    requires m.reg[5] == sp - 12 && m.reg[6] == 0x30e
    ensures Reaches(m, m') && m'.pc == Read(m.mem, sp - 12) && m'.mem == m.mem && m'.reg[5] == sp - 8
  {
    ReachesSelf(m);
    m' := JumpTo(m, m, 6);
    m' := LoadBase(m, m', 0, 5, 6);
    m' := IncrementAddress(m, m', 5);
    m' := JumpTo(m, m', 6);
  }

  /** For any object, foo runs its ping and then its pong, and returns. */
  lemma FooDispatches(m: Machine, sp: Word, o: Word) returns (ping: Machine, pong: Machine, m': Machine)
    requires FooCode(m.mem) && Stack(m.mem, sp) && Object(m.mem, sp, o)
    requires m.pc == 0x300 && m.reg[5] == sp - 8 && Read(m.mem, sp - 8) == o
    ensures Reaches(m, ping) && ping.pc == Read(m.mem, o)
    ensures Reaches(ping, pong) && pong.pc == Read(m.mem, o + 4)
    ensures Reaches(pong, m') && m'.pc == m.reg[6] && m'.reg[5] == sp - 8
    ensures m'.mem == Write(m.mem, sp - 12, m.reg[6])
  {
    ping := CallsPing(m, sp, o);
    PushKeeps(m.mem, m.mem, sp, sp - 12, m.reg[6]);
    FooStays(m.mem, ping.mem, sp);
    ObjectStays(m.mem, ping.mem, sp, o);
    ReadBack(m.mem, sp - 12, m.reg[6]);
    pong := CallsPong(ping, sp, o);
    m' := LeavesFoo(pong, sp);
  }

  // ---------------------------------------------------------------- bar

  /** ld $v, r0; ld (r0), r0; at address a */
  lemma LoadVariable(m0: Machine, m: Machine, v: Word) returns (m': Machine)
    requires Reaches(m0, m) && m.pc < 0x1000 && Long(m.mem, m.pc, 0x00, v) && Short(m.mem, m.pc + 6, 0x10, 0x00)
    requires InRange(m.mem, v, 4)
    ensures Reaches(m0, m') && m' == m.(pc := m.pc + 8, reg := m.reg[0 := Read(m.mem, v)])
  {
    m' := LoadImmediate(m0, m, v, 0);
    m' := LoadBase(m0, m', 0, 0, 0);
    assert m.reg[0 := v][0 := Read(m.mem, v)] == m.reg[0 := Read(m.mem, v)];
  }

  /** gpc $6, r6; j foo */
  lemma CallFoo(m0: Machine, m: Machine) returns (m': Machine)
    requires Reaches(m0, m) && m.pc < 0x1000 && Short(m.mem, m.pc, 0x6f, 0x36) && Long(m.mem, m.pc + 2, 0xb0, 0x300)
    ensures Reaches(m0, m') && m' == m.(pc := 0x300, reg := m.reg[6 := m.pc + 8])
  {
    m' := GetPc(m0, m, 3, 6);
    m' := Jump(m0, m', 0x300);
  }

  /** What holds all through bar: the program is as it was in mem0, and bar's return address is in
      its frame. */
  ghost predicate InBar(mem0: Memory, mem: Memory, sp: Word, ra: Word) {
    OthersKept(mem0, mem, sp) && Stack(mem, sp) && Read(mem, sp - 4) == ra
  }

  /** The processor is about to run foo (o), called from bar. */
  ghost predicate Calling(mem0: Memory, m: Machine, sp: Word, ra: Word, o: Word) {
    InBar(mem0, m.mem, sp, ra) && m.pc == 0x300 && m.reg[5] == sp - 8 && Read(m.mem, sp - 8) == o
  }

  /** bar's frame, with its argument for foo */
  lemma ArgumentPushed(mem0: Memory, mem: Memory, sp: Word, ra: Word, o: Word)
    requires InBar(mem0, mem, sp, ra)
    ensures InBar(mem0, Write(mem, sp - 8, o), sp, ra) && Read(Write(mem, sp - 8, o), sp - 8) == o
  {
    PushKeeps(mem0, mem, sp, sp - 8, o);
    ReadBack(mem, sp - 8, o);
    ReadApart(mem, sp - 8, o, sp - 4);
  }

  lemma ReturnPushed(mem: Memory, sp: Word, ra: Word)
    requires Stack(mem, sp)
    ensures InBar(mem, Write(mem, sp - 4, ra), sp, ra)
  {
    PushKeeps(mem, mem, sp, sp - 4, ra);
    ReadBack(mem, sp - 4, ra);
  }

  /** The pushes of bar's return address and of its first argument leave the program as it is. */
  lemma ReturnFramed(mem: Memory, sp: Word, ra: Word)
    requires FirstCode(mem) && Stack(mem, sp) && InRange(mem, A_AT, 4)
    ensures var mem' := Write(mem, sp - 4, ra); FirstCode(mem') && Read(mem', A_AT) == Read(mem, A_AT)
  {
    ReturnPushed(mem, sp, ra);
    FirstStays(mem, Write(mem, sp - 4, ra), sp);
    KeptReads(mem, Write(mem, sp - 4, ra), sp, A_AT);
  }

  lemma FirstFramed(mem: Memory, sp: Word, ra: Word, o: Word)
    requires FirstCode(mem) && Stack(mem, sp)
    ensures var mem' := Write(Write(mem, sp - 4, ra), sp - 8, o);
            FirstCode(mem') && InBar(mem, mem', sp, ra) && Read(mem', sp - 8) == o
  {
    var mem1 := Write(mem, sp - 4, ra);
    ReturnPushed(mem, sp, ra);
    ArgumentPushed(mem, mem1, sp, ra, o);
    FirstStays(mem, Write(mem1, sp - 8, o), sp);
  }

  /** deca r5; ld $a, r0; ld (r0), r0; st r0, (r5) */
  lemma PushFirst(m0: Machine, m: Machine, sp: Word, o: Word) returns (m': Machine)
    requires Reaches(m0, m) && FirstCode(m.mem) && m.pc == 0x204 && m.reg[5] == sp - 4 && 12 <= sp <= |m.mem|
    requires InRange(m.mem, A_AT, 4) && Read(m.mem, A_AT) == o
    ensures Reaches(m0, m') && m'.pc == 0x210 && m'.reg[5] == sp - 8 && m'.mem == Write(m.mem, sp - 8, o)
  {
    m' := DecrementAddress(m0, m, 5);
    m' := LoadVariable(m0, m', A_AT);
    m' := StoreBase(m0, m', 0, 0, 5);
  }

  lemma FirstPushes(m0: Machine, m: Machine, sp: Word, o: Word) returns (m': Machine)
    requires Reaches(m0, m) && FirstCode(m.mem) && Stack(m.mem, sp) && m.pc == 0x200 && m.reg[5] == sp
    requires InRange(m.mem, A_AT, 4) && Read(m.mem, A_AT) == o
    ensures Reaches(m0, m') && m'.pc == 0x210 && m'.reg[5] == sp - 8
    ensures m'.mem == Write(Write(m.mem, sp - 4, m.reg[6]), sp - 8, o)
  {
    ReturnFramed(m.mem, sp, m.reg[6]);
    m' := PushReturn(m0, m, sp - 4);
    m' := PushFirst(m0, m', sp, o);
  }

  /** From the start of bar to foo (a) */
  lemma FirstCall(m: Machine, sp: Word, o: Word) returns (m': Machine)
    requires FirstCode(m.mem) && Stack(m.mem, sp) && m.pc == 0x200 && m.reg[5] == sp
    requires InRange(m.mem, A_AT, 4) && Read(m.mem, A_AT) == o
    ensures Reaches(m, m') && Calling(m.mem, m', sp, m.reg[6], o) && m'.reg[6] == 0x218
  {
    ReachesSelf(m);
    m' := FirstPushes(m, m, sp, o);
    FirstFramed(m.mem, sp, m.reg[6], o);
    m' := CallFoo(m, m');
  }

  /** inca r5; ld $b, r0; ld (r0), r0; deca r5; st r0, (r5) */
  lemma PushSecond(m0: Machine, m: Machine, sp: Word, o: Word) returns (m': Machine)
    requires Reaches(m0, m) && SecondCode(m.mem) && m.pc == 0x218 && m.reg[5] == sp - 8 && 12 <= sp <= |m.mem|
    requires InRange(m.mem, B_AT, 4) && Read(m.mem, B_AT) == o
    ensures Reaches(m0, m') && m'.pc == 0x226 && m'.reg[5] == sp - 8 && m'.mem == Write(m.mem, sp - 8, o)
  {
    m' := IncrementAddress(m0, m, 5);
    m' := LoadVariable(m0, m', B_AT);
    m' := DecrementAddress(m0, m', 5);
    m' := StoreBase(m0, m', 0, 0, 5);
  }

  /** From the return of foo (a) to foo (b) */
  lemma SecondCall(mem0: Memory, m: Machine, sp: Word, ra: Word, o: Word) returns (m': Machine)
    requires SecondCode(mem0) && Stack(mem0, sp) && InBar(mem0, m.mem, sp, ra) && m.pc == 0x218 && m.reg[5] == sp - 8
    requires InRange(mem0, B_AT, 4) && Read(mem0, B_AT) == o
    ensures Reaches(m, m') && Calling(mem0, m', sp, ra, o) && m'.reg[6] == 0x22e
  {
    ReachesSelf(m);
    SecondStays(mem0, m.mem, sp);
    KeptReads(mem0, m.mem, sp, B_AT);
    m' := PushSecond(m, m, sp, o);
    ArgumentPushed(mem0, m.mem, sp, ra, o);
    SecondStays(mem0, m'.mem, sp);
    m' := CallFoo(m, m');
  }

  /** From the return of foo (b) to bar's */
  lemma LeavesBar(mem0: Memory, m: Machine, sp: Word, ra: Word) returns (m': Machine)
    requires LastCode(mem0) && Stack(mem0, sp) && InBar(mem0, m.mem, sp, ra) && m.pc == 0x22e && m.reg[5] == sp - 8
    ensures Reaches(m, m') && m'.pc == ra && m'.mem == m.mem && m'.reg[5] == sp
  {
    ReachesSelf(m);
    LastStays(mem0, m.mem, sp);
    m' := IncrementAddress(m, m, 5);
    m' := LoadBase(m, m', 0, 5, 6);
    m' := IncrementAddress(m, m', 5);
    m' := JumpTo(m, m', 6);
  }

  /** foo (o), called from bar, runs ping and pong of o and comes back to bar. */
  lemma FooInBar(mem0: Memory, m: Machine, sp: Word, ra: Word, o: Word)
    returns (ping: Machine, pong: Machine, m': Machine)
    requires FooCode(mem0) && Stack(mem0, sp) && Object(mem0, sp, o) && Calling(mem0, m, sp, ra, o)
    ensures Reaches(m, ping) && ping.pc == Read(mem0, o)
    ensures Reaches(ping, pong) && pong.pc == Read(mem0, o + 4)
    ensures Reaches(pong, m') && m'.pc == m.reg[6] && m'.reg[5] == sp - 8 && InBar(mem0, m'.mem, sp, ra)
  {
    FooStays(mem0, m.mem, sp);
    ObjectStays(mem0, m.mem, sp, o);
    ping, pong, m' := FooDispatches(m, sp, o);
    PushKeeps(mem0, m.mem, sp, sp - 12, m.reg[6]);
    ReadApart(m.mem, sp - 12, m.reg[6], sp - 4);
  }

  /** The bar of mem0, called with stack pointer sp and objects x and y */
  predicate Ready(m: Machine, sp: Word, x: Word, y: Word) {
    && Code(m.mem) && Stack(m.mem, sp) && m.pc == 0x200 && m.reg[5] == sp
    && Object(m.mem, sp, x) && Object(m.mem, sp, y) && Read(m.mem, A_AT) == x && Read(m.mem, B_AT) == y
  }

  /** For any two objects, bar runs the ping and the pong of the first and then those of the second,
      as its words in memory say, and returns with the stack pointer restored and nothing changed
      but the three words of its stack. */
  lemma BarDispatches(m: Machine, sp: Word, x: Word, y: Word)
    returns (ping: Machine, pong: Machine, ping': Machine, pong': Machine, m': Machine)
    requires Ready(m, sp, x, y)
    ensures Reaches(m, ping) && ping.pc == Read(m.mem, x)
    ensures Reaches(ping, pong) && pong.pc == Read(m.mem, x + 4)
    ensures Reaches(pong, ping') && ping'.pc == Read(m.mem, y)
    ensures Reaches(ping', pong') && pong'.pc == Read(m.mem, y + 4)
    ensures Reaches(pong', m') && m'.pc == m.reg[6] && m'.reg[5] == sp && OthersKept(m.mem, m'.mem, sp)
  {
    var call := FirstCall(m, sp, x);
    var back;
    ping, pong, back := FooInBar(m.mem, call, sp, m.reg[6], x);
    ReachesTransitive(m, call, ping);
    call := SecondCall(m.mem, back, sp, m.reg[6], y);
    ReachesTransitive(pong, back, call);
    ping', pong', back := FooInBar(m.mem, call, sp, m.reg[6], y);
    ReachesTransitive(pong, call, ping');
    m' := LeavesBar(m.mem, back, sp, m.reg[6]);
    ReachesTransitive(pong', back, m');
  }

  const A_PING := 0x400
  const A_PONG := 0x402
  const B_PING := 0x404
  const AN_A := 0x1000
  const A_B := 0x1008
  const STACK := 0x2028

  /** The program and its two objects as they are loaded */
  predicate Loaded(m: Machine) {
    && Code(m.mem) && m.pc == 0x100 && |m.mem| >= STACK
    && Short(m.mem, A_PING, 0xc6, 0x00) && Short(m.mem, A_PONG, 0xc6, 0x00) && Short(m.mem, B_PING, 0xc6, 0x00)
    && Read(m.mem, A_AT) == AN_A && Read(m.mem, B_AT) == A_B
    && Read(m.mem, AN_A) == A_PING && Read(m.mem, AN_A + 4) == A_PONG
    && Read(m.mem, A_B) == B_PING && Read(m.mem, A_B + 4) == A_PONG
  }

  lemma CallsBar(m: Machine) returns (m': Machine)
    requires Loaded(m)
    ensures Reaches(m, m') && Ready(m', STACK, AN_A, A_B) && m'.mem == m.mem && m'.reg[6] == 0x10e
  {
    ReachesSelf(m);
    m' := LoadImmediate(m, m, STACK, 5);
    m' := GetPc(m, m', 3, 6);
    m' := Jump(m, m', 0x200);
  }

  lemma Halting(mem0: Memory, m0: Machine, m: Machine) returns (h: Machine)
    requires Reaches(m0, m) && StartCode(mem0) && OthersKept(mem0, m.mem, STACK) && m.pc == 0x10e
    ensures Halts(m0, h) && h == m.(pc := m.pc + 2)
  {
    KeptAgrees(mem0, m.mem, STACK, 0x10e, 0x110);
    CodeKept(mem0, m.mem, 0x10e, 0x110);
    h := Halt(m0, m);
  }

  /** The program runs the methods of an A and then those of a B, which overrides ping and inherits
      pong, and halts. */
  lemma ProgramDispatches(m: Machine)
    returns (ping: Machine, pong: Machine, ping': Machine, pong': Machine, h: Machine)
    requires Loaded(m)
    ensures Reaches(m, ping) && ping.pc == A_PING
    ensures Reaches(ping, pong) && pong.pc == A_PONG
    ensures Reaches(pong, ping') && ping'.pc == B_PING
    ensures Reaches(ping', pong') && pong'.pc == A_PONG
    ensures Halts(pong', h) && h.reg[5] == STACK && OthersKept(m.mem, h.mem, STACK)
  {
    var bar := CallsBar(m);
    var back;
    ping, pong, ping', pong', back := BarDispatches(bar, STACK, AN_A, A_B);
    ReachesTransitive(m, bar, ping);
    h := Halting(m.mem, pong', back);
  }
}
