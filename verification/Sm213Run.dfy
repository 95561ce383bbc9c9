/** Runs of the SM213 machine, and what each kind of instruction does when it is fetched from
    its bytes in memory. */
module Sm213Run {
  import opened Sm213

  /** n cycles, or fewer if the machine stops before. */
  function After(step: Machine -> Cycle, m: Machine, n: nat): Cycle
    decreases n
  {
    if n == 0 then Running(m)
    else
      var c := step(m);
      if c.Running? then After(step, c.m, n - 1) else c
  }

  ghost predicate Reaches(m: Machine, m': Machine) {
    exists n: nat :: After(Step, m, n) == Running(m')
  }

  ghost predicate Halts(m: Machine, m': Machine) {
    exists n: nat :: After(Step, m, n) == Halted(m')
  }

  lemma {:induction false} AfterThen(step: Machine -> Cycle, m: Machine, n: nat, m': Machine, k: nat)
    requires After(step, m, n) == Running(m')
    ensures After(step, m, n + k) == After(step, m', k)
    decreases n
  {
    if n == 0 {
    } else {
      AfterThen(step, step(m).m, n - 1, m', k);
    }
  }

  lemma AfterOne(step: Machine -> Cycle, m: Machine)
    ensures After(step, m, 1) == step(m)
  {
  }

  lemma ReachesSelf(m: Machine)
    ensures Reaches(m, m)
  {
    assert After(Step, m, 0) == Running(m);
  }

  lemma ReachesTransitive(m0: Machine, m: Machine, m': Machine)
    requires Reaches(m0, m) && Reaches(m, m')
    ensures Reaches(m0, m')
  {
    var n: nat :| After(Step, m0, n) == Running(m);
    var k: nat :| After(Step, m, k) == Running(m');
    AfterThen(Step, m0, n, m, k);
  }

  lemma ReachesStep(m0: Machine, m: Machine, m': Machine)
    requires Reaches(m0, m) && Step(m) == Running(m')
    ensures Reaches(m0, m')
  {
    var n: nat :| After(Step, m0, n) == Running(m);
    AfterThen(Step, m0, n, m, 1);
    AfterOne(Step, m);
  }

  lemma ReachesHalt(m0: Machine, m: Machine, m': Machine)
    requires Reaches(m0, m) && Step(m) == Halted(m')
    ensures Halts(m0, m')
  {
    var n: nat :| After(Step, m0, n) == Running(m);
    AfterThen(Step, m0, n, m, 1);
    AfterOne(Step, m);
  }

  lemma {:induction false} HaltedStays(step: Machine -> Cycle, m: Machine, n: nat, m': Machine, k: nat)
    requires After(step, m, n) == Halted(m')
    ensures After(step, m, n + k) == Halted(m')
    decreases n
  {
    if step(m).Running? {
      HaltedStays(step, step(m).m, n - 1, m', k);
    }
  }

  /** A program has at most one result. */
  lemma HaltsOnce(m: Machine, h: Machine, h': Machine)
    requires Halts(m, h) && Halts(m, h')
    ensures h == h'
  {
    var n: nat :| After(Step, m, n) == Halted(h);
    var k: nat :| After(Step, m, k) == Halted(h');
    HaltedStays(Step, m, n, h, k);
    HaltedStays(Step, m, k, h', n);
  }

  // ---------------------------------------------------------------- instructions in memory

  /** A two-byte instruction at address a. */
  predicate Short(mem: Memory, a: int, b0: int, b1: int) {
    InRange(mem, a, 6) && mem[a] == b0 && mem[a + 1] == b1
  }

  /** A six-byte instruction at address a, with its word; its second byte is not looked at. */
  predicate Long(mem: Memory, a: int, b0: int, w: Word) {
    InRange(mem, a, 6) && mem[a] == b0 && Read(mem, a + 2) == w
  }

  /** The bytes from lo up to hi are the same in both memories. */
  ghost predicate Agree(mem: Memory, mem': Memory, lo: int, hi: int) {
    |mem'| == |mem| && forall i | lo <= i < hi && 0 <= i < |mem| :: mem'[i] == mem[i]
  }

  /** Where memories agree, they hold the same instructions and words. */
  lemma CodeKept(mem: Memory, mem': Memory, lo: int, hi: int)
    requires Agree(mem, mem', lo, hi)
    ensures forall a, b0, b1 | lo <= a && a + 2 <= hi && Short(mem, a, b0, b1) :: Short(mem', a, b0, b1)
    ensures forall a, b0, w | lo <= a && a + 6 <= hi && Long(mem, a, b0, w) :: Long(mem', a, b0, w)
    ensures forall a | lo <= a && a + 4 <= hi && InRange(mem, a, 4) :: Read(mem', a) == Read(mem, a)
  {
  }

  lemma WriteAgrees(mem: Memory, a: int, w: Word, lo: int, hi: int)
    requires InRange(mem, a, 4) && (hi <= a || a + 4 <= lo)
    ensures Agree(mem, Write(mem, a, w), lo, hi)
  {
    forall i | lo <= i < hi && 0 <= i < |mem| ensures Write(mem, a, w)[i] == mem[i] {
      WrittenBytes(mem, a, ToBytes(w), i);
    }
  }

  /** What is fetched from a two-byte instruction with the hexits op, p, q and s. */
  lemma FetchShort(m: Machine, op: nat, p: nat, q: nat, s: nat)
    requires op < 16 && p < 16 && q < 16 && s < 16 && !IsLong(op) && Short(m.mem, m.pc, 16 * op + p, 16 * q + s)
    ensures Fetch(m) == Fetched(m.(pc := m.pc + 2), Instruction(op, p, q, s, SignedByte(16 * q + s), 0))
  {
  }

  lemma FetchBranch(m: Machine, op: nat, p: nat, d: int)
    requires op < 16 && p < 16 && -128 <= d < 128 && !IsLong(op) && Short(m.mem, m.pc, 16 * op + p, d % 256)
    ensures exists q: nat, s: nat :: Fetch(m) == Fetched(m.(pc := m.pc + 2), Instruction(op, p, q, s, d, 0))
  {
    var b1 := m.mem[m.pc + 1];
    FetchShort(m, op, p, b1 / 16, b1 % 16);
  }

  /** ld $w, rd */
  lemma LoadImmediate(m0: Machine, m: Machine, w: Word, rd: nat) returns (m': Machine)
    requires Reaches(m0, m) && rd < 8 && Long(m.mem, m.pc, rd, w)
    ensures Reaches(m0, m') && m' == m.(pc := m.pc + 6, reg := m.reg[rd := w])
  {
    m' := m.(pc := m.pc + 6, reg := m.reg[rd := w]);
    ReachesStep(m0, m, m');
  }

  /** ld 4p(rs), rd */
  lemma LoadBase(m0: Machine, m: Machine, p: nat, rs: nat, rd: nat) returns (m': Machine)
    requires Reaches(m0, m) && p < 16 && rs < 8 && rd < 8 && Short(m.mem, m.pc, 0x10 + p, 16 * rs + rd)
    requires InRange(m.mem, Slot(m.reg[rs], p), 4)
    ensures Reaches(m0, m')
    ensures m' == m.(pc := m.pc + 2, reg := m.reg[rd := Read(m.mem, Slot(m.reg[rs], p))])
  {
    FetchShort(m, 1, p, rs, rd);
    m' := m.(pc := m.pc + 2, reg := m.reg[rd := Read(m.mem, Slot(m.reg[rs], p))]);
    ReachesStep(m0, m, m');
  }

  /** ld (rs, ri, 4), rd */
  lemma LoadIndexed(m0: Machine, m: Machine, rs: nat, ri: nat, rd: nat) returns (m': Machine)
    requires Reaches(m0, m) && rs < 8 && ri < 8 && rd < 8 && Short(m.mem, m.pc, 0x20 + rs, 16 * ri + rd)
    requires InRange(m.mem, Slot(m.reg[rs], m.reg[ri]), 4)
    ensures Reaches(m0, m')
    ensures m' == m.(pc := m.pc + 2, reg := m.reg[rd := Read(m.mem, Slot(m.reg[rs], m.reg[ri]))])
  {
    FetchShort(m, 2, rs, ri, rd);
    m' := m.(pc := m.pc + 2, reg := m.reg[rd := Read(m.mem, Slot(m.reg[rs], m.reg[ri]))]);
    ReachesStep(m0, m, m');
  }

  /** st rs, 4p(rd) */
  lemma StoreBase(m0: Machine, m: Machine, rs: nat, p: nat, rd: nat) returns (m': Machine)
    requires Reaches(m0, m) && p < 16 && rs < 8 && rd < 8 && Short(m.mem, m.pc, 0x30 + rs, 16 * p + rd)
    requires InRange(m.mem, Slot(m.reg[rd], p), 4)
    ensures Reaches(m0, m')
    ensures m' == m.(pc := m.pc + 2, mem := Write(m.mem, Slot(m.reg[rd], p), m.reg[rs]))
  {
    FetchShort(m, 3, rs, p, rd);
    m' := m.(pc := m.pc + 2, mem := Write(m.mem, Slot(m.reg[rd], p), m.reg[rs]));
    ReachesStep(m0, m, m');
  }

  /** st rs, (rd, ri, 4) */
  lemma StoreIndexed(m0: Machine, m: Machine, rs: nat, rd: nat, ri: nat) returns (m': Machine)
    requires Reaches(m0, m) && rs < 8 && rd < 8 && ri < 8 && Short(m.mem, m.pc, 0x40 + rs, 16 * rd + ri)
    requires InRange(m.mem, Slot(m.reg[rd], m.reg[ri]), 4) && Aligned(Slot(m.reg[rd], m.reg[ri]))
    ensures Reaches(m0, m')
    ensures m' == m.(pc := m.pc + 2, mem := Write(m.mem, Slot(m.reg[rd], m.reg[ri]), m.reg[rs]))
  {
    FetchShort(m, 4, rs, rd, ri);
    m' := m.(pc := m.pc + 2, mem := Write(m.mem, Slot(m.reg[rd], m.reg[ri]), m.reg[rs]));
    ReachesStep(m0, m, m');
  }

  /** mov rs, rd */
  lemma Move(m0: Machine, m: Machine, rs: nat, rd: nat) returns (m': Machine)
    requires Reaches(m0, m) && rs < 8 && rd < 8 && Short(m.mem, m.pc, 0x60, 16 * rs + rd)
    ensures Reaches(m0, m') && m' == m.(pc := m.pc + 2, reg := m.reg[rd := m.reg[rs]])
  {
    FetchShort(m, 6, 0, rs, rd);
    m' := m.(pc := m.pc + 2, reg := m.reg[rd := m.reg[rs]]);
    ReachesStep(m0, m, m');
  }

  /** add rs, rd */
  lemma Add(m0: Machine, m: Machine, rs: nat, rd: nat) returns (m': Machine)
    requires Reaches(m0, m) && rs < 8 && rd < 8 && Short(m.mem, m.pc, 0x61, 16 * rs + rd)
    ensures Reaches(m0, m') && m' == m.(pc := m.pc + 2, reg := m.reg[rd := Plus(m.reg[rs], m.reg[rd])])
  {
    FetchShort(m, 6, 1, rs, rd);
    m' := m.(pc := m.pc + 2, reg := m.reg[rd := Plus(m.reg[rs], m.reg[rd])]);
    ReachesStep(m0, m, m');
  }

  /** and rs, rd: every bit of the result is set exactly if it is set in both registers. */
  lemma And(m0: Machine, m: Machine, rs: nat, rd: nat) returns (m': Machine)
    requires Reaches(m0, m) && rs < 8 && rd < 8 && Short(m.mem, m.pc, 0x62, 16 * rs + rd)
    ensures Reaches(m0, m') && m' == m.(pc := m.pc + 2, reg := m.reg[rd := m'.reg[rd]])
    ensures forall k: nat ::
              Bit(Unsigned(m'.reg[rd]), k) <==> Bit(Unsigned(m.reg[rs]), k) && Bit(Unsigned(m.reg[rd]), k)
  {
    FetchShort(m, 6, 2, rs, rd);
    var u := BitAnd(Unsigned(m.reg[rs]), Unsigned(m.reg[rd]));
    WrapOnce(u);
    m' := m.(pc := m.pc + 2, reg := m.reg[rd := Wrap(u)]);
    ReachesStep(m0, m, m');
    forall k: nat ensures Bit(u, k) <==> Bit(Unsigned(m.reg[rs]), k) && Bit(Unsigned(m.reg[rd]), k) {
      BitAndBits(Unsigned(m.reg[rs]), Unsigned(m.reg[rd]), k);
    }
  }

  /** inc rd */
  lemma Increment(m0: Machine, m: Machine, rd: nat) returns (m': Machine)
    requires Reaches(m0, m) && rd < 8 && Short(m.mem, m.pc, 0x63, rd)
    ensures Reaches(m0, m') && m' == m.(pc := m.pc + 2, reg := m.reg[rd := Plus(m.reg[rd], 1)])
  {
    FetchShort(m, 6, 3, 0, rd);
    m' := m.(pc := m.pc + 2, reg := m.reg[rd := Plus(m.reg[rd], 1)]);
    ReachesStep(m0, m, m');
  }

  /** inca rd */
  lemma IncrementAddress(m0: Machine, m: Machine, rd: nat) returns (m': Machine)
    requires Reaches(m0, m) && rd < 8 && Short(m.mem, m.pc, 0x64, rd)
    ensures Reaches(m0, m') && m' == m.(pc := m.pc + 2, reg := m.reg[rd := Plus(m.reg[rd], 4)])
  {
    FetchShort(m, 6, 4, 0, rd);
    m' := m.(pc := m.pc + 2, reg := m.reg[rd := Plus(m.reg[rd], 4)]);
    ReachesStep(m0, m, m');
  }

  /** dec rd */
  lemma Decrement(m0: Machine, m: Machine, rd: nat) returns (m': Machine)
    requires Reaches(m0, m) && rd < 8 && Short(m.mem, m.pc, 0x65, rd)
    ensures Reaches(m0, m') && m' == m.(pc := m.pc + 2, reg := m.reg[rd := Minus(m.reg[rd], 1)])
  {
    FetchShort(m, 6, 5, 0, rd);
    m' := m.(pc := m.pc + 2, reg := m.reg[rd := Minus(m.reg[rd], 1)]);
    ReachesStep(m0, m, m');
  }

  /** deca rd */
  lemma DecrementAddress(m0: Machine, m: Machine, rd: nat) returns (m': Machine)
    requires Reaches(m0, m) && rd < 8 && Short(m.mem, m.pc, 0x66, rd)
    ensures Reaches(m0, m') && m' == m.(pc := m.pc + 2, reg := m.reg[rd := Minus(m.reg[rd], 4)])
  {
    FetchShort(m, 6, 6, 0, rd);
    m' := m.(pc := m.pc + 2, reg := m.reg[rd := Minus(m.reg[rd], 4)]);
    ReachesStep(m0, m, m');
  }

  /** not rd */
  lemma Not(m0: Machine, m: Machine, rd: nat) returns (m': Machine)
    requires Reaches(m0, m) && rd < 8 && Short(m.mem, m.pc, 0x67, rd)
    ensures Reaches(m0, m') && m' == m.(pc := m.pc + 2, reg := m.reg[rd := -Reg(m, rd) - 1])
  {
    FetchShort(m, 6, 7, 0, rd);
    m' := m.(pc := m.pc + 2, reg := m.reg[rd := -Reg(m, rd) - 1]);
    ReachesStep(m0, m, m');
  }

  /** gpc $2p, rd */
  lemma GetPc(m0: Machine, m: Machine, p: nat, rd: nat) returns (m': Machine)
    requires Reaches(m0, m) && p < 16 && rd < 8 && Short(m.mem, m.pc, 0x6f, 16 * p + rd)
    ensures Reaches(m0, m') && m' == m.(pc := m.pc + 2, reg := m.reg[rd := Wrap(m.pc + 2 + 2 * p)])
  {
    FetchShort(m, 6, 0xf, p, rd);
    m' := m.(pc := m.pc + 2, reg := m.reg[rd := Wrap(m.pc + 2 + 2 * p)]);
    ReachesStep(m0, m, m');
  }

  /** br, with a signed distance in units of two bytes */
  lemma Branch(m0: Machine, m: Machine, d: int) returns (m': Machine)
    requires Reaches(m0, m) && -128 <= d < 128 && Short(m.mem, m.pc, 0x80, d % 256)
    ensures Reaches(m0, m') && m' == m.(pc := Wrap(m.pc + 2 + 2 * d))
  {
    FetchBranch(m, 8, 0, d);
    m' := m.(pc := Wrap(m.pc + 2 + 2 * d));
    ReachesStep(m0, m, m');
  }

  /** beq r */
  lemma BranchIfZero(m0: Machine, m: Machine, r: nat, d: int) returns (m': Machine)
    requires Reaches(m0, m) && r < 8 && -128 <= d < 128 && Short(m.mem, m.pc, 0x90 + r, d % 256)
    ensures Reaches(m0, m') && m' == m.(pc := if m.reg[r] == 0 then Wrap(m.pc + 2 + 2 * d) else m.pc + 2)
  {
    FetchBranch(m, 9, r, d);
    m' := m.(pc := if m.reg[r] == 0 then Wrap(m.pc + 2 + 2 * d) else m.pc + 2);
    ReachesStep(m0, m, m');
  }

  /** bgt r */
  lemma BranchIfPositive(m0: Machine, m: Machine, r: nat, d: int) returns (m': Machine)
    requires Reaches(m0, m) && r < 8 && -128 <= d < 128 && Short(m.mem, m.pc, 0xa0 + r, d % 256)
    ensures Reaches(m0, m') && m' == m.(pc := if m.reg[r] > 0 then Wrap(m.pc + 2 + 2 * d) else m.pc + 2)
  {
    FetchBranch(m, 0xa, r, d);
    m' := m.(pc := if m.reg[r] > 0 then Wrap(m.pc + 2 + 2 * d) else m.pc + 2);
    ReachesStep(m0, m, m');
  }

  /** j w */
  lemma Jump(m0: Machine, m: Machine, w: Word) returns (m': Machine)
    requires Reaches(m0, m) && Long(m.mem, m.pc, 0xb0, w)
    ensures Reaches(m0, m') && m' == m.(pc := w)
  {
    m' := m.(pc := w);
    ReachesStep(m0, m, m');
  }

  /** j o(r), with o a signed multiple of two */
  lemma JumpOffset(m0: Machine, m: Machine, r: nat, d: int) returns (m': Machine)
    requires Reaches(m0, m) && r < 8 && -128 <= d < 128 && Short(m.mem, m.pc, 0xc0 + r, d % 256)
    ensures Reaches(m0, m') && m' == m.(pc := Wrap(m.reg[r] as int + 2 * d))
  {
    FetchBranch(m, 0xc, r, d);
    m' := m.(pc := Wrap(m.reg[r] as int + 2 * d));
    ReachesStep(m0, m, m');
  }

  /** j *o(r), with o a signed multiple of four */
  lemma JumpIndirect(m0: Machine, m: Machine, r: nat, d: int) returns (m': Machine)
    requires Reaches(m0, m) && r < 8 && -128 <= d < 128 && Short(m.mem, m.pc, 0xd0 + r, d % 256)
    requires var a := Wrap(m.reg[r] as int + 4 * d); Aligned(a) && InRange(m.mem, a, 4)
    ensures Reaches(m0, m') && m' == m.(pc := Read(m.mem, Wrap(m.reg[r] as int + 4 * d)))
  {
    FetchBranch(m, 0xd, r, d);
    m' := m.(pc := Read(m.mem, Wrap(m.reg[r] as int + 4 * d)));
    ReachesStep(m0, m, m');
  }

  /** j 0(r) */
  lemma JumpTo(m0: Machine, m: Machine, r: nat) returns (m': Machine)
    requires Reaches(m0, m) && r < 8 && Short(m.mem, m.pc, 0xc0 + r, 0)
    ensures Reaches(m0, m') && m' == m.(pc := m.reg[r])
  {
    FetchShort(m, 0xc, r, 0, 0);
    m' := m.(pc := m.reg[r]);
    ReachesStep(m0, m, m');
  }

  /** j *(r, ri, 4) */
  lemma JumpTable(m0: Machine, m: Machine, r: nat, ri: nat) returns (m': Machine)
    requires Reaches(m0, m) && r < 8 && ri < 8 && Short(m.mem, m.pc, 0xe0 + r, 16 * ri)
    requires InRange(m.mem, Slot(m.reg[r], m.reg[ri]), 4) && Aligned(Slot(m.reg[r], m.reg[ri]))
    ensures Reaches(m0, m') && m' == m.(pc := Read(m.mem, Slot(m.reg[r], m.reg[ri])))
  {
    FetchShort(m, 0xe, r, ri, 0);
    m' := m.(pc := Read(m.mem, Slot(m.reg[r], m.reg[ri])));
    ReachesStep(m0, m, m');
  }

  /** nop */
  lemma Nop(m0: Machine, m: Machine) returns (m': Machine)
    requires Reaches(m0, m) && Short(m.mem, m.pc, 0xff, 0)
    ensures Reaches(m0, m') && m' == m.(pc := m.pc + 2)
  {
    FetchShort(m, 0xf, 0xf, 0, 0);
    m' := m.(pc := m.pc + 2);
    ReachesStep(m0, m, m');
  }

  /** halt */
  lemma Halt(m0: Machine, m: Machine) returns (h: Machine)
    requires Reaches(m0, m) && Short(m.mem, m.pc, 0xf0, 0)
    ensures Halts(m0, h) && h == m.(pc := m.pc + 2)
  {
    h := m.(pc := m.pc + 2);
    ReachesHalt(m0, m, h);
  }

  // ---------------------------------------------------------------- idioms

  /** not rd, inc rd, add rs, rd */
  lemma Subtract(m0: Machine, m: Machine, rs: nat, rd: nat) returns (m': Machine)
    requires Reaches(m0, m) && rs < 8 && rd < 8 && rs != rd && m.pc <= MAX_MEMORY
    requires Short(m.mem, m.pc, 0x67, rd) && Short(m.mem, m.pc + 2, 0x63, rd)
    requires Short(m.mem, m.pc + 4, 0x61, 16 * rs + rd)
    ensures Reaches(m0, m')
    ensures m' == m.(pc := m.pc + 6, reg := m.reg[rd := Minus(m.reg[rs], m.reg[rd])])
  {
    m' := Not(m0, m, rd);
    m' := Increment(m0, m', rd);
    m' := Add(m0, m', rs, rd);
    MinusByComplement(m.reg[rs], m.reg[rd]);
    assert m.reg[rd := -Reg(m, rd) - 1][rd := Plus(-Reg(m, rd) - 1, 1)] == m.reg[rd := Plus(-Reg(m, rd) - 1, 1)];
  }
}
