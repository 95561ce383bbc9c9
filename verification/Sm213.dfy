/** The SM213 machine of CPU.java and MainMemory.java: what one cycle does to the program
    counter, the eight registers and the bytes of memory. */
module Sm213 {

  const WORDS := 0x1_0000_0000
  const MIN_WORD := -0x8000_0000
  const MAX_WORD := 0x7fff_ffff
  const MAX_MEMORY := 0x7fff_fff0

  type Word = x: int | MIN_WORD <= x <= MAX_WORD
  type Byte = x: int | 0 <= x < 256
  type Registers = r: seq<Word> | |r| == 8 witness [0, 0, 0, 0, 0, 0, 0, 0]

  /** Small enough for the address after an instruction in memory not to overflow. */
  type Memory = m: seq<Byte> | |m| <= MAX_MEMORY witness []

  /** Two's-complement wrap-around of int arithmetic */
  function Wrap(x: int): Word
    decreases if x < 0 then -2 * x else 2 * x + 1
  {
    if x > MAX_WORD then Wrap(x - WORDS) else if x < MIN_WORD then Wrap(x + WORDS) else x
  }

  /** Wrap (x) is the one word that is congruent to x modulo 2^32. */
  lemma {:induction false} WrapIsCongruent(x: int, w: Word)
    ensures w == Wrap(x) <==> (w - x) % WORDS == 0
    decreases if x < 0 then -2 * x else 2 * x + 1
  {
    if x > MAX_WORD {
      WrapIsCongruent(x - WORDS, w);
    } else if x < MIN_WORD {
      WrapIsCongruent(x + WORDS, w);
    }
  }

  /** A sum or a difference of two words wraps around once at most. */
  lemma WrapOnce(x: int)
    requires MIN_WORD - WORDS <= x <= MAX_WORD + WORDS
    ensures Wrap(x) == if x < MIN_WORD then x + WORDS else if x > MAX_WORD then x - WORDS else x
  {
    if x > MAX_WORD {
      assert Wrap(x) == Wrap(x - WORDS);
    } else if x < MIN_WORD {
      assert Wrap(x) == Wrap(x + WORDS);
    }
  }

  lemma WrapWrap(x: int, y: int)
    ensures Wrap(Wrap(x) + y) == Wrap(x + y)
  {
    WrapIsCongruent(x, Wrap(x));
    WrapIsCongruent(Wrap(x) + y, Wrap(x + y));
    WrapIsCongruent(x + y, Wrap(x + y));
  }

  function Plus(x: Word, y: Word): Word {
    Wrap(x as int + y as int)
  }

  function Minus(x: Word, y: Word): Word {
    Wrap(x as int - y as int)
  }

  /** The number of times that x wraps around to w */
  lemma Turns(x: int, w: Word) returns (n: int)
    requires w == Wrap(x)
    ensures w == x + n * WORDS
  {
    WrapIsCongruent(x, w);
    n := (w - x) / WORDS;
  }

  lemma WrapTurned(x: int, n: int)
    ensures Wrap(x + n * WORDS) == Wrap(x)
  {
    var k := Turns(x, Wrap(x));
    assert Wrap(x) - (x + n * WORDS) == (k - n) * WORDS;
    WrapIsCongruent(x + n * WORDS, Wrap(x));
  }

  /** Sums and differences can be wrapped at the end. */
  lemma PlusOfWraps(x: Word, y: Word, p: int, q: int)
    requires x == Wrap(p) && y == Wrap(q)
    ensures Plus(x, y) == Wrap(p + q)
  {
    var i := Turns(p, x);
    var j := Turns(q, y);
    assert x as int + y as int == p + q + (i + j) * WORDS;
    WrapTurned(p + q, i + j);
  }

  lemma MinusOfWraps(x: Word, y: Word, p: int, q: int)
    requires x == Wrap(p) && y == Wrap(q)
    ensures Minus(x, y) == Wrap(p - q)
  {
    var i := Turns(p, x);
    var j := Turns(q, y);
    assert x as int - y as int == p - q + (i - j) * WORDS;
    WrapTurned(p - q, i - j);
  }

  /** The address of the i-th word from address b. */
  function Slot(b: Word, i: Word): Word {
    Wrap(b as int + i as int * 4)
  }

  /** Subtraction as the machine does it: complement, increment, add. */
  lemma MinusByComplement(x: Word, y: Word)
    ensures Plus(x, Plus(-(y as int) - 1, 1)) == Minus(x, y)
  {
    WrapWrap(-(y as int), x);
  }

  // ---------------------------------------------------------------- memory

  predicate InRange(mem: Memory, a: int, n: nat) {
    0 <= a && a + n <= |mem|
  }

  /** The word whose unsigned value is u */
  function Signed(u: int): Word
    requires 0 <= u < WORDS
  {
    if u <= MAX_WORD then u else u - WORDS
  }

  function Unsigned(w: Word): int {
    if w >= 0 then w else w + WORDS
  }

  /** bytesToInteger: big endian */
  function FromBytes(b0: Byte, b1: Byte, b2: Byte, b3: Byte): Word {
    Signed(b0 * 0x100_0000 + b1 * 0x1_0000 + b2 * 0x100 + b3)
  }

  /** integerToBytes; each byte is the low eight bits of an unsigned shift. */
  function ToBytes(w: Word): (b: seq<Byte>)
    ensures |b| == 4
  {
    var u := Unsigned(w);
    [u / 0x100_0000 % 256, u / 0x1_0000 % 256, u / 0x100 % 256, u % 256]
  }

  function Read(mem: Memory, a: int): Word
    requires InRange(mem, a, 4)
  {
    FromBytes(mem[a], mem[a + 1], mem[a + 2], mem[a + 3])
  }

  function WriteBytes(mem: Memory, a: int, b: seq<Byte>): (mem': Memory)
    requires InRange(mem, a, |b|)
    ensures |mem'| == |mem|
  {
    mem[..a] + b + mem[a + |b|..]
  }

  function Write(mem: Memory, a: int, w: Word): (mem': Memory)
    requires InRange(mem, a, 4)
    ensures |mem'| == |mem|
  {
    WriteBytes(mem, a, ToBytes(w))
  }

  lemma FourDigits(u: int)
    requires 0 <= u < WORDS
    ensures u == u / 0x100_0000 % 256 * 0x100_0000 + u / 0x1_0000 % 256 * 0x1_0000 + u / 0x100 % 256 * 0x100 + u % 256
  {
  }

  lemma BytesRoundTrip(w: Word)
    ensures var b := ToBytes(w); FromBytes(b[0], b[1], b[2], b[3]) == w
  {
    FourDigits(Unsigned(w));
  }

  lemma Digits(b0: Byte, b1: Byte, b2: Byte, b3: Byte, u: int)
    requires u == b0 * 0x100_0000 + b1 * 0x1_0000 + b2 * 0x100 + b3
    ensures u / 0x100_0000 == b0 && u / 0x1_0000 == b0 * 0x100 + b1 && u / 0x100 == b0 * 0x1_0000 + b1 * 0x100 + b2
    ensures 0 <= u < WORDS
  {
  }

  lemma LowDigit(high: int, b: Byte)
    ensures (high * 0x100 + b) % 256 == b
  {
  }

  lemma BytesRoundTripBack(b0: Byte, b1: Byte, b2: Byte, b3: Byte)
    ensures ToBytes(FromBytes(b0, b1, b2, b3)) == [b0, b1, b2, b3]
  {
    var u := b0 * 0x100_0000 + b1 * 0x1_0000 + b2 * 0x100 + b3;
    Digits(b0, b1, b2, b3, u);
    assert Unsigned(FromBytes(b0, b1, b2, b3)) == u;
    LowDigit(b0, b1);
    LowDigit(b0 * 0x100 + b1, b2);
    LowDigit(b0 * 0x1_0000 + b1 * 0x100 + b2, b3);
  }

  lemma WrittenBytes(mem: Memory, a: int, b: seq<Byte>, i: int)
    requires InRange(mem, a, |b|) && 0 <= i < |mem|
    ensures WriteBytes(mem, a, b)[i] == if a <= i < a + |b| then b[i - a] else mem[i]
  {
  }

  /** A written word is read back. */
  lemma ReadBack(mem: Memory, a: int, w: Word)
    requires InRange(mem, a, 4)
    ensures Read(Write(mem, a, w), a) == w
  {
    var b := ToBytes(w);
    forall i | 0 <= i < 4 ensures Write(mem, a, w)[a + i] == b[i] {
      WrittenBytes(mem, a, b, a + i);
    }
    assert Read(Write(mem, a, w), a) == FromBytes(b[0], b[1], b[2], b[3]);
    BytesRoundTrip(w);
  }

  /** A word apart from a written word keeps its value. */
  lemma ReadApart(mem: Memory, a: int, w: Word, c: int)
    requires InRange(mem, a, 4) && InRange(mem, c, 4) && (c + 4 <= a || a + 4 <= c)
    ensures Read(Write(mem, a, w), c) == Read(mem, c)
  {
    var b := ToBytes(w);
    WrittenBytes(mem, a, b, c);
    WrittenBytes(mem, a, b, c + 1);
    WrittenBytes(mem, a, b, c + 2);
    WrittenBytes(mem, a, b, c + 3);
  }

  // ---------------------------------------------------------------- one cycle

  datatype Machine = Machine(pc: Word, reg: Registers, mem: Memory)

  predicate IsRegister(r: int) {
    0 <= r < 8
  }

  function Reg(m: Machine, r: int): int
    requires IsRegister(r)
  {
    m.reg[r]
  }

  /** IndexOutOfBounds is the error of an array index outside the bytes of memory. */
  datatype Error = InvalidAddress | InvalidRegister | InvalidInstruction | IndexOutOfBounds

  /** The error of an access to n bytes that are not all in memory. The source tests a + n as
      an int: when that overflows the test passes, and the access fails at the end of memory. */
  function AccessError(a: Word, n: nat): Error {
    if a >= 0 && a + n > MAX_WORD then IndexOutOfBounds else InvalidAddress
  }

  datatype Cycle = Running(m: Machine) | Halted(m: Machine) | Failed(e: Error)

  /** insOpCode, insOp0, insOp1, insOp2, insOpImm and insOpExt */
  datatype Instruction = Instruction(op: int, op0: int, op1: int, op2: int, imm: int, ext: Word)

  datatype Fetched = Fetched(m: Machine, ins: Instruction) | FetchFailed(e: Error)

  function SignedByte(b: Byte): int {
    if b < 128 then b else b - 256
  }

  /** Opcodes 0 and b are followed by a word. */
  predicate IsLong(op: int) {
    op == 0 || op == 0xb
  }

  /** Every fetch reads six bytes: the first four, the last four, and all of them. */
  function Fetch(m: Machine): Fetched {
    if !InRange(m.mem, m.pc, 4) then FetchFailed(AccessError(m.pc, 4))
    else if !InRange(m.mem, m.pc, 6) then FetchFailed(InvalidAddress)
    else
      var b0, b1 := m.mem[m.pc], m.mem[m.pc + 1];
      var op := b0 / 16;
      Fetched(m.(pc := if IsLong(op) then m.pc + 6 else m.pc + 2),
              Instruction(op, b0 % 16, b1 / 16, b1 % 16, SignedByte(b1),
                          if IsLong(op) then Read(m.mem, m.pc + 2) else 0))
  }

  function SetReg(m: Machine, r: int, v: int): Cycle {
    if IsRegister(r) then Running(m.(reg := m.reg[r := Wrap(v)])) else Failed(InvalidRegister)
  }

  function Load(m: Machine, a: Word, rd: int): Cycle {
    if !InRange(m.mem, a, 4) then Failed(AccessError(a, 4)) else SetReg(m, rd, Read(m.mem, a))
  }

  function Store(m: Machine, a: Word, v: Word): Cycle {
    if !InRange(m.mem, a, 4) then Failed(AccessError(a, 4)) else Running(m.(mem := Write(m.mem, a, v)))
  }

  predicate Aligned(a: int) {
    a % 4 == 0
  }

  function JumpThrough(m: Machine, a: Word): Cycle {
    if !Aligned(a) then Failed(InvalidAddress)
    else if !InRange(m.mem, a, 4) then Failed(AccessError(a, 4))
    else Running(m.(pc := Read(m.mem, a)))
  }

  function BitAnd(a: nat, b: nat): (r: nat)
    ensures r <= a
  {
    if a == 0 then 0 else a % 2 * (b % 2) + 2 * BitAnd(a / 2, b / 2)
  }

  function Bit(a: nat, k: nat): bool {
    if k == 0 then a % 2 == 1 else Bit(a / 2, k - 1)
  }

  /** Bit k of the result is set if and only if it is set in both operands. */
  lemma {:induction false} BitAndBits(a: nat, b: nat, k: nat)
    ensures Bit(BitAnd(a, b), k) <==> Bit(a, k) && Bit(b, k)
    decreases k
  {
    if a == 0 {
      ZeroBits(k);
    } else {
      assert BitAnd(a, b) % 2 == a % 2 * (b % 2) && BitAnd(a, b) / 2 == BitAnd(a / 2, b / 2);
      if k == 0 {
      } else {
        BitAndBits(a / 2, b / 2, k - 1);
      }
    }
  }

  lemma {:induction false} ZeroBits(k: nat)
    ensures !Bit(0, k)
  {
    if k == 0 {
    } else {
      ZeroBits(k - 1);
    }
  }

  function Power(n: nat): (p: nat)
    ensures p > 0
  {
    if n == 0 then 1 else 2 * Power(n - 1)
  }

  /** Opcode 6; the second hexit says which operation. */
  function Alu(m: Machine, ins: Instruction): Cycle {
    var rs, rd := ins.op1, ins.op2;
    if ins.op0 == 0xf then SetReg(m, rd, m.pc + 2 * ins.op1)
    else if ins.op0 > 7 then Running(m)
    else if !IsRegister(rd) || (ins.op0 <= 2 && !IsRegister(rs)) then Failed(InvalidRegister)
    else
      match ins.op0
      case 0 => SetReg(m, rd, Reg(m, rs))
      case 1 => SetReg(m, rd, Reg(m, rs) + Reg(m, rd))
      case 2 => SetReg(m, rd, BitAnd(Unsigned(m.reg[rs]), Unsigned(m.reg[rd])))
      case 3 => SetReg(m, rd, Reg(m, rd) + 1)
      case 4 => SetReg(m, rd, Reg(m, rd) + 4)
      case 5 => SetReg(m, rd, Reg(m, rd) - 1)
      case 6 => SetReg(m, rd, Reg(m, rd) - 4)
      case _ => SetReg(m, rd, -Reg(m, rd) - 1)
  }

  /** Opcode 7. It shifts the number of the register, not its contents; the distance is taken
      modulo 32. */
  function Shift(m: Machine, rd: nat, v: int): Cycle {
    if v < 0 then SetReg(m, rd, rd / Power(v % 32)) else SetReg(m, rd, rd * Power(v % 32))
  }

  function Execute(m: Machine, ins: Instruction): Cycle
    requires 0 <= ins.op0 < 16 && 0 <= ins.op1 < 16 && 0 <= ins.op2 < 16 && -128 <= ins.imm < 128
  {
    var p, q, s, v := ins.op0, ins.op1, ins.op2, ins.imm;
    match ins.op
    case 0 => SetReg(m, p, ins.ext)
    case 1 => if !IsRegister(q) then Failed(InvalidRegister) else Load(m, Slot(m.reg[q], p), s)
    case 2 =>
      if !IsRegister(p) || !IsRegister(q) then Failed(InvalidRegister)
      else Load(m, Slot(m.reg[p], m.reg[q]), s)
    case 3 =>
      if !IsRegister(p) || !IsRegister(s) then Failed(InvalidRegister)
      else Store(m, Slot(m.reg[s], q), m.reg[p])
    case 4 =>
      if !IsRegister(p) || !IsRegister(q) || !IsRegister(s) then Failed(InvalidRegister)
      else if !Aligned(Slot(m.reg[q], m.reg[s])) then Failed(InvalidAddress)
      else Store(m, Slot(m.reg[q], m.reg[s]), m.reg[p])
    case 6 => Alu(m, ins)
    case 7 => Shift(m, p, v)
    case 8 => Running(m.(pc := Wrap(m.pc + v * 2)))
    case 9 =>
      if !IsRegister(p) then Failed(InvalidRegister)
      else Running(if Reg(m, p) == 0 then m.(pc := Wrap(m.pc + v * 2)) else m)
    case 0xa =>
      if !IsRegister(p) then Failed(InvalidRegister)
      else Running(if Reg(m, p) > 0 then m.(pc := Wrap(m.pc + v * 2)) else m)
    case 0xb => Running(m.(pc := ins.ext))
    case 0xc => if !IsRegister(p) then Failed(InvalidRegister) else Running(m.(pc := Wrap(Reg(m, p) + v * 2)))
    case 0xd => if !IsRegister(p) then Failed(InvalidRegister) else JumpThrough(m, Slot(m.reg[p], v))
    case 0xe =>
      if !IsRegister(p) || !IsRegister(q) then Failed(InvalidRegister)
      else JumpThrough(m, Slot(m.reg[p], m.reg[q]))
    case 0xf => if p == 0 then Halted(m) else Running(m)
    case _ => Failed(InvalidInstruction)
  }

  /** Fetch, then execute. */
  function Step(m: Machine): Cycle {
    match Fetch(m)
    case FetchFailed(e) => Failed(e)
    case Fetched(m', ins) => Execute(m', ins)
  }
}
