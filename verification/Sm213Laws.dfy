/** What every instruction of the SM213 machine may be refused for, and what the bits of a shift
    are. */
module Sm213Laws {
  import opened Sm213
  import opened Sm213Run

  // ---------------------------------------------------------------- exceptions

  predicate IsInstruction(ins: Instruction) {
    0 <= ins.op < 16 && 0 <= ins.op0 < 16 && 0 <= ins.op1 < 16 && 0 <= ins.op2 < 16 && -128 <= ins.imm < 128
  }

  /** The registers that an instruction reads */
  function Sources(ins: Instruction): set<int> {
    var p, q, s := ins.op0, ins.op1, ins.op2;
    match ins.op
    case 1 => {q}
    case 2 => {p, q}
    case 3 => {p, s}
    case 4 => {p, q, s}
    case 6 => if p <= 2 then {q, s} else if p <= 7 then {s} else {}
    case 9 => {p}
    case 0xa => {p}
    case 0xc => {p}
    case 0xd => {p}
    case 0xe => {p, q}
    case _ => {}
  }

  /** The register that an instruction writes without having read it */
  function Destinations(ins: Instruction): set<int> {
    match ins.op
    case 0 => {ins.op0}
    case 1 => {ins.op2}
    case 2 => {ins.op2}
    case 6 => if ins.op0 == 0xf then {ins.op2} else {}
    case 7 => {ins.op0}
    case _ => {}
  }

  /** The word in memory that an instruction reads or writes, and whether it has to be aligned */
  datatype Target = NoTarget | Target(a: Word, aligned: bool)

  /** The place of a word: a base register, if there is such a register, and four times a number */
  function Place(m: Machine, r: int, i: int): Word {
    Wrap(Held(m, r) + 4 * i)
  }

  function Held(m: Machine, r: int): int {
    if IsRegister(r) then m.reg[r] else 0
  }

  function TargetOf(m: Machine, ins: Instruction): Target {
    var p, q, s := ins.op0, ins.op1, ins.op2;
    match ins.op
    case 1 => Target(Place(m, q, p), false)
    case 2 => Target(Place(m, p, Held(m, q)), false)
    case 3 => Target(Place(m, s, q), false)
    case 4 => Target(Place(m, q, Held(m, s)), true)
    case 0xd => Target(Place(m, p, ins.imm), true)
    case 0xe => Target(Place(m, p, Held(m, q)), true)
    case _ => NoTarget
  }

  /** Whether an instruction must be refused, and how: an opcode that is none, a register read
      that is none, a word that is misaligned or not in memory, a register written that is none,
      in that order. */
  datatype Refusal = Accepted | Refused(e: Error)

  function RefusalOf(m: Machine, ins: Instruction): Refusal {
    if ins.op == 5 then Refused(InvalidInstruction)
    else if exists r | r in Sources(ins) :: !IsRegister(r) then Refused(InvalidRegister)
    else
      var t := TargetOf(m, ins);
      if t.Target? && t.aligned && t.a % 4 != 0 then Refused(InvalidAddress)
      else if t.Target? && !InRange(m.mem, t.a, 4) then Refused(AccessError(t.a, 4))
      else if exists r | r in Destinations(ins) :: !IsRegister(r) then Refused(InvalidRegister)
      else Accepted
  }

  lemma MemoryRefused(m: Machine, ins: Instruction)
    requires IsInstruction(ins) && ins.op in {1, 2, 3, 4, 0xd, 0xe}
    ensures Execute(m, ins).Failed? <==> RefusalOf(m, ins).Refused?
    ensures Execute(m, ins).Failed? ==> Execute(m, ins).e == RefusalOf(m, ins).e
  {
    if exists r | r in Sources(ins) :: !IsRegister(r) {
    } else {
      assert TargetOf(m, ins).Target?;
    }
  }

  lemma OtherRefused(m: Machine, ins: Instruction)
    requires IsInstruction(ins) && ins.op !in {1, 2, 3, 4, 0xd, 0xe}
    ensures Execute(m, ins).Failed? <==> RefusalOf(m, ins).Refused?
    ensures Execute(m, ins).Failed? ==> Execute(m, ins).e == RefusalOf(m, ins).e
  {
  }

  /** Exactly these instructions throw, and with these exceptions. */
  lemma FailsExactly(m: Machine, ins: Instruction)
    requires IsInstruction(ins)
    ensures Execute(m, ins).Failed? <==> RefusalOf(m, ins).Refused?
    ensures Execute(m, ins).Failed? ==> Execute(m, ins).e == RefusalOf(m, ins).e
    ensures Execute(m, ins).Halted? <==> ins.op == 0xf && ins.op0 == 0
  {
    if ins.op in {1, 2, 3, 4, 0xd, 0xe} {
      MemoryRefused(m, ins);
    } else {
      OtherRefused(m, ins);
    }
  }

  // ---------------------------------------------------------------- bytes

  /** The first difference decides, from the lowest address on. */
  predicate Below(b: seq<Byte>, c: seq<Byte>)
    requires |b| == |c|
  {
    b != [] && (b[0] < c[0] || (b[0] == c[0] && Below(b[1..], c[1..])))
  }

  lemma Compare(hi: int, lo: int, hi': int, lo': int)
    requires 0 <= lo < 0x100 && 0 <= lo' < 0x100
    ensures hi * 0x100 + lo < hi' * 0x100 + lo' <==> hi < hi' || (hi == hi' && lo < lo')
    ensures hi * 0x100 + lo == hi' * 0x100 + lo' <==> hi == hi' && lo == lo'
  {
  }

  lemma BelowIs(b: seq<Byte>, c: seq<Byte>)
    requires |b| == |c| == 4
    ensures Below(b, c) <==>
            b[0] < c[0] || (b[0] == c[0] && (b[1] < c[1] || (b[1] == c[1] &&
              (b[2] < c[2] || (b[2] == c[2] && b[3] < c[3])))))
  {
    var b1, c1 := b[1..], c[1..];
    var b2, c2 := b1[1..], c1[1..];
    assert !Below(b2[1..][1..], c2[1..][1..]);
    assert Below(b2[1..], c2[1..]) <==> b[3] < c[3];
    assert Below(b2, c2) <==> b[2] < c[2] || (b[2] == c[2] && b[3] < c[3]);
  }

  lemma BytesWeigh(b0: Byte, b1: Byte, b2: Byte, b3: Byte)
    ensures Unsigned(FromBytes(b0, b1, b2, b3)) == ((b0 as int * 0x100 + b1) * 0x100 + b2) * 0x100 + b3
  {
  }

  /** Words are big endian: as unsigned numbers they are ordered as their bytes in memory are. */
  lemma BigEndian(b: seq<Byte>, c: seq<Byte>)
    requires |b| == |c| == 4
    ensures Unsigned(FromBytes(b[0], b[1], b[2], b[3])) < Unsigned(FromBytes(c[0], c[1], c[2], c[3])) <==> Below(b, c)
  {
    BytesWeigh(b[0], b[1], b[2], b[3]);
    BytesWeigh(c[0], c[1], c[2], c[3]);
    var hi: int, hi': int := b[0] as int * 0x100 + b[1], c[0] as int * 0x100 + c[1];
    Compare(b[0], b[1], c[0], c[1]);
    Compare(hi, b[2], hi', c[2]);
    Compare(hi * 0x100 + b[2], b[3], hi' * 0x100 + c[2], c[3]);
    BelowIs(b, c);
  }

  // ---------------------------------------------------------------- bits

  /** Numbers with the same bits are the same. */
  lemma {:induction false} BitsDetermine(a: nat, b: nat)
    requires forall k: nat :: Bit(a, k) <==> Bit(b, k)
    ensures a == b
    decreases a + b
  {
    assert Bit(a, 0) <==> Bit(b, 0);
    if a + b == 0 {
    } else {
      forall k: nat ensures Bit(a / 2, k) <==> Bit(b / 2, k) {
        assert Bit(a, k + 1) <==> Bit(b, k + 1);
      }
      BitsDetermine(a / 2, b / 2);
    }
  }

  function Halved(x: nat, n: nat): nat {
    if n == 0 then x else Halved(x / 2, n - 1)
  }

  lemma {:induction false} BitsOfHalved(x: nat, n: nat, k: nat)
    ensures Bit(Halved(x, n), k) <==> Bit(x, k + n)
    decreases n
  {
    if n == 0 {
    } else {
      BitsOfHalved(x / 2, n - 1, k);
    }
  }

  lemma {:induction false} HalvedZero(n: nat)
    ensures Halved(0, n) == 0
  {
    if n == 0 {
    } else {
      HalvedZero(n - 1);
    }
  }

  lemma {:induction false} PowerGrows(n: nat)
    ensures Power(n + 3) >= 8
  {
    if n == 0 {
    } else {
      PowerGrows(n - 1);
    }
  }

  /** A quotient of the number of a register */
  lemma QuotientIsHalved(r: nat, n: nat)
    requires r < 8
    ensures r / Power(n) == Halved(r, n)
  {
    if n == 0 || n == 1 || n == 2 {
      assert Halved(r, 0) == r;
      assert Halved(r, 1) == Halved(r / 2, 0) == r / 2;
      assert Halved(r, 2) == Halved(r / 2, 1) == Halved(r / 2 / 2, 0) == r / 2 / 2;
      assert Power(0) == 1 && Power(1) == 2 && Power(2) == 4;
    } else {
      assert Halved(r, n) == Halved(r / 2, n - 1) == Halved(r / 2 / 2, n - 2) == Halved(r / 2 / 2 / 2, n - 3);
      HalvedZero(n - 3);
      PowerGrows(n - 3);
      SmallQuotient(r, Power(n));
    }
  }

  lemma SmallQuotient(r: nat, d: nat)
    requires r < d
    ensures r / d == 0
  {
  }

  lemma {:induction false} BitsOfProduct(x: nat, n: nat, k: nat)
    ensures Bit(x * Power(n), k) <==> k >= n && Bit(x, k - n)
    decreases n
  {
    if n == 0 {
    } else {
      var y := x * Power(n - 1);
      assert x * Power(n) == 2 * y;
      if k == 0 {
      } else {
        BitsOfProduct(x, n - 1, k - 1);
      }
    }
  }

  /** The bits below the n-th do not see what is added from the n-th on. */
  lemma {:induction false} BitsBelow(x: nat, y: int, n: nat, k: nat)
    requires k < n && x + y * Power(n) >= 0
    ensures Bit(x + y * Power(n), k) <==> Bit(x, k)
    decreases n
  {
    var z := y * Power(n - 1);
    assert y * Power(n) == 2 * z;
    if k == 0 {
    } else {
      assert (x + 2 * z) / 2 == x / 2 + z;
      BitsBelow(x / 2, y, n - 1, k - 1);
    }
  }

  lemma PowerPlus4(n: nat)
    ensures Power(n + 4) == 16 * Power(n)
  {
    assert Power(n + 4) == 2 * Power(n + 3) == 4 * Power(n + 2) == 8 * Power(n + 1);
  }

  lemma PowerOf32()
    ensures Power(32) == WORDS
  {
    PowerPlus4(0);
    PowerPlus4(4);
    PowerPlus4(8);
    PowerPlus4(12);
    PowerPlus4(16);
    PowerPlus4(20);
    PowerPlus4(24);
    PowerPlus4(28);
  }

  lemma BitsOfWrap(x: nat, k: nat)
    requires k < 32
    ensures Bit(Unsigned(Wrap(x)), k) <==> Bit(x, k)
  {
    var w := Wrap(x);
    var turns := Turns(x, w);
    var y := if w >= 0 then -turns else -turns - 1;
    assert x == Unsigned(w) + y * WORDS;
    PowerOf32();
    BitsBelow(Unsigned(w), y, 32, k);
  }

  /** One cycle of a shift */
  lemma Shifted(m0: Machine, m: Machine, r: nat, d: int, x: nat) returns (m': Machine)
    requires Reaches(m0, m) && r < 8 && -128 <= d < 128 && Short(m.mem, m.pc, 0x70 + r, d % 256)
    requires x == if d < 0 then Halved(r, d % 32) else r * Power(d % 32)
    ensures Reaches(m0, m') && m' == m.(pc := m.pc + 2, reg := m.reg[r := Wrap(x)])
  {
    FetchBranch(m, 7, r, d);
    if d < 0 {
      QuotientIsHalved(r, d % 32);
    }
    m' := m.(pc := m.pc + 2, reg := m.reg[r := Wrap(x)]);
    ReachesStep(m0, m, m');
  }

  /** shl $d, r for d >= 0: the number of the register, not what it holds, is shifted. */
  lemma ShiftLeft(m0: Machine, m: Machine, r: nat, d: int) returns (m': Machine)
    requires Reaches(m0, m) && r < 8 && 0 <= d < 128 && Short(m.mem, m.pc, 0x70 + r, d)
    ensures Reaches(m0, m') && m' == m.(pc := m.pc + 2, reg := m.reg[r := m'.reg[r]])
    ensures forall k: nat | k < 32 :: Bit(Unsigned(m'.reg[r]), k) <==> k >= d % 32 && Bit(r, k - d % 32)
  {
    var x := r * Power(d % 32);
    m' := Shifted(m0, m, r, d, x);
    forall k: nat | k < 32 ensures Bit(Unsigned(Wrap(x)), k) <==> k >= d % 32 && Bit(r, k - d % 32) {
      BitsOfWrap(x, k);
      BitsOfProduct(r, d % 32, k);
    }
  }

  /** shr: a negative distance counts modulo 32. */
  lemma ShiftRight(m0: Machine, m: Machine, r: nat, d: int) returns (m': Machine)
    requires Reaches(m0, m) && r < 8 && -128 <= d < 0 && Short(m.mem, m.pc, 0x70 + r, d + 256)
    ensures Reaches(m0, m') && m' == m.(pc := m.pc + 2, reg := m.reg[r := m'.reg[r]])
    ensures forall k: nat | k < 32 :: Bit(Unsigned(m'.reg[r]), k) <==> Bit(r, k + d % 32)
  {
    var x := Halved(r, d % 32);
    m' := Shifted(m0, m, r, d, x);
    forall k: nat | k < 32 ensures Bit(Unsigned(Wrap(x)), k) <==> Bit(r, k + d % 32) {
      BitsOfWrap(x, k);
      BitsOfHalved(r, d % 32, k);
    }
  }
}
