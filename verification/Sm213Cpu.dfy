/** MainMemory.java and CPU.java as objects: a byte array, and a processor whose program
    counter, instruction registers, general registers and memory are updated in place. One
    cycle does to their snapshot what Step does. */
module Sm213Cpu {
  import opened Sm213

  /** How a method ends: normally, with the halt exception, or with another one. */
  datatype Outcome = Done | Halting | Throws(e: Error)

  function Access(m: Memory, a: Word, n: nat): Outcome {
    if InRange(m, a, n) then Done else Throws(AccessError(a, n))
  }

  /** m with b written from address a to the end of memory, which comes before the end of b */
  function WrittenToEnd(m: Memory, a: Word, b: seq<Byte>): (m': Memory)
    requires 0 <= a && |m| < a + |b|
    ensures |m'| == |m|
  {
    if a < |m| then m[..a] + b[..|m| - a] else m
  }

  lemma WriteNext(m: Memory, a: int, b: seq<Byte>, i: nat)
    requires i < |b| && InRange(m, a, i + 1)
    ensures WriteBytes(m, a, b[..i])[a + i := b[i]] == WriteBytes(m, a, b[..i + 1])
  {
  }

  class MainMemory {
    var mem: array<Byte>

    ghost predicate Valid()
      reads this
    {
      mem.Length <= MAX_MEMORY
    }

    ghost function Contents(): Memory
      requires Valid()
      reads this, mem
    {
      mem[..]
    }

    constructor (byteCapacity: nat)
      requires byteCapacity <= MAX_MEMORY
      ensures Valid() && fresh(mem) && Contents() == seq(byteCapacity, i => 0)
    {
      mem := new Byte[byteCapacity](i => 0);
    }

    /** The bytes, or the error of the source; the test is on an int that can overflow. */
    method Get(address: Word, length: nat) returns (o: Outcome, bytes: seq<Byte>)
      requires Valid() && length <= MAX_WORD
      ensures o == Access(Contents(), address, length)
      ensures o == Done ==> bytes == Contents()[address..address + length]
    {
      WrapOnce(address + length);
      bytes := [];
      if Wrap(address + length) > mem.Length || address < 0 {
        return Throws(InvalidAddress), bytes;
      }
      for i := 0 to length
        invariant address + i <= mem.Length || i == 0
        invariant i > 0 ==> bytes == Contents()[address..address + i]
        invariant i == 0 ==> bytes == []
      {
        if address + i >= mem.Length {
          return Throws(IndexOutOfBounds), bytes;
        }
        bytes := bytes + [mem[address + i]];
      }
      o := Done;
    }

    /** When the test has overflowed, the bytes up to the end of memory are written. */
    method Set(address: Word, value: seq<Byte>) returns (o: Outcome)
      requires Valid() && |value| <= MAX_WORD
      modifies mem
      ensures o == Access(old(Contents()), address, |value|)
      ensures Contents() == match o
                            case Done => WriteBytes(old(Contents()), address, value)
                            case Throws(IndexOutOfBounds) => WrittenToEnd(old(Contents()), address, value)
                            case _ => old(Contents())
    {
      WrapOnce(address + |value|);
      if Wrap(address + |value|) > mem.Length || address < 0 {
        return Throws(InvalidAddress);
      }
      for i := 0 to |value|
        invariant if address + i <= mem.Length then Contents() == WriteBytes(old(Contents()), address, value[..i])
                  else i == 0 && Contents() == old(Contents())
      {
        if address + i >= mem.Length {
          return Throws(IndexOutOfBounds);
        }
        WriteNext(old(Contents()), address, value, i);
        mem[address + i] := value[i];
      }
      assert value[..|value|] == value;
      o := Done;
    }

    method ReadIntegerUnaligned(address: Word) returns (o: Outcome, v: Word)
      requires Valid()
      ensures o == Access(Contents(), address, 4)
      ensures o == Done ==> v == Read(Contents(), address)
    {
      v := 0;
      var bytes;
      o, bytes := Get(address, 4);
      if o == Done {
        v := FromBytes(bytes[0], bytes[1], bytes[2], bytes[3]);
      }
    }

    method ReadInteger(address: Word) returns (o: Outcome, v: Word)
      requires Valid()
      ensures o == if Aligned(address) then Access(Contents(), address, 4) else Throws(InvalidAddress)
      ensures o == Done ==> v == Read(Contents(), address)
    {
      o, v := Throws(InvalidAddress), 0;
      if Aligned(address) {
        o, v := ReadIntegerUnaligned(address);
      }
    }

    method WriteIntegerUnaligned(address: Word, v: Word) returns (o: Outcome)
      requires Valid()
      modifies mem
      ensures o == Access(old(Contents()), address, 4)
      ensures Contents() == if o == Done then Write(old(Contents()), address, v) else old(Contents())
    {
      o := Set(address, ToBytes(v));
    }

    method WriteInteger(address: Word, v: Word) returns (o: Outcome)
      requires Valid()
      modifies mem
      ensures o == if Aligned(address) then Access(old(Contents()), address, 4) else Throws(InvalidAddress)
      ensures Contents() == if o == Done then Write(old(Contents()), address, v) else old(Contents())
    {
      o := Throws(InvalidAddress);
      if Aligned(address) {
        o := WriteIntegerUnaligned(address, v);
      }
    }
  }

  /** What c says of a cycle is what has happened: an exception leaves the machine as it was. */
  ghost predicate Happened(c: Cycle, before: Machine, o: Outcome, after: Machine) {
    match c
    case Running(m) => o == Done && after == m
    case Halted(m) => o == Halting && after == m
    case Failed(e) => o == Throws(e) && after == before
  }

  class Cpu {
    var pc: Word
    var insOpCode: int
    var insOp0: int
    var insOp1: int
    var insOp2: int
    var insOpImm: int
    var insOpExt: Word
    const reg: array<Word>
    const mem: MainMemory

    ghost predicate Valid()
      reads this, mem
    {
      && reg.Length == 8 && mem.Valid() && (reg as object) != mem.mem && (reg as object) != this
      && 0 <= insOp0 < 16 && 0 <= insOp1 < 16 && 0 <= insOp2 < 16 && -128 <= insOpImm < 128
    }

    ghost function State(): Machine
      requires Valid()
      reads this, reg, mem, mem.mem
    {
      Machine(pc, reg[..], mem.Contents())
    }

    ghost function Fetched(): Instruction
      reads this
    {
      Instruction(insOpCode, insOp0, insOp1, insOp2, insOpImm, insOpExt)
    }

    constructor (memory: MainMemory)
      requires memory.Valid()
      ensures Valid() && mem == memory && fresh(reg)
      ensures State() == Machine(0, seq(8, i => 0), memory.Contents())
    {
      pc, insOpCode, insOp0, insOp1, insOp2, insOpImm, insOpExt := 0, 0, 0, 0, 0, 0, 0;
      reg := new Word[8](i => 0);
      mem := memory;
    }

    /** The six bytes at pc: the instruction and what follows it */
    method ReadInstruction() returns (o: Outcome, bytes: seq<Byte>)
      requires Valid()
      ensures match Sm213.Fetch(State())
              case FetchFailed(e) => o == Throws(e)
              case Fetched(_, _) => o == Done && InRange(State().mem, pc, 6) && bytes == State().mem[pc..pc + 6]
    {
      bytes := [];
      var upper, lower;
      o, upper := mem.ReadIntegerUnaligned(pc);
      if o != Done {
        return;
      }
      o, lower := mem.ReadIntegerUnaligned(pc + 2);
      if o != Done {
        return;
      }
      o, bytes := mem.Get(pc, 6);
    }

    /** An instruction of two bytes leaves insOpExt as it was; execute does not look at it then. */
    method Fetch() returns (o: Outcome)
      requires Valid()
      modifies this
      ensures Valid()
      ensures match Sm213.Fetch(old(State()))
              case FetchFailed(e) => o == Throws(e) && State() == old(State())
              case Fetched(m, ins) =>
                o == Done && State() == m
                && Fetched() == ins.(ext := if IsLong(ins.op) then ins.ext else old(insOpExt))
    {
      var bytes;
      o, bytes := ReadInstruction();
      if o != Done {
        return;
      }
      assert bytes[0] == State().mem[pc] && bytes[1] == State().mem[pc + 1];
      insOpCode := bytes[0] / 16;
      insOp0 := bytes[0] % 16;
      insOp1 := bytes[1] / 16;
      insOp2 := bytes[1] % 16;
      insOpImm := SignedByte(bytes[1]);
      if IsLong(insOpCode) {
        o, insOpExt := mem.ReadIntegerUnaligned(pc + 2);
        pc := pc + 6;
      } else {
        pc := pc + 2;
      }
      assert State() == old(State()).(pc := pc);
    }

    /** reg.set (r, v) */
    method Set(r: int, v: int) returns (o: Outcome)
      requires Valid()
      modifies reg
      ensures Valid() && Happened(SetReg(old(State()), r, v), old(State()), o, State())
    {
      if !IsRegister(r) {
        return Throws(InvalidRegister);
      }
      reg[r] := Wrap(v);
      o := Done;
    }

    /** reg.set (rd, mem.readIntegerUnaligned (a)) */
    method LoadWord(a: Word, rd: int) returns (o: Outcome)
      requires Valid()
      modifies reg
      ensures Valid() && Happened(Load(old(State()), a, rd), old(State()), o, State())
    {
      var v;
      o, v := mem.ReadIntegerUnaligned(a);
      if o == Done {
        o := Set(rd, v);
      }
    }

    method JumpWord(a: Word) returns (o: Outcome)
      requires Valid()
      modifies this`pc
      ensures Valid() && Happened(JumpThrough(old(State()), a), old(State()), o, State())
    {
      var v;
      o, v := mem.ReadInteger(a);
      if o == Done {
        pc := v;
      }
    }

    /** Opcodes 0, 1 and 2 */
    method ExecuteLoad() returns (o: Outcome)
      requires Valid() && 0 <= insOpCode <= 2
      modifies reg
      ensures Valid() && Happened(Sm213.Execute(old(State()), Fetched()), old(State()), o, State())
    {
      if insOpCode == 0 {
        o := Set(insOp0, insOpExt);
      } else if insOpCode == 1 {
        if !IsRegister(insOp1) {
          return Throws(InvalidRegister);
        }
        o := LoadWord(Slot(reg[insOp1], insOp0), insOp2);
      } else {
        if !IsRegister(insOp0) || !IsRegister(insOp1) {
          return Throws(InvalidRegister);
        }
        o := LoadWord(Slot(reg[insOp0], reg[insOp1]), insOp2);
      }
    }

    /** Opcodes 3 and 4 */
    method ExecuteStore() returns (o: Outcome)
      requires Valid() && (insOpCode == 3 || insOpCode == 4)
      modifies mem.mem
      ensures Valid() && Happened(Sm213.Execute(old(State()), Fetched()), old(State()), o, State())
    {
      if insOpCode == 3 {
        if !IsRegister(insOp0) || !IsRegister(insOp2) {
          return Throws(InvalidRegister);
        }
        o := mem.WriteIntegerUnaligned(Slot(reg[insOp2], insOp1), reg[insOp0]);
      } else {
        if !IsRegister(insOp0) || !IsRegister(insOp1) || !IsRegister(insOp2) {
          return Throws(InvalidRegister);
        }
        o := mem.WriteInteger(Slot(reg[insOp1], reg[insOp2]), reg[insOp0]);
      }
    }

    /** Opcode 6 */
    method ExecuteAlu() returns (o: Outcome)
      requires Valid() && insOpCode == 6
      modifies reg
      ensures Valid() && Happened(Alu(old(State()), Fetched()), old(State()), o, State())
    {
      var rs, rd := insOp1, insOp2;
      if insOp0 == 0xf {
        o := Set(rd, pc + 2 * insOp1);
        return;
      }
      if insOp0 > 7 {
        return Done;
      }
      if !IsRegister(rd) || (insOp0 <= 2 && !IsRegister(rs)) {
        return Throws(InvalidRegister);
      }
      var d: int := reg[rd];
      var v: int;
      if insOp0 <= 2 {
        var s: int := reg[rs];
        v := if insOp0 == 0 then s else if insOp0 == 1 then s + d else BitAnd(Unsigned(s), Unsigned(d));
      } else {
        v := match insOp0
             case 3 => d + 1
             case 4 => d + 4
             case 5 => d - 1
             case 6 => d - 4
             case _ => -d - 1;
      }
      o := Set(rd, v);
    }

    /** Opcodes 8 to b */
    method ExecuteBranch() returns (o: Outcome)
      requires Valid() && 8 <= insOpCode <= 0xb
      modifies this`pc
      ensures Valid() && Happened(Sm213.Execute(old(State()), Fetched()), old(State()), o, State())
    {
      if insOpCode == 0xb {
        pc := insOpExt;
        return Done;
      }
      if insOpCode != 8 && !IsRegister(insOp0) {
        return Throws(InvalidRegister);
      }
      if insOpCode == 8 || (insOpCode == 9 && reg[insOp0] == 0) || (insOpCode == 0xa && reg[insOp0] > 0) {
        pc := Wrap(pc + insOpImm * 2);
      }
      o := Done;
    }

    /** Opcodes c to e */
    method ExecuteJump() returns (o: Outcome)
      requires Valid() && 0xc <= insOpCode <= 0xe
      modifies this`pc
      ensures Valid() && Happened(Sm213.Execute(old(State()), Fetched()), old(State()), o, State())
    {
      if !IsRegister(insOp0) || (insOpCode == 0xe && !IsRegister(insOp1)) {
        return Throws(InvalidRegister);
      }
      if insOpCode == 0xc {
        pc := Wrap(reg[insOp0] as int + insOpImm * 2);
        return Done;
      }
      o := JumpWord(if insOpCode == 0xd then Slot(reg[insOp0], insOpImm) else Slot(reg[insOp0], reg[insOp1]));
    }

    method Execute() returns (o: Outcome)
      requires Valid()
      modifies this`pc, reg, mem.mem
      ensures Valid() && Happened(Sm213.Execute(old(State()), Fetched()), old(State()), o, State())
    {
      if 0 <= insOpCode <= 2 {
        o := ExecuteLoad();
      } else if insOpCode == 3 || insOpCode == 4 {
        o := ExecuteStore();
      } else if insOpCode == 6 {
        o := ExecuteAlu();
      } else if insOpCode == 7 {
        o := Set(insOp0, if insOpImm < 0 then insOp0 / Power(insOpImm % 32) else insOp0 * Power(insOpImm % 32));
      } else if 8 <= insOpCode <= 0xb {
        o := ExecuteBranch();
      } else if 0xc <= insOpCode <= 0xe {
        o := ExecuteJump();
      } else if insOpCode == 0xf {
        o := if insOp0 == 0 then Halting else Done;
      } else {
        o := Throws(InvalidInstruction);
      }
    }

    /** A cycle does what Step says; an exception in execute leaves pc after the instruction. */
    method Cycle() returns (o: Outcome)
      requires Valid()
      modifies this, reg, mem.mem
      ensures Valid()
      ensures match Step(old(State()))
              case Running(m) => o == Done && State() == m
              case Halted(m) => o == Halting && State() == m
              case Failed(e) => o == Throws(e) && State().reg == old(State()).reg && State().mem == old(State()).mem
    {
      o := Fetch();
      if o != Done {
        return;
      }
      if !IsLong(insOpCode) {
        ExtOnlyIfLong(State(), Fetched(), 0);
      }
      o := Execute();
    }
  }

  /** insOpExt matters to the six-byte instructions only. */
  lemma ExtOnlyIfLong(m: Machine, ins: Instruction, ext: Word)
    requires 0 <= ins.op0 < 16 && 0 <= ins.op1 < 16 && 0 <= ins.op2 < 16 && -128 <= ins.imm < 128
    requires !IsLong(ins.op)
    ensures Execute(m, ins) == Execute(m, ins.(ext := ext))
  {
    assert Alu(m, ins) == Alu(m, ins.(ext := ext));
  }
}
