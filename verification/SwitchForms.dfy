/** a6/SB-switch.c and a6/SB-switch.s: four forms of one switch. */
module SwitchForms {
  import opened Sm213
  import opened Sm213Run

  /** The value that the switch selects */
  function Selected(i: Word): Word {
    if 20 <= i <= 23 then i - 10 else 14
  }

  datatype Label = L20 | L21 | L22 | L23 | Default

  /** The globals of a6/SB-switch.c */
  class Globals {
    var i: Word
    var j: Word

    method Foo()
      modifies this`j
      ensures j == Selected(i)
    {
      match i
      case 20 => j := 10;
      case 21 => j := 11;
      case 22 => j := 12;
      case 23 => j := 13;
      case _ => j := 14;
    }

    method Bar()
      modifies this`j
      ensures j == Selected(i)
    {
      if i == 20 {
        j := 10;
      } else if i == 21 {
        j := 11;
      } else if i == 22 {
        j := 12;
      } else if i == 23 {
        j := 13;
      } else {
        j := 14;
      }
    }

    /** Every goto is to one of the labels, and the code at a label ends with goto CONT. */
    method Zot()
      modifies this`j
      ensures j == Selected(i)
    {
      var jumpTable := [L20, L21, L22, L23];
      var target;
      if i < 20 {
        target := Default;
      } else if i > 23 {
        target := Default;
      } else {
        target := jumpTable[i - 20];
      }
      match target
      case L20 => j := 10;
      case L21 => j := 11;
      case L22 => j := 12;
      case L23 => j := 13;
      case Default => j := 14;
    }
  }

  const I_AT := 0x1000
  const J_AT := 0x1004
  const TABLE := 0x800
  const CONT := 0x12e

  predicate TestCode(mem: Memory) {
    && Long(mem, 0x100, 0x00, I_AT) && Short(mem, 0x106, 0x10, 0x00)
    && Long(mem, 0x108, 0x01, -19)  && Short(mem, 0x10e, 0x61, 0x01) && Short(mem, 0x110, 0xa1, 0x01)
    && Short(mem, 0x112, 0x80, 0x26)
    && Long(mem, 0x114, 0x01, -23)  && Short(mem, 0x11a, 0x61, 0x01) && Short(mem, 0x11c, 0xa1, 0x21)
    && Long(mem, 0x11e, 0x01, -20)  && Short(mem, 0x124, 0x61, 0x10)
    && Long(mem, 0x126, 0x01, TABLE) && Short(mem, 0x12c, 0xe1, 0x00)
    && Short(mem, CONT, 0xf0, 0x00)
  }

  /** ld $v, r1; br done, at address a */
  predicate CaseCode(mem: Memory, a: int, v: Word, d: int) {
    Long(mem, a, 0x01, v) && Short(mem, a + 6, 0x80, d)
  }

  predicate CasesCode(mem: Memory) {
    && CaseCode(mem, 0x140, 10, 0x10) && CaseCode(mem, 0x148, 11, 0x0c) && CaseCode(mem, 0x150, 12, 0x08)
    && CaseCode(mem, 0x158, 13, 0x04) && CaseCode(mem, 0x160, 14, 0x00)
    && Long(mem, 0x168, 0x00, J_AT) && Short(mem, 0x16e, 0x31, 0x00) && Long(mem, 0x170, 0xb0, CONT)
  }

  predicate TableWords(mem: Memory) {
    && InRange(mem, TABLE, 16)
    && Read(mem, TABLE) == 0x140 && Read(mem, TABLE + 4) == 0x148
    && Read(mem, TABLE + 8) == 0x150 && Read(mem, TABLE + 12) == 0x158
  }

  predicate Code(mem: Memory) {
    TestCode(mem) && CasesCode(mem) && TableWords(mem)
  }

  /** Both tests together let exactly 20 to 23 pass, wherever the differences wrap. */
  lemma RangeTest(i: Word)
    ensures Plus(i, -19) > 0 && !(Plus(i, -23) > 0) <==> 20 <= i <= 23
  {
    WrapOnce(i as int - 19);
    WrapOnce(i as int - 23);
  }

  /** m0 has got to m with i in r0 and memory unchanged. */
  ghost predicate Testing(m0: Machine, m: Machine, r0: Word) {
    Reaches(m0, m) && m.mem == m0.mem && m.reg[0] == r0
  }

  lemma LowerTest(m0: Machine) returns (m: Machine)
    requires TestCode(m0.mem) && m0.pc == 0x100 && InRange(m0.mem, I_AT, 4)
    ensures Testing(m0, m, Read(m0.mem, I_AT))
    ensures m.pc == if Plus(m.reg[0], -19) > 0 then 0x114 else 0x160
  {
    ReachesSelf(m0);
    m := LoadImmediate(m0, m0, I_AT, 0);
    m := LoadBase(m0, m, 0, 0, 0);
    m := LoadImmediate(m0, m, -19, 1);
    m := Add(m0, m, 0, 1);
    m := BranchIfPositive(m0, m, 1, 1);
    if m.pc == 0x112 {
      m := Branch(m0, m, 0x26);
    }
  }

  lemma UpperTest(m0: Machine, m: Machine, i: Word) returns (m': Machine)
    requires TestCode(m0.mem) && Testing(m0, m, i) && m.pc == 0x114
    ensures Testing(m0, m', i) && m'.pc == if Plus(i, -23) > 0 then 0x160 else 0x11e
  {
    m' := LoadImmediate(m0, m, -23, 1);
    m' := Add(m0, m', 0, 1);
    m' := BranchIfPositive(m0, m', 1, 0x21);
  }

  lemma TableEntry(mem: Memory, k: nat)
    requires TableWords(mem) && k < 4
    ensures var a := Slot(TABLE, k); InRange(mem, a, 4) && Aligned(a) && Read(mem, a) == 0x140 + 8 * k
  {
    assert k == 0 || k == 1 || k == 2 || k == 3;
    assert Slot(TABLE, k) == TABLE + 4 * k;
  }

  lemma Dispatch(m0: Machine, m: Machine, i: Word) returns (m': Machine)
    requires TestCode(m0.mem) && TableWords(m0.mem) && Testing(m0, m, i) && m.pc == 0x11e && 20 <= i <= 23
    ensures Testing(m0, m', i - 20) && m'.pc == 0x140 + 8 * (i - 20)
  {
    TableEntry(m0.mem, i - 20);
    m' := LoadImmediate(m0, m, -20, 1);
    m' := Add(m0, m', 1, 0);
    m' := LoadImmediate(m0, m', TABLE, 1);
    m' := JumpTable(m0, m', 1, 0);
  }

  lemma Case(m0: Machine, m: Machine, v: Word, d: int) returns (m': Machine)
    requires Reaches(m0, m) && CaseCode(m.mem, m.pc, v, d) && 0 <= d < 0x20 && m.pc as int + 8 + 2 * d == 0x168
    ensures Reaches(m0, m') && m'.mem == m.mem && m'.pc == 0x168 && m'.reg[1] == v
  {
    m' := LoadImmediate(m0, m, v, 1);
    m' := Branch(m0, m', d);
  }

  lemma Cases(m0: Machine, m: Machine, i: Word) returns (m': Machine)
    requires Reaches(m0, m) && CasesCode(m.mem)
    requires m.pc == if 20 <= i <= 23 then 0x140 + 8 * (i - 20) else 0x160
    ensures Reaches(m0, m') && m'.mem == m.mem && m'.pc == 0x168 && m'.reg[1] == Selected(i)
  {
    if i == 20 {
      m' := Case(m0, m, 10, 0x10);
    } else if i == 21 {
      m' := Case(m0, m, 11, 0x0c);
    } else if i == 22 {
      m' := Case(m0, m, 12, 0x08);
    } else if i == 23 {
      m' := Case(m0, m, 13, 0x04);
    } else {
      m' := Case(m0, m, 14, 0x00);
    }
  }

  /** The store into j leaves the code as it is. */
  lemma CodeStays(mem: Memory, w: Word)
    requires TestCode(mem) && CasesCode(mem) && InRange(mem, J_AT, 4)
    ensures Long(Write(mem, J_AT, w), 0x170, 0xb0, CONT) && Short(Write(mem, J_AT, w), CONT, 0xf0, 0x00)
  {
    WriteAgrees(mem, J_AT, w, 0x100, 0x178);
    CodeKept(mem, Write(mem, J_AT, w), 0x100, 0x178);
  }

  lemma Finish(m0: Machine, m: Machine) returns (h: Machine)
    requires Reaches(m0, m) && TestCode(m.mem) && CasesCode(m.mem) && m.pc == 0x168 && InRange(m.mem, J_AT, 4)
    ensures Halts(m0, h) && h.mem == Write(m.mem, J_AT, m.reg[1])
  {
    CodeStays(m.mem, m.reg[1]);
    var m1 := LoadImmediate(m0, m, J_AT, 0);
    m1 := StoreBase(m0, m1, 1, 0, 0);
    m1 := Jump(m0, m1, CONT);
    h := Halt(m0, m1);
  }

  /** For every i the program halts having stored in j what the C functions store, and having
      changed nothing else. */
  lemma AssemblyEqualsC(m0: Machine) returns (h: Machine)
    requires Code(m0.mem) && m0.pc == 0x100 && InRange(m0.mem, I_AT, 8)
    ensures Halts(m0, h) && h.mem == Write(m0.mem, J_AT, Selected(Read(m0.mem, I_AT)))
    ensures Read(h.mem, J_AT) == Selected(Read(m0.mem, I_AT))
  {
    var i := Read(m0.mem, I_AT);
    RangeTest(i);
    var m := LowerTest(m0);
    if m.pc == 0x114 {
      m := UpperTest(m0, m, i);
    }
    if m.pc == 0x11e {
      m := Dispatch(m0, m, i);
    }
    m := Cases(m0, m, i);
    h := Finish(m0, m);
    ReadBack(m0.mem, J_AT, Selected(i));
  }
}
