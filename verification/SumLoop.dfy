/** a4/S5-loop.s and a4/S5a-loop-unrolled.s: the sum of ten words, by a loop and by the same
    loop unrolled. */
module SumLoop {
  import opened Sm213
  import opened Sm213Run

  const SUM_AT := 0x1000
  const INDEX_AT := 0x1004
  const ARRAY := 0x1008

  /** The instructions that both programs begin with */
  predicate SetupCode(mem: Memory) {
    Long(mem, 0x100, 0x00, 0) && Long(mem, 0x106, 0x01, ARRAY) && Long(mem, 0x10c, 0x02, 0)
  }

  /** Load, add and count, at address a: the body of the loop and each unrolled block */
  predicate BodyCode(mem: Memory, a: int) {
    Short(mem, a, 0x21, 0x03) && Short(mem, a + 2, 0x61, 0x32) && Short(mem, a + 4, 0x63, 0x00)
  }

  predicate LoopCode(mem: Memory) {
    && SetupCode(mem) && Long(mem, 0x112, 0x04, -10)
    && Short(mem, 0x118, 0x60, 0x05) && Short(mem, 0x11a, 0x61, 0x45) && Short(mem, 0x11c, 0x95, 0x04)
    && BodyCode(mem, 0x11e) && Short(mem, 0x124, 0x80, 0xf9)
    && Long(mem, 0x126, 0x01, SUM_AT) && Short(mem, 0x12c, 0x32, 0x01) && Short(mem, 0x12e, 0x30, 0x11)
    && Short(mem, 0x130, 0xf0, 0x00)
  }

  predicate UnrolledCode(mem: Memory) {
    && SetupCode(mem)
    && (forall k | 0 <= k < 10 :: BodyCode(mem, 0x112 + 6 * k))
    && Long(mem, 0x14e, 0x00, SUM_AT) && Short(mem, 0x154, 0x32, 0x00) && Short(mem, 0x156, 0xf0, 0x00)
  }

  // ---------------------------------------------------------------- what is computed

  predicate HasArray(mem: Memory) {
    InRange(mem, ARRAY, 40)
  }

  function Element(mem: Memory, k: int): Word
    requires HasArray(mem) && 0 <= k < 10
  {
    Read(mem, ARRAY + 4 * k)
  }

  /** The sum of the first k elements, modulo 2^32 */
  function Sum(mem: Memory, k: nat): Word
    requires HasArray(mem) && k <= 10
  {
    if k == 0 then 0 else Plus(Element(mem, k - 1), Sum(mem, k - 1))
  }

  function ExactSum(mem: Memory, k: nat): int
    requires HasArray(mem) && k <= 10
  {
    if k == 0 then 0 else ExactSum(mem, k - 1) + Element(mem, k - 1)
  }

  lemma {:induction false} SumIsWrapped(mem: Memory, k: nat)
    requires HasArray(mem) && k <= 10
    ensures Sum(mem, k) == Wrap(ExactSum(mem, k))
  {
    if k == 0 {
    } else {
      SumIsWrapped(mem, k - 1);
      WrapWrap(ExactSum(mem, k - 1), Element(mem, k - 1) as int);
    }
  }

  // ---------------------------------------------------------------- both programs

  /** After k elements: what the loop and the unrolled blocks have in common */
  ghost predicate Progress(m0: Machine, m: Machine, k: int) {
    && Reaches(m0, m) && m.mem == m0.mem && HasArray(m0.mem) && 0 <= k <= 10
    && m.reg[0] == k && m.reg[1] == ARRAY && m.reg[2] == Sum(m0.mem, k)
  }

  lemma Setup(m0: Machine) returns (m: Machine)
    requires SetupCode(m0.mem) && HasArray(m0.mem) && m0.pc == 0x100
    ensures Progress(m0, m, 0) && m.pc == 0x112
  {
    ReachesSelf(m0);
    m := LoadImmediate(m0, m0, 0, 0);
    m := LoadImmediate(m0, m, ARRAY, 1);
    m := LoadImmediate(m0, m, 0, 2);
  }

  /** One iteration and one unrolled block do the same. */
  lemma Body(m0: Machine, m: Machine, k: int) returns (m': Machine)
    requires Progress(m0, m, k) && k < 10 && BodyCode(m.mem, m.pc) && m.pc < 0x1000
    ensures Progress(m0, m', k + 1) && m'.pc == m.pc + 6 && m'.reg[4] == m.reg[4]
  {
    m' := LoadIndexed(m0, m, 1, 0, 3);
    m' := Add(m0, m', 3, 2);
    m' := Increment(m0, m', 0);
  }

  // ---------------------------------------------------------------- the loop

  ghost predicate AtLoop(m0: Machine, m: Machine, k: int) {
    Progress(m0, m, k) && m.pc == 0x118 && m.reg[4] == -10
  }

  lemma Test(m0: Machine, m: Machine, k: int) returns (m': Machine)
    requires AtLoop(m0, m, k) && LoopCode(m.mem)
    ensures Progress(m0, m', k) && m'.reg[4] == -10 && m'.pc == if k == 10 then 0x126 else 0x11e
  {
    m' := Move(m0, m, 0, 5);
    m' := Add(m0, m', 4, 5);
    m' := BranchIfZero(m0, m', 5, 4);
  }

  lemma Iteration(m0: Machine, m: Machine, k: int) returns (m': Machine)
    requires AtLoop(m0, m, k) && LoopCode(m.mem) && k < 10
    ensures AtLoop(m0, m', k + 1)
  {
    m' := Test(m0, m, k);
    m' := Body(m0, m', k);
    m' := Branch(m0, m', -7);
  }

  lemma {:induction false} Loop(m0: Machine, m: Machine, k: int) returns (m': Machine)
    requires AtLoop(m0, m, k) && LoopCode(m0.mem)
    ensures AtLoop(m0, m', 10)
    decreases 10 - k
  {
    m' := m;
    if k < 10 {
      m' := Iteration(m0, m, k);
      m' := Loop(m0, m', k + 1);
    }
  }

  lemma StoreResults(m0: Machine, m: Machine) returns (h: Machine)
    requires Progress(m0, m, 10) && LoopCode(m.mem) && m.pc == 0x126
    ensures Halts(m0, h) && h.mem == Write(Write(m0.mem, SUM_AT, Sum(m0.mem, 10)), INDEX_AT, 10)
  {
    var m1 := LoadImmediate(m0, m, SUM_AT, 1);
    WriteAgrees(m.mem, SUM_AT, m.reg[2], 0x100, 0x132);
    CodeKept(m.mem, Write(m.mem, SUM_AT, m.reg[2]), 0x100, 0x132);
    m1 := StoreBase(m0, m1, 2, 0, 1);
    WriteAgrees(m1.mem, INDEX_AT, m1.reg[0], 0x100, 0x132);
    CodeKept(m1.mem, Write(m1.mem, INDEX_AT, m1.reg[0]), 0x100, 0x132);
    m1 := StoreBase(m0, m1, 0, 1, 1);
    h := Halt(m0, m1);
  }

  lemma LoopHalts(m0: Machine) returns (h: Machine)
    requires LoopCode(m0.mem) && HasArray(m0.mem) && m0.pc == 0x100
    ensures Halts(m0, h) && h.mem == Write(Write(m0.mem, SUM_AT, Sum(m0.mem, 10)), INDEX_AT, 10)
  {
    var m := Setup(m0);
    m := LoadImmediate(m0, m, -10, 4);
    m := Loop(m0, m, 0);
    m := Test(m0, m, 10);
    h := StoreResults(m0, m);
  }

  // ---------------------------------------------------------------- the unrolled program

  lemma {:induction false} Blocks(m0: Machine, m: Machine, k: int) returns (m': Machine)
    requires Progress(m0, m, k) && UnrolledCode(m0.mem) && m.pc == 0x112 + 6 * k
    ensures Progress(m0, m', 10) && m'.pc == 0x14e
    decreases 10 - k
  {
    m' := m;
    if k < 10 {
      m' := Body(m0, m, k);
      m' := Blocks(m0, m', k + 1);
    }
  }

  lemma UnrolledHalts(m0: Machine) returns (h: Machine)
    requires UnrolledCode(m0.mem) && HasArray(m0.mem) && m0.pc == 0x100
    ensures Halts(m0, h) && h.mem == Write(m0.mem, SUM_AT, Sum(m0.mem, 10))
  {
    var m := Setup(m0);
    m := Blocks(m0, m, 0);
    m := LoadImmediate(m0, m, SUM_AT, 0);
    WriteAgrees(m.mem, SUM_AT, m.reg[2], 0x14e, 0x158);
    CodeKept(m.mem, Write(m.mem, SUM_AT, m.reg[2]), 0x14e, 0x158);
    m := StoreBase(m0, m, 2, 0, 0);
    h := Halt(m0, m);
  }

  lemma {:induction false} SameSum(mem: Memory, mem': Memory, k: nat)
    requires HasArray(mem) && HasArray(mem') && k <= 10
    requires forall j | 0 <= j < 10 :: Element(mem, j) == Element(mem', j)
    ensures Sum(mem, k) == Sum(mem', k)
  {
    if k == 0 {
    } else {
      SameSum(mem, mem', k - 1);
    }
  }

  /** With the same ten elements both programs halt with the same sum at s. */
  lemma LoopAndUnrolledAgree(m: Machine, n: Machine) returns (h: Machine, g: Machine)
    requires LoopCode(m.mem) && HasArray(m.mem) && m.pc == 0x100
    requires UnrolledCode(n.mem) && HasArray(n.mem) && n.pc == 0x100
    requires forall j | 0 <= j < 10 :: Element(m.mem, j) == Element(n.mem, j)
    ensures Halts(m, h) && Halts(n, g) && |h.mem| == |m.mem| && |g.mem| == |n.mem|
    ensures Read(h.mem, SUM_AT) == Read(g.mem, SUM_AT) == Wrap(ExactSum(m.mem, 10))
  {
    h := LoopHalts(m);
    g := UnrolledHalts(n);
    ReadBack(m.mem, SUM_AT, Sum(m.mem, 10));
    ReadApart(Write(m.mem, SUM_AT, Sum(m.mem, 10)), INDEX_AT, 10, SUM_AT);
    ReadBack(n.mem, SUM_AT, Sum(n.mem, 10));
    SameSum(m.mem, n.mem, 10);
    SumIsWrapped(m.mem, 10);
  }
}
