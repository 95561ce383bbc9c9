/** a5/A5-a.s: the maximum of an array whose length and address are in memory. */
module MaxLoop {
  import opened Sm213
  import opened Sm213Run

  const ADDRESS_AT := 0x1000
  const LENGTH_AT := 0x1004
  const RESULT_AT := 0x1008

  predicate SetupCode(mem: Memory) {
    && Long(mem, 0x00, 0x00, 0)     && Short(mem, 0x06, 0x67, 0x00)   && Long(mem, 0x08, 0x01, ADDRESS_AT)
    && Short(mem, 0x0e, 0x10, 0x11) && Long(mem, 0x10, 0x02, LENGTH_AT) && Short(mem, 0x16, 0x10, 0x22)
    && Short(mem, 0x18, 0x67, 0x02) && Short(mem, 0x1a, 0x63, 0x02)
  }

  predicate LoopCode(mem: Memory) {
    && Short(mem, 0x1c, 0x92, 0x0b) && Short(mem, 0x1e, 0x10, 0x13) && Short(mem, 0x20, 0x60, 0x04)
    && Short(mem, 0x22, 0x67, 0x04) && Short(mem, 0x24, 0x63, 0x04) && Short(mem, 0x26, 0x61, 0x34)
    && Short(mem, 0x28, 0xa4, 0x01) && Short(mem, 0x2a, 0x80, 0x01) && Short(mem, 0x2c, 0x60, 0x30)
    && Short(mem, 0x2e, 0x64, 0x01) && Short(mem, 0x30, 0x63, 0x02) && Short(mem, 0x32, 0x80, 0xf4)
  }

  predicate EndCode(mem: Memory) {
    Long(mem, 0x34, 0x01, RESULT_AT) && Short(mem, 0x3a, 0x30, 0x01) && Short(mem, 0x3c, 0xf0, 0x00)
  }

  predicate Code(mem: Memory) {
    SetupCode(mem) && LoopCode(mem) && EndCode(mem)
  }

  // ---------------------------------------------------------------- what is computed

  /** The comparison is by the sign of a difference that may wrap around. */
  function Keep(best: Word, x: Word): Word {
    if Minus(x, best) > 0 then x else best
  }

  function Best(xs: seq<Word>): Word {
    if xs == [] then -1 else Keep(Best(xs[..|xs| - 1]), xs[|xs| - 1])
  }

  predicate IsMaximum(xs: seq<Word>, v: Word) {
    (v == -1 || v in xs) && v >= -1 && forall x | x in xs :: x <= v
  }

  function Maximum(xs: seq<Word>): (v: Word)
    ensures IsMaximum(xs, v)
  {
    if xs == [] then -1
    else
      var v := Maximum(xs[..|xs| - 1]);
      assert forall x | x in xs :: x in xs[..|xs| - 1] || x == xs[|xs| - 1];
      if xs[|xs| - 1] > v then xs[|xs| - 1] else v
  }

  /** The difference of x and the maximum so far is a word. */
  predicate Comparable(xs: seq<Word>, k: int)
    requires 0 <= k < |xs|
  {
    MIN_WORD <= xs[k] as int - Maximum(xs[..k]) <= MAX_WORD
  }

  predicate BestAt(xs: seq<Word>, k: int)
    requires 0 <= k <= |xs|
  {
    Best(xs[..k]) == Maximum(xs[..k])
  }

  lemma KeepIsGreater(best: Word, x: Word)
    requires best >= -1
    ensures Keep(best, x) == (if x > best then x else best) <==> MIN_WORD <= x as int - best <= MAX_WORD
  {
    WrapOnce(x as int - best as int);
  }

  lemma BestStep(xs: seq<Word>, k: int)
    requires 0 <= k < |xs| && BestAt(xs, k)
    ensures BestAt(xs, k + 1) <==> Comparable(xs, k)
  {
    assert xs[..k + 1][..k] == xs[..k];
    KeepIsGreater(Maximum(xs[..k]), xs[k]);
  }

  predicate NeverOverflows(xs: seq<Word>) {
    forall k | 0 <= k < |xs| :: Comparable(xs, k)
  }

  /** The fold is right after every element if and only if no element is so far from the maximum
      before it that their difference overflows. */
  lemma {:induction false} FoldExactly(xs: seq<Word>, n: nat)
    requires n <= |xs|
    ensures (forall k | 0 <= k <= n :: BestAt(xs, k)) <==> (forall k | 0 <= k < n :: Comparable(xs, k))
  {
    if n == 0 {
    } else {
      FoldExactly(xs, n - 1);
      if BestAt(xs, n - 1) {
        BestStep(xs, n - 1);
      }
      assert forall k | 0 <= k < n - 1 :: Comparable(xs, k) || !Comparable(xs, k);
    }
  }

  lemma BestIsMaximum(xs: seq<Word>)
    requires NeverOverflows(xs)
    ensures Best(xs) == Maximum(xs)
  {
    FoldExactly(xs, |xs|);
    assert BestAt(xs, |xs|) && xs[..|xs|] == xs;
  }

  predicate Moderate(xs: seq<Word>) {
    forall x | x in xs :: -0x4000_0000 <= x <= 0x4000_0000
  }

  lemma ModerateNeverOverflows(xs: seq<Word>)
    requires Moderate(xs)
    ensures NeverOverflows(xs)
  {
    forall k | 0 <= k < |xs| ensures Comparable(xs, k) {
      assert xs[k] in xs;
      assert forall x | x in xs[..k] :: x in xs;
    }
  }

  // ---------------------------------------------------------------- what the program does

  /** The first k elements of the array at address p. */
  function Elements(mem: Memory, p: int, k: nat): (xs: seq<Word>)
    requires InRange(mem, p, 4 * k)
    ensures |xs| == k
  {
    seq(k, i requires 0 <= i < k => Read(mem, p + 4 * i))
  }

  lemma OneMore(mem: Memory, p: int, k: nat)
    requires InRange(mem, p, 4 * (k + 1))
    ensures Best(Elements(mem, p, k + 1)) == Keep(Best(Elements(mem, p, k)), Read(mem, p + 4 * k))
  {
    assert Elements(mem, p, k + 1)[..k] == Elements(mem, p, k);
  }

  predicate Loaded(m: Machine) {
    && |m.mem| >= 0x100c && Code(m.mem)
    && 0 <= Read(m.mem, LENGTH_AT)
    && InRange(m.mem, Read(m.mem, ADDRESS_AT), 4 * Read(m.mem, LENGTH_AT))
  }

  function Address(m: Machine): int
    requires Loaded(m)
  {
    Read(m.mem, ADDRESS_AT)
  }

  function Length(m: Machine): nat
    requires Loaded(m)
  {
    Read(m.mem, LENGTH_AT)
  }

  /** m0 has got to the head of the loop for the k-th time. */
  ghost predicate AtLoop(m0: Machine, m: Machine, k: nat)
    requires Loaded(m0)
  {
    && Reaches(m0, m) && m.mem == m0.mem && m.pc == 0x1c && k <= Length(m0)
    && m.reg[0] == Best(Elements(m0.mem, Address(m0), k))
    && m.reg[1] == Address(m0) + 4 * k && m.reg[2] == k - Length(m0)
  }

  lemma Setup(m0: Machine) returns (m: Machine)
    requires Loaded(m0) && m0.pc == 0
    ensures AtLoop(m0, m, 0)
  {
    ReachesSelf(m0);
    m := LoadImmediate(m0, m0, 0, 0);
    m := Not(m0, m, 0);
    m := LoadImmediate(m0, m, ADDRESS_AT, 1);
    m := LoadBase(m0, m, 0, 1, 1);
    m := LoadImmediate(m0, m, LENGTH_AT, 2);
    m := LoadBase(m0, m, 0, 2, 2);
    m := Not(m0, m, 2);
    m := Increment(m0, m, 2);
  }

  /** Up to the comparison with the maximum so far, which r4 holds. */
  lemma Compare(m0: Machine, m: Machine) returns (m': Machine)
    requires Reaches(m0, m) && Code(m.mem) && m.pc == 0x1c && m.reg[2] != 0 && InRange(m.mem, m.reg[1], 4)
    ensures Reaches(m0, m') && m'.mem == m.mem && m'.pc == 0x28
    ensures m'.reg[0] == m.reg[0] && m'.reg[1] == m.reg[1] && m'.reg[2] == m.reg[2]
    ensures m'.reg[3] == Read(m.mem, m.reg[1]) && m'.reg[4] == Minus(m'.reg[3], m.reg[0])
  {
    m' := BranchIfZero(m0, m, 2, 0xb);
    m' := LoadBase(m0, m', 0, 1, 3);
    m' := Move(m0, m', 0, 4);
    m' := Subtract(m0, m', 3, 4);
  }

  /** The new maximum is r3 if r4 is positive. */
  lemma Replace(m0: Machine, m: Machine) returns (m': Machine)
    requires Reaches(m0, m) && Code(m.mem) && m.pc == 0x28
    ensures Reaches(m0, m') && m'.mem == m.mem && m'.pc == 0x2e
    ensures m'.reg[0] == if m.reg[4] > 0 then m.reg[3] else m.reg[0]
    ensures m'.reg[1] == m.reg[1] && m'.reg[2] == m.reg[2]
  {
    m' := BranchIfPositive(m0, m, 4, 1);
    if m'.pc == 0x2c {
      m' := Move(m0, m', 3, 0);
    } else {
      m' := Branch(m0, m', 1);
    }
  }

  lemma Advance(m0: Machine, m: Machine) returns (m': Machine)
    requires Reaches(m0, m) && Code(m.mem) && m.pc == 0x2e
    ensures Reaches(m0, m') && m'.mem == m.mem && m'.pc == 0x1c
    ensures m'.reg[0] == m.reg[0] && m'.reg[1] == Plus(m.reg[1], 4) && m'.reg[2] == Plus(m.reg[2], 1)
  {
    m' := IncrementAddress(m0, m, 1);
    m' := Increment(m0, m', 2);
    m' := Branch(m0, m', -12);
  }

  lemma Turn(m0: Machine, m: Machine) returns (m': Machine)
    requires Reaches(m0, m) && Code(m.mem) && m.pc == 0x1c && m.reg[2] < 0 && InRange(m.mem, m.reg[1], 4)
    ensures Reaches(m0, m') && m'.mem == m.mem && m'.pc == 0x1c
    ensures m'.reg[0] == Keep(m.reg[0], Read(m.mem, m.reg[1]))
    ensures m'.reg[1] == Reg(m, 1) + 4 && m'.reg[2] == Reg(m, 2) + 1
  {
    m' := Compare(m0, m);
    m' := Replace(m0, m');
    m' := Advance(m0, m');
  }

  lemma Iteration(m0: Machine, m: Machine, k: nat) returns (m': Machine)
    requires Loaded(m0) && AtLoop(m0, m, k) && k < Length(m0)
    ensures AtLoop(m0, m', k + 1)
  {
    m' := Turn(m0, m);
    OneMore(m0.mem, Address(m0), k);
  }

  lemma {:induction false} Loop(m0: Machine, m: Machine, k: nat) returns (m': Machine)
    requires Loaded(m0) && AtLoop(m0, m, k)
    ensures AtLoop(m0, m', Length(m0))
    decreases Length(m0) - k
  {
    m' := m;
    if k < Length(m0) {
      m' := Iteration(m0, m, k);
      m' := Loop(m0, m', k + 1);
    }
  }

  /** For every length and content of the array, the program halts having stored Best of its
      elements and changed nothing else in memory. */
  lemma StoresBest(m0: Machine) returns (h: Machine)
    requires Loaded(m0) && m0.pc == 0
    ensures Halts(m0, h)
    ensures h.mem == Write(m0.mem, RESULT_AT, Best(Elements(m0.mem, Address(m0), Length(m0))))
  {
    var m := Setup(m0);
    m := Loop(m0, m, 0);
    m := BranchIfZero(m0, m, 2, 0xb);
    m := LoadImmediate(m0, m, RESULT_AT, 1);
    WriteAgrees(m.mem, RESULT_AT, m.reg[0], 0, RESULT_AT);
    CodeKept(m.mem, Write(m.mem, RESULT_AT, m.reg[0]), 0, RESULT_AT);
    m := StoreBase(m0, m, 0, 0, 1);
    h := Halt(m0, m);
  }

  /** Unless a difference overflows it stores the maximum of -1 and the elements, and nothing
      else in memory changes. */
  lemma StoresMaximum(m0: Machine, h: Machine)
    requires Loaded(m0) && m0.pc == 0 && Halts(m0, h)
    requires NeverOverflows(Elements(m0.mem, Address(m0), Length(m0)))
    ensures |h.mem| == |m0.mem| && IsMaximum(Elements(m0.mem, Address(m0), Length(m0)), Read(h.mem, RESULT_AT))
    ensures forall i | 0 <= i < |m0.mem| && (i < RESULT_AT || RESULT_AT + 4 <= i) :: h.mem[i] == m0.mem[i]
  {
    var h' := StoresBest(m0);
    HaltsOnce(m0, h, h');
    BestIsMaximum(Elements(m0.mem, Address(m0), Length(m0)));
    ReadBack(m0.mem, RESULT_AT, Best(Elements(m0.mem, Address(m0), Length(m0))));
  }

  /** No difference overflows among words within 2^30 of zero. */
  lemma StoresModerateMaximum(m0: Machine, h: Machine)
    requires Loaded(m0) && m0.pc == 0 && Halts(m0, h)
    requires Moderate(Elements(m0.mem, Address(m0), Length(m0)))
    ensures |h.mem| == |m0.mem| && IsMaximum(Elements(m0.mem, Address(m0), Length(m0)), Read(h.mem, RESULT_AT))
  {
    ModerateNeverOverflows(Elements(m0.mem, Address(m0), Length(m0)));
    StoresMaximum(m0, h);
  }

  // ---------------------------------------------------------------- exactly when

  /** Wherever the program halts from m0, v is its result; and it does halt. */
  ghost predicate Stores(m0: Machine, v: Word) {
    && (exists h :: Halts(m0, h))
    && forall h | Halts(m0, h) :: |h.mem| == |m0.mem| >= 0x100c && Read(h.mem, RESULT_AT) == v
  }

  lemma StoresOnlyBest(m0: Machine, v: Word)
    requires Loaded(m0) && m0.pc == 0
    ensures Stores(m0, v) <==> v == Best(Elements(m0.mem, Address(m0), Length(m0)))
  {
    var best := Best(Elements(m0.mem, Address(m0), Length(m0)));
    var h' := StoresBest(m0);
    ReadBack(m0.mem, RESULT_AT, best);
    forall h | Halts(m0, h) ensures h == h' {
      HaltsOnce(m0, h, h');
    }
  }

  /** The same program and array with a smaller length */
  function WithLength(m0: Machine, k: nat): Machine
    requires Loaded(m0) && k <= Length(m0)
  {
    m0.(mem := Write(m0.mem, LENGTH_AT, k))
  }

  /** The array is apart from the word that holds its length. */
  predicate LengthApart(m0: Machine)
    requires Loaded(m0)
  {
    Address(m0) + 4 * Length(m0) <= LENGTH_AT || LENGTH_AT + 4 <= Address(m0)
  }

  lemma ShorterLoaded(m0: Machine, k: nat)
    requires Loaded(m0) && k <= Length(m0)
    ensures Loaded(WithLength(m0, k)) && Address(WithLength(m0, k)) == Address(m0) && Length(WithLength(m0, k)) == k
  {
    var mem := Write(m0.mem, LENGTH_AT, k);
    WriteAgrees(m0.mem, LENGTH_AT, k, 0, LENGTH_AT);
    CodeKept(m0.mem, mem, 0, LENGTH_AT);
    ReadBack(m0.mem, LENGTH_AT, k);
  }

  lemma ShorterElements(m0: Machine, k: nat)
    requires Loaded(m0) && k <= Length(m0) && LengthApart(m0)
    ensures Elements(Write(m0.mem, LENGTH_AT, k), Address(m0), k) == Elements(m0.mem, Address(m0), Length(m0))[..k]
  {
    forall i | 0 <= i < k
      ensures Read(Write(m0.mem, LENGTH_AT, k), Address(m0) + 4 * i) == Read(m0.mem, Address(m0) + 4 * i)
    {
      ReadApart(m0.mem, LENGTH_AT, k, Address(m0) + 4 * i);
    }
  }

  lemma ShorterStores(m0: Machine, k: nat)
    requires Loaded(m0) && m0.pc == 0 && k <= Length(m0) && LengthApart(m0)
    ensures var xs := Elements(m0.mem, Address(m0), Length(m0));
            Stores(WithLength(m0, k), Maximum(xs[..k])) <==> BestAt(xs, k)
  {
    ShorterLoaded(m0, k);
    ShorterElements(m0, k);
    StoresOnlyBest(WithLength(m0, k), Maximum(Elements(m0.mem, Address(m0), Length(m0))[..k]));
  }

  /** For every length up to that of the array, the program stores the maximum of -1 and that
      many elements, if and only if no element is so far from the maximum before it that their
      difference overflows. */
  lemma ExactlyWhenComparable(m0: Machine)
    requires Loaded(m0) && m0.pc == 0 && LengthApart(m0)
    ensures var xs := Elements(m0.mem, Address(m0), Length(m0));
            (forall k | 0 <= k <= |xs| :: Stores(WithLength(m0, k), Maximum(xs[..k]))) <==> NeverOverflows(xs)
  {
    var xs := Elements(m0.mem, Address(m0), Length(m0));
    forall k | 0 <= k <= |xs| ensures Stores(WithLength(m0, k), Maximum(xs[..k])) <==> BestAt(xs, k) {
      ShorterStores(m0, k);
    }
    FoldExactly(xs, |xs|);
  }

  /** The largest word alone is not found, since it is 2^31 away from -1. */
  lemma LargestIsMissed(m0: Machine)
    requires Loaded(m0) && m0.pc == 0 && Elements(m0.mem, Address(m0), Length(m0)) == [MAX_WORD]
    ensures Stores(m0, -1) && Maximum([MAX_WORD]) == MAX_WORD
  {
    assert [MAX_WORD][..0] == [];
    assert Best([MAX_WORD]) == -1;
    StoresOnlyBest(m0, -1);
  }
}
