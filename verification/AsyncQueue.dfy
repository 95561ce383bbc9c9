/** doAsync, interruptServiceRoutine and the handlers of a7/async.c on their global variables. */
module AsyncQueue {
  import opened Sm213
  import opened CompletionRing

  datatype Handler = Add | Sub

  /** What a handler computes */
  function Computed(h: Handler, arg0: Word, arg1: Word): Word {
    match h
    case Add => Plus(arg0, arg1)
    case Sub => Minus(arg0, arg1)
  }

  class Triple {
    var result: Word
    var arg0: Word
    var arg1: Word
    var locked: bool
  }

  datatype Comp = Comp(handler: Handler, buf: Triple?, siz: int)

  class Completions {
    var comp: array<Comp>
    var compHead: nat
    var compTail: nat

    ghost predicate Valid()
      reads this
    {
      comp.Length == SLOTS && compHead < SLOTS && compTail < SLOTS
    }

    ghost function State(): (r: Ring<Comp>)
      requires Valid()
      reads this, comp
      ensures IsRing(r)
    {
      Ring(comp[..], compHead, compTail)
    }

    constructor ()
      ensures Valid() && fresh(comp) && Outstanding(State()) == []
    {
      comp := new Comp[SLOTS](i => Comp(Add, null, 0));
      compHead, compTail := 0, 0;
    }

    method DoAsync(handler: Handler, buf: Triple, siz: int)
      requires Valid()
      modifies this, comp
      ensures Valid() && comp == old(comp)
      ensures State() == Submit(old(State()), Comp(handler, buf, siz))
    {
      compHead := (compHead + 1) % SLOTS;
      comp[compHead] := Comp(handler, buf, siz);
    }

    /** The triple of the oldest outstanding entry */
    ghost function Due(): set<Triple>
      requires Valid()
      reads this, comp
    {
      var q := Outstanding(State());
      if q != [] && q[0].buf != null then {q[0].buf} else {}
    }

    /** Runs the handler of the oldest outstanding entry on its triple, if there is one, and
        changes nothing else. */
    method InterruptServiceRoutine()
      requires Valid()
      requires forall c | c in Outstanding(State()) :: c.buf != null
      modifies this`compTail, Due()
      ensures Valid() && State() == Interrupt(old(State()))
      ensures old(Outstanding(State())) == [] ==> State() == old(State())
      ensures old(Outstanding(State())) != [] ==>
                var q := old(Outstanding(State()));
                var c := q[0];
                && Outstanding(State()) == q[1..]
                && c.buf.result == Computed(c.handler, old(c.buf.arg0), old(c.buf.arg1)) && !c.buf.locked
                && c.buf.arg0 == old(c.buf.arg0) && c.buf.arg1 == old(c.buf.arg1)
    {
      InterruptTakesFirst(State());
      if compHead != compTail {
        assert Outstanding(State())[0] in Outstanding(State());
        compTail := (compTail + 1) % SLOTS;
        var c := comp[compTail];
        match c.handler
        case Add => AddHandler(c.buf, c.siz);
        case Sub => SubHandler(c.buf, c.siz);
      }
    }
  }

  method AddHandler(xp: Triple, n: int)
    modifies xp`result, xp`locked
    ensures xp.result == Computed(Add, xp.arg0, xp.arg1) && !xp.locked
  {
    xp.result := Plus(xp.arg0, xp.arg1);
    xp.locked := false;
  }

  method SubHandler(xp: Triple, n: int)
    modifies xp`result, xp`locked
    ensures xp.result == Computed(Sub, xp.arg0, xp.arg1) && !xp.locked
  {
    xp.result := Minus(xp.arg0, xp.arg1);
    xp.locked := false;
  }
}
